/** The customer list (CustomerList.jsx): the search and purchase-date
    filter, the return status, the per-customer visibility toggles and the
    count badges. Dates are timestamps, None when absent or unparsable; the
    end-of-day adjustment and today's date are parameters. */
module CustomerList {
  import opened Common

  /** The fields of a listed customer that the page computes with. */
  datatype ListedCustomer = ListedCustomer(
    id: string, name: string, cpf: string, purchaseDate: Option<int>, returnDate: Option<int>)

  /** The filter inputs: the search text and the two date fields, None while empty. */
  datatype Query = Query(term: string, start: Option<int>, end: Option<int>)

  /** `setHours(23, 59, 59, 999)` applied to a date. */
  type EndOfDay = int -> int

  // Filtering

  /** The search: the term, lower-cased, occurs somewhere in the
      lower-cased name, or the term as typed occurs somewhere in the CPF. */
  function MatchesSearch(c: ListedCustomer, term: string): (r: bool)
    ensures r <==>
      (exists k: nat :: WindowAt(Lower(c.name), Lower(term), k)) || (exists k: nat :: WindowAt(c.cpf, term, k))
  {
    IncludesIff(Lower(c.name), Lower(term));
    IncludesIff(c.cpf, term);
    Includes(Lower(c.name), Lower(term)) || Includes(c.cpf, term)
  }

  /** The date test, built as the page does: true, then narrowed by the
      start bound if set and by the end-of-day bound if set. A comparison
      with an invalid date is false. */
  function MatchesDate(purchase: Option<int>, start: Option<int>, end: Option<int>, endOfDay: EndOfDay): (r: bool)
    ensures r <==>
      && (start.Some? ==> purchase.Some? && purchase.value >= start.value)
      && (end.Some? ==> purchase.Some? && purchase.value <= endOfDay(end.value))
  {
    var afterStart := if start.Some? then purchase.Some? && purchase.value >= start.value else true;
    var matchesDate := afterStart;
    if end.Some? then matchesDate && purchase.Some? && purchase.value <= endOfDay(end.value)
    else matchesDate
  }

  /** Both bounds are inclusive: a purchase on the start day or on the end
      day is kept, as long as the end of a day is not before the day. */
  lemma DateBoundsInclusive(day: int, endOfDay: EndOfDay)
    requires endOfDay(day) >= day
    ensures MatchesDate(Some(day), Some(day), Some(day), endOfDay)
  {
  }

  /** A customer without a usable purchase date fails any set bound, and
      passes when no bound is set. */
  lemma MissingPurchaseDate(start: Option<int>, end: Option<int>, endOfDay: EndOfDay)
    ensures MatchesDate(None, start, end, endOfDay) <==> start.None? && end.None?
  {
  }

  /** The filter callback. */
  predicate Keeps(c: ListedCustomer, q: Query, endOfDay: EndOfDay) {
    MatchesSearch(c, q.term) && MatchesDate(c.purchaseDate, q.start, q.end, endOfDay)
  }

  /** `a` is `b` with some elements removed, the rest in their order. */
  predicate Subsequence<T(==)>(a: seq<T>, b: seq<T>)
    decreases |b|
  {
    if a == [] then true
    else if b == [] then false
    else (a[0] == b[0] && Subsequence(a[1..], b[1..])) || Subsequence(a, b[1..])
  }

  /** `customers.filter(...)`: exactly the customers the callback keeps. */
  function Filter(customers: seq<ListedCustomer>, q: Query, endOfDay: EndOfDay): (r: seq<ListedCustomer>)
    ensures |r| <= |customers|
    ensures forall c :: c in r <==> c in customers && Keeps(c, q, endOfDay)
    ensures forall c {:trigger multiset(r)[c], multiset(customers)[c]} ::
      multiset(r)[c] == if Keeps(c, q, endOfDay) then multiset(customers)[c] else 0
  {
    if customers == [] then []
    else
      var rest := Filter(customers[1..], q, endOfDay);
      assert customers == [customers[0]] + customers[1..];
      if Keeps(customers[0], q, endOfDay) then [customers[0]] + rest else rest
  }

  /** The filtered list keeps the order of the full list. */
  lemma {:induction false} FilterIsSubsequence(customers: seq<ListedCustomer>, q: Query, endOfDay: EndOfDay)
    ensures Subsequence(Filter(customers, q, endOfDay), customers)
  {
    if customers != [] {
      FilterIsSubsequence(customers[1..], q, endOfDay);
      var rest := Filter(customers[1..], q, endOfDay);
      if !Keeps(customers[0], q, endOfDay) {
        SubsequenceOfTail(rest, customers);
      }
    }
  }

  lemma SubsequenceOfTail<T>(a: seq<T>, b: seq<T>)
    requires b != [] && Subsequence(a, b[1..])
    ensures Subsequence(a, b)
  {
  }

  /** With an empty search and no dates, nobody is filtered out. */
  lemma {:induction false} EmptyQueryKeepsAll(customers: seq<ListedCustomer>, endOfDay: EndOfDay)
    ensures Filter(customers, Query("", None, None), endOfDay) == customers
  {
    if customers != [] {
      IncludesEmpty(Lower(customers[0].name));
      assert Lower("") == "";
      EmptyQueryKeepsAll(customers[1..], endOfDay);
    }
  }

  /** The name is searched without regard to case, on either side: names
      and terms that lower-case alike find each other alike. The CPF is not
      lower-cased. */
  lemma SearchIgnoresNameCase(c: ListedCustomer, name: string, term: string, other: string)
    requires Lower(name) == Lower(c.name) && Lower(other) == Lower(term)
    requires !Includes(c.cpf, term) && !Includes(c.cpf, other)
    ensures MatchesSearch(c, term) <==> MatchesSearch(c.(name := name), other)
  {
    IncludesIff(c.cpf, term);
    IncludesIff(c.cpf, other);
  }

  // Status

  datatype Status = Active | Pending

  /** The label of getCustomerStatus; the two labels tell the statuses apart. */
  function StatusLabel(s: Status): (r: string)
    ensures r == "Pendente" <==> s == Pending
    ensures r == "Ativo" <==> s == Active
  {
    match s
    case Active => "Ativo"
    case Pending => "Pendente"
  }

  /** getCustomerStatus: pending exactly when a return date is set and has
      passed (or is now); active otherwise, including without a return date. */
  function CustomerStatus(returnDate: Option<int>, today: int): (s: Status)
    ensures s == Pending <==> returnDate.Some? && returnDate.value <= today
    ensures returnDate.None? ==> s == Active
  {
    if returnDate.Some? && returnDate.value > today then Active
    else if returnDate.Some? && returnDate.value <= today then Pending
    else Active
  }

  /** A customer becomes pending once and stays pending as days go by. */
  lemma StatusMonotone(returnDate: Option<int>, today: int, later: int)
    requires today <= later && CustomerStatus(returnDate, today) == Pending
    ensures CustomerStatus(returnDate, later) == Pending
  {
  }

  /** The status column reads "Pendente" exactly when a return date is set
      and has come. */
  lemma PendingLabel(returnDate: Option<int>, today: int)
    ensures StatusLabel(CustomerStatus(returnDate, today)) == "Pendente" <==>
      returnDate.Some? && returnDate.value <= today
  {
  }

  // Visibility maps

  /** Whether an entry is shown: `!!prevState[id]`, absent entries hidden. */
  function Visible(m: map<string, bool>, id: string): bool {
    id in m && m[id]
  }

  /** The reduce over the fetched customers: every id mapped to false. */
  function InitialVisibility(customers: seq<ListedCustomer>): (m: map<string, bool>)
    ensures forall c :: c in customers ==> c.id in m
    ensures forall id :: id in m ==> !m[id] && exists c :: c in customers && c.id == id
  {
    if customers == [] then map[]
    else
      var last := customers[|customers| - 1];
      var m := InitialVisibility(customers[..|customers| - 1]);
      assert forall c :: c in customers ==> c == last || c in customers[..|customers| - 1];
      m[last.id := false]
  }

  /** `{ ...prevState, [id]: !prevState[id] }`. */
  function Toggled(m: map<string, bool>, id: string): (r: map<string, bool>)
    ensures id in r && r[id] == !Visible(m, id)
    ensures forall k :: k != id ==> (k in r <==> k in m)
    ensures forall k :: k != id && k in m ==> r[k] == m[k]
  {
    m[id := !Visible(m, id)]
  }

  /** Toggling twice shows and hides exactly what it did before, and gives
      back the very map when the entry was defined. */
  lemma ToggleTwice(m: map<string, bool>, id: string)
    ensures forall k :: Visible(Toggled(Toggled(m, id), id), k) == Visible(m, k)
    ensures id in m ==> Toggled(Toggled(m, id), id) == m
  {
  }

  // Count badges

  /** The badges above the list: the count when something was found, and
      the total when the filter hid something. */
  datatype Badges = Badges(count: bool, total: bool)

  function CountBadges(filtered: nat, total: nat): (b: Badges)
    ensures b.count <==> filtered > 0
    ensures b.total <==> filtered > 0 && filtered != total
  {
    Badges(filtered > 0, filtered > 0 && filtered != total)
  }

  /** Over a real filter result the total badge means some customer was
      hidden, and none is never shown with an empty result. */
  lemma TotalBadgeMeansHidden(customers: seq<ListedCustomer>, q: Query, endOfDay: EndOfDay)
    ensures var r := Filter(customers, q, endOfDay);
      CountBadges(|r|, |customers|).total ==> 0 < |r| < |customers|
  {
  }

  // The page

  const LoadFailedMessage := "Erro ao carregar a lista de clientes."

  /** The state of the list page. */
  class ListView {
    var customers: seq<ListedCustomer>
    var query: Query
    var showPassword: map<string, bool>
    var showHistory: map<string, bool>
    var errorMessage: string
    var loading: bool

    constructor ()
      ensures customers == [] && query == Query("", None, None)
      ensures showPassword == map[] && showHistory == map[]
      ensures errorMessage == "" && loading
    {
      customers := [];
      query := Query("", None, None);
      showPassword, showHistory := map[], map[];
      errorMessage := "";
      loading := true;
    }

    /** fetchCustomers: a response replaces the list and hides every
        password; a failure sets the error. Loading ends either way. */
    method Load(response: Option<seq<ListedCustomer>>)
      modifies this
      ensures !loading
      ensures response.Some? ==>
        customers == response.value && showPassword == InitialVisibility(response.value) && errorMessage == old(errorMessage)
      ensures response.None? ==>
        customers == old(customers) && showPassword == old(showPassword) && errorMessage == LoadFailedMessage
      ensures query == old(query) && showHistory == old(showHistory)
    {
      loading := true;
      if response.Some? {
        showPassword := InitialVisibility(response.value);
        customers := response.value;
      } else {
        errorMessage := LoadFailedMessage;
      }
      loading := false;
    }

    /** The three filter inputs' change handlers. */
    method SetQuery(q: Query)
      modifies this
      ensures query == q
      ensures customers == old(customers) && showPassword == old(showPassword) && showHistory == old(showHistory)
      ensures errorMessage == old(errorMessage) && loading == old(loading)
    {
      query := q;
    }

    /** toggleShowPassword. */
    method ToggleShowPassword(id: string)
      modifies this
      ensures showPassword == Toggled(old(showPassword), id)
      ensures customers == old(customers) && query == old(query) && showHistory == old(showHistory)
      ensures errorMessage == old(errorMessage) && loading == old(loading)
    {
      showPassword := showPassword[id := !(id in showPassword && showPassword[id])];
    }

    /** toggleShowHistory. */
    method ToggleShowHistory(id: string)
      modifies this
      ensures showHistory == Toggled(old(showHistory), id)
      ensures customers == old(customers) && query == old(query) && showPassword == old(showPassword)
      ensures errorMessage == old(errorMessage) && loading == old(loading)
    {
      showHistory := showHistory[id := !(id in showHistory && showHistory[id])];
    }

    /** filteredCustomers. */
    function Filtered(endOfDay: EndOfDay): (r: seq<ListedCustomer>)
      reads this
      ensures forall c :: c in r <==> c in customers && Keeps(c, query, endOfDay)
      ensures forall c {:trigger multiset(r)[c], multiset(customers)[c]} ::
        multiset(r)[c] == if Keeps(c, query, endOfDay) then multiset(customers)[c] else 0
    {
      Filter(customers, query, endOfDay)
    }
  }
}
