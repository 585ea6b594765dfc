/** The CPF input mask of the customer form (CustomerManagement.jsx,
    handleChange): the typed value is stripped to its digits and then passed
    through four non-global regular-expression replaces. Each replace is
    modelled on any string, by the leftmost match its pattern has, so that the
    closed form `Grouped` is a theorem about the chain rather than its
    definition. */
module CpfMask {
  import opened Common

  /** A CPF has eleven digits. */
  const CpfDigits := 11

  /** The input's maxLength: eleven digits and three separators. */
  const MaxLength := 14

  predicate DigitRun(s: string, k: nat)
    requires k + 4 <= |s|
  {
    IsDigit(s[k]) && IsDigit(s[k + 1]) && IsDigit(s[k + 2]) && IsDigit(s[k + 3])
  }

  /** Leftmost position at or after `i` where `/(\d{3})(\d)/` (and equally
      `/(\d{3})(\d{1,2})/`) matches: four digits in a row. */
  function FourDigitsAt(s: string, i: nat): (r: Option<nat>)
    ensures r.Some? ==>
      && i <= r.value && r.value + 4 <= |s| && DigitRun(s, r.value)
      && forall k :: i <= k < r.value ==> !DigitRun(s, k)
    ensures r.None? ==> forall k :: i <= k && k + 4 <= |s| ==> !DigitRun(s, k)
    decreases |s| - i
  {
    if i + 4 > |s| then None
    else if DigitRun(s, i) then Some(i)
    else FourDigitsAt(s, i + 1)
  }

  /** `.replace(/(\d{3})(\d)/, "$1.$2")`: a dot between the first three
      digits of the leftmost match and its fourth. */
  function GroupDot(s: string): (r: string)
    ensures FourDigitsAt(s, 0).None? ==> r == s
    ensures FourDigitsAt(s, 0).Some? ==> var i := FourDigitsAt(s, 0).value;
      |r| == |s| + 1 && r[..i + 3] == s[..i + 3] && r[i + 3] == '.' && r[i + 4..] == s[i + 3..]
  {
    match FourDigitsAt(s, 0)
    case None => s
    case Some(i) =>
      assert s[..i] + s[i..i + 3] == s[..i + 3];
      assert s[i + 3..i + 4] + s[i + 4..] == s[i + 3..];
      s[..i] + s[i..i + 3] + "." + s[i + 3..i + 4] + s[i + 4..]
  }

  /** `.replace(/(\d{3})(\d{1,2})/, "$1-$2")`: the second group takes a
      fifth digit when there is one (the quantifier is greedy). */
  function GroupDash(s: string): (r: string)
    ensures FourDigitsAt(s, 0).None? ==> r == s
    ensures FourDigitsAt(s, 0).Some? ==> var i := FourDigitsAt(s, 0).value;
      |r| == |s| + 1 && r[..i + 3] == s[..i + 3] && r[i + 3] == '-' && r[i + 4..] == s[i + 3..]
  {
    match FourDigitsAt(s, 0)
    case None => s
    case Some(i) =>
      var e := if i + 5 <= |s| && IsDigit(s[i + 4]) then i + 5 else i + 4;
      assert s[..i] + s[i..i + 3] == s[..i + 3];
      assert s[i + 3..e] + s[e..] == s[i + 3..];
      s[..i] + s[i..i + 3] + "-" + s[i + 3..e] + s[e..]
  }

  /** `/(-\d{2})\d+?$/` matches at `k`: a dash, then at least three
      characters, all of them digits up to the end of the string. */
  predicate DashMatch(s: string, k: nat) {
    k + 3 < |s| && s[k] == '-' && AllDigits(s[k + 1..])
  }

  /** Leftmost position at or after `i` where `/(-\d{2})\d+?$/` matches: a
      dash followed by two digits and at least one more, all digits up to the
      end of the string (the lazy `\d+?` still has to reach `$`). */
  function DashTail(s: string, i: nat): (r: Option<nat>)
    ensures r.Some? ==> i <= r.value && r.value + 3 < |s| && s[r.value] == '-'
    ensures r.Some? ==> DashMatch(s, r.value) && forall k :: i <= k < r.value ==> !DashMatch(s, k)
    ensures r.None? ==> forall k :: i <= k ==> !DashMatch(s, k)
    decreases |s| - i
  {
    if i + 3 >= |s| then None
    else if DashMatch(s, i) then Some(i)
    else DashTail(s, i + 1)
  }

  /** `.replace(/(-\d{2})\d+?$/, "$1")`: drop every digit after the two that
      follow the dash. */
  function TrimTail(s: string): (r: string)
    ensures DashTail(s, 0).None? ==> r == s
    ensures DashTail(s, 0).Some? ==> |r| < |s| && r == s[..DashTail(s, 0).value + 3]
  {
    match DashTail(s, 0)
    case None => s
    case Some(k) => s[..k] + s[k..k + 3]
  }

  /** The masked value that handleChange stores for the cpf field. */
  function Format(value: string): string {
    TrimTail(GroupDash(GroupDot(GroupDot(OnlyDigits(value)))))
  }

  /** The first eleven digits. */
  function Truncated(d: string): (e: string)
    ensures |e| == (if |d| <= CpfDigits then |d| else CpfDigits)
    ensures e == d[..|e|]
  {
    if |d| <= CpfDigits then d else d[..CpfDigits]
  }

  /** The intended layout ddd.ddd.ddd-dd of at most eleven digits, with each
      separator present only once a digit follows it. */
  function Grouped(e: string): string
    requires |e| <= CpfDigits
  {
    if |e| <= 3 then e
    else if |e| <= 6 then e[..3] + "." + e[3..]
    else if |e| <= 9 then e[..3] + "." + e[3..6] + "." + e[6..]
    else e[..3] + "." + e[3..6] + "." + e[6..9] + "-" + e[9..]
  }

  /** A string without a dash is not trimmed. */
  lemma NoDashNoTrim(s: string)
    requires forall k :: 0 <= k < |s| ==> s[k] != '-'
    ensures TrimTail(s) == s
  {
  }

  /** The intermediate strings of the chain on a string of digits. */
  function OneDot(d: string): string
    requires |d| >= 3
  {
    d[..3] + "." + d[3..]
  }

  function TwoDots(d: string): string
    requires |d| >= 6
  {
    d[..3] + "." + d[3..6] + "." + d[6..]
  }

  function DotsAndDash(d: string): string
    requires |d| >= 9
  {
    d[..3] + "." + d[3..6] + "." + d[6..9] + "-" + d[9..]
  }

  /** First replace: four or more digits get a dot after the third. */
  lemma FirstDot(d: string)
    requires AllDigits(d)
    ensures GroupDot(d) == if |d| < 4 then d else OneDot(d)
  {
    if |d| >= 4 {
      assert DigitRun(d, 0);
      DotAt(d, 0);
    }
  }

  /** A match at i puts the dot after index i + 2. */
  lemma DotAt(s: string, i: nat)
    requires FourDigitsAt(s, 0) == Some(i)
    ensures GroupDot(s) == s[..i + 3] + "." + s[i + 3..]
  {
    assert s[..i] + s[i..i + 3] == s[..i + 3];
    assert s[i + 3..i + 4] + s[i + 4..] == s[i + 3..];
  }

  /** A non-digit at p blocks every four-character window over it. */
  lemma SeparatorBlocks(s: string, p: nat)
    requires p < |s| && !IsDigit(s[p])
    ensures forall k: nat :: p <= k + 3 && k <= p && k + 4 <= |s| ==> !DigitRun(s, k)
  {
  }

  /** Second replace: the dot at index 3 blocks every window before index 4;
      from seven digits on the window at 4 matches. */
  lemma SecondDot(d: string)
    requires AllDigits(d) && |d| >= 4
    ensures GroupDot(OneDot(d)) == if |d| < 7 then OneDot(d) else TwoDots(d)
  {
    var s1 := OneDot(d);
    assert s1[3] == '.';
    SeparatorBlocks(s1, 3);
    if |d| >= 7 {
      SecondDotMatches(d);
    }
  }

  lemma SecondDotMatches(d: string)
    requires AllDigits(d) && |d| >= 7
    ensures FourDigitsAt(OneDot(d), 4) == Some(4)
    ensures var s1 := OneDot(d); s1[..4] + s1[4..7] + "." + s1[7..8] + s1[8..] == TwoDots(d)
  {
    var s1 := OneDot(d);
    assert s1[4..] == d[3..];
    assert DigitRun(s1, 4);
    assert s1[..4] + s1[4..7] == d[..3] + "." + d[3..6];
    assert s1[7..8] + s1[8..] == d[6..];
  }

  /** Third replace before seven digits: no four-digit window remains. */
  lemma NoDashOneDot(d: string)
    requires AllDigits(d) && 4 <= |d| < 7
    ensures GroupDash(OneDot(d)) == OneDot(d)
  {
    var s1 := OneDot(d);
    assert s1[3] == '.';
    SeparatorBlocks(s1, 3);
  }

  /** Third replace from seven digits: the window at 8 matches once there are
      ten digits, and the dash goes after the ninth. */
  lemma DashAfterNinth(d: string)
    requires AllDigits(d) && |d| >= 7
    ensures GroupDash(TwoDots(d)) == if |d| < 10 then TwoDots(d) else DotsAndDash(d)
  {
    var s2 := TwoDots(d);
    assert s2[3] == '.' && s2[7] == '.';
    SeparatorBlocks(s2, 3);
    SeparatorBlocks(s2, 7);
    if |d| >= 10 {
      assert s2[8..] == d[6..];
      assert DigitRun(s2, 8);
      var e := if 8 + 5 <= |s2| && IsDigit(s2[8 + 4]) then 8 + 5 else 8 + 4;
      assert s2[..8] + s2[8..11] == d[..3] + "." + d[3..6] + "." + d[6..9];
      assert s2[11..] == s2[8..][3..] == d[6..][3..] == d[9..];
      assert s2[11..e] + s2[e..] == s2[11..];
    }
  }

  /** Fourth replace: digits beyond the eleventh are dropped. */
  lemma TrimAfterEleventh(d: string)
    requires AllDigits(d) && |d| >= 10
    ensures TrimTail(DotsAndDash(d)) == Grouped(Truncated(d))
  {
    var s3 := DotsAndDash(d);
    assert s3[11] == '-';
    assert forall k :: 0 <= k < 11 ==> s3[k] != '-';
    if |d| < 12 {
      assert DashTail(s3, 11) == None;
    } else {
      assert s3[12..] == d[9..];
      assert DashTail(s3, 11) == Some(11);
      var e := d[..CpfDigits];
      assert e[..3] == d[..3] && e[3..6] == d[3..6] && e[6..9] == d[6..9] && e[9..] == d[9..11];
      assert s3[..11] == e[..3] + "." + e[3..6] + "." + e[6..9];
      assert s3[11..14] == "-" + e[9..];
      assert s3[..11] + s3[11..14] == Grouped(e);
    }
  }

  /** The chain on a string of digits. */
  lemma FormatOfDigits(d: string)
    requires AllDigits(d)
    ensures TrimTail(GroupDash(GroupDot(GroupDot(d)))) == Grouped(Truncated(d))
  {
    if |d| < 4 {
      ChainUpToThree(d);
    } else if |d| < 7 {
      ChainUpToSix(d);
    } else if |d| < 10 {
      ChainUpToNine(d);
    } else {
      ChainFromTen(d);
    }
  }

  lemma ChainUpToThree(d: string)
    requires AllDigits(d) && |d| < 4
    ensures TrimTail(GroupDash(GroupDot(GroupDot(d)))) == d
  {
    FirstDot(d);
    assert FourDigitsAt(d, 0) == None;
    NoDashNoTrim(d);
  }

  lemma ChainUpToSix(d: string)
    requires AllDigits(d) && 4 <= |d| < 7
    ensures TrimTail(GroupDash(GroupDot(GroupDot(d)))) == OneDot(d)
  {
    FirstDot(d);
    SecondDot(d);
    NoDashOneDot(d);
    assert OneDot(d)[3] == '.';
    NoDashNoTrim(OneDot(d));
  }

  lemma ChainUpToNine(d: string)
    requires AllDigits(d) && 7 <= |d| < 10
    ensures TrimTail(GroupDash(GroupDot(GroupDot(d)))) == TwoDots(d)
  {
    FirstDot(d);
    SecondDot(d);
    DashAfterNinth(d);
    NoDashNoTrim(TwoDots(d));
  }

  lemma ChainFromTen(d: string)
    requires AllDigits(d) && |d| >= 10
    ensures TrimTail(GroupDash(GroupDot(GroupDot(d)))) == Grouped(Truncated(d))
  {
    FirstDot(d);
    SecondDot(d);
    DashAfterNinth(d);
    TrimAfterEleventh(d);
  }

  /** The mask, in closed form: the first eleven digits of the value laid out
      as ddd.ddd.ddd-dd. */
  lemma FormatIsGrouped(value: string)
    ensures Format(value) == Grouped(Truncated(OnlyDigits(value)))
  {
    FormatOfDigits(OnlyDigits(value));
  }

  /** Stripping removes a separator between two strings. */
  lemma OnlyDigitsAround(a: string, sep: char, b: string)
    requires !IsDigit(sep)
    ensures OnlyDigits(a + [sep] + b) == OnlyDigits(a) + OnlyDigits(b)
  {
    OnlyDigitsAppend(a + [sep], b);
    OnlyDigitsAppend(a, [sep]);
    OnlyDigitsOfSeparators([sep]);
  }

  /** The layout adds only separators: its digits are the input's. */
  lemma GroupedDigits(e: string)
    requires |e| <= CpfDigits && AllDigits(e)
    ensures OnlyDigits(Grouped(e)) == e
    ensures |Grouped(e)| <= MaxLength
  {
    OnlyDigitsOfDigits(e);
    if |e| > 3 {
      OnlyDigitsOfDigits(e[..3]);
      if |e| <= 6 {
        OnlyDigitsOfDigits(e[3..]);
        OnlyDigitsAround(e[..3], '.', e[3..]);
        assert e[..3] + e[3..] == e;
      } else {
        OnlyDigitsOfDigits(e[3..6]);
        OnlyDigitsAround(e[..3], '.', e[3..6]);
        if |e| <= 9 {
          OnlyDigitsOfDigits(e[6..]);
          OnlyDigitsAround(e[..3] + "." + e[3..6], '.', e[6..]);
          assert e[..3] + e[3..6] + e[6..] == e;
        } else {
          OnlyDigitsOfDigits(e[6..9]);
          OnlyDigitsOfDigits(e[9..]);
          OnlyDigitsAround(e[..3] + "." + e[3..6], '.', e[6..9]);
          OnlyDigitsAround(e[..3] + "." + e[3..6] + "." + e[6..9], '-', e[9..]);
          assert e[..3] + e[3..6] + e[6..9] + e[9..] == e;
        }
      }
    }
  }

  /** The masked value keeps exactly the first min(n, 11) typed digits, in
      order, and is never longer than the input's maxLength of 14. */
  lemma FormatKeepsDigits(value: string)
    ensures OnlyDigits(Format(value)) == Truncated(OnlyDigits(value))
    ensures |Format(value)| <= MaxLength
  {
    FormatIsGrouped(value);
    var d := OnlyDigits(value);
    assert AllDigits(Truncated(d));
    GroupedDigits(Truncated(d));
  }

  /** The separators of the layout. */
  lemma GroupedSeparators(e: string)
    requires |e| <= CpfDigits
    ensures var r := Grouped(e);
      && (|e| < 4 ==> r == e)
      && (|e| >= 4 ==> |r| > 4 && r[..3] == e[..3] && r[3] == '.')
      && (|e| >= 7 ==> |r| > 8 && r[4..7] == e[3..6] && r[7] == '.')
      && (|e| >= 10 ==> |r| > 12 && r[8..11] == e[6..9] && r[11] == '-')
  {
    var r := Grouped(e);
    if |e| >= 4 {
      assert r[..3] == e[..3];
    }
    if |e| >= 7 {
      assert r[4..7] == e[3..6];
    }
    if |e| >= 10 {
      assert r[8..11] == e[6..9];
    }
  }

  lemma SeparatorsOfTruncated(d: string, r: string)
    requires r == Grouped(Truncated(d))
    ensures (|d| < 4 ==> r == d)
    ensures (|d| >= 4 ==> |r| > 4 && r[..3] == d[..3] && r[3] == '.')
    ensures (|d| >= 7 ==> |r| > 8 && r[4..7] == d[3..6] && r[7] == '.')
    ensures (|d| >= 10 ==> |r| > 12 && r[8..11] == d[6..9] && r[11] == '-')
  {
    var e := Truncated(d);
    GroupedSeparators(e);
    if |d| >= 4 {
      assert e[..3] == d[..3];
    }
    if |d| >= 7 {
      assert e[3..6] == d[3..6];
    }
    if |d| >= 10 {
      assert e[6..9] == d[6..9];
    }
  }

  /** Where the separators go: fewer than four digits stay bare; a dot
      follows the third digit from four digits on, another the sixth from
      seven on, and a dash the ninth from ten on. */
  lemma FormatSeparators(value: string)
    ensures var d, r := OnlyDigits(value), Format(value);
      && (|d| < 4 ==> r == d)
      && (|d| >= 4 ==> |r| > 4 && r[..3] == d[..3] && r[3] == '.')
      && (|d| >= 7 ==> |r| > 8 && r[4..7] == d[3..6] && r[7] == '.')
      && (|d| >= 10 ==> |r| > 12 && r[8..11] == d[6..9] && r[11] == '-')
  {
    var d := OnlyDigits(value);
    var e := Truncated(d);
    FormatIsGrouped(value);
    GroupedSeparators(e);
    SeparatorsOfTruncated(d, Format(value));
  }

  /** Masking the masked value changes nothing, so the field is stable under
      further change events. */
  lemma FormatIdempotent(value: string)
    ensures Format(Format(value)) == Format(value)
  {
    FormatKeepsDigits(value);
    FormatIsGrouped(Format(value));
    FormatIsGrouped(value);
    assert Truncated(Truncated(OnlyDigits(value))) == Truncated(OnlyDigits(value));
  }
}
