/** The customer edit page (CustomerUpdate.jsx): the fetched record with its
    dates cut to the day, the editable fields, the choice between a new pad
    drawing and the stored signature or photo, the proportional resize to
    300x100 before the PUT, and the camera hand-over. The server, the image
    decoder and the canvas encoder are parameters. */
module CustomerUpdate {
  import opened Common
  import opened Imaging

  /** The record the page edits and sends back. */
  datatype CustomerDetails = CustomerDetails(
    name: string, email: string, phone: string, cpf: string,
    purchaseDate: string, returnDate: string, observation: string, signature: string)

  const BlankDetails := CustomerDetails("", "", "", "", "", "", "", "")

  /** The record as the server sends it; dates may be absent. */
  datatype StoredCustomer = StoredCustomer(
    name: string, email: string, phone: string, cpf: string,
    purchaseDate: Option<string>, returnDate: Option<string>, observation: string, signature: string)

  // Dates

  /** `s.split("T")[0]`: the text before the first 'T', all of `s` if it
      has none. */
  function BeforeFirstT(s: string): (r: string)
    ensures |r| <= |s| && r == s[..|r|]
    ensures forall i :: 0 <= i < |r| ==> r[i] != 'T'
    ensures r == s || s[|r|] == 'T'
  {
    if s == [] || s[0] == 'T' then []
    else [s[0]] + BeforeFirstT(s[1..])
  }

  /** A string without 'T' is its own first piece. */
  lemma {:induction false} BeforeFirstTOfPlain(s: string)
    requires forall i :: 0 <= i < |s| ==> s[i] != 'T'
    ensures BeforeFirstT(s) == s
  {
    if s != [] {
      BeforeFirstTOfPlain(s[1..]);
    }
  }

  /** Cutting a date twice is cutting it once, and a day keeps its text. */
  lemma BeforeFirstTIdempotent(s: string)
    ensures BeforeFirstT(BeforeFirstT(s)) == BeforeFirstT(s)
  {
    BeforeFirstTOfPlain(BeforeFirstT(s));
  }

  /** An ISO timestamp is cut to its day. */
  lemma BeforeFirstTOfTimestamp(day: string, time: string)
    requires forall i :: 0 <= i < |day| ==> day[i] != 'T'
    ensures BeforeFirstT(day + "T" + time) == day
  {
    var s := day + "T" + time;
    var r := BeforeFirstT(s);
    assert s[..|day|] == day && s[|day|] == 'T';
  }

  /** `value ? value.split("T")[0] : ""`. */
  function DateOnly(value: Option<string>): (r: string)
    ensures value.None? ==> r == ""
    ensures value.Some? ==> r == BeforeFirstT(value.value)
    ensures forall i :: 0 <= i < |r| ==> r[i] != 'T'
  {
    if value.Some? && value.value != "" then BeforeFirstT(value.value) else ""
  }

  /** The record that the fetch stores: the server's fields, with both
      dates cut to the day. */
  function Normalized(data: StoredCustomer): (r: CustomerDetails)
    ensures r.purchaseDate == DateOnly(data.purchaseDate) && r.returnDate == DateOnly(data.returnDate)
    ensures r.name == data.name && r.email == data.email && r.phone == data.phone && r.cpf == data.cpf
    ensures r.observation == data.observation && r.signature == data.signature
  {
    CustomerDetails(data.name, data.email, data.phone, data.cpf,
      DateOnly(data.purchaseDate), DateOnly(data.returnDate), data.observation, data.signature)
  }

  // resizeImage

  /** The bounds with which handleSubmit calls resizeImage (also its defaults). */
  const ResizeMaxWidth := 300
  const ResizeMaxHeight := 100

  /** The factor resizeImage scales both sides by: the largest factor of at
      most one under which both sides fit their bounds. */
  function FitScale(source: Dims, maxWidth: nat, maxHeight: nat): (s: real)
    ensures 0.0 <= s <= 1.0
  {
    var byWidth := if source.width > maxWidth then maxWidth as real / source.width as real else 1.0;
    var byHeight := if source.height > maxHeight then maxHeight as real / source.height as real else 1.0;
    if byWidth <= byHeight then byWidth else byHeight
  }

  /** Both sides fit once scaled, and unless nothing is scaled one of them
      meets its bound exactly. */
  lemma FitScaleFits(source: Dims, maxWidth: nat, maxHeight: nat)
    ensures var s := FitScale(source, maxWidth, maxHeight);
      && source.width as real * s <= maxWidth as real
      && source.height as real * s <= maxHeight as real
      && (s == 1.0 || source.width as real * s == maxWidth as real || source.height as real * s == maxHeight as real)
  {
    var s := FitScale(source, maxWidth, maxHeight);
    SideFits(source.width as real, maxWidth as real, s);
    SideFits(source.height as real, maxHeight as real, s);
  }

  /** A side scaled by at most its own bound's factor fits, and meets the
      bound when scaled by exactly that factor. */
  lemma SideFits(side: real, bound: real, s: real)
    requires side >= 0.0 && bound >= 0.0 && 0.0 <= s <= 1.0
    requires s <= if side > bound then bound / side else 1.0
    ensures side * s <= bound
    ensures side > bound && s == bound / side ==> side * s == bound
  {
    if side > bound {
      DivMul(bound, side);
      QuotientOrder(s, bound, side);
    } else {
      ScaleMonotone(side, s, 1.0);
    }
  }

  lemma DivMul(a: real, b: real)
    requires b > 0.0
    ensures b * (a / b) == a
  {
  }

  lemma QuotientOrder(x: real, a: real, b: real)
    requires b > 0.0
    ensures b * x <= a <==> x <= a / b
  {
  }

  lemma QuotientBelowOne(a: real, b: real)
    requires 0.0 <= a < b
    ensures 0.0 <= a / b < 1.0
  {
  }

  /** No larger factor fits: FitScale is the largest admissible scale. */
  lemma FitScaleIsLargest(source: Dims, maxWidth: nat, maxHeight: nat, t: real)
    requires 0.0 <= t <= 1.0
    requires source.width as real * t <= maxWidth as real
    requires source.height as real * t <= maxHeight as real
    ensures t <= FitScale(source, maxWidth, maxHeight)
  {
    var s := FitScale(source, maxWidth, maxHeight);
    FitScaleFits(source, maxWidth, maxHeight);
    if s < t {
      ScaleMonotone(source.width as real, s, t);
      ScaleMonotone(source.height as real, s, t);
    }
  }

  lemma ScaleMonotone(side: real, s: real, t: real)
    requires side >= 0.0 && s <= t
    ensures side * s <= side * t
  {
  }

  /** A source within both bounds is not scaled. */
  lemma FitScaleWithinBounds(source: Dims, maxWidth: nat, maxHeight: nat)
    requires source.width <= maxWidth && source.height <= maxHeight
    ensures FitScale(source, maxWidth, maxHeight) == 1.0
  {
    FitScaleIsLargest(source, maxWidth, maxHeight, 1.0);
  }

  /** resizeImage's arithmetic: scale to the width bound when too wide, then
      to the height bound when still too high. The result is the source
      scaled by FitScale, so the aspect ratio is kept exactly and both
      bounds hold (unlike compressToWebP, which bounds only one side). */
  method ResizeImage(source: Dims, maxWidth: nat, maxHeight: nat) returns (width: real, height: real)
    ensures width == source.width as real * FitScale(source, maxWidth, maxHeight)
    ensures height == source.height as real * FitScale(source, maxWidth, maxHeight)
  {
    width, height := source.width as real, source.height as real;
    if width > maxWidth as real {
      height := (maxWidth as real / width) * height;
      width := maxWidth as real;
    }
    ghost var w1, h1 := width, height;
    if height > maxHeight as real {
      width := (maxHeight as real / height) * width;
      height := maxHeight as real;
    }
    ResizeSteps(source, maxWidth, maxHeight, w1, h1, width, height);
  }

  /** The two guarded steps of resizeImage, written out, scale by FitScale. */
  lemma ResizeSteps(source: Dims, maxWidth: nat, maxHeight: nat, w1: real, h1: real, w2: real, h2: real)
    requires var w0, h0 := source.width as real, source.height as real;
      && w1 == (if source.width > maxWidth then maxWidth as real else w0)
      && h1 == (if source.width > maxWidth then (maxWidth as real / w0) * h0 else h0)
      && w2 == (if h1 > maxHeight as real then (maxHeight as real / h1) * w1 else w1)
      && h2 == (if h1 > maxHeight as real then maxHeight as real else h1)
    ensures w2 == source.width as real * FitScale(source, maxWidth, maxHeight)
    ensures h2 == source.height as real * FitScale(source, maxWidth, maxHeight)
  {
    if source.width > maxWidth {
      if h1 > maxHeight as real {
        BothSteps(source, maxWidth, maxHeight);
      } else {
        WidthStepOnly(source, maxWidth, maxHeight);
      }
    } else if source.height > maxHeight {
      HeightStepOnly(source, maxWidth, maxHeight);
    } else {
      FitScaleWithinBounds(source, maxWidth, maxHeight);
    }
  }

  /** Not too wide but too high: one step, to the height bound. */
  lemma HeightStepOnly(source: Dims, maxWidth: nat, maxHeight: nat)
    requires source.width <= maxWidth && source.height > maxHeight
    ensures var s := FitScale(source, maxWidth, maxHeight);
      && (maxHeight as real / source.height as real) * source.width as real == source.width as real * s
      && maxHeight as real == source.height as real * s
  {
    ScaleByHeight(source, maxWidth, maxHeight);
    DivMul(maxHeight as real, source.height as real);
  }

  /** Too wide, and the scaled height fits: one step, to the width bound. */
  lemma WidthStepOnly(source: Dims, maxWidth: nat, maxHeight: nat)
    requires source.width > maxWidth
    requires (maxWidth as real / source.width as real) * source.height as real <= maxHeight as real
    ensures var s := FitScale(source, maxWidth, maxHeight);
      && maxWidth as real == source.width as real * s
      && (maxWidth as real / source.width as real) * source.height as real == source.height as real * s
  {
    ScaleByWidth(source, maxWidth, maxHeight);
    DivMul(maxWidth as real, source.width as real);
  }

  /** Too wide, and still too high once scaled: both steps, and the result
      is the source scaled to the height bound. */
  lemma BothSteps(source: Dims, maxWidth: nat, maxHeight: nat)
    requires source.width > maxWidth
    requires (maxWidth as real / source.width as real) * source.height as real > maxHeight as real
    ensures var s := FitScale(source, maxWidth, maxHeight);
      var h1 := (maxWidth as real / source.width as real) * source.height as real;
      && (maxHeight as real / h1) * maxWidth as real == source.width as real * s
      && maxHeight as real == source.height as real * s
  {
    var w0, h0, mw, mh := source.width as real, source.height as real, maxWidth as real, maxHeight as real;
    var s1 := mw / w0;
    QuotientBelowOne(mw, w0);
    DivMul(mw, w0);
    ScaleMonotone(h0, s1, 1.0);
    ScaleByHeight(source, maxWidth, maxHeight);
    Cancel(mh, h0, w0, s1);
    DivMul(mh, h0);
  }

  /** Too wide, and the height fits once scaled to the width bound: the
      width's factor is the one used. */
  lemma ScaleByWidth(source: Dims, maxWidth: nat, maxHeight: nat)
    requires source.width > maxWidth
    requires (maxWidth as real / source.width as real) * source.height as real <= maxHeight as real
    ensures FitScale(source, maxWidth, maxHeight) == maxWidth as real / source.width as real
  {
    if source.height > maxHeight {
      QuotientOrder(maxWidth as real / source.width as real, maxHeight as real, source.height as real);
    }
  }

  /** Too high, and either not too wide or still too high once scaled to
      the width bound: the height's factor is the one used. */
  lemma ScaleByHeight(source: Dims, maxWidth: nat, maxHeight: nat)
    requires source.height > maxHeight
    requires source.width > maxWidth ==>
      (maxWidth as real / source.width as real) * source.height as real > maxHeight as real
    ensures FitScale(source, maxWidth, maxHeight) == maxHeight as real / source.height as real
  {
    QuotientBelowOne(maxHeight as real, source.height as real);
    if source.width > maxWidth {
      QuotientOrder(maxWidth as real / source.width as real, maxHeight as real, source.height as real);
    }
  }

  /** Scaling by k and then by a over the scaled side is scaling by a over
      the original side. */
  lemma Cancel(a: real, b: real, c: real, k: real)
    requires k > 0.0 && b > 0.0
    ensures (a / (k * b)) * (c * k) == c * (a / b)
  {
  }

  /** `n` is the integer part of the non-negative real `x`. */
  predicate IntegerPartOf(n: nat, x: real) {
    n as real <= x < n as real + 1.0
  }

  /** The width resizeImage computes, as an exact real: the source width
      scaled by the fit factor. */
  function ScaledWidth(source: Dims, maxWidth: nat, maxHeight: nat): (w: real)
    ensures 0.0 <= w <= maxWidth as real && w <= source.width as real
    ensures w == source.width as real * FitScale(source, maxWidth, maxHeight)
  {
    FitScaleFits(source, maxWidth, maxHeight);
    FitScaleShrinks(source, maxWidth, maxHeight);
    source.width as real * FitScale(source, maxWidth, maxHeight)
  }

  /** The height resizeImage computes, as an exact real. */
  function ScaledHeight(source: Dims, maxWidth: nat, maxHeight: nat): (h: real)
    ensures 0.0 <= h <= maxHeight as real && h <= source.height as real
    ensures h == source.height as real * FitScale(source, maxWidth, maxHeight)
  {
    FitScaleFits(source, maxWidth, maxHeight);
    FitScaleShrinks(source, maxWidth, maxHeight);
    source.height as real * FitScale(source, maxWidth, maxHeight)
  }

  /** The canvas that resizeImage draws on: canvas.width and canvas.height
      keep the integer part of the exact scaled sides. */
  function ResizedCanvas(source: Dims, maxWidth: nat, maxHeight: nat): (d: Dims)
    ensures d.width <= maxWidth && d.height <= maxHeight
    ensures d.width <= source.width && d.height <= source.height
    ensures IntegerPartOf(d.width, ScaledWidth(source, maxWidth, maxHeight))
    ensures IntegerPartOf(d.height, ScaledHeight(source, maxWidth, maxHeight))
  {
    Dims(ScaledSide(ScaledWidth(source, maxWidth, maxHeight), maxWidth, source.width),
         ScaledSide(ScaledHeight(source, maxWidth, maxHeight), maxHeight, source.height))
  }

  /** Scaling by the fit factor never makes a side negative or larger. */
  lemma FitScaleShrinks(source: Dims, maxWidth: nat, maxHeight: nat)
    ensures var s := FitScale(source, maxWidth, maxHeight);
      && 0.0 <= source.width as real * s <= source.width as real
      && 0.0 <= source.height as real * s <= source.height as real
  {
    var s := FitScale(source, maxWidth, maxHeight);
    ScaleMonotone(source.width as real, 0.0, s);
    ScaleMonotone(source.width as real, s, 1.0);
    ScaleMonotone(source.height as real, 0.0, s);
    ScaleMonotone(source.height as real, s, 1.0);
  }

  /** The integer part of a scaled side `x` that fits its bound and does not
      exceed the source side: within both. */
  function ScaledSide(x: real, bound: nat, side: nat): (n: nat)
    requires 0.0 <= x <= bound as real && x <= side as real
    ensures n <= bound && n <= side
    ensures IntegerPartOf(n, x)
  {
    FloorBelow(x, bound, side);
    x.Floor
  }

  lemma FloorBelow(x: real, bound: nat, side: nat)
    requires 0.0 <= x <= bound as real && x <= side as real
    ensures 0 <= x.Floor <= bound && x.Floor <= side
    ensures IntegerPartOf(x.Floor, x)
  {
  }

  /** `img.width` and `img.height` of a decoded data URL. */
  type ImageSize = string -> Dims

  /** `canvas.toDataURL("image/png")` after drawing the image onto a canvas
      of the given size. */
  type PngEncoder = (Picture, Dims) -> string

  /** What resizeImage(image, 300, 100) resolves to. */
  function Resized(image: string, sizeOf: ImageSize, toPng: PngEncoder): (r: string)
    ensures var canvas := ResizedCanvas(sizeOf(image), ResizeMaxWidth, ResizeMaxHeight);
      && canvas.width <= ResizeMaxWidth && canvas.height <= ResizeMaxHeight
      && r == toPng(Picture(image, sizeOf(image)), canvas)
  {
    toPng(Picture(image, sizeOf(image)), ResizedCanvas(sizeOf(image), ResizeMaxWidth, ResizeMaxHeight))
  }

  // The page

  /** The inputs the user can edit; name and CPF are read-only. */
  datatype EditableField = Email | Phone | PurchaseDate | ReturnDate | Observation

  /** `{ ...customer, [name]: value }` for an editable field. */
  function WithEdit(c: CustomerDetails, field: EditableField, value: string): (r: CustomerDetails)
    ensures r.name == c.name && r.cpf == c.cpf && r.signature == c.signature
    ensures field == Email ==> r == c.(email := value)
    ensures field == Phone ==> r == c.(phone := value)
    ensures field == PurchaseDate ==> r == c.(purchaseDate := value)
    ensures field == ReturnDate ==> r == c.(returnDate := value)
    ensures field == Observation ==> r == c.(observation := value)
  {
    match field
    case Email => c.(email := value)
    case Phone => c.(phone := value)
    case PurchaseDate => c.(purchaseDate := value)
    case ReturnDate => c.(returnDate := value)
    case Observation => c.(observation := value)
  }

  const SignatureRequiredMessage := "A assinatura ou foto é obrigatória."
  const UpdateFailedPrefix := "Erro ao atualizar cliente: "

  /** The image handleSubmit starts from: a drawing on the pad wins over the
      stored signature or photo. */
  function ChosenImage(pad: Option<string>, stored: string): (r: string)
    ensures pad.Some? ==> r == pad.value
    ensures pad.None? ==> r == stored
  {
    if pad.Some? then pad.value else stored
  }

  /** The state of the edit page. */
  class UpdateForm {
    var customer: CustomerDetails
    var errorMessage: string
    /** The pad's drawing, as toDataURL exports it; None while it is empty. */
    var pad: Option<string>
    /** Set once the update succeeded and the page navigated to the list. */
    var navigated: bool

    constructor ()
      ensures customer == BlankDetails && errorMessage == "" && pad == None && !navigated
    {
      customer := BlankDetails;
      errorMessage := "";
      pad := None;
      navigated := false;
    }

    /** fetchCustomer: a response replaces the record (dates cut to the
        day); a failed request changes nothing. */
    method Load(response: Option<StoredCustomer>)
      modifies this
      ensures response.Some? ==> customer == Normalized(response.value)
      ensures response.None? ==> customer == old(customer)
      ensures errorMessage == old(errorMessage) && pad == old(pad) && navigated == old(navigated)
    {
      if response.Some? {
        customer := Normalized(response.value);
      }
    }

    /** handleChange. */
    method HandleChange(field: EditableField, value: string)
      modifies this
      ensures customer == WithEdit(old(customer), field, value)
      ensures errorMessage == old(errorMessage) && pad == old(pad) && navigated == old(navigated)
    {
      customer := WithEdit(customer, field, value);
    }

    /** Drawing on the signature pad: only the pad's content changes. */
    method Draw(image: string)
      modifies this
      ensures pad == Some(image)
      ensures customer == old(customer) && errorMessage == old(errorMessage) && navigated == old(navigated)
    {
      pad := Some(image);
    }

    /** The clear button: only the pad is wiped; a stored image stays. */
    method ClearPad()
      modifies this
      ensures pad == None
      ensures customer == old(customer) && errorMessage == old(errorMessage) && navigated == old(navigated)
    {
      pad := None;
    }

    /** handleCameraCapture: the photo becomes the signature and the pad is
        wiped. */
    method HandleCameraCapture(image: string)
      modifies this
      ensures customer == old(customer).(signature := image) && pad == None
      ensures errorMessage == old(errorMessage) && navigated == old(navigated)
    {
      customer := customer.(signature := image);
      pad := None;
    }

    /** handleSubmit. `put` answers None on success and the error's message
        on failure; `sent` is the PUT body, None when nothing was sent. */
    method HandleSubmit(sizeOf: ImageSize, toPng: PngEncoder, put: CustomerDetails -> Option<string>)
      returns (sent: Option<CustomerDetails>)
      modifies this
      ensures var chosen := ChosenImage(old(pad), old(customer).signature);
        && (sent.None? <==> chosen == "" && old(customer).signature == "")
        && (sent.Some? ==> sent.value == old(customer).(signature := if chosen != "" then Resized(chosen, sizeOf, toPng) else ""))
      ensures sent.None? ==> errorMessage == SignatureRequiredMessage && navigated == old(navigated)
      ensures sent.Some? && put(sent.value).None? ==> navigated && errorMessage == old(errorMessage)
      ensures sent.Some? && put(sent.value).Some? ==>
        errorMessage == UpdateFailedPrefix + put(sent.value).value && navigated == old(navigated)
      ensures customer == old(customer) && pad == old(pad)
    {
      var signatureImage := customer.signature;
      if pad.Some? {
        signatureImage := pad.value;
      }
      if signatureImage != "" {
        var source := sizeOf(signatureImage);
        var width, height := ResizeImage(source, ResizeMaxWidth, ResizeMaxHeight);
        assert width.Floor == ResizedCanvas(source, ResizeMaxWidth, ResizeMaxHeight).width;
        assert height.Floor == ResizedCanvas(source, ResizeMaxWidth, ResizeMaxHeight).height;
        signatureImage := toPng(Picture(signatureImage, source), Dims(width.Floor, height.Floor));
      } else if customer.signature == "" {
        errorMessage := SignatureRequiredMessage;
        return None;
      }
      var body := customer.(signature := signatureImage);
      sent := Some(body);
      match put(body) {
        case None =>
          navigated := true;
        case Some(message) =>
          errorMessage := UpdateFailedPrefix + message;
      }
    }
  }

  /** A photo taken after the page loaded is what the PUT carries (resized):
      the camera hand-over wipes the pad, so the drawing cannot win. */
  method SubmitAfterCapture(stored: StoredCustomer, image: string, sizeOf: ImageSize, toPng: PngEncoder, put: CustomerDetails -> Option<string>)
    returns (sent: Option<CustomerDetails>)
    ensures image != "" ==> sent == Some(Normalized(stored).(signature := Resized(image, sizeOf, toPng)))
    ensures image == "" ==> sent == None
  {
    var page := new UpdateForm();
    page.Load(Some(stored));
    page.HandleCameraCapture(image);
    sent := page.HandleSubmit(sizeOf, toPng, put);
  }

  /** A drawing made after the page loaded wins over the stored image: it is
      what the PUT carries, resized. The pad exports a data URL, never empty. */
  method SubmitAfterDrawing(stored: StoredCustomer, image: string, sizeOf: ImageSize, toPng: PngEncoder, put: CustomerDetails -> Option<string>)
    returns (sent: Option<CustomerDetails>)
    requires StartsWith(image, "data:")
    ensures sent == Some(Normalized(stored).(signature := Resized(image, sizeOf, toPng)))
  {
    var page := new UpdateForm();
    page.Load(Some(stored));
    page.Draw(image);
    sent := page.HandleSubmit(sizeOf, toPng, put);
  }
}
