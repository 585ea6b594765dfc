/** The customer creation form (CustomerManagement.jsx): the CPF field mask,
    the signature compression compressToWebP, the bounded recompression of
    addCustomer against a payload limit, and the form's state. The canvas
    encoder, the serialized length of a record, the CPF checksum library and
    the server's answer are parameters. */
module CustomerManagement {
  import opened Common
  import opened Imaging
  import CpfMask

  /** The record of the form and of the POST body. */
  datatype CustomerRecord = CustomerRecord(
    name: string, email: string, phone: string, cpf: string,
    purchaseDate: string, delivery: bool, returnDate: string,
    password: string, observation: string, signature: string)

  const EmptyCustomer := CustomerRecord("", "", "", "", "", false, "", "", "", "")

  /** The form's inputs, by their name attribute. */
  datatype Field = Name | Email | Phone | Cpf | PurchaseDate | ReturnDate | Password | Observation

  function FieldValue(c: CustomerRecord, field: Field): string {
    match field
    case Name => c.name
    case Email => c.email
    case Phone => c.phone
    case Cpf => c.cpf
    case PurchaseDate => c.purchaseDate
    case ReturnDate => c.returnDate
    case Password => c.password
    case Observation => c.observation
  }

  /** `{ ...c, [name]: value }`: only the named field changes. */
  function WithField(c: CustomerRecord, field: Field, value: string): (r: CustomerRecord)
    ensures FieldValue(r, field) == value
    ensures forall g :: g != field ==> FieldValue(r, g) == FieldValue(c, g)
    ensures r.delivery == c.delivery && r.signature == c.signature
  {
    match field
    case Name => c.(name := value)
    case Email => c.(email := value)
    case Phone => c.(phone := value)
    case Cpf => c.(cpf := value)
    case PurchaseDate => c.(purchaseDate := value)
    case ReturnDate => c.(returnDate := value)
    case Password => c.(password := value)
    case Observation => c.(observation := value)
  }

  // compressToWebP

  const MinWidth := 80
  const MinHeight := 60

  /** A first encoding longer than this gets one retry at lower quality. */
  const RetryThreshold := 6000

  /** The size floor applied after the proportional fit. */
  function WithFloor(d: Dims): (r: Dims)
    ensures r.width >= MinWidth && r.height >= MinHeight
    ensures d.width >= MinWidth && d.height >= MinHeight ==> r == d
    ensures r.width == (if d.width < MinWidth then MinWidth else d.width)
    ensures r.height == (if d.height < MinHeight then MinHeight else d.height)
  {
    Dims(Max(MinWidth, d.width), Max(MinHeight, d.height))
  }

  /** `Math.max(0.1, quality - 0.15)` in hundredths. */
  function LowerQuality(q: Quality): (r: Quality)
    ensures r >= 10 && r >= q - 15
    ensures r == 10 || r == q - 15
  {
    Max(10, q - 15)
  }

  /** The retry's encoding: WebP at the lower quality, JPEG only when the
      WebP answer is exactly the empty PNG data URL. */
  function RetryEncoding(encode: Encoder, source: Picture, size: Dims, quality: Quality): (r: string)
    ensures r == encode(source, size, Webp, quality) || r == encode(source, size, Jpeg, quality)
    ensures encode(source, size, Webp, quality) != EmptyPng ==> r == encode(source, size, Webp, quality)
    ensures encode(source, size, Webp, quality) == EmptyPng ==> r == encode(source, size, Jpeg, quality)
  {
    var webp := encode(source, size, Webp, quality);
    if webp != EmptyPng then webp else encode(source, size, Jpeg, quality)
  }

  /** What the promise of compressToWebP resolves to. */
  function Compressed(source: Picture, quality: Quality, maxWidth: nat, maxHeight: nat, encode: Encoder): (p: Picture)
    ensures p.size.width >= MinWidth && p.size.height >= MinHeight
    ensures p.size == WithFloor(FitWithin(source.size, maxWidth, maxHeight))
    ensures var first := PreferredEncoding(encode, source, p.size, quality);
      && (|first| <= RetryThreshold ==> p.data == first)
      && |p.data| <= |first|
      && (p.data == first || p.data == RetryEncoding(encode, source, p.size, LowerQuality(quality)))
    ensures var first := PreferredEncoding(encode, source, p.size, quality);
      var retry := RetryEncoding(encode, source, p.size, LowerQuality(quality));
      |first| > RetryThreshold ==> |p.data| <= |retry| && (|retry| >= |first| ==> p.data == first)
  {
    var size := WithFloor(FitWithin(source.size, maxWidth, maxHeight));
    var first := PreferredEncoding(encode, source, size, quality);
    if |first| > RetryThreshold then
      var reduced := RetryEncoding(encode, source, size, LowerQuality(quality));
      Picture(if |reduced| < |first| then reduced else first, size)
    else
      Picture(first, size)
  }

  /** compressToWebP: fit, floor, encode with fallback, and retry once at
      lower quality when the result is still long, keeping the shorter. */
  method CompressToWebP(source: Picture, quality: Quality, maxWidth: nat, maxHeight: nat, encode: Encoder)
    returns (result: Picture)
    ensures result == Compressed(source, quality, maxWidth, maxHeight, encode)
  {
    var width, height := source.size.width, source.size.height;
    if width > height {
      if width > maxWidth {
        height := RoundedQuotient(height, maxWidth, width);
        width := maxWidth;
      }
    } else {
      if height > maxHeight {
        width := RoundedQuotient(width, maxHeight, height);
        height := maxHeight;
      }
    }
    width := Max(MinWidth, width);
    height := Max(MinHeight, height);
    var size := Dims(width, height);
    var compressed := encode(source, size, Webp, quality);
    if compressed == EmptyPng || StartsWith(compressed, PngPrefix) {
      compressed := encode(source, size, Jpeg, quality);
    }
    if |compressed| > RetryThreshold {
      var lowerQuality := Max(10, quality - 15);
      var reduced := encode(source, size, Webp, lowerQuality);
      if reduced == EmptyPng {
        reduced := encode(source, size, Jpeg, lowerQuality);
      }
      result := Picture(if |reduced| < |compressed| then reduced else compressed, size);
    } else {
      result := Picture(compressed, size);
    }
  }

  /** The retry's fallback test is an equality with the empty PNG, not the
      prefix test of the first encoding: where WebP is unsupported and the
      browser answers with a full PNG, the retry candidate is that PNG, and it
      is the result whenever it is shorter than the JPEG first encoding. */
  lemma RetryMayReturnPng(source: Picture, quality: Quality, maxWidth: nat, maxHeight: nat, encode: Encoder)
    requires var size := WithFloor(FitWithin(source.size, maxWidth, maxHeight));
      && StartsWith(encode(source, size, Webp, LowerQuality(quality)), PngPrefix)
      && encode(source, size, Webp, LowerQuality(quality)) != EmptyPng
      && |encode(source, size, Webp, LowerQuality(quality))| < |PreferredEncoding(encode, source, size, quality)|
      && |PreferredEncoding(encode, source, size, quality)| > RetryThreshold
    ensures StartsWith(Compressed(source, quality, maxWidth, maxHeight, encode).data, PngPrefix)
  {
  }

  // addCustomer's escalation

  /** `JSON.stringify(record).length`, left abstract. */
  type PayloadSize = CustomerRecord -> nat

  /** A payload longer than this triggers the next pass. */
  const PayloadLimit := 25000

  /** The native size of the signature pad's canvas, which toDataURL exports. */
  const PadSize := Dims(500, 200)

  /** Quality and bounds of one compressToWebP call of addCustomer. */
  datatype Settings = Settings(quality: Quality, maxWidth: nat, maxHeight: nat)

  /** The three passes: the defaults, then 0.15 at 200x120, then 0.1 at 150x100. */
  const Schedule: seq<Settings> := [Settings(30, 300, 200), Settings(15, 200, 120), Settings(10, 150, 100)]

  /** The record that is measured and sent: the form with the candidate
      signature and the CPF stripped to its digits. */
  function Submitted(form: CustomerRecord, signature: string): (r: CustomerRecord)
    ensures AllDigits(r.cpf) && r.cpf == OnlyDigits(form.cpf) && r.signature == signature
    ensures r.(cpf := form.cpf, signature := form.signature) == form
  {
    form.(signature := signature, cpf := OnlyDigits(form.cpf))
  }

  function Pass(input: Picture, k: nat, encode: Encoder): Picture
    requires k < |Schedule|
  {
    Compressed(input, Schedule[k].quality, Schedule[k].maxWidth, Schedule[k].maxHeight, encode)
  }

  /** The results of the compression passes of addCustomer, in order. */
  function Escalation(drawing: Picture, form: CustomerRecord, encode: Encoder, payloadSize: PayloadSize): (passes: seq<Picture>)
    ensures 1 <= |passes| <= |Schedule|
    ensures passes[0] == Pass(drawing, 0, encode)
    ensures forall k :: 0 < k < |passes| ==> passes[k] == Pass(passes[k - 1], k, encode)
    ensures forall k :: 0 <= k < |passes| - 1 ==> payloadSize(Submitted(form, passes[k].data)) > PayloadLimit
    ensures |passes| < |Schedule| ==> payloadSize(Submitted(form, passes[|passes| - 1].data)) <= PayloadLimit
  {
    var first := Pass(drawing, 0, encode);
    if payloadSize(Submitted(form, first.data)) <= PayloadLimit then [first]
    else
      var second := Pass(first, 1, encode);
      if payloadSize(Submitted(form, second.data)) <= PayloadLimit then [first, second]
      else [first, second, Pass(second, 2, encode)]
  }

  /** The passes of addCustomer: compress, measure the record with the
      result, and compress the result again with the next settings while the
      record is over the limit, at most three times in all. */
  method CompressForPayload(drawing: Picture, form: CustomerRecord, encode: Encoder, payloadSize: PayloadSize)
    returns (signatureImage: Picture, compressions: nat)
    ensures var passes := Escalation(drawing, form, encode, payloadSize);
      compressions == |passes| && signatureImage == passes[|passes| - 1]
  {
    signatureImage := CompressToWebP(drawing, 30, 300, 200, encode);
    compressions := 1;
    var tempPayload := payloadSize(Submitted(form, signatureImage.data));
    if tempPayload > PayloadLimit {
      signatureImage := CompressToWebP(signatureImage, 15, 200, 120, encode);
      compressions := 2;
      tempPayload := payloadSize(Submitted(form, signatureImage.data));
      if tempPayload > PayloadLimit {
        signatureImage := CompressToWebP(signatureImage, 10, 150, 100, encode);
        compressions := 3;
      }
    }
  }

  /** The 500x200 pad drawing becomes 300x120, then 200x80, then 150x60:
      each pass scales the previous pass's output. */
  lemma PadEscalationSizes(drawing: string, form: CustomerRecord, encode: Encoder, payloadSize: PayloadSize)
    ensures var passes := Escalation(Picture(drawing, PadSize), form, encode, payloadSize);
      && passes[0].size == Dims(300, 120)
      && (|passes| >= 2 ==> passes[1].size == Dims(200, 80))
      && (|passes| == 3 ==> passes[2].size == Dims(150, 60))
  {
    assert RoundedQuotient(200, 300, 500) == 120;
    assert RoundedQuotient(120, 200, 300) == 80;
    assert RoundedQuotient(80, 150, 200) == 60;
  }

  /** An encoder whose output grows as the canvas shrinks, and a record that
      is always over the limit. */
  function WidthTaggedEncoder(source: Picture, size: Dims, format: Encoding, quality: Quality): string {
    if size.width == 300 then "a" else "bb"
  }

  function AlwaysOverLimit(r: CustomerRecord): nat {
    PayloadLimit + 1
  }

  /** Passes do not keep the shorter of their own and the previous pass's
      result: a later pass may produce a longer signature. */
  lemma EscalationMayGrow()
    ensures var passes := Escalation(Picture("", PadSize), EmptyCustomer, WidthTaggedEncoder, AlwaysOverLimit);
      |passes| == 3 && |passes[1].data| > |passes[0].data|
  {
    var passes := Escalation(Picture("", PadSize), EmptyCustomer, WidthTaggedEncoder, AlwaysOverLimit);
    PadEscalationSizes("", EmptyCustomer, WidthTaggedEncoder, AlwaysOverLimit);
    assert !StartsWith("a", PngPrefix) && !StartsWith("bb", PngPrefix);
    assert passes[0].data == "a";
    assert passes[1].data == "bb";
  }

  // addCustomer's answer handling

  /** An axios error: the status of the response if there was one, the
      response body's message if it had one, and error.message. */
  datatype Failure = Failure(status: Option<int>, serverMessage: Option<string>, errorText: string)

  /** What axios.post settles with: a 2xx status, or a failure. */
  datatype PostResult = Responded(status: int) | Failed(failure: Failure)

  const InvalidCpfMessage := "CPF inválido. Verifique os números digitados."
  const EmptyPadMessage := "Por favor, faça a assinatura antes de continuar."
  const CreatedMessage := "Cliente adicionado com sucesso!"
  const TooLargeMessage := "Erro: " + "A assinatura é muito grande. Tente fazer uma assinatura menor ou mais simples."
  const AddFailedPrefix := "Erro ao adicionar cliente: "

  /** The error message a failed POST leaves: the dedicated one for 413,
      otherwise the server's non-empty message or a generic one. */
  function FailureMessage(f: Failure): (m: string)
    ensures f.status == Some(413) ==> m == TooLargeMessage
    ensures f.status != Some(413) && f.serverMessage.Some? && f.serverMessage.value != "" ==> m == f.serverMessage.value
    ensures f.status != Some(413) && (f.serverMessage.None? || f.serverMessage.value == "") ==> m == AddFailedPrefix + f.errorText
  {
    if f.status == Some(413) then TooLargeMessage
    else if f.serverMessage.Some? && f.serverMessage.value != "" then f.serverMessage.value
    else AddFailedPrefix + f.errorText
  }

  /** A failure other than 413 never shows the payload-too-large message,
      unless the server itself sent that very text. */
  lemma TooLargeIsDistinct(f: Failure)
    requires f.status != Some(413)
    requires f.serverMessage.Some? ==> f.serverMessage.value != TooLargeMessage
    ensures FailureMessage(f) != TooLargeMessage
  {
    if f.serverMessage.None? || f.serverMessage.value == "" {
      var m := AddFailedPrefix + f.errorText;
      assert m[4] == AddFailedPrefix[4] == ' ';
      assert TooLargeMessage[4] == "Erro: "[4] == ':';
    }
  }

  /** React keeps the last value a handler passed to setNewCustomer. */
  function Settled(current: CustomerRecord, queued: seq<CustomerRecord>): CustomerRecord {
    if queued == [] then current else queued[|queued| - 1]
  }

  /** The record after a 201 as the code is written: the reset to the empty
      record, then handleClearSignature's `{ ...newCustomer, signature: "" }`
      over the newCustomer that its closure captured before the submit. */
  function AfterCreatedAsWritten(submitted: CustomerRecord): CustomerRecord {
    Settled(submitted, [EmptyCustomer, submitted.(signature := "")])
  }

  /** The reset is lost: the form keeps what was just submitted. */
  lemma CreatedResetIsLost(submitted: CustomerRecord)
    requires submitted.name != ""
    ensures AfterCreatedAsWritten(submitted) == submitted.(signature := "")
    ensures AfterCreatedAsWritten(submitted) != EmptyCustomer
  {
  }

  /** The record after a 201 with the signature cleared on the latest record
      (a functional update): the empty form. */
  function AfterCreated(submitted: CustomerRecord): (r: CustomerRecord)
    ensures r == EmptyCustomer
  {
    var reset := Settled(submitted, [EmptyCustomer]);
    Settled(reset, [reset.(signature := "")])
  }

  /** The state of the creation form. */
  class Form {
    var customer: CustomerRecord
    var errorMessage: string
    var successMessage: string
    var loading: bool
    /** The signature pad's drawing, as its toDataURL exports it; None while
        the pad is empty. */
    var pad: Option<string>

    constructor ()
      ensures customer == EmptyCustomer && pad == None
      ensures errorMessage == "" && successMessage == "" && !loading
    {
      customer := EmptyCustomer;
      errorMessage, successMessage := "", "";
      loading := false;
      pad := None;
    }

    /** handleChange: the cpf field stores the masked value, every other
        field the typed one; the error message is cleared. */
    method HandleChange(field: Field, value: string)
      modifies this
      ensures customer == WithField(old(customer), field, if field == Cpf then CpfMask.Format(value) else value)
      ensures errorMessage == ""
      ensures successMessage == old(successMessage) && loading == old(loading) && pad == old(pad)
    {
      if field == Cpf {
        var formattedCpf := CpfMask.Format(value);
        customer := WithField(customer, Cpf, formattedCpf);
      } else {
        customer := WithField(customer, field, value);
      }
      if errorMessage != "" {
        errorMessage := "";
      }
    }

    /** Drawing on the signature pad: only the pad's content changes. */
    method Draw(image: string)
      modifies this
      ensures pad == Some(image)
      ensures customer == old(customer) && errorMessage == old(errorMessage)
      ensures successMessage == old(successMessage) && loading == old(loading)
    {
      pad := Some(image);
    }

    /** handleClearSignature. */
    method HandleClearSignature()
      modifies this
      ensures pad == None && customer == old(customer).(signature := "")
      ensures errorMessage == old(errorMessage) && successMessage == old(successMessage) && loading == old(loading)
    {
      pad := None;
      customer := customer.(signature := "");
    }

    /** addCustomer. `compressions` counts the compressToWebP calls and
        `sent` is the POST body, None when nothing was posted. */
    method AddCustomer(isValidCpf: string -> bool, encode: Encoder, payloadSize: PayloadSize, post: CustomerRecord -> PostResult)
      returns (compressions: nat, sent: Option<CustomerRecord>)
      modifies this
      ensures !loading
      ensures !isValidCpf(OnlyDigits(old(customer).cpf)) ==>
        && compressions == 0 && sent == None
        && errorMessage == InvalidCpfMessage && successMessage == ""
        && customer == old(customer) && pad == old(pad)
      ensures isValidCpf(OnlyDigits(old(customer).cpf)) && old(pad).None? ==>
        && compressions == 0 && sent == None
        && errorMessage == EmptyPadMessage && successMessage == ""
        && customer == old(customer) && pad == old(pad)
      ensures isValidCpf(OnlyDigits(old(customer).cpf)) && old(pad).Some? ==>
        var passes := Escalation(Picture(old(pad).value, PadSize), old(customer), encode, payloadSize);
        && compressions == |passes| <= 3
        && sent == Some(Submitted(old(customer), passes[|passes| - 1].data))
      ensures sent.Some? ==> AllDigits(sent.value.cpf)
      ensures sent.Some? && post(sent.value) == Responded(201) ==>
        && successMessage == CreatedMessage && errorMessage == ""
        && customer == AfterCreated(old(customer)) && pad == None
      ensures sent.Some? && post(sent.value).Responded? && post(sent.value).status != 201 ==>
        && successMessage == "" && errorMessage == ""
        && customer == old(customer) && pad == old(pad)
      ensures sent.Some? && post(sent.value).Failed? ==>
        && errorMessage == FailureMessage(post(sent.value).failure) && successMessage == ""
        && customer == old(customer) && pad == old(pad)
    {
      loading := true;
      errorMessage := "";
      successMessage := "";
      compressions, sent := 0, None;

      if !isValidCpf(OnlyDigits(customer.cpf)) {
        errorMessage := InvalidCpfMessage;
        loading := false;
        return;
      }
      if pad.None? {
        errorMessage := EmptyPadMessage;
        loading := false;
        return;
      }

      var signatureImage;
      signatureImage, compressions := CompressForPayload(Picture(pad.value, PadSize), customer, encode, payloadSize);
      var customerData := Submitted(customer, signatureImage.data);
      sent := Some(customerData);
      match post(customerData) {
        case Responded(status) =>
          if status == 201 {
            successMessage := CreatedMessage;
            customer := AfterCreated(customer);
            pad := None;
          }
        case Failed(failure) =>
          errorMessage := FailureMessage(failure);
      }
      loading := false;
    }
  }
}
