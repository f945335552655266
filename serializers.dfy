/** The validation and write layer: `InvoiceDetailSerializer` and
    `InvoiceSerializer`. Validation is a pure function from the submitted data
    to the list of errors it draws; the write operations apply accepted data to
    a `Store`. */
module Serializers {
  import opened Models

  const QuantityMessage := "Quantity must be a positive integer."
  const UnitPriceMessage := "Unit price must be a positive value."
  const NoDetailsMessage := "Invoice must have at least one detail item."
  const DeleteMessage := "Invoice and its details deleted successfully."

  /** One entry of the nested `details` list as submitted. `line_total` is a
      writable field of the serializer, so a caller may send one. */
  datatype DetailData = DetailData(description: string, quantity: int, unitPrice: Cents, lineTotal: Option<Cents>)

  /** The submitted invoice; an absent key is `None`. */
  datatype InvoiceData = InvoiceData(
    invoiceNumber: Option<string>,
    customerName: Option<string>,
    date: Option<Date>,
    details: Option<seq<DetailData>>)

  /** Where an error is reported: a field of the invoice, a field of the
      detail at position `index`, or the invoice as a whole. */
  datatype FieldPath =
    | InvoiceNumberField
    | CustomerNameField
    | DateField
    | DetailsField
    | DescriptionField(index: nat)
    | QuantityField(index: nat)
    | UnitPriceField(index: nat)
    | NonField
  {
    /** The path names a field of one detail entry. */
    predicate InEntry() {
      DescriptionField? || QuantityField? || UnitPriceField?
    }
  }

  /** What is wrong: the field-level checks the model fields imply
      (presence; for a text, not blank, `max_length` and no null character;
      `unique`; the integer range of a PositiveIntegerField) or a ValidationError raised by the serializers'
      own code, with its message. */
  datatype Problem =
    | Required
    | Blank
    | NullCharacter
    | TooLong(maxLength: nat)
    | NotUnique
    | BelowMinimum(minimum: int)
    | AboveMaximum(maximum: int)
    | Raised(message: string)

  datatype ValidationError = ValidationError(at: FieldPath, problem: Problem)

  const NoDetailsError := ValidationError(NonField, Raised(NoDetailsMessage))

  // ---------------------------------------------------------------------------
  // The serializers' own checks

  /** `InvoiceDetailSerializer.validate_quantity` */
  function ValidateQuantity(value: int): (r: Result<int, string>)
    ensures r.Ok? <==> value > 0
    ensures r.Ok? ==> r.value == value
    ensures r.Err? ==> r.error == QuantityMessage
  {
    if value <= 0 then Err(QuantityMessage) else Ok(value)
  }

  /** `InvoiceDetailSerializer.validate_unit_price` */
  function ValidateUnitPrice(value: Cents): (r: Result<Cents, string>)
    ensures r.Ok? <==> value > 0
    ensures r.Ok? ==> r.value == value
    ensures r.Err? ==> r.error == UnitPriceMessage
  {
    if value <= 0 then Err(UnitPriceMessage) else Ok(value)
  }

  /** `InvoiceSerializer.validate`: the details list must be present and not empty. */
  function ValidateInvoice(data: InvoiceData): (r: Result<InvoiceData, string>)
    ensures r.Ok? <==> data.details.Some? && data.details.value != []
    ensures r.Ok? ==> r.value == data
    ensures r.Err? ==> r.error == NoDetailsMessage
  {
    if data.details.None? || data.details.value == [] then Err(NoDetailsMessage) else Ok(data)
  }

  // ---------------------------------------------------------------------------
  // Text fields: the framework strips surrounding whitespace and refuses a
  // blank value before any other check of the field runs

  /** The characters Python's `str.isspace()` holds for, which `str.strip()` removes. */
  predicate IsSpace(c: char)
  {
    || '\t' <= c <= '\r'
    || '\U{1C}' <= c <= ' '
    || c == '\U{85}' || c == '\U{A0}' || c == '\U{1680}'
    || '\U{2000}' <= c <= '\U{200A}'
    || c == '\U{2028}' || c == '\U{2029}' || c == '\U{202F}' || c == '\U{205F}' || c == '\U{3000}'
  }

  /** Neither end of `s` is whitespace. */
  predicate Trimmed(s: string)
  {
    s != [] ==> !IsSpace(s[0]) && !IsSpace(s[|s| - 1])
  }

  /** `s.lstrip()`: the suffix left after the leading whitespace. */
  function TrimStart(s: string): (r: string)
    ensures |r| <= |s|
    decreases |s|
  {
    if s != [] && IsSpace(s[0]) then TrimStart(s[1..]) else s
  }

  /** What `lstrip` removes is a run of whitespace at the front, and what it
      leaves does not start with whitespace. */
  lemma {:induction false} TrimStartRemovesLeadingSpace(s: string)
    ensures TrimStart(s) == s[|s| - |TrimStart(s)|..]
    ensures forall i :: 0 <= i < |s| - |TrimStart(s)| ==> IsSpace(s[i])
    ensures TrimStart(s) != [] ==> !IsSpace(TrimStart(s)[0])
    decreases |s|
  {
    if s != [] && IsSpace(s[0]) {
      TrimStartRemovesLeadingSpace(s[1..]);
      forall i | 1 <= i < |s| - |TrimStart(s)| ensures IsSpace(s[i]) {
        assert s[i] == s[1..][i - 1];
      }
    }
  }

  /** `s.rstrip()`: the prefix left before the trailing whitespace. */
  function TrimEnd(s: string): (r: string)
    ensures |r| <= |s|
    decreases |s|
  {
    if s != [] && IsSpace(s[|s| - 1]) then TrimEnd(s[..|s| - 1]) else s
  }

  /** What `rstrip` removes is a run of whitespace at the back, and what it
      leaves does not end with whitespace. */
  lemma {:induction false} TrimEndRemovesTrailingSpace(s: string)
    ensures TrimEnd(s) == s[..|TrimEnd(s)|]
    ensures forall i :: |TrimEnd(s)| <= i < |s| ==> IsSpace(s[i])
    ensures TrimEnd(s) != [] ==> !IsSpace(TrimEnd(s)[|TrimEnd(s)| - 1])
    decreases |s|
  {
    if s != [] && IsSpace(s[|s| - 1]) {
      var p := s[..|s| - 1];
      TrimEndRemovesTrailingSpace(p);
      forall i | |TrimEnd(s)| <= i < |s| - 1 ensures IsSpace(s[i]) {
        assert s[i] == p[i];
      }
    }
  }

  /** `s.strip()`, which the framework applies to every text field. */
  function Trim(s: string): (r: string)
    ensures |r| <= |s|
  {
    TrimEnd(TrimStart(s))
  }

  /** A text strips to nothing exactly when it is all whitespace; what a text
      strips to has no whitespace at either end. */
  lemma TrimBlank(s: string)
    ensures Trim(s) == [] <==> forall i :: 0 <= i < |s| ==> IsSpace(s[i])
    ensures Trimmed(Trim(s))
  {
    var t := TrimStart(s);
    var r := TrimEnd(t);
    TrimStartRemovesLeadingSpace(s);
    TrimEndRemovesTrailingSpace(t);
    if r != [] {
      assert r[0] == t[0];
    }
  }

  /** Stripping a stripped text changes nothing. */
  lemma {:induction false} TrimIdempotent(s: string)
    ensures Trim(Trim(s)) == Trim(s)
  {
    TrimBlank(s);
    TrimmedIsFixed(Trim(s));
  }

  /** A text with no whitespace at either end is its own stripped form. */
  lemma {:induction false} TrimmedIsFixed(s: string)
    requires Trimmed(s)
    ensures Trim(s) == s
  {
    assert TrimStart(s) == s;
    assert TrimEnd(s) == s;
  }

  /** `problem` is one a text field holding `s` with the given `max_length`
      is reported with: blank after stripping, or too long after stripping. */
  ghost predicate TextProblem(s: string, maxLength: nat, problem: Problem)
  {
    var t := Trim(s);
    || (t == [] && problem == Blank)
    || (t != [] && |t| > maxLength && problem == TooLong(maxLength))
    || (t != [] && '\0' in t && problem == NullCharacter)
  }

  /** The errors of a text field at `at`: a blank value stops the field's
      checks; otherwise the field's validators, `max_length` and the ban on
      the null character, all run on the stripped value. */
  function TextErrors(at: FieldPath, s: string, maxLength: nat): (errs: seq<ValidationError>)
    ensures forall e :: e in errs <==> e.at == at && TextProblem(s, maxLength, e.problem)
  {
    var t := Trim(s);
    if t == [] then [ValidationError(at, Blank)]
    else
      (if |t| > maxLength then [ValidationError(at, TooLong(maxLength))] else [])
      + (if '\0' in t then [ValidationError(at, NullCharacter)] else [])
  }

  /** A text the field accepts: once stripped, not blank, within
      `max_length` and free of the null character. */
  predicate TextAcceptable(s: string, maxLength: nat)
  {
    Trim(s) != [] && |Trim(s)| <= maxLength && '\0' !in Trim(s)
  }

  // ---------------------------------------------------------------------------
  // Field-level validation of a detail entry

  /** `problem` is one the `quantity` field holding `q` is reported with. */
  ghost predicate QuantityProblem(q: int, problem: Problem)
  {
    || (q < 0 && problem == BelowMinimum(0))
    || (q > PositiveIntegerMax && problem == AboveMaximum(PositiveIntegerMax))
    || (q == 0 && problem == Raised(QuantityMessage))
  }

  /** The errors of the `quantity` field of entry `index`. The field's range
      check comes first; `validate_quantity` runs only on a value that passed it. */
  function QuantityErrors(index: nat, quantity: int): (errs: seq<ValidationError>)
    ensures forall e :: e in errs <==> e.at == QuantityField(index) && QuantityProblem(quantity, e.problem)
  {
    if quantity < 0 then [ValidationError(QuantityField(index), BelowMinimum(0))]
    else if quantity > PositiveIntegerMax then [ValidationError(QuantityField(index), AboveMaximum(PositiveIntegerMax))]
    else match ValidateQuantity(quantity)
      case Ok(_) => []
      case Err(m) => [ValidationError(QuantityField(index), Raised(m))]
  }

  /** `e` is an error that the detail entry `d` at position `index` deserves. */
  ghost predicate EntryViolation(index: nat, d: DetailData, e: ValidationError)
  {
    match e.at
    case DescriptionField(i) => i == index && TextProblem(d.description, DescriptionMaxLength, e.problem)
    case QuantityField(i) => i == index && QuantityProblem(d.quantity, e.problem)
    case UnitPriceField(i) => i == index && d.unitPrice <= 0 && e.problem == Raised(UnitPriceMessage)
    case _ => false
  }

  /** The errors of the detail entry at position `index`. */
  function DetailErrors(index: nat, d: DetailData): (errs: seq<ValidationError>)
    ensures forall e :: e in errs <==> EntryViolation(index, d, e)
  {
    TextErrors(DescriptionField(index), d.description, DescriptionMaxLength)
    + QuantityErrors(index, d.quantity)
    + (match ValidateUnitPrice(d.unitPrice)
       case Ok(_) => []
       case Err(m) => [ValidationError(UnitPriceField(index), Raised(m))])
  }

  /** `e` is an error that the detail list `ds` deserves. */
  ghost predicate DetailViolation(ds: seq<DetailData>, e: ValidationError)
  {
    && e.at.InEntry()
    && e.at.index < |ds|
    && EntryViolation(e.at.index, ds[e.at.index], e)
  }

  /** The errors of the whole `details` list (the nested `many=True`
      serializer): exactly the violations of its entries. */
  function DetailsErrors(ds: seq<DetailData>): (errs: seq<ValidationError>)
    ensures forall e :: e in errs <==> DetailViolation(ds, e)
    decreases |ds|
  {
    if ds == [] then []
    else
      var last := |ds| - 1;
      DetailsErrors(ds[..last]) + DetailErrors(last, ds[last])
  }

  // ---------------------------------------------------------------------------
  // Field-level validation of the invoice

  /** `problem` is one the `invoice_number` field is reported with. */
  ghost predicate NumberProblem(number: Option<string>, taken: set<string>, partial: bool, problem: Problem)
  {
    match number
    case None => !partial && problem == Required
    case Some(n) =>
      || TextProblem(n, InvoiceNumberMaxLength, problem)
      || (Trim(n) != [] && Trim(n) in taken && problem == NotUnique)
  }

  function InvoiceNumberErrors(number: Option<string>, taken: set<string>, partial: bool): (errs: seq<ValidationError>)
    ensures forall e :: e in errs <==> e.at == InvoiceNumberField && NumberProblem(number, taken, partial, e.problem)
  {
    match number
    case None => if partial then [] else [ValidationError(InvoiceNumberField, Required)]
    case Some(n) =>
      TextErrors(InvoiceNumberField, n, InvoiceNumberMaxLength)
      + (if Trim(n) != [] && Trim(n) in taken then [ValidationError(InvoiceNumberField, NotUnique)] else [])
  }

  /** `problem` is one the `customer_name` field is reported with. */
  ghost predicate NameProblem(name: Option<string>, partial: bool, problem: Problem)
  {
    match name
    case None => !partial && problem == Required
    case Some(c) => TextProblem(c, CustomerNameMaxLength, problem)
  }

  function CustomerNameErrors(name: Option<string>, partial: bool): (errs: seq<ValidationError>)
    ensures forall e :: e in errs <==> e.at == CustomerNameField && NameProblem(name, partial, e.problem)
  {
    match name
    case None => if partial then [] else [ValidationError(CustomerNameField, Required)]
    case Some(c) => TextErrors(CustomerNameField, c, CustomerNameMaxLength)
  }

  /** `e` is a field-level error that `data` deserves, when the invoice
      numbers in `taken` belong to other invoices and `partial` says whether
      absent fields are allowed. */
  ghost predicate FieldViolation(data: InvoiceData, taken: set<string>, partial: bool, e: ValidationError)
  {
    match e.at
    case InvoiceNumberField => NumberProblem(data.invoiceNumber, taken, partial, e.problem)
    case CustomerNameField => NameProblem(data.customerName, partial, e.problem)
    case DateField => data.date.None? && !partial && e.problem == Required
    case DetailsField => data.details.None? && !partial && e.problem == Required
    case NonField => false
    case _ => data.details.Some? && DetailViolation(data.details.value, e)
  }

  /** All field-level errors, gathered over every field as the framework does. */
  function FieldErrors(data: InvoiceData, taken: set<string>, partial: bool): (errs: seq<ValidationError>)
    ensures forall e :: e in errs <==> FieldViolation(data, taken, partial, e)
    ensures errs == [] <==> forall e :: !FieldViolation(data, taken, partial, e)
  {
    var errs :=
      InvoiceNumberErrors(data.invoiceNumber, taken, partial)
      + CustomerNameErrors(data.customerName, partial)
      + (if data.date.None? && !partial then [ValidationError(DateField, Required)] else [])
      + (match data.details
         case None => if partial then [] else [ValidationError(DetailsField, Required)]
         case Some(ds) => DetailsErrors(ds));
    assert errs != [] ==> errs[0] in errs;
    errs
  }

  /** The errors `is_valid()` reports: the field-level ones and, only when
      there are none, the one `InvoiceSerializer.validate` raises. */
  ghost predicate Reported(data: InvoiceData, taken: set<string>, partial: bool, e: ValidationError)
  {
    || FieldViolation(data, taken, partial, e)
    || (&& e == NoDetailsError
        && (forall f :: !FieldViolation(data, taken, partial, f))
        && (data.details.None? || data.details.value == []))
  }

  /** `serializer.is_valid()`: the list of errors, empty when the data is accepted. */
  function Validate(data: InvoiceData, taken: set<string>, partial: bool): (errs: seq<ValidationError>)
    ensures forall e :: e in errs <==> Reported(data, taken, partial, e)
    ensures errs == [] <==> forall e :: !Reported(data, taken, partial, e)
  {
    var fieldErrors := FieldErrors(data, taken, partial);
    if fieldErrors != [] then
      assert FieldViolation(data, taken, partial, fieldErrors[0]);
      fieldErrors
    else
      match ValidateInvoice(data)
      case Ok(_) => []
      case Err(m) =>
        assert Reported(data, taken, partial, NoDetailsError);
        [ValidationError(NonField, Raised(m))]
  }

  /** A detail entry every check accepts. */
  predicate DetailAcceptable(d: DetailData)
  {
    && TextAcceptable(d.description, DescriptionMaxLength)
    && 0 < d.quantity <= PositiveIntegerMax
    && d.unitPrice > 0
  }

  /** The data every check accepts, stated field by field. */
  predicate Acceptable(data: InvoiceData, taken: set<string>, partial: bool)
  {
    && (!partial ==> data.invoiceNumber.Some? && data.customerName.Some? && data.date.Some?)
    && (data.invoiceNumber.Some? ==>
          TextAcceptable(data.invoiceNumber.value, InvoiceNumberMaxLength) && Trim(data.invoiceNumber.value) !in taken)
    && (data.customerName.Some? ==> TextAcceptable(data.customerName.value, CustomerNameMaxLength))
    && data.details.Some? && data.details.value != []
    && forall i :: 0 <= i < |data.details.value| ==> DetailAcceptable(data.details.value[i])
  }

  /** `is_valid()` succeeds exactly on the acceptable data. */
  lemma {:induction false} ValidateAcceptsExactly(data: InvoiceData, taken: set<string>, partial: bool)
    ensures Validate(data, taken, partial) == [] <==> Acceptable(data, taken, partial)
  {
    var errs := Validate(data, taken, partial);
    if Acceptable(data, taken, partial) {
      forall e ensures !FieldViolation(data, taken, partial, e) {
        if e.at.DescriptionField? || e.at.QuantityField? || e.at.UnitPriceField? {
          var i := e.at.index;
          if i < |data.details.value| {
            assert DetailAcceptable(data.details.value[i]);
          }
        }
      }
      assert forall e :: !Reported(data, taken, partial, e);
    } else {
      var e := UnacceptableWitness(data, taken, partial);
      assert Reported(data, taken, partial, e);
      assert e in errs;
    }
  }

  /** An error that data the checks do not accept is reported with. */
  lemma UnacceptableWitness(data: InvoiceData, taken: set<string>, partial: bool) returns (e: ValidationError)
    requires !Acceptable(data, taken, partial)
    ensures Reported(data, taken, partial, e)
  {
    if !partial && data.invoiceNumber.None? {
      e := ValidationError(InvoiceNumberField, Required);
    } else if !partial && data.customerName.None? {
      e := ValidationError(CustomerNameField, Required);
    } else if !partial && data.date.None? {
      e := ValidationError(DateField, Required);
    } else if data.invoiceNumber.Some? && !TextAcceptable(data.invoiceNumber.value, InvoiceNumberMaxLength) {
      e := TextWitness(InvoiceNumberField, data.invoiceNumber.value, InvoiceNumberMaxLength);
    } else if data.invoiceNumber.Some? && Trim(data.invoiceNumber.value) in taken {
      e := ValidationError(InvoiceNumberField, NotUnique);
    } else if data.customerName.Some? && !TextAcceptable(data.customerName.value, CustomerNameMaxLength) {
      e := TextWitness(CustomerNameField, data.customerName.value, CustomerNameMaxLength);
    } else if data.details.None? && !partial {
      e := ValidationError(DetailsField, Required);
    } else if data.details.Some? && exists i :: 0 <= i < |data.details.value| && !DetailAcceptable(data.details.value[i]) {
      var ds := data.details.value;
      var i :| 0 <= i < |ds| && !DetailAcceptable(ds[i]);
      if !TextAcceptable(ds[i].description, DescriptionMaxLength) {
        e := TextWitness(DescriptionField(i), ds[i].description, DescriptionMaxLength);
      } else if ds[i].quantity < 0 {
        e := ValidationError(QuantityField(i), BelowMinimum(0));
      } else if ds[i].quantity > PositiveIntegerMax {
        e := ValidationError(QuantityField(i), AboveMaximum(PositiveIntegerMax));
      } else if ds[i].quantity == 0 {
        e := ValidationError(QuantityField(i), Raised(QuantityMessage));
      } else {
        e := ValidationError(UnitPriceField(i), Raised(UnitPriceMessage));
      }
    } else if exists f :: FieldViolation(data, taken, partial, f) {
      e :| FieldViolation(data, taken, partial, e);
    } else {
      e := NoDetailsError;
    }
  }

  /** The error a text the field does not accept is reported with. */
  function TextWitness(at: FieldPath, s: string, maxLength: nat): (e: ValidationError)
    requires !TextAcceptable(s, maxLength)
    ensures e.at == at && TextProblem(s, maxLength, e.problem)
  {
    if Trim(s) == [] then ValidationError(at, Blank)
    else if |Trim(s)| > maxLength then ValidationError(at, TooLong(maxLength))
    else ValidationError(at, NullCharacter)
  }

  // ---------------------------------------------------------------------------
  // Properties of validation

  /** A quantity of 0 draws the message of `validate_quantity`; a negative one
      is stopped earlier by the field's own range check. */
  lemma NonPositiveQuantityRejected(data: InvoiceData, taken: set<string>, partial: bool, i: nat)
    requires data.details.Some? && i < |data.details.value| && data.details.value[i].quantity <= 0
    ensures Validate(data, taken, partial) != []
    ensures data.details.value[i].quantity == 0 ==>
      ValidationError(QuantityField(i), Raised(QuantityMessage)) in Validate(data, taken, partial)
    ensures data.details.value[i].quantity < 0 ==>
      ValidationError(QuantityField(i), BelowMinimum(0)) in Validate(data, taken, partial)
  {
    var q := data.details.value[i].quantity;
    var e := ValidationError(QuantityField(i), if q == 0 then Raised(QuantityMessage) else BelowMinimum(0));
    assert EntryViolation(i, data.details.value[i], e);
    assert FieldViolation(data, taken, partial, e);
  }

  /** A unit price of 0 or less draws the message of `validate_unit_price`. */
  lemma NonPositiveUnitPriceRejected(data: InvoiceData, taken: set<string>, partial: bool, i: nat)
    requires data.details.Some? && i < |data.details.value| && data.details.value[i].unitPrice <= 0
    ensures ValidationError(UnitPriceField(i), Raised(UnitPriceMessage)) in Validate(data, taken, partial)
  {
    var e := ValidationError(UnitPriceField(i), Raised(UnitPriceMessage));
    assert EntryViolation(i, data.details.value[i], e);
    assert FieldViolation(data, taken, partial, e);
  }

  /** A missing or empty details list is never accepted; when every field is
      otherwise fine the error is the one `validate` raises. */
  lemma NoDetailsRejected(data: InvoiceData, taken: set<string>, partial: bool)
    requires data.details.None? || data.details.value == []
    ensures Validate(data, taken, partial) != []
    ensures (forall e :: !FieldViolation(data, taken, partial, e)) ==> Validate(data, taken, partial) == [NoDetailsError]
    ensures data.details.None? && !partial ==>
      && ValidationError(DetailsField, Required) in Validate(data, taken, partial)
      && NoDetailsError !in Validate(data, taken, partial)
  {
    ValidateAcceptsExactly(data, taken, partial);
  }

  /** An invoice number that, stripped, is held by another invoice is
      refused, however much whitespace surrounds it. */
  lemma DuplicateNumberRejected(data: InvoiceData, taken: set<string>, partial: bool)
    requires data.invoiceNumber.Some? && Trim(data.invoiceNumber.value) != [] && Trim(data.invoiceNumber.value) in taken
    ensures ValidationError(InvoiceNumberField, NotUnique) in Validate(data, taken, partial)
  {
  }

  /** An invoice number padded with a space is compared stripped: " INV-1"
      is refused when "INV-1" is taken, and a description of spaces is blank. */
  lemma PaddedNumberExample()
    ensures var data := InvoiceData(Some(" INV-1"), Some("Acme"), Some(Date(2024, 1, 15)),
                                    Some([DetailData("  ", 3, 1000, None)]));
      && ValidationError(InvoiceNumberField, NotUnique) in Validate(data, {"INV-1"}, false)
      && ValidationError(DescriptionField(0), Blank) in Validate(data, {"INV-1"}, false)
  {
    assert TrimStart(" INV-1") == TrimStart("INV-1") == "INV-1";
    assert TrimEnd("INV-1") == "INV-1";
    assert TrimStart("  ") == TrimStart(" ") == TrimStart("") == "";
    DuplicateNumberRejected(InvoiceData(Some(" INV-1"), Some("Acme"), Some(Date(2024, 1, 15)),
                                        Some([DetailData("  ", 3, 1000, None)])), {"INV-1"}, false);
  }

  /** A text holding the null character is refused, in the invoice and in
      a detail entry alike. */
  lemma NullCharacterExample()
    ensures var data := InvoiceData(Some("A\0"), Some("Acme"), Some(Date(2024, 1, 15)),
                                    Some([DetailData("W\0", 1, 100, None)]));
      && ValidationError(InvoiceNumberField, NullCharacter) in Validate(data, {}, false)
      && ValidationError(DescriptionField(0), NullCharacter) in Validate(data, {}, false)
  {
    assert Trim("A\0") == "A\0" by { TrimmedIsFixed("A\0"); }
    assert Trim("W\0") == "W\0" by { TrimmedIsFixed("W\0"); }
  }

  /** A blank or all-whitespace text field draws the framework's blank error
      and no length or uniqueness error. */
  lemma BlankTextRejected(data: InvoiceData, taken: set<string>, partial: bool)
    requires data.invoiceNumber.Some? && forall i :: 0 <= i < |data.invoiceNumber.value| ==> IsSpace(data.invoiceNumber.value[i])
    ensures ValidationError(InvoiceNumberField, Blank) in Validate(data, taken, partial)
    ensures forall e :: e in Validate(data, taken, partial) && e.at == InvoiceNumberField ==> e.problem == Blank
  {
    TrimBlank(data.invoiceNumber.value);
  }

  // ---------------------------------------------------------------------------
  // Applying accepted data to the store

  /** The unsaved row `InvoiceDetail(invoice=..., **detail_data)` built from
      the validated entry, whose description is stripped. Whatever line total
      the entry carried, the row `save` writes holds quantity times price. */
  function Instance(invoice: InvoiceId, d: DetailData): (r: InvoiceDetail)
    ensures r.invoice == invoice && r.description == Trim(d.description)
    ensures Saved(r).lineTotal == Some(d.quantity * d.unitPrice)
  {
    InvoiceDetail(invoice, Trim(d.description), d.quantity, d.unitPrice, d.lineTotal)
  }

  /** The rows the loop over `details_data` inserts for `invoice` when the
      detail id sequence stands at `from`: entry `i` under id `from + i`. */
  function Created(from: DetailId, invoice: InvoiceId, ds: seq<DetailData>): (m: map<DetailId, InvoiceDetail>)
    ensures forall k :: k in m <==> from <= k < from + |ds|
    ensures forall i :: 0 <= i < |ds| ==> m[from + i] == Saved(Instance(invoice, ds[i]))
    decreases |ds|
  {
    if ds == [] then map[]
    else
      var last := |ds| - 1;
      Created(from, invoice, ds[..last])[from + last := Saved(Instance(invoice, ds[last]))]
  }

  /** A table holding the rows of `initial` and, under ids `from` onwards,
      one saved row per entry of `ds`, is `initial` plus `Created`. */
  lemma CreatedExtends(rows: map<DetailId, InvoiceDetail>, initial: map<DetailId, InvoiceDetail>,
                       from: DetailId, invoice: InvoiceId, ds: seq<DetailData>)
    requires forall k :: k in initial ==> k < from
    requires forall k :: k in rows <==> k in initial || from <= k < from + |ds|
    requires forall k :: k in initial ==> rows[k] == initial[k]
    requires forall i :: 0 <= i < |ds| ==> rows[from + i] == Saved(Instance(invoice, ds[i]))
    ensures rows == initial + Created(from, invoice, ds)
  {
    var created := Created(from, invoice, ds);
    assert rows.Keys == (initial + created).Keys;
    forall k | k in rows ensures rows[k] == (initial + created)[k] {
      if k !in initial {
        var i := k - from;
        assert 0 <= i < |ds| && from + i == k;
        assert rows[from + i] == Saved(Instance(invoice, ds[i])) == created[from + i];
      }
    }
  }

  /** One row per entry: the loop inserts exactly `|ds|` rows. */
  lemma {:induction false} CreatedSize(from: DetailId, invoice: InvoiceId, ds: seq<DetailData>)
    ensures |Created(from, invoice, ds)| == |ds|
    decreases |ds|
  {
    if ds != [] {
      var last := |ds| - 1;
      CreatedSize(from, invoice, ds[..last]);
      assert from + last !in Created(from, invoice, ds[..last]);
      assert Created(from, invoice, ds) == Created(from, invoice, ds[..last])[from + last := Saved(Instance(invoice, ds[last]))];
    }
  }

  /** The fields `update` writes: each submitted field replaces the stored
      one with its validated (stripped) value, each absent field keeps its
      stored value. */
  function Merged(inv: Invoice, data: InvoiceData): (r: Invoice)
    ensures data.invoiceNumber.Some? ==> r.invoiceNumber == Trim(data.invoiceNumber.value)
    ensures data.invoiceNumber.None? ==> r.invoiceNumber == inv.invoiceNumber
    ensures data.customerName.Some? ==> r.customerName == Trim(data.customerName.value)
    ensures data.customerName.None? ==> r.customerName == inv.customerName
    ensures data.date.Some? ==> r.date == data.date.value
    ensures data.date.None? ==> r.date == inv.date
  {
    Invoice(
      if data.invoiceNumber.Some? then Trim(data.invoiceNumber.value) else inv.invoiceNumber,
      if data.customerName.Some? then Trim(data.customerName.value) else inv.customerName,
      data.date.GetOr(inv.date))
  }

  /** Merging is idempotent, and data carrying every field replaces the
      invoice whatever it held. */
  lemma MergedReplacesOnlyPresent(inv: Invoice, other: Invoice, data: InvoiceData)
    ensures Merged(Merged(inv, data), data) == Merged(inv, data)
    ensures data.invoiceNumber.Some? && data.customerName.Some? && data.date.Some? ==>
      Merged(inv, data) == Merged(other, data)
    ensures data.invoiceNumber.None? && data.customerName.None? && data.date.None? ==>
      Merged(inv, data) == inv
  {
  }

  /** A stored text the write path can have produced: stripped and accepted. */
  predicate StoredText(s: string, maxLength: nat)
  {
    Trimmed(s) && TextAcceptable(s, maxLength)
  }

  /** Merging accepted data into a stored invoice yields an invoice fit to be stored. */
  lemma MergedIsStored(inv: Invoice, data: InvoiceData, taken: set<string>, partial: bool)
    requires HeaderAcceptable(inv) && Acceptable(data, taken, partial)
    ensures HeaderAcceptable(Merged(inv, data))
  {
    if data.invoiceNumber.Some? {
      StrippedIsStored(data.invoiceNumber.value, InvoiceNumberMaxLength);
    }
    if data.customerName.Some? {
      StrippedIsStored(data.customerName.value, CustomerNameMaxLength);
    }
  }

  /** A stored row the write path can have produced: an accepted entry whose
      description is stored stripped. */
  predicate RowAcceptable(d: InvoiceDetail)
  {
    && Trimmed(d.description)
    && DetailAcceptable(DetailData(d.description, d.quantity, d.unitPrice, d.lineTotal))
  }

  predicate HeaderAcceptable(inv: Invoice)
  {
    StoredText(inv.invoiceNumber, InvoiceNumberMaxLength) && StoredText(inv.customerName, CustomerNameMaxLength)
  }

  /** The validated value of an accepted text field is fit to be stored. */
  lemma StrippedIsStored(s: string, maxLength: nat)
    requires TextAcceptable(s, maxLength)
    ensures StoredText(Trim(s), maxLength)
  {
    TrimBlank(s);
    TrimIdempotent(s);
  }

  /** The row `save` writes for an accepted entry is one the write path can produce. */
  lemma SavedRowAcceptable(invoice: InvoiceId, d: DetailData)
    requires DetailAcceptable(d)
    ensures RowAcceptable(Saved(Instance(invoice, d)))
  {
    StrippedIsStored(d.description, DescriptionMaxLength);
  }

  /** What every state reached through the serializers satisfies, beyond what
      the database enforces: every field passed validation and every invoice
      has at least one detail. */
  ghost predicate WellFormedTables(invoices: map<InvoiceId, Invoice>, details: map<DetailId, InvoiceDetail>)
  {
    && (forall id :: id in invoices ==> HeaderAcceptable(invoices[id]))
    && (forall k :: k in details ==> RowAcceptable(details[k]))
    && (forall id :: id in invoices ==> exists k :: k in details && details[k].invoice == id)
  }

  ghost predicate WellFormed(store: Store)
    reads store
  {
    store.Valid() && WellFormedTables(store.invoices, store.details)
  }

  /** Every row inserted for accepted entries is acceptable and belongs to `invoice`. */
  lemma CreatedRowsAcceptable(from: DetailId, invoice: InvoiceId, ds: seq<DetailData>)
    requires forall i :: 0 <= i < |ds| ==> DetailAcceptable(ds[i])
    ensures forall k :: k in Created(from, invoice, ds) ==>
      RowAcceptable(Created(from, invoice, ds)[k]) && Created(from, invoice, ds)[k].invoice == invoice
  {
    var created := Created(from, invoice, ds);
    forall k | k in created ensures RowAcceptable(created[k]) && created[k].invoice == invoice {
      var i := k - from;
      assert created[from + i] == Saved(Instance(invoice, ds[i]));
      SavedRowAcceptable(invoice, ds[i]);
    }
  }

  /** The rows `create` inserts are acceptable, and the new invoice gets at
      least one of them. */
  lemma CreateKeepsWellFormed(
    invoices: map<InvoiceId, Invoice>, details: map<DetailId, InvoiceDetail>,
    id: InvoiceId, inv: Invoice, from: DetailId, ds: seq<DetailData>)
    requires WellFormedTables(invoices, details)
    requires forall k :: k in details ==> k < from
    requires HeaderAcceptable(inv) && ds != []
    requires forall i :: 0 <= i < |ds| ==> DetailAcceptable(ds[i])
    ensures WellFormedTables(invoices[id := inv], details + Created(from, id, ds))
  {
    var created := Created(from, id, ds);
    var rows := details + created;
    CreatedRowsAcceptable(from, id, ds);
    assert from in created;
    var headers := invoices[id := inv];
    forall j | j in headers ensures exists k :: k in rows && rows[k].invoice == j {
      if j == id {
        assert from in rows && rows[from].invoice == id;
      } else {
        var k :| k in details && details[k].invoice == j;
        assert k in rows && rows[k] == details[k];
      }
    }
  }

  /** Replacing the rows of invoice `id` keeps every invoice with at least
      one row: `id` gets the new ones, the others keep theirs. */
  lemma UpdateKeepsWellFormed(
    invoices: map<InvoiceId, Invoice>, details: map<DetailId, InvoiceDetail>,
    id: InvoiceId, inv: Invoice, from: DetailId, ds: seq<DetailData>)
    requires WellFormedTables(invoices, details)
    requires forall k :: k in details ==> k < from
    requires HeaderAcceptable(inv) && ds != []
    requires forall i :: 0 <= i < |ds| ==> DetailAcceptable(ds[i])
    ensures WellFormedTables(invoices[id := inv], DetailsNotOf(details, id) + Created(from, id, ds))
  {
    var created := Created(from, id, ds);
    var kept := DetailsNotOf(details, id);
    var rows := kept + created;
    CreatedRowsAcceptable(from, id, ds);
    assert from in created;
    var headers := invoices[id := inv];
    forall j | j in headers ensures exists k :: k in rows && rows[k].invoice == j {
      if j == id {
        assert from in rows && rows[from].invoice == id;
      } else {
        var k :| k in details && details[k].invoice == j;
        assert k in kept && k in rows && rows[k] == details[k];
      }
    }
  }

  /** After the rows of `id` are replaced, its rows are exactly the new ones. */
  lemma ReplacedRowsOf(details: map<DetailId, InvoiceDetail>, id: InvoiceId, from: DetailId, ds: seq<DetailData>)
    ensures RowsOf(DetailsNotOf(details, id) + Created(from, id, ds), id) == Created(from, id, ds).Keys
  {
    var created := Created(from, id, ds);
    var rows := DetailsNotOf(details, id) + created;
    forall k | k in created ensures rows[k].invoice == id {
      var i := k - from;
      assert created[from + i] == Saved(Instance(id, ds[i]));
    }
  }

  /** The cascade removes the invoice together with all its rows, so every
      remaining invoice keeps its rows. */
  lemma DeleteKeepsWellFormed(invoices: map<InvoiceId, Invoice>, details: map<DetailId, InvoiceDetail>, id: InvoiceId)
    requires WellFormedTables(invoices, details)
    ensures WellFormedTables(invoices - {id}, DetailsNotOf(details, id))
  {
    var kept := DetailsNotOf(details, id);
    forall j | j in invoices - {id} ensures exists k :: k in kept && kept[k].invoice == j {
      var k :| k in details && details[k].invoice == j;
      assert k in kept;
    }
  }

  /** The loop of `create` and `update`: one detail per entry, in order. */
  method CreateDetails(store: Store, invoice: InvoiceId, ds: seq<DetailData>)
    requires store.Valid() && invoice in store.invoices
    modifies store
    ensures store.Valid()
    ensures store.details == old(store.details) + Created(old(store.nextDetailId), invoice, ds)
    ensures store.nextDetailId == old(store.nextDetailId) + |ds|
    ensures store.invoices == old(store.invoices) && store.nextInvoiceId == old(store.nextInvoiceId)
  {
    ghost var from, initial := store.nextDetailId, store.details;
    ghost var invoices, nextInvoiceId := store.invoices, store.nextInvoiceId;
    var i := 0;
    while i < |ds|
      invariant 0 <= i <= |ds|
      invariant store.Valid()
      invariant store.invoices == invoices && store.nextInvoiceId == nextInvoiceId
      invariant store.nextDetailId == from + i
      invariant forall k :: k in store.details <==> k in initial || from <= k < from + i
      invariant forall k :: k in initial ==> store.details[k] == initial[k]
      invariant forall j :: 0 <= j < i ==> store.details[from + j] == Saved(Instance(invoice, ds[j]))
    {
      var _ := store.CreateDetail(Instance(invoice, ds[i]));
      i := i + 1;
    }
    CreatedExtends(store.details, initial, from, invoice, ds);
  }

  /** `is_valid()` followed by `save()` on a serializer without an instance,
      which runs `InvoiceSerializer.create`: the invoice row, then one detail
      row per entry. */
  method Create(store: Store, data: InvoiceData) returns (r: Result<InvoiceId, seq<ValidationError>>)
    requires store.Valid()
    modifies store
    ensures store.Valid()
    ensures old(WellFormed(store)) ==> WellFormed(store)
    ensures r.Err? <==> !Acceptable(data, old(store.TakenNumbers(None)), false)
    ensures r.Err? ==> && r.error == Validate(data, old(store.TakenNumbers(None)), false)
                       && store.invoices == old(store.invoices) && store.details == old(store.details)
                       && store.nextInvoiceId == old(store.nextInvoiceId) && store.nextDetailId == old(store.nextDetailId)
    ensures r.Ok? ==>
      && r.value !in old(store.invoices)
      && store.invoices == old(store.invoices)[r.value := Invoice(Trim(data.invoiceNumber.value), Trim(data.customerName.value), data.date.value)]
      && store.nextInvoiceId == old(store.nextInvoiceId) + 1
      && store.nextDetailId == old(store.nextDetailId) + |data.details.value|
      && store.details == old(store.details) + Created(old(store.nextDetailId), r.value, data.details.value)
      && old(store.details).Keys !! Created(old(store.nextDetailId), r.value, data.details.value).Keys
      && |store.details| == |old(store.details)| + |data.details.value|
  {
    var taken := store.TakenNumbers(None);
    var errs := Validate(data, taken, false);
    ValidateAcceptsExactly(data, taken, false);
    if errs != [] {
      return Err(errs);
    }
    var inv := Invoice(Trim(data.invoiceNumber.value), Trim(data.customerName.value), data.date.value);
    var created := store.CreateInvoice(inv);
    var id := created.value;
    var ds := data.details.value;
    CreateDetails(store, id, ds);
    r := Ok(id);

    ghost var from := old(store.nextDetailId);
    CreatedSize(from, id, ds);
    assert old(store.details).Keys !! Created(from, id, ds).Keys;
    assert store.details.Keys == old(store.details).Keys + Created(from, id, ds).Keys;
    if old(WellFormed(store)) {
      StrippedIsStored(data.invoiceNumber.value, InvoiceNumberMaxLength);
      StrippedIsStored(data.customerName.value, CustomerNameMaxLength);
      CreateKeepsWellFormed(old(store.invoices), old(store.details), id, inv, from, ds);
    }
  }

  /** `is_valid()` followed by `save()` on a serializer bound to the stored
      invoice `id`, which runs `InvoiceSerializer.update`: the submitted
      fields are merged into the invoice, its detail rows are deleted, and one
      new row per entry is inserted. `partial` is the serializer's partial
      flag: whether absent invoice fields are allowed. */
  method Update(store: Store, id: InvoiceId, data: InvoiceData, partial: bool) returns (r: Result<(), seq<ValidationError>>)
    requires store.Valid() && id in store.invoices
    modifies store
    ensures store.Valid()
    ensures old(WellFormed(store)) ==> WellFormed(store)
    ensures r.Err? <==> !Acceptable(data, old(store.TakenNumbers(Some(id))), partial)
    ensures r.Err? ==> && r.error == Validate(data, old(store.TakenNumbers(Some(id))), partial)
                       && store.invoices == old(store.invoices) && store.details == old(store.details)
                       && store.nextInvoiceId == old(store.nextInvoiceId) && store.nextDetailId == old(store.nextDetailId)
    ensures r.Ok? ==>
      && store.invoices == old(store.invoices)[id := Merged(old(store.invoices[id]), data)]
      && store.details == DetailsNotOf(old(store.details), id) + Created(old(store.nextDetailId), id, data.details.value)
      && store.DetailsOf(id) == Created(old(store.nextDetailId), id, data.details.value).Keys
      && |store.DetailsOf(id)| == |data.details.value|
      && old(store.DetailsOf(id)) !! store.details.Keys
      && store.nextInvoiceId == old(store.nextInvoiceId)
      && store.nextDetailId == old(store.nextDetailId) + |data.details.value|
  {
    var taken := store.TakenNumbers(Some(id));
    var errs := Validate(data, taken, partial);
    ValidateAcceptsExactly(data, taken, partial);
    if errs != [] {
      return Err(errs);
    }
    var merged := Merged(store.invoices[id], data);
    assert merged.invoiceNumber !in taken by {
      if data.invoiceNumber.None? {
        assert forall other :: other in store.invoices && Some(other) != Some(id) ==>
          store.invoices[other].invoiceNumber != store.invoices[id].invoiceNumber;
      }
    }
    var saved := store.SaveInvoice(id, merged);
    store.DeleteDetailsOf(id);
    var ds := data.details.value;
    CreateDetails(store, id, ds);
    r := Ok(());

    ghost var from := old(store.nextDetailId);
    CreatedSize(from, id, ds);
    ReplacedRowsOf(old(store.details), id, from, ds);
    if old(WellFormed(store)) {
      MergedIsStored(old(store.invoices[id]), data, taken, partial);
      UpdateKeepsWellFormed(old(store.invoices), old(store.details), id, merged, from, ds);
    }
  }

  /** `InvoiceSerializer.delete`: the invoice and, by the cascade, its
      details are removed; the confirmation message is returned. */
  method Delete(store: Store, id: InvoiceId) returns (message: string)
    requires store.Valid() && id in store.invoices
    modifies store
    ensures store.Valid()
    ensures old(WellFormed(store)) ==> WellFormed(store)
    ensures message == DeleteMessage
    ensures store.invoices == old(store.invoices) - {id}
    ensures store.details == DetailsNotOf(old(store.details), id)
    ensures store.nextInvoiceId == old(store.nextInvoiceId) && store.nextDetailId == old(store.nextDetailId)
  {
    store.DeleteInvoice(id);
    message := DeleteMessage;
    if old(WellFormed(store)) {
      DeleteKeepsWellFormed(old(store.invoices), old(store.details), id);
    }
  }
}
