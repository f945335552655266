/** The storage layer: the two tables `Invoice` and `InvoiceDetail`, the two
    constraints the store enforces on them (the unique invoice number and the
    foreign key), the cascade `instance.delete()` carries out, and what
    `InvoiceDetail.save` does to a row before it is written (recompute
    `line_total`). Column limits (lengths, the quantity check, the decimal
    precision) are left to validation. */
module Models {

  datatype Option<T> = None | Some(value: T) {
    function GetOr(default: T): T {
      match this
      case Some(v) => v
      case None => default
    }
  }

  datatype Result<T, E> = Ok(value: T) | Err(error: E)

  type InvoiceId = nat
  type DetailId = nat

  /** A DecimalField with two decimal places holds exactly the multiples of
      0.01, so amounts are counted in cents and arithmetic on them is exact. */
  type Cents = int

  /** A DateField value. Dates are only stored and compared for equality. */
  datatype Date = Date(year: int, month: int, day: int)

  const InvoiceNumberMaxLength: nat := 50
  const CustomerNameMaxLength: nat := 255
  const DescriptionMaxLength: nat := 255
  /** The range the PostgreSQL backend gives a PositiveIntegerField
      (`integer_field_range`); other backends give other ranges. */
  const PositiveIntegerMax: int := 2147483647

  datatype Invoice = Invoice(invoiceNumber: string, customerName: string, date: Date)

  /** A row of the detail table. `lineTotal` is nullable in the schema; a row
      that went through `save` always holds `Some`. */
  datatype InvoiceDetail = InvoiceDetail(
    invoice: InvoiceId,
    description: string,
    quantity: int,
    unitPrice: Cents,
    lineTotal: Option<Cents>)

  /** The database refused a write: the unique constraint on invoice_number. */
  datatype IntegrityError = UniqueViolation

  /** The row that `InvoiceDetail.save` writes: `line_total` is set to
      quantity times unit price, and nothing else is touched. */
  function Saved(d: InvoiceDetail): (r: InvoiceDetail)
    ensures r.lineTotal == Some(d.quantity * d.unitPrice)
    ensures r.(lineTotal := d.lineTotal) == d
  {
    d.(lineTotal := Some(d.quantity * d.unitPrice))
  }

  /** Whatever `line_total` the row carried before `save`, the stored row is the same. */
  lemma SavedIgnoresSuppliedTotal(d: InvoiceDetail, supplied: Option<Cents>)
    ensures Saved(d.(lineTotal := supplied)) == Saved(d)
    ensures Saved(Saved(d)) == Saved(d)
  {
  }

  /** The line total `save` stores, read back as a decimal amount, is the
      decimal product of quantity and unit price, exactly: no rounding occurs. */
  lemma LineTotalIsExact(d: InvoiceDetail)
    ensures Saved(d).lineTotal.value as real / 100.0 == d.quantity as real * (d.unitPrice as real / 100.0)
  {
  }

  /** The rows of `details` that do not belong to `invoice`. */
  function DetailsNotOf(details: map<DetailId, InvoiceDetail>, invoice: InvoiceId): map<DetailId, InvoiceDetail>
  {
    map k | k in details && details[k].invoice != invoice :: details[k]
  }

  /** The ids of the rows of `details` that reference `invoice`. */
  function RowsOf(details: map<DetailId, InvoiceDetail>, invoice: InvoiceId): set<DetailId>
  {
    set k | k in details && details[k].invoice == invoice
  }

  /** No two invoices share an invoice number. */
  ghost predicate UniqueNumbers(invoices: map<InvoiceId, Invoice>)
  {
    forall a, b :: a in invoices && b in invoices && invoices[a].invoiceNumber == invoices[b].invoiceNumber ==> a == b
  }

  /** Every detail row references a stored invoice. */
  ghost predicate ReferencesExist(details: map<DetailId, InvoiceDetail>, invoices: map<InvoiceId, Invoice>)
  {
    forall k :: k in details ==> details[k].invoice in invoices
  }

  /** Every detail row holds the line total `save` computes. */
  ghost predicate TotalsComputed(details: map<DetailId, InvoiceDetail>)
  {
    forall k :: k in details ==> details[k].lineTotal == Some(details[k].quantity * details[k].unitPrice)
  }

  /** Every id in use lies below the next one the sequence hands out. */
  ghost predicate IdsBelow<T>(table: map<nat, T>, next: nat)
  {
    forall id :: id in table ==> id < next
  }

  /** The database: one map per table and one id sequence per table. */
  class Store {
    var invoices: map<InvoiceId, Invoice>
    var details: map<DetailId, InvoiceDetail>
    var nextInvoiceId: InvoiceId
    var nextDetailId: DetailId

    /** What the unique and foreign-key constraints and `save` guarantee of
        every stored state. */
    ghost predicate Valid()
      reads this
    {
      && IdsBelow(invoices, nextInvoiceId)
      && IdsBelow(details, nextDetailId)
      && ReferencesExist(details, invoices)
      && TotalsComputed(details)
      && UniqueNumbers(invoices)
    }

    /** The invoice numbers in use, leaving out the invoice `except` (the
        instance being updated, which may keep its own number). */
    function TakenNumbers(except: Option<InvoiceId>): set<string>
      reads this
    {
      set id | id in invoices && Some(id) != except :: invoices[id].invoiceNumber
    }

    /** The ids of the details that reference `invoice` (`invoice.details.all()`). */
    function DetailsOf(invoice: InvoiceId): set<DetailId>
      reads this
    {
      RowsOf(details, invoice)
    }

    constructor ()
      ensures Valid()
      ensures invoices == map[] && details == map[]
      ensures nextInvoiceId == 0 && nextDetailId == 0
    {
      invoices := map[];
      details := map[];
      nextInvoiceId := 0;
      nextDetailId := 0;
    }

    /** `Invoice.objects.create(...)`: an INSERT under the next id, refused
        when the invoice number is already in use. */
    method CreateInvoice(inv: Invoice) returns (r: Result<InvoiceId, IntegrityError>)
      requires Valid()
      modifies this
      ensures Valid()
      ensures r.Ok? <==> inv.invoiceNumber !in old(TakenNumbers(None))
      ensures r.Ok? ==> && r.value == old(nextInvoiceId) && r.value !in old(invoices)
                        && invoices == old(invoices)[r.value := inv]
                        && nextInvoiceId == old(nextInvoiceId) + 1
      ensures r.Err? ==> invoices == old(invoices) && nextInvoiceId == old(nextInvoiceId)
      ensures details == old(details) && nextDetailId == old(nextDetailId)
    {
      if inv.invoiceNumber in TakenNumbers(None) {
        return Err(UniqueViolation);
      }
      r := Ok(nextInvoiceId);
      invoices := invoices[nextInvoiceId := inv];
      nextInvoiceId := nextInvoiceId + 1;
    }

    /** `instance.save()` on a stored invoice: an UPDATE of its row, refused
        when another invoice already uses the new number. */
    method SaveInvoice(id: InvoiceId, inv: Invoice) returns (r: Result<(), IntegrityError>)
      requires Valid() && id in invoices
      modifies this
      ensures Valid()
      ensures r.Ok? <==> inv.invoiceNumber !in old(TakenNumbers(Some(id)))
      ensures invoices == if r.Ok? then old(invoices)[id := inv] else old(invoices)
      ensures details == old(details)
      ensures nextInvoiceId == old(nextInvoiceId) && nextDetailId == old(nextDetailId)
    {
      if inv.invoiceNumber in TakenNumbers(Some(id)) {
        return Err(UniqueViolation);
      }
      r := Ok(());
      invoices := invoices[id := inv];
    }

    /** `InvoiceDetail.objects.create(invoice=..., **fields)`: the new row goes
        through `save`, so its `line_total` is recomputed, and is inserted
        under the next id. */
    method CreateDetail(d: InvoiceDetail) returns (id: DetailId)
      requires Valid() && d.invoice in invoices
      modifies this
      ensures Valid()
      ensures id == old(nextDetailId) && id !in old(details)
      ensures details == old(details)[id := Saved(d)]
      ensures nextDetailId == old(nextDetailId) + 1
      ensures invoices == old(invoices) && nextInvoiceId == old(nextInvoiceId)
    {
      id := nextDetailId;
      details := details[id := Saved(d)];
      nextDetailId := nextDetailId + 1;
    }

    /** `invoice.details.all().delete()`: removes the rows that reference
        `invoice` and no other. */
    method DeleteDetailsOf(invoice: InvoiceId)
      requires Valid()
      modifies this
      ensures Valid()
      ensures details == DetailsNotOf(old(details), invoice)
      ensures DetailsOf(invoice) == {}
      ensures invoices == old(invoices)
      ensures nextInvoiceId == old(nextInvoiceId) && nextDetailId == old(nextDetailId)
    {
      details := DetailsNotOf(details, invoice);
    }

    /** `instance.delete()`: the foreign key cascades, so the rows that
        reference the invoice go with it; every other row stays. */
    method DeleteInvoice(id: InvoiceId)
      requires Valid() && id in invoices
      modifies this
      ensures Valid()
      ensures invoices == old(invoices) - {id}
      ensures details == DetailsNotOf(old(details), id)
      ensures nextInvoiceId == old(nextInvoiceId) && nextDetailId == old(nextDetailId)
    {
      details := DetailsNotOf(details, id);
      invoices := invoices - {id};
    }
  }
}
