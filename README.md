# Invoices with line items: a verified model of the write path

The repository is a small Django REST Framework service for invoices. Each
invoice has a unique invoice number, a customer name and a date. It owns one or
more detail lines, each with a description, a quantity, a unit price and a
line total. This project models `invoices/models.py` and
`invoices/serializers.py` in Dafny:

- `models.dfy` (module `Models`) models the storage layer. The two tables are
  maps inside a `Store` class, with one id sequence per table. `Store`
  enforces two constraints of the schema: the unique `invoice_number`, and
  the foreign key from each detail to a stored invoice. Deleting an invoice
  removes its details, as the ORM's cascade in `instance.delete()` does.
  The column limits (`varchar` lengths, the quantity check, `NUMERIC(10,2)`)
  are left to validation, which every write path runs first. `Saved` models
  what `InvoiceDetail.save` does to a row: `line_total` is recomputed as
  quantity times unit price. Amounts are integer cents. With two decimal
  places a `DecimalField` holds exactly those values, so the product is exact.
- `serializers.dfy` (module `Serializers`) models the two serializers:
  - Validation is a pure function. It maps the submitted data to the list of
    errors `is_valid()` reports. The field-level checks are the ones the model
    fields imply: presence; for the three text fields, whitespace stripping,
    a value that is not blank, `max_length` and no null character (U+0000);
    `unique`; and the integer range of a `PositiveIntegerField` on PostgreSQL. The `validate_quantity`, `validate_unit_price`
    and `validate` methods add the source's own messages. Each error list is
    proved equal, as a set, to an independent predicate that says which
    errors the data deserves. `ValidateAcceptsExactly` proves that validation
    succeeds exactly on the data a field-by-field predicate accepts.
  - `Create`, `Update` and `Delete` are imperative methods over a `Store`.
    The detail rows are created by a loop (`CreateDetails`). That loop is
    proved against `Created`, the map of rows it inserts. Each method states
    its whole new state. All three preserve `WellFormed`: every stored field
    passed validation, and every invoice has at least one detail.

Framework behaviour the model relies on:

- The framework gathers the errors of every field. `InvoiceSerializer.validate`
  runs only when no field has an error.
- The framework maps the `PositiveIntegerField` quantity to an integer field
  whose range comes from the database backend. The model assumes PostgreSQL,
  which gives minimum 0 and maximum 2147483647. `validate_quantity` runs only
  on a value inside that range. So a negative quantity draws the framework's
  minimum-value error (`BelowMinimum(0)`), and only a quantity of 0 draws
  "Quantity must be a positive integer.". The code behaves this way, though
  the source's message suggests that every quantity `<= 0` gets it.
- On a full create or update, a missing `details` key draws the framework's
  "required" error. On a partial update, it reaches `validate`, which
  raises "Invoice must have at least one detail item.". An empty list draws
  that message in both cases.
- `UniqueValidator` on `invoice_number` leaves out the instance being updated.
  The store's unique constraint backs it. The model proves that the
  constraint is never hit after validation has passed.
- The three text fields (`invoice_number`, `customer_name`, `description`)
  have no `blank=True`, so the framework refuses an empty value. It strips
  surrounding whitespace as Python's `str.strip()` does (`Trim`), so a value
  of only whitespace is also blank. The length limit and the uniqueness test
  apply to the stripped value, and the stripped value is what gets stored.
  A blank value draws only the blank error. Every text field also refuses a
  value that holds the null character; that error is reported alongside a
  length or uniqueness error.
- Create and update run no transaction. In the model, no step after
  validation can fail, so a failed call changes nothing and a successful
  one writes everything.

## Model

| member | source | states |
|---|---|---|
| Models.Saved | invoice_project/invoices/models.py:18-20 | the saved row's line total is quantity × unit price; every other field is unchanged |
| Models.SavedIgnoresSuppliedTotal | invoice_project/invoices/models.py:16-19 | a line total supplied by the caller has no effect on the stored row, and saving twice stores the same row as saving once |
| Models.LineTotalIsExact | invoice_project/invoices/models.py:15-19 | the line total `save` stores, read as a decimal amount, equals the decimal product of the row's quantity and unit price, so no rounding occurs |
| Models.Store.constructor | invoice_project/invoices/models.py:3-16 | an empty database satisfies the schema invariant |
| Models.Store.CreateInvoice | invoice_project/invoices/models.py:4 | the insert succeeds exactly when the invoice number is unused; it adds one row under a fresh id, or else changes nothing; the invariant (unique numbers, existing references, computed totals) holds afterwards |
| Models.Store.SaveInvoice | invoice_project/invoices/models.py:4 | an update of an invoice row succeeds exactly when no other invoice uses the new number; only that row changes |
| Models.Store.CreateDetail | invoice_project/invoices/models.py:12-20 | a detail of a stored invoice is inserted under a fresh id as `save` leaves it; nothing else changes |
| Models.Store.DeleteDetailsOf | invoice_project/invoices/models.py:12 | exactly the rows that reference the invoice are removed; afterwards the invoice has no rows |
| Models.Store.DeleteInvoice | invoice_project/invoices/models.py:12 | deleting an invoice cascades to exactly its rows; every other invoice and row stays, and the foreign-key invariant holds afterwards |
| Serializers.Trim | invoice_project/invoices/models.py:4 | the `str.strip()` the framework applies to a text field never lengthens the text; what it removes and leaves is stated by the lemmas below |
| Serializers.TrimStartRemovesLeadingSpace | invoice_project/invoices/models.py:13 | stripping the front removes exactly a leading run of whitespace, and what is left does not start with whitespace |
| Serializers.TrimEndRemovesTrailingSpace | invoice_project/invoices/models.py:13 | stripping the back removes exactly a trailing run of whitespace, and what is left does not end with whitespace |
| Serializers.TrimBlank | invoice_project/invoices/models.py:4-5 | a text strips to nothing exactly when it is all whitespace, and a stripped text has no whitespace at either end |
| Serializers.TrimIdempotent | invoice_project/invoices/models.py:4-5 | stripping a stripped text changes nothing |
| Serializers.TrimmedIsFixed | invoice_project/invoices/models.py:4-5 | a text with no whitespace at either end is its own stripped form |
| Serializers.TextErrors | invoice_project/invoices/models.py:4-5 | a text field is reported exactly when, once stripped, it is blank (and then only as blank), longer than its `max_length`, or holds the null character |
| Serializers.ValidateQuantity | invoice_project/invoices/serializers.py:10-13 | accepts a quantity exactly when it is positive and returns it unchanged; otherwise fails with the source's message |
| Serializers.ValidateUnitPrice | invoice_project/invoices/serializers.py:15-18 | accepts a unit price exactly when it is positive and returns it unchanged; otherwise fails with the source's message |
| Serializers.ValidateInvoice | invoice_project/invoices/serializers.py:28-31 | accepts exactly the data whose details list is present and not empty; otherwise fails with the source's message |
| Serializers.QuantityErrors | invoice_project/invoices/serializers.py:10-13 | the quantity errors are exactly the framework range errors and, for 0, the `validate_quantity` message |
| Serializers.DetailErrors | invoice_project/invoices/models.py:13-15 | one entry's errors are exactly what the entry deserves: a description that, once stripped, is blank, over 255 characters or holds the null character, a quantity out of range or 0, a unit price of 0 or less |
| Serializers.DetailsErrors | invoice_project/invoices/serializers.py:22 | the nested list's errors are exactly the errors of its entries, each at its own index |
| Serializers.InvoiceNumberErrors | invoice_project/invoices/models.py:4 | the invoice number is reported exactly when it is missing on a full write, or, once stripped, blank, longer than 50 characters, holding the null character, or used by another invoice |
| Serializers.CustomerNameErrors | invoice_project/invoices/models.py:5 | the customer name is reported exactly when it is missing on a full write, or, once stripped, blank, longer than 255 characters or holding the null character |
| Serializers.FieldErrors | invoice_project/invoices/serializers.py:21-26 | the field-level errors are exactly the violations of every field and of every detail entry, and the list is empty exactly when there are none |
| Serializers.Validate | invoice_project/invoices/serializers.py:21-31 | the reported errors are the field-level ones; only when there are none does the no-details error appear, for a missing or empty list |
| Serializers.ValidateAcceptsExactly | invoice_project/invoices/serializers.py:10-31 | validation reports nothing exactly when the data is acceptable field by field: all required fields present; every text, once stripped, non-blank, within 50/255 and free of the null character; the stripped number unused; details present and non-empty; every quantity in 1..2147483647; every unit price positive |
| Serializers.UnacceptableWitness | invoice_project/invoices/serializers.py:10-31 | data that is not acceptable draws at least one reported error |
| Serializers.TextWitness | invoice_project/invoices/models.py:4-5 | a text the field does not accept draws a blank, too-long or null-character error at that field |
| Serializers.NonPositiveQuantityRejected | invoice_project/invoices/serializers.py:10-13 | a detail with quantity 0 draws the source's quantity message at its index; a negative quantity draws the range error; either way the data is refused |
| Serializers.NonPositiveUnitPriceRejected | invoice_project/invoices/serializers.py:15-18 | a detail with unit price 0 or less draws the source's unit price message at its index |
| Serializers.NoDetailsRejected | invoice_project/invoices/serializers.py:28-31 | a missing or empty details list is always refused; when no field-level error is reported, the only error is the no-details message; on a full write a missing list draws the framework's required error instead, and the no-details message does not appear |
| Serializers.DuplicateNumberRejected | invoice_project/invoices/models.py:4 | an invoice number that, once stripped, is held by another invoice is reported as not unique, whatever whitespace surrounds it |
| Serializers.PaddedNumberExample | invoice_project/invoices/models.py:4 | a number submitted as " INV-1" is refused as not unique when "INV-1" is stored, and a description of only spaces is refused as blank |
| Serializers.NullCharacterExample | invoice_project/invoices/models.py:4 | an invoice number "A\0" and a description "W\0" each draw the null-character error |
| Serializers.BlankTextRejected | invoice_project/invoices/models.py:4 | an invoice number of only whitespace draws the blank error and no other error at that field |
| Serializers.Instance | invoice_project/invoices/serializers.py:42 | the unsaved row built from a validated entry references the given invoice and carries the stripped description; the row `save` writes from it holds quantity × unit price, whatever line total the entry supplied |
| Serializers.Created | invoice_project/invoices/serializers.py:41-42 | the rows inserted for the details list: entry i is saved, with its description stripped, under id `from + i`, and there are no other rows |
| Serializers.CreatedExtends | invoice_project/invoices/serializers.py:41-42 | a table holding the old rows plus one saved row per entry at the new ids is the old table plus `Created` |
| Serializers.CreatedSize | invoice_project/invoices/serializers.py:41-42 | the loop inserts exactly one row per entry |
| Serializers.Merged | invoice_project/invoices/serializers.py:49-51 | each submitted invoice field replaces the stored one with its stripped value; each absent field keeps the stored value |
| Serializers.MergedReplacesOnlyPresent | invoice_project/invoices/serializers.py:49-51 | merging is idempotent; data with every field replaces the invoice whatever it held; data with no field keeps it |
| Serializers.StrippedIsStored | invoice_project/invoices/models.py:4-5 | the stripped value of an accepted text is stripped, non-blank, within the limit and free of the null character, so it is fit to be stored |
| Serializers.SavedRowAcceptable | invoice_project/invoices/serializers.py:42 | the row saved for an accepted entry has a stripped, accepted description, a quantity in range and a positive price |
| Serializers.MergedIsStored | invoice_project/invoices/serializers.py:49-52 | merging accepted data into a stored invoice gives an invoice fit to be stored |
| Serializers.CreatedRowsAcceptable | invoice_project/invoices/serializers.py:41-42 | every row inserted for accepted entries is acceptable and belongs to the invoice |
| Serializers.CreateKeepsWellFormed | invoice_project/invoices/serializers.py:33-44 | after a create, every stored field is acceptable and every invoice, the new one included, has a detail |
| Serializers.UpdateKeepsWellFormed | invoice_project/invoices/serializers.py:46-61 | after replacing an invoice's rows, every stored field is acceptable and every invoice still has a detail |
| Serializers.ReplacedRowsOf | invoice_project/invoices/serializers.py:56-59 | after deleting and recreating, the invoice's rows are exactly the newly inserted ones |
| Serializers.DeleteKeepsWellFormed | invoice_project/invoices/serializers.py:63-66 | after the cascade, every remaining invoice keeps its details |
| Serializers.CreateDetails | invoice_project/invoices/serializers.py:41-42 | the loop adds `Created` to the detail table and advances the id sequence by the number of entries; invoices are untouched |
| Serializers.Create | invoice_project/invoices/serializers.py:33-44 | refuses exactly the unacceptable data with the validation errors, and then changes nothing; otherwise adds the invoice with stripped texts under a fresh id and one saved row per entry, disjoint from the old rows; the invoice sequence advances by 1 and the detail sequence by the number of entries; keeps `Valid` and `WellFormed` |
| Serializers.Update | invoice_project/invoices/serializers.py:46-61 | refuses exactly the unacceptable data, and then changes nothing; otherwise merges the present (stripped) fields into the invoice, removes all its old rows and gives it exactly one new row per entry; other invoices' rows are untouched; the detail sequence advances by the number of entries; keeps `Valid` and `WellFormed` |
| Serializers.Delete | invoice_project/invoices/serializers.py:63-66 | removes the invoice and exactly its rows and returns the source's confirmation message; both sequences are unchanged; keeps `Valid` and `WellFormed` |

## Left out

- `__str__` of both models: presentation only.
- Date parsing and formatting: a date is only stored, so it is an uninterpreted triple.
- `max_digits=10` of `unit_price` and `line_total`, and the framework's decimal parsing: amounts are unbounded integer cents. Validation checks quantity and unit price separately, so it does not refuse a line whose product exceeds ten digits. In the source, such a line fails only where the database enforces `NUMERIC(10,2)`, inside `save` in the loop of `create` or `update`. By then the invoice row is written, and no transaction undoes it. The model stores the product and does not capture that failure.
- The texts of the framework's own errors (required, too long, not unique, out of range): they appear as symbolic `Problem` values. The source's own three validation messages and the delete message appear verbatim.
- Serializers.NonPositiveQuantityRejected: states that a negative quantity draws the framework's range error, not "Quantity must be a positive integer.". This holds on a backend that gives the field a range, such as PostgreSQL, because the range check runs first. On a backend without a range, a negative quantity reaches `validate_quantity` and draws the source's message.
- Serializers.QuantityErrors: assumes the PostgreSQL range 0..2147483647 for a `PositiveIntegerField`. The project fixes no database backend. MySQL allows up to 4294967295. SQLite before Django 5.0 gives no range, so there only `validate_quantity` limits the value.
- Transactions, concurrency and the race between the uniqueness check and the insert: the model runs one call at a time.
- Id values that a failed insert would consume from a database sequence: ids advance only on a successful insert.
- Looking up the invoice for update or delete, and the not-found response: that belongs to the views, which are not part of this model. The methods take the id of a stored invoice.
- Detail entries with a missing field: an entry always carries a description, a quantity and a unit price. In a partial (PATCH) update the framework skips missing fields, nested entries included, so such an entry passes validation. The source then fails partway through `update`: the invoice is already saved and its old details deleted when `save` cannot compute the line total. The model cannot express that input.
- An explicit `null` for a field: an absent value is modelled, a null one is not. The framework refuses null for every field except `line_total` (`null=True`). There a null is stored the same way as an absent value, since `save` overwrites it.
- Texts holding a lone surrogate (U+D800 to U+DFFF), which the framework's text fields refuse: a Dafny `char` cannot hold one, so the input cannot be expressed.
- The read side (listing and retrieving invoices with nested details): it does not change state.
