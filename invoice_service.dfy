/**
 * The invoice service of the music catalogue: building an invoice row from
 * a record whose customer must exist, the not-found rules of update, delete
 * and lookup, the check that invoice lines add up to the invoice total, and
 * the per-country sales report.
 */
module InvoiceService {
  import opened Wrappers
  import opened ChinookDtos

  /** An invoice row; `total` is a `BigDecimal`, exact as a real number. */
  datatype Invoice = Invoice(customer: int, invoiceDate: Timestamp, billingAddress: Option<string>,
                             billingCity: Option<string>, billingState: Option<string>,
                             billingCountry: Option<string>, billingPostalCode: Option<string>, total: real)

  /** An invoice line: the invoice it belongs to, the track sold, its unit price and the quantity. */
  datatype InvoiceLine = InvoiceLine(invoice: int, track: int, unitPrice: real, quantity: int)

  /**
   * updateInvoiceFromDto: the record's customer must exist (a null id is
   * refused by the repository, an unknown one is not found); then customer,
   * date, billing fields and total are all taken from the record.
   */
  function InvoiceFromDto(dto: InvoiceDto, customers: set<int>): (r: Result<Invoice, Exception>)
    requires NewInvoiceDto(dto).Ok?
    ensures dto.customer.value.id.None? ==> r == Err(IllegalArgument)
    ensures dto.customer.value.id.Some? && dto.customer.value.id.value !in customers ==> r == Err(EntityNotFound)
    ensures r.Ok? <==> dto.customer.value.id.Some? && dto.customer.value.id.value in customers
    ensures r.Ok? ==> Some(r.value.customer) == dto.customer.value.id && r.value.customer in customers
                      && Some(r.value.invoiceDate) == dto.invoiceDate && Some(r.value.total) == dto.total
                      && r.value.billingAddress == dto.billingAddress && r.value.billingCity == dto.billingCity
                      && r.value.billingState == dto.billingState && r.value.billingCountry == dto.billingCountry
                      && r.value.billingPostalCode == dto.billingPostalCode
    ensures r.Ok? ==> r.value.total >= 0.0
  {
    var id := dto.customer.value.id;
    if id.None? then Err(IllegalArgument)
    else if id.value !in customers then Err(EntityNotFound)
    else Ok(Invoice(id.value, dto.invoiceDate.value, dto.billingAddress, dto.billingCity, dto.billingState,
                    dto.billingCountry, dto.billingPostalCode, dto.total.value))
  }

  /** The amount of a line: unit price times quantity. */
  function Amount(line: InvoiceLine): real {
    line.unitPrice * line.quantity as real
  }

  /** The stream's `reduce(ZERO, add)` over the line amounts, a left fold. */
  function LinesTotal(lines: seq<InvoiceLine>): real {
    if lines == [] then 0.0 else LinesTotal(lines[..|lines| - 1]) + Amount(lines[|lines| - 1])
  }

  /** The total of two runs of lines is the sum of their totals. */
  lemma {:induction false} LinesTotalConcat(a: seq<InvoiceLine>, b: seq<InvoiceLine>)
    ensures LinesTotal(a + b) == LinesTotal(a) + LinesTotal(b)
    decreases |b|
  {
    if b == [] {
      assert a + b == a;
    } else {
      assert (a + b)[..|a + b| - 1] == a + b[..|b| - 1];
      assert (a + b)[|a + b| - 1] == b[|b| - 1];
      LinesTotalConcat(a, b[..|b| - 1]);
    }
  }

  /** Lines with non-negative prices and positive quantities never add up to less than zero. */
  lemma {:induction false} LinesTotalNonNegative(lines: seq<InvoiceLine>)
    requires forall i :: 0 <= i < |lines| ==> lines[i].unitPrice >= 0.0 && lines[i].quantity > 0
    ensures LinesTotal(lines) >= 0.0
  {
    if lines != [] {
      LinesTotalNonNegative(lines[..|lines| - 1]);
    }
  }

  /** Swapping two neighbouring lines leaves the total unchanged, so the check ignores line order. */
  lemma LinesTotalSwap(a: seq<InvoiceLine>, x: InvoiceLine, y: InvoiceLine, b: seq<InvoiceLine>)
    ensures LinesTotal(a + [x, y] + b) == LinesTotal(a + [y, x] + b)
  {
    LinesTotalConcat(a + [x, y], b);
    LinesTotalConcat(a + [y, x], b);
    LinesTotalConcat(a, [x, y]);
    LinesTotalConcat(a, [y, x]);
    assert [x, y][..1] == [x];
    assert [y, x][..1] == [y];
  }

  /**
   * validateInvoiceItems: the sum of the line amounts must equal, as a
   * number (`compareTo`, so scale does not matter), the total of the first
   * line's invoice. An empty list fails reading its first element. Only the
   * first line's invoice is read, so only it has to be known.
   */
  function ValidateInvoiceItems(lines: seq<InvoiceLine>, invoices: map<int, Invoice>): (r: Option<Exception>)
    requires lines != [] ==> lines[0].invoice in invoices
    ensures lines == [] ==> r == Some(IndexOutOfBounds)
    ensures r == None <==> lines != [] && LinesTotal(lines) == invoices[lines[0].invoice].total
    ensures r.Some? ==> r.value == (if lines == [] then IndexOutOfBounds else IllegalArgument)
  {
    var total := LinesTotal(lines);
    if lines == [] then Some(IndexOutOfBounds)
    else if total != invoices[lines[0].invoice].total then Some(IllegalArgument)
    else None
  }

  /** A value of a report row, as the query returns it. */
  datatype Cell = Text(string) | Whole(int) | Decimal(real)

  /**
   * getSalesByCountry: one map per report row, in row order, holding the
   * row's first three columns under "country", "invoiceCount" and
   * "totalSales". A row with fewer than three columns fails with an index
   * error and no report is returned.
   */
  method SalesByCountry(rows: seq<seq<Cell>>) returns (r: Result<seq<map<string, Cell>>, Exception>)
    ensures r.Ok? <==> forall i :: 0 <= i < |rows| ==> |rows[i]| >= 3
    ensures r.Err? ==> r.error == IndexOutOfBounds
    ensures r.Ok? ==> |r.value| == |rows|
    ensures r.Ok? ==> forall i :: 0 <= i < |rows| ==>
              r.value[i].Keys == {"country", "invoiceCount", "totalSales"}
              && r.value[i]["country"] == rows[i][0] && r.value[i]["invoiceCount"] == rows[i][1]
              && r.value[i]["totalSales"] == rows[i][2]
  {
    var report: seq<map<string, Cell>> := [];
    for i := 0 to |rows|
      invariant |report| == i
      invariant forall j :: 0 <= j < i ==> |rows[j]| >= 3
      invariant forall j :: 0 <= j < i ==>
                  report[j].Keys == {"country", "invoiceCount", "totalSales"}
                  && report[j]["country"] == rows[j][0] && report[j]["invoiceCount"] == rows[j][1]
                  && report[j]["totalSales"] == rows[j][2]
    {
      if |rows[i]| < 3 {
        return Err(IndexOutOfBounds);
      }
      var entry := map["country" := rows[i][0], "invoiceCount" := rows[i][1], "totalSales" := rows[i][2]];
      report := report + [entry];
    }
    r := Ok(report);
  }

  /** The invoice table, its lines, and the ids of the existing customers. */
  class InvoiceStore {
    var invoices: map<int, Invoice>
    var lines: map<int, InvoiceLine>
    var customers: set<int>
    var nextId: int

    /** Row ids stay below the counter, every line belongs to an invoice, and no saved total is negative. */
    ghost predicate Valid()
      reads this
    {
      (forall k :: k in invoices ==> k < nextId && invoices[k].total >= 0.0)
      && (forall l :: l in lines ==> lines[l].invoice in invoices)
    }

    /** The lines of invoice `id`. */
    function LinesOf(id: int): (s: set<int>)
      reads this
      ensures forall l :: l in s <==> l in lines && lines[l].invoice == id
    {
      set l | l in lines && lines[l].invoice == id
    }

    constructor(invoices: map<int, Invoice>, lines: map<int, InvoiceLine>, customers: set<int>, nextId: int)
      requires forall k :: k in invoices ==> k < nextId && invoices[k].total >= 0.0
      requires forall l :: l in lines ==> lines[l].invoice in invoices
      ensures Valid()
      ensures this.invoices == invoices && this.lines == lines && this.customers == customers
      ensures this.nextId == nextId
    {
      this.invoices, this.lines, this.customers, this.nextId := invoices, lines, customers, nextId;
    }

    /** createInvoice: a row built from the record, unless its customer cannot be found. */
    method CreateInvoice(dto: InvoiceDto) returns (r: Result<int, Exception>)
      requires Valid() && NewInvoiceDto(dto).Ok?
      modifies this
      ensures Valid() && lines == old(lines) && customers == old(customers)
      ensures InvoiceFromDto(dto, customers).Err? ==>
                r == Err(InvoiceFromDto(dto, customers).error) && invoices == old(invoices) && nextId == old(nextId)
      ensures InvoiceFromDto(dto, customers).Ok? ==>
                r == Ok(old(nextId)) && old(nextId) !in old(invoices)
                && invoices == old(invoices)[old(nextId) := InvoiceFromDto(dto, customers).value]
    {
      var built := InvoiceFromDto(dto, customers);
      if built.Err? {
        return Err(built.error);
      }
      r := Ok(nextId);
      invoices := invoices[nextId := built.value];
      nextId := nextId + 1;
    }

    /**
     * updateInvoice: an unknown id is an EntityNotFoundException, then an
     * unknown customer is; otherwise every field is overwritten from the
     * record, so the new row does not depend on the old one.
     */
    method UpdateInvoice(id: int, dto: InvoiceDto) returns (r: Result<Invoice, Exception>)
      requires Valid() && NewInvoiceDto(dto).Ok?
      modifies this
      ensures Valid() && lines == old(lines) && customers == old(customers) && nextId == old(nextId)
      ensures id !in old(invoices) ==> r == Err(EntityNotFound) && invoices == old(invoices)
      ensures id in old(invoices) ==>
                r == InvoiceFromDto(dto, customers)
                && invoices == (if r.Ok? then old(invoices)[id := r.value] else old(invoices))
    {
      if id !in invoices {
        return Err(EntityNotFound);
      }
      r := InvoiceFromDto(dto, customers);
      if r.Ok? {
        invoices := invoices[id := r.value];
      }
    }

    /** deleteInvoice: an unknown id is an EntityNotFoundException; otherwise the invoice goes, with its lines. */
    method DeleteInvoice(id: int) returns (thrown: Option<Exception>)
      requires Valid()
      modifies this
      ensures Valid() && customers == old(customers) && nextId == old(nextId)
      ensures id !in old(invoices) ==> thrown == Some(EntityNotFound) && invoices == old(invoices) && lines == old(lines)
      ensures id in old(invoices) ==>
                thrown == None && invoices == old(invoices) - {id} && lines == old(lines) - old(LinesOf(id))
    {
      if id !in invoices {
        return Some(EntityNotFound);
      }
      lines := lines - LinesOf(id);
      invoices := invoices - {id};
      thrown := None;
    }

    /** getInvoice: the row, or an EntityNotFoundException for an unknown id. */
    function GetInvoice(id: int): (r: Result<Invoice, Exception>)
      reads this
      ensures r.Ok? <==> id in invoices
      ensures r.Ok? ==> r.value == invoices[id]
      ensures r.Err? ==> r.error == EntityNotFound
    {
      if id in invoices then Ok(invoices[id]) else Err(EntityNotFound)
    }

    /** getInvoiceDetail: the row with its lines, or an EntityNotFoundException for an unknown id. */
    function GetInvoiceDetail(id: int): (r: Result<(Invoice, set<int>), Exception>)
      reads this
      ensures r.Ok? <==> id in invoices
      ensures r.Ok? ==> r.value.0 == invoices[id]
                        && forall l :: l in r.value.1 <==> l in lines && lines[l].invoice == id
      ensures r.Err? ==> r.error == EntityNotFound
    {
      if id in invoices then Ok((invoices[id], LinesOf(id))) else Err(EntityNotFound)
    }
  }
}
