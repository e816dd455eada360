/**
 Invoices: the row and its number in one transaction, the PDF after it, its url in a guarded update.
 */
module Invoices {
  import opened Schema
  import Money

  type Orders = map<OrderId, Order>

  type Rows = map<OrderId, Invoice>

  type Sequences = map<TenantId, nat>

  datatype InvoiceError =
    | OrderNotFound
    | OrderNotPaid
    /** The unique constraint on (tenant, number) refused the row and the order has none. */
    | InvoiceMissing
    | RenderingFailed

  // ------------------------------------------------------- the transaction

  function LastNumber(sequences: Sequences, tenant: TenantId): nat
  {
    if tenant in sequences then sequences[tenant] else 0
  }

  function InvoiceFor(order: Order, number: nat): Invoice
  {
    Invoice(order.tenant, number, order.total, Money.Tax(order.total), "")
  }

  predicate NumberTaken(invoices: Rows, tenant: TenantId, number: nat)
  {
    exists o :: o in invoices && invoices[o].tenant == tenant && invoices[o].number == number
  }

  /** The unique constraints refuse a second row for the order, and a second use of the number. */
  predicate Clash(invoices: Rows, sequences: Sequences, o: OrderId, tenant: TenantId)
  {
    o in invoices || NumberTaken(invoices, tenant, LastNumber(sequences, tenant) + 1)
  }

  /** The row inserted under the next number, or both tables as they were when a constraint refuses it. */
  function RowsAfter(invoices: Rows, sequences: Sequences, o: OrderId, order: Order): Rows
  {
    if Clash(invoices, sequences, o, order.tenant) then invoices
    else invoices[o := InvoiceFor(order, LastNumber(sequences, order.tenant) + 1)]
  }

  function SequencesAfter(invoices: Rows, sequences: Sequences, o: OrderId, order: Order): Sequences
  {
    if Clash(invoices, sequences, o, order.tenant) then sequences
    else sequences[order.tenant := LastNumber(sequences, order.tenant) + 1]
  }

  /** UPDATE the url WHERE it is still empty. */
  function UrlWritten(invoices: Rows, o: OrderId, url: string): Rows
  {
    if o in invoices && invoices[o].pdfUrl == "" then invoices[o := invoices[o].(pdfUrl := url)] else invoices
  }

  // ------------------------------------------------------- the service call

  /** What a worker decides from the rows it reads first. */
  datatype Start = Complete(invoice: Invoice) | Rejected(error: InvoiceError) | NeedsRow(order: Order) | NeedsPdf

  function Begin(orders: Orders, invoices: Rows, o: OrderId): Start
  {
    if o in invoices then if invoices[o].pdfUrl != "" then Complete(invoices[o]) else NeedsPdf
    else if o !in orders then Rejected(OrderNotFound)
    else if !orders[o].status.Paid? then Rejected(OrderNotPaid)
    else NeedsRow(orders[o])
  }

  /** The two tables at some later moment of a call: other tasks may have committed in between. */
  datatype Tables = Tables(invoices: Rows, sequences: Sequences)

  class InvoiceService {
    constructor () {}

    /**
     A whole call among others: `atRow` are the two tables when its transaction starts, `atUrl` when the
     PDF is rendered.  `rendered` is the url of the PDF, None if rendering raises an error; the row and
     its number stay even then.
     */
    method GenerateInvoiceForOrder(d: Database, o: OrderId, atRow: Tables, atUrl: Tables, rendered: Option<string>)
      returns (r: Result<Invoice, InvoiceError>)
      requires rendered.Some? ==> rendered.value != ""
      requires d.invoices.Keys <= atRow.invoices.Keys <= atUrl.invoices.Keys
      requires o in d.orders ==> RowsAfter(atRow.invoices, atRow.sequences, o, d.orders[o]).Keys <= atUrl.invoices.Keys
      modifies d`invoices, d`sequences
      ensures match Begin(d.orders, old(d.invoices), o)
              case Complete(invoice) => d.invoices == old(d.invoices) && d.sequences == old(d.sequences) && r == Ok(invoice)
              case Rejected(e) => d.invoices == old(d.invoices) && d.sequences == old(d.sequences) && r == Err(e)
              case NeedsPdf => Finished(atUrl.invoices, d.invoices, o, rendered, r) && d.sequences == atUrl.sequences
              case NeedsRow(order) =>
                var rows := RowsAfter(atRow.invoices, atRow.sequences, o, order);
                if o !in rows then d.invoices == rows && d.sequences == atRow.sequences && r == Err(InvoiceMissing)
                else if rows[o].pdfUrl != "" then d.invoices == rows && d.sequences == atRow.sequences && r == Ok(rows[o])
                else Finished(atUrl.invoices, d.invoices, o, rendered, r) && d.sequences == atUrl.sequences
    {
      if o in d.invoices {
        if d.invoices[o].pdfUrl != "" {
          return Ok(d.invoices[o]);
        }
      } else {
        if o !in d.orders {
          return Err(OrderNotFound);
        }
        if d.orders[o].status != Paid {
          return Err(OrderNotPaid);
        }
        d.invoices, d.sequences := atRow.invoices, atRow.sequences;
        var created := CreateInvoiceRow(d, o, d.orders[o]);
        if !created {
          if o !in d.invoices {
            return Err(InvoiceMissing);
          }
          if d.invoices[o].pdfUrl != "" {
            return Ok(d.invoices[o]);
          }
        }
      }
      d.invoices, d.sequences := atUrl.invoices, atUrl.sequences;
      if rendered.None? {
        return Err(RenderingFailed);
      }
      if d.invoices[o].pdfUrl == "" {
        d.invoices := d.invoices[o := d.invoices[o].(pdfUrl := rendered.value)];
      }
      r := Ok(d.invoices[o]);
    }

    /** The rendering and the guarded update, from a row without a url. */
    ghost predicate Finished(before: Rows, after: Rows, o: OrderId, rendered: Option<string>, r: Result<Invoice, InvoiceError>)
    {
      match rendered
      case None => after == before && r == Err(RenderingFailed)
      case Some(url) => after == UrlWritten(before, o, url) && o in after && r == Ok(after[o])
    }

    /** The increment of the sequence and the insert; false when a constraint rolled both back. */
    method CreateInvoiceRow(d: Database, o: OrderId, order: Order) returns (created: bool)
      modifies d`invoices, d`sequences
      ensures d.invoices == RowsAfter(old(d.invoices), old(d.sequences), o, order)
      ensures d.sequences == SequencesAfter(old(d.invoices), old(d.sequences), o, order)
      ensures created <==> !Clash(old(d.invoices), old(d.sequences), o, order.tenant)
    {
      var sequences := d.sequences;
      if order.tenant !in d.sequences {
        d.sequences := d.sequences[order.tenant := 0];
      }
      var number := d.sequences[order.tenant] + 1;
      d.sequences := d.sequences[order.tenant := number];
      if o in d.invoices || NumberTaken(d.invoices, order.tenant, number) {
        d.sequences := sequences;
        return false;
      }
      d.invoices := d.invoices[o := Invoice(order.tenant, number, order.total, Money.Tax(order.total), "")];
      created := true;
    }
  }

  // ---------------------------------------------------------------- numbers

  /** A row is as it was issued: numbered within its sequence, amounts as the total implies. */
  ghost predicate Issued(invoice: Invoice, sequences: Sequences)
  {
    1 <= invoice.number <= LastNumber(sequences, invoice.tenant) && invoice.taxes == Money.Tax(invoice.total)
  }

  /** The numbers of every tenant are exactly 1 to its last number, each used once. */
  ghost predicate GapFree(invoices: Rows, sequences: Sequences)
  {
    && (forall o :: o in invoices ==> Issued(invoices[o], sequences))
    && (forall o, o' :: o in invoices && o' in invoices && o != o' && invoices[o].tenant == invoices[o'].tenant ==>
          invoices[o].number != invoices[o'].number)
    && (forall t, n :: 1 <= n <= LastNumber(sequences, t) ==> NumberTaken(invoices, t, n))
  }

  /** The transaction keeps the numbers gap-free, and with gap-free numbers only the order can clash. */
  lemma RowKeepsNumbers(invoices: Rows, sequences: Sequences, o: OrderId, order: Order)
    requires GapFree(invoices, sequences)
    ensures GapFree(RowsAfter(invoices, sequences, o, order), SequencesAfter(invoices, sequences, o, order))
    ensures Clash(invoices, sequences, o, order.tenant) <==> o in invoices
    ensures o in RowsAfter(invoices, sequences, o, order)
  {
    var rows, seqs := RowsAfter(invoices, sequences, o, order), SequencesAfter(invoices, sequences, o, order);
    if o !in invoices {
      var number := LastNumber(sequences, order.tenant) + 1;
      forall t, n | 1 <= n <= LastNumber(seqs, t) ensures NumberTaken(rows, t, n) {
        if t == order.tenant && n == number {
          assert rows[o].tenant == t && rows[o].number == n;
        } else {
          assert NumberTaken(invoices, t, n);
          var x :| x in invoices && invoices[x].tenant == t && invoices[x].number == n;
          assert rows[x] == invoices[x];
        }
      }
    }
  }

  /** Writing a url changes no number. */
  lemma UrlKeepsNumbers(invoices: Rows, sequences: Sequences, o: OrderId, url: string)
    requires GapFree(invoices, sequences)
    ensures GapFree(UrlWritten(invoices, o, url), sequences)
  {
    var rows := UrlWritten(invoices, o, url);
    forall t, n | 1 <= n <= LastNumber(sequences, t) ensures NumberTaken(rows, t, n) {
      assert NumberTaken(invoices, t, n);
      var x :| x in invoices && invoices[x].tenant == t && invoices[x].number == n;
      assert rows[x].tenant == t && rows[x].number == n;
    }
  }

  ghost function NumbersOf(invoices: Rows, tenant: TenantId): set<nat>
  {
    set o | o in invoices && invoices[o].tenant == tenant :: invoices[o].number
  }

  ghost function OrdersOf(invoices: Rows, tenant: TenantId): set<OrderId>
  {
    set o | o in invoices && invoices[o].tenant == tenant
  }

  /** The numbers 1 to `last`. */
  function UpTo(last: nat): (r: set<nat>)
    ensures forall n :: n in r <==> 1 <= n <= last
    ensures |r| == last
  {
    if last == 0 then {} else UpTo(last - 1) + {last}
  }

  /** Gap-free, as an auditor counts: the last number is the number of invoiced orders, and the numbers are 1 to it. */
  lemma NumbersAreCounted(invoices: Rows, sequences: Sequences, tenant: TenantId)
    requires GapFree(invoices, sequences)
    ensures NumbersOf(invoices, tenant) == UpTo(LastNumber(sequences, tenant))
    ensures |OrdersOf(invoices, tenant)| == LastNumber(sequences, tenant)
  {
    var last := LastNumber(sequences, tenant);
    forall n | n in UpTo(last) ensures n in NumbersOf(invoices, tenant) {
      assert NumberTaken(invoices, tenant, n);
    }
    SameSize(invoices, OrdersOf(invoices, tenant), tenant);
    assert NumbersOf(invoices, tenant) == set o | o in OrdersOf(invoices, tenant) :: invoices[o].number;
  }

  /** Distinct numbers: as many as orders. */
  lemma {:induction false} SameSize(invoices: Rows, orders: set<OrderId>, tenant: TenantId)
    requires forall o :: o in orders ==> o in invoices && invoices[o].tenant == tenant
    requires forall o, o' :: o in orders && o' in orders && o != o' ==> invoices[o].number != invoices[o'].number
    ensures |set o | o in orders :: invoices[o].number| == |orders|
  {
    var numbers := set o | o in orders :: invoices[o].number;
    if forall o :: o !in orders {
      assert orders == {} && numbers == {};
    } else {
      var o :| o in orders;
      SameSize(invoices, orders - {o}, tenant);
      assert numbers == (set x | x in orders - {o} :: invoices[x].number) + {invoices[o].number};
    }
  }

  // ------------------------------------------ what a call does, to the letter

  /** The first step of a call, check after check. */
  lemma StartsInOrder(orders: Orders, invoices: Rows, o: OrderId)
    ensures var start := Begin(orders, invoices, o);
            if o in invoices then start == (if |invoices[o].pdfUrl| == 0 then NeedsPdf else Complete(invoices[o]))
            else if o !in orders then start == Rejected(OrderNotFound)
            else if orders[o].status != Paid then start == Rejected(OrderNotPaid)
            else start == NeedsRow(orders[o])
  {
  }

  /**
   The transaction inserts the invoice of the order under the number after the tenant's last, with 15% tax
   half up and no url yet, and counts it; or, if the order has a row or the number is taken, does neither.
   */
  lemma RowIsIssuedExactly(invoices: Rows, sequences: Sequences, o: OrderId, order: Order)
    requires order.total < MONEY_BOUND
    ensures var rows, seqs := RowsAfter(invoices, sequences, o, order), SequencesAfter(invoices, sequences, o, order);
            var last := if order.tenant in sequences then sequences[order.tenant] else 0;
            if o in invoices || (exists x :: x in invoices && invoices[x].tenant == order.tenant && invoices[x].number == last + 1)
            then rows == invoices && seqs == sequences
            else
              && o in rows && rows == invoices[o := rows[o]] && seqs == sequences[order.tenant := last + 1]
              && rows[o].tenant == order.tenant && rows[o].number == last + 1 && rows[o].total == order.total
              && rows[o].pdfUrl == ""
              && 200 * rows[o].taxes <= 30 * order.total + 100 < 200 * rows[o].taxes + 200
  {
    Money.TaxBounds(order.total, order.total);
  }

  /** A url is written into the order's row if it has none, exactly as rendered, and nowhere else. */
  lemma UrlIsWrittenExactly(invoices: Rows, o: OrderId, url: string)
    ensures var rows := UrlWritten(invoices, o, url);
            && rows.Keys == invoices.Keys
            && (forall x :: x in invoices && x != o ==> rows[x] == invoices[x])
            && (o in invoices && invoices[o].pdfUrl != "" ==> rows[o] == invoices[o])
            && (o in invoices && invoices[o].pdfUrl == "" ==> rows[o].pdfUrl == url && rows[o] == invoices[o].(pdfUrl := url))
  {
  }
}
