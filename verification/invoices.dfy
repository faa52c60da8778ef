/** InvoiceService: invoices raised from payments, their numbering, and the
    status machine DRAFT -> SENT -> PAID or OVERDUE driven by sending,
    payment and the daily overdue check. PDF rendering and e-mail delivery
    are outside the model; only what `sendInvoice` records is kept. */
module Invoices {
  import opened Common
  import opened Queries
  import opened Accounts

  datatype InvoiceStatus = DRAFT | SENT | PAID | VOID | OVERDUE

  datatype PaymentStatus = PENDING | SUCCEEDED | FAILED | REFUNDED

  type PaymentId = nat
  type InvoiceId = nat

  /** The persisted payment, reduced to what invoicing reads; `createdAt` is
      the creation time every entity carries. */
  datatype Payment = Payment(
    userId: UserId,
    subscriptionId: nat,
    amount: real,
    currency: string,
    status: PaymentStatus,
    stripePaymentIntentId: string,
    createdAt: Time)

  /** The persisted invoice. */
  datatype Invoice = Invoice(
    userId: UserId,
    paymentId: Option<PaymentId>,
    invoiceNumber: string,
    amount: real,
    currency: string,
    status: InvoiceStatus,
    dueDate: Time,
    paidAt: Option<Time>,
    pdfUrl: Option<string>,
    emailSent: bool,
    emailSentAt: Option<Time>)

  /** Days between creating an invoice and its due date. */
  const DUE_DAYS: int := 30

  /** The shape of an invoice number: "INV-" and eight characters with no
      lower-case letter. */
  predicate IsInvoiceNumber(n: string)
  {
    |n| == 12 && n[..4] == "INV-" && forall i :: 4 <= i < 12 ==> !IsLower(n[i])
  }

  /** `generateInvoiceNumber`, given the random UUID it draws. */
  function InvoiceNumber(uuid: Uuid): (n: string)
    ensures IsInvoiceNumber(n)
  {
    "INV-" + UpperCase(uuid[..8])
  }

  /** Two UUIDs whose first eight characters are lower-case hexadecimal
      digits (as `UUID.toString` prints them) and differ give different
      invoice numbers. */
  lemma InvoiceNumbersDistinct(u: Uuid, v: Uuid)
    requires forall i :: 0 <= i < 8 ==> IsLowerHexDigit(u[i]) && IsLowerHexDigit(v[i])
    requires u[..8] != v[..8]
    ensures InvoiceNumber(u) != InvoiceNumber(v)
  {
    if InvoiceNumber(u) == InvoiceNumber(v) {
      assert InvoiceNumber(u)[4..] == UpperCase(u[..8]);
      assert InvoiceNumber(v)[4..] == UpperCase(v[..8]);
      UpperCaseInjectiveOnHex(u[..8], v[..8]);
    }
  }

  /** Where `sendInvoice` says the invoice's PDF is stored. */
  function PdfUrl(invoiceNumber: string): string
  {
    "invoices/" + invoiceNumber + ".pdf"
  }

  /** What every stored invoice satisfies: a well-formed number, a payment
      time once PAID, an e-mail time exactly when the e-mail was sent, a PDF
      location once sent, and SENT or OVERDUE only after sending. */
  predicate Consistent(inv: Invoice)
  {
    && IsInvoiceNumber(inv.invoiceNumber)
    && (inv.status == PAID ==> inv.paidAt.Some?)
    && (inv.emailSent <==> inv.emailSentAt.Some?)
    && (inv.emailSent ==> inv.pdfUrl == Some(PdfUrl(inv.invoiceNumber)))
    && (inv.status == SENT || inv.status == OVERDUE ==> inv.emailSent)
  }

  /** The record `createInvoice` saves for payment `id`. */
  function NewInvoice(p: Payment, id: PaymentId, uuid: Uuid, now: Time): (inv: Invoice)
    ensures Consistent(inv)
    ensures inv.status == DRAFT && !inv.emailSent && inv.paidAt.None?
    ensures inv.userId == p.userId && inv.paymentId == Some(id)
    ensures inv.amount == p.amount && inv.currency == p.currency
    ensures inv.dueDate - now == DUE_DAYS * SECONDS_PER_DAY
  {
    Invoice(p.userId, Some(id), InvoiceNumber(uuid), p.amount, p.currency, DRAFT,
            now + DUE_DAYS * SECONDS_PER_DAY, None, None, false, None)
  }

  /** The record `markInvoiceAsPaid` saves. */
  function Paid(inv: Invoice, now: Time): Invoice
  {
    inv.(status := PAID, paidAt := Some(now))
  }

  /** The record `sendInvoice` saves. */
  function Sent(inv: Invoice, now: Time): Invoice
  {
    inv.(status := SENT, emailSent := true, emailSentAt := Some(now), pdfUrl := Some(PdfUrl(inv.invoiceNumber)))
  }

  /** `findAllByStatusAndDueDateBefore(SENT, now)` selects this invoice. */
  predicate IsOverdue(inv: Invoice, now: Time)
  {
    inv.status == SENT && inv.dueDate < now
  }

  /** One invoice after the overdue check at `now`. */
  function MarkedOverdue(inv: Invoice, now: Time): Invoice
  {
    if IsOverdue(inv, now) then inv.(status := OVERDUE) else inv
  }

  /** Paying, sending and the overdue check keep an invoice consistent. */
  lemma TransitionsKeepConsistent(inv: Invoice, now: Time)
    requires Consistent(inv)
    ensures Consistent(Paid(inv, now))
    ensures Consistent(Sent(inv, now))
    ensures Consistent(MarkedOverdue(inv, now))
  {
  }

  /** A freshly created and sent invoice is picked up by the overdue check
      exactly when the check runs more than thirty days after creation; a
      paid one never is. */
  lemma OverdueAfterThirtyDays(p: Payment, id: PaymentId, uuid: Uuid, created: Time, paidAt: Time, now: Time)
    ensures var sent := Sent(NewInvoice(p, id, uuid, created), created);
      && (MarkedOverdue(sent, now).status == OVERDUE <==> now > created + DUE_DAYS * SECONDS_PER_DAY)
      && MarkedOverdue(Paid(sent, paidAt), now) == Paid(sent, paidAt)
  {
  }

  /** The invoice table after `checkOverdueInvoices` at `now`. */
  function OverdueChecked(rows: seq<Invoice>, now: Time): (r: seq<Invoice>)
    ensures |r| == |rows|
    ensures forall i :: 0 <= i < |rows| ==> !IsOverdue(r[i], now)
    ensures forall i :: 0 <= i < |rows| && IsOverdue(rows[i], now) ==> r[i].status == OVERDUE
    ensures forall i :: 0 <= i < |rows| ==> r[i] == rows[i] || (IsOverdue(rows[i], now) && r[i] == rows[i].(status := OVERDUE))
  {
    seq(|rows|, i requires 0 <= i < |rows| => MarkedOverdue(rows[i], now))
  }

  /** `findAllByStatusAndDueDateBefore(SENT, now)`: the invoices the overdue
      check selects. */
  function OverdueIds(rows: seq<Invoice>, now: Time): (ids: seq<InvoiceId>)
    ensures forall k :: 0 <= k < |ids| ==> ids[k] < |rows|
    ensures forall i :: 0 <= i < |rows| ==> (i in ids <==> IsOverdue(rows[i], now))
    ensures ids == [] <==> forall i :: 0 <= i < |rows| ==> !IsOverdue(rows[i], now)
  {
    WhereEmpty(rows, (inv: Invoice) => IsOverdue(inv, now));
    Where(rows, (inv: Invoice) => IsOverdue(inv, now))
  }

  /** Running the overdue check twice at the same time changes nothing more:
      the second run selects no invoice. */
  lemma OverdueCheckIdempotent(rows: seq<Invoice>, now: Time)
    ensures OverdueChecked(OverdueChecked(rows, now), now) == OverdueChecked(rows, now)
    ensures OverdueIds(OverdueChecked(rows, now), now) == []
  {
  }

  /** `rows` with the invoices at `ids` set to OVERDUE. */
  function OverdueMarked(rows: seq<Invoice>, ids: seq<InvoiceId>): seq<Invoice>
  {
    seq(|rows|, i requires 0 <= i < |rows| => if i in ids then rows[i].(status := OVERDUE) else rows[i])
  }

  /** Marking one more selected invoice. */
  lemma OverdueMarkedExtend(rows: seq<Invoice>, ids: seq<InvoiceId>, k: nat)
    requires k < |ids| && ids[k] < |rows|
    ensures var done := OverdueMarked(rows, ids[..k]);
      OverdueMarked(rows, ids[..k + 1]) == done[ids[k] := done[ids[k]].(status := OVERDUE)]
  {
    assert ids[..k + 1] == ids[..k] + [ids[k]];
  }

  /** Marking exactly the selected invoices is the overdue check. */
  lemma OverdueMarkedIsChecked(rows: seq<Invoice>, now: Time)
    ensures OverdueMarked(rows, OverdueIds(rows, now)) == OverdueChecked(rows, now)
  {
  }

  /** Every invoice is consistent and refers to a stored payment, if any. */
  ghost predicate InvoicesValid(rows: seq<Invoice>, paymentCount: nat)
  {
    forall i :: 0 <= i < |rows| ==>
      Consistent(rows[i]) && (rows[i].paymentId.Some? ==> rows[i].paymentId.value < paymentCount)
  }

  /** The overdue check keeps every invoice consistent. */
  lemma OverdueCheckKeepsValid(rows: seq<Invoice>, paymentCount: nat, now: Time)
    requires InvoicesValid(rows, paymentCount)
    ensures InvoicesValid(OverdueChecked(rows, now), paymentCount)
  {
    forall i | 0 <= i < |rows| ensures Consistent(OverdueChecked(rows, now)[i]) {
      TransitionsKeepConsistent(rows[i], now);
    }
  }

  /** `findAllByStatusAndCreatedAtBetween(SUCCEEDED, start, end)`; both
      bounds are inclusive. */
  function SucceededBetween(payments: seq<Payment>, start: Time, end: Time): (ids: seq<PaymentId>)
    ensures forall k :: 0 <= k < |ids| ==>
      ids[k] < |payments| && payments[ids[k]].status == SUCCEEDED && start <= payments[ids[k]].createdAt <= end
    ensures forall k, l :: 0 <= k < l < |ids| ==> ids[k] < ids[l]
    ensures forall j :: 0 <= j < |payments| && payments[j].status == SUCCEEDED && start <= payments[j].createdAt <= end ==>
      j in ids
  {
    Where(payments, (p: Payment) => p.status == SUCCEEDED && start <= p.createdAt <= end)
  }

  /** The invoice repository: `save` of a new entity appends it, `save` of a
      loaded one writes it back in place. */
  class InvoiceRepository {
    var rows: seq<Invoice>

    constructor ()
      ensures rows == []
    {
      rows := [];
    }

    method Insert(inv: Invoice) returns (id: InvoiceId)
      modifies this
      ensures id == |old(rows)| && rows == old(rows) + [inv]
    {
      id := |rows|;
      rows := rows + [inv];
    }

    method Update(id: InvoiceId, inv: Invoice)
      requires id < |rows|
      modifies this
      ensures rows == old(rows)[id := inv]
    {
      rows := rows[id := inv];
    }
  }

  /** The payment repository; invoicing only reads it. */
  class PaymentRepository {
    var rows: seq<Payment>

    constructor (rows: seq<Payment>)
      ensures this.rows == rows
    {
      this.rows := rows;
    }
  }

  class InvoiceService {
    const invoiceRepository: InvoiceRepository
    const paymentRepository: PaymentRepository

    /** Every invoice is consistent and refers to a stored payment, if any. */
    ghost predicate Valid()
      reads invoiceRepository, paymentRepository
    {
      InvoicesValid(invoiceRepository.rows, |paymentRepository.rows|)
    }

    constructor (invoiceRepository: InvoiceRepository, paymentRepository: PaymentRepository)
      requires InvoicesValid(invoiceRepository.rows, |paymentRepository.rows|)
      ensures this.invoiceRepository == invoiceRepository && this.paymentRepository == paymentRepository
      ensures Valid()
    {
      this.invoiceRepository := invoiceRepository;
      this.paymentRepository := paymentRepository;
    }

    /** `getInvoice`: the stored invoice, or "Invoice not found" for an
        identifier no invoice has. */
    function GetInvoice(id: InvoiceId): (r: Result<Invoice>)
      reads invoiceRepository
      ensures r.Ok? <==> id < |invoiceRepository.rows|
      ensures r.Err? ==> r.error == InvoiceNotFound
      ensures r.Ok? ==> r.value == invoiceRepository.rows[id]
    {
      if id < |invoiceRepository.rows| then Ok(invoiceRepository.rows[id]) else Err(InvoiceNotFound)
    }

    /** `createInvoice`: appends one DRAFT invoice for the payment, copying
        its user, amount and currency, due thirty days from `now`. */
    method CreateInvoice(paymentId: PaymentId, uuid: Uuid, now: Time) returns (id: InvoiceId)
      requires Valid() && paymentId < |paymentRepository.rows|
      modifies invoiceRepository
      ensures Valid()
      ensures id == |old(invoiceRepository.rows)|
      ensures invoiceRepository.rows ==
        old(invoiceRepository.rows) + [NewInvoice(paymentRepository.rows[paymentId], paymentId, uuid, now)]
    {
      var payment := paymentRepository.rows[paymentId];
      var invoice := Invoice(payment.userId, Some(paymentId), InvoiceNumber(uuid), payment.amount,
                             payment.currency, DRAFT, now + DUE_DAYS * SECONDS_PER_DAY,
                             None, None, false, None);
      id := invoiceRepository.Insert(invoice);
    }

    /** `markInvoiceAsPaid`: PAID at `now`, whatever the previous status;
        nothing else changes. */
    method MarkInvoiceAsPaid(id: InvoiceId, now: Time)
      requires Valid() && id < |invoiceRepository.rows|
      modifies invoiceRepository
      ensures Valid()
      ensures invoiceRepository.rows == old(invoiceRepository.rows)[id := Paid(old(invoiceRepository.rows)[id], now)]
    {
      var invoice := invoiceRepository.rows[id];
      TransitionsKeepConsistent(invoice, now);
      invoice := invoice.(status := PAID);
      invoice := invoice.(paidAt := Some(now));
      invoiceRepository.Update(id, invoice);
    }

    /** `sendInvoice`, its record-keeping: SENT, e-mail sent at `now`, and
        the PDF location derived from the invoice number. */
    method SendInvoice(id: InvoiceId, now: Time)
      requires Valid() && id < |invoiceRepository.rows|
      modifies invoiceRepository
      ensures Valid()
      ensures invoiceRepository.rows == old(invoiceRepository.rows)[id := Sent(old(invoiceRepository.rows)[id], now)]
    {
      var invoice := invoiceRepository.rows[id];
      TransitionsKeepConsistent(invoice, now);
      invoice := invoice.(status := SENT);
      invoice := invoice.(emailSent := true);
      invoice := invoice.(emailSentAt := Some(now));
      invoice := invoice.(pdfUrl := Some(PdfUrl(invoice.invoiceNumber)));
      invoiceRepository.Update(id, invoice);
    }

    /** `checkOverdueInvoices`: exactly the SENT invoices due before `now`
        become OVERDUE; every other invoice is untouched. */
    method CheckOverdueInvoices(now: Time)
      requires Valid()
      modifies invoiceRepository
      ensures Valid()
      ensures invoiceRepository.rows == OverdueChecked(old(invoiceRepository.rows), now)
    {
      ghost var before := invoiceRepository.rows;
      var overdue := OverdueIds(invoiceRepository.rows, now);
      var k := 0;
      while k < |overdue|
        invariant 0 <= k <= |overdue|
        invariant invoiceRepository.rows == OverdueMarked(before, overdue[..k])
      {
        var id := overdue[k];
        var invoice := invoiceRepository.rows[id];
        invoice := invoice.(status := OVERDUE);
        invoiceRepository.Update(id, invoice);
        OverdueMarkedExtend(before, overdue, k);
        k := k + 1;
      }
      assert overdue[..k] == overdue;
      OverdueMarkedIsChecked(before, now);
      OverdueCheckKeepsValid(before, |paymentRepository.rows|, now);
    }

    /** The body of `generateMonthlyInvoices`' loop: create the invoice for
        one payment, then send it. */
    method RaiseAndSend(paymentId: PaymentId, uuid: Uuid, now: Time)
      requires Valid() && paymentId < |paymentRepository.rows|
      modifies invoiceRepository
      ensures Valid()
      ensures invoiceRepository.rows ==
        old(invoiceRepository.rows) + [MonthlyInvoice(paymentRepository.rows, paymentId, uuid, now)]
    {
      ghost var created := NewInvoice(paymentRepository.rows[paymentId], paymentId, uuid, now);
      var id := CreateInvoice(paymentId, uuid, now);
      SendInvoice(id, now);
      ReplaceLast(old(invoiceRepository.rows), created, Sent(created, now));
    }

    /** `generateMonthlyInvoices` for the window [`start`, `end`]: appends
        exactly the invoices MonthlyInvoices describes, each created and then
        sent at `now`; the k-th one takes its number from `uuids(k)`. */
    method GenerateMonthlyInvoices(start: Time, end: Time, uuids: nat -> Uuid, now: Time)
      requires Valid()
      modifies invoiceRepository
      ensures Valid()
      ensures invoiceRepository.rows ==
        old(invoiceRepository.rows) + MonthlyInvoices(paymentRepository.rows, start, end, uuids, now)
    {
      ghost var paid := paymentRepository.rows;
      var payments := SucceededBetween(paymentRepository.rows, start, end);
      var k := 0;
      while k < |payments|
        invariant 0 <= k <= |payments|
        invariant Valid() && paymentRepository.rows == paid
        invariant invoiceRepository.rows == old(invoiceRepository.rows) + MonthlyOf(paid, payments[..k], uuids, now)
      {
        RaiseAndSend(payments[k], uuids(k), now);
        MonthlyOfExtend(paid, payments, k, uuids, now);
        k := k + 1;
      }
      assert payments[..k] == payments;
    }
  }

  /** Writing back the last element of a sequence. */
  lemma ReplaceLast<T>(s: seq<T>, x: T, y: T)
    ensures (s + [x])[|s| := y] == s + [y]
  {
  }

  /** The invoice a monthly run raises and sends at `now` for payment `id`. */
  function MonthlyInvoice(payments: seq<Payment>, id: PaymentId, uuid: Uuid, now: Time): Invoice
    requires id < |payments|
  {
    Sent(NewInvoice(payments[id], id, uuid, now), now)
  }

  /** The invoices a monthly run over the window [`start`, `end`] appends,
      in payment order: each is SENT, consistent, and belongs to a SUCCEEDED
      payment created in the window; no payment gets two, and every such
      payment gets one. */
  function MonthlyInvoices(payments: seq<Payment>, start: Time, end: Time, uuids: nat -> Uuid, now: Time)
    : (added: seq<Invoice>)
    ensures |added| == |SucceededBetween(payments, start, end)|
    ensures forall k :: 0 <= k < |added| ==>
      && added[k].status == SENT
      && Consistent(added[k])
      && added[k].paymentId.Some?
      && added[k].paymentId.value < |payments|
      && payments[added[k].paymentId.value].status == SUCCEEDED
      && start <= payments[added[k].paymentId.value].createdAt <= end
    ensures forall k, l :: 0 <= k < l < |added| ==> added[k].paymentId != added[l].paymentId
    ensures forall j :: 0 <= j < |payments| && payments[j].status == SUCCEEDED && start <= payments[j].createdAt <= end ==>
      exists k :: 0 <= k < |added| && added[k].paymentId == Some(j)
  {
    var ids := SucceededBetween(payments, start, end);
    MonthlyInvoicesCoverWindow(payments, start, end, ids, uuids, now, MonthlyOf(payments, ids, uuids, now));
    MonthlyOf(payments, ids, uuids, now)
  }

  /** The monthly invoices of the payments `ids`, the k-th numbered from `uuids(k)`. */
  function MonthlyOf(payments: seq<Payment>, ids: seq<PaymentId>, uuids: nat -> Uuid, now: Time): seq<Invoice>
    requires forall k :: 0 <= k < |ids| ==> ids[k] < |payments|
  {
    seq(|ids|, k requires 0 <= k < |ids| => MonthlyInvoice(payments, ids[k], uuids(k), now))
  }

  /** Handling one more selected payment appends its monthly invoice. */
  lemma MonthlyOfExtend(payments: seq<Payment>, ids: seq<PaymentId>, k: nat, uuids: nat -> Uuid, now: Time)
    requires forall j :: 0 <= j < |ids| ==> ids[j] < |payments|
    requires k < |ids|
    ensures MonthlyOf(payments, ids[..k + 1], uuids, now) ==
      MonthlyOf(payments, ids[..k], uuids, now) + [MonthlyInvoice(payments, ids[k], uuids(k), now)]
  {
  }

  /** The proof of MonthlyInvoices' contract, over the selected payments `ids`. */
  lemma MonthlyInvoicesCoverWindow(payments: seq<Payment>, start: Time, end: Time, ids: seq<PaymentId>,
                                   uuids: nat -> Uuid, now: Time, added: seq<Invoice>)
    requires ids == SucceededBetween(payments, start, end)
    requires |added| == |ids|
    requires forall k :: 0 <= k < |ids| ==> added[k] == MonthlyInvoice(payments, ids[k], uuids(k), now)
    ensures forall k :: 0 <= k < |added| ==>
      && added[k].status == SENT
      && Consistent(added[k])
      && added[k].paymentId.Some?
      && added[k].paymentId.value < |payments|
      && payments[added[k].paymentId.value].status == SUCCEEDED
      && start <= payments[added[k].paymentId.value].createdAt <= end
    ensures forall k, l :: 0 <= k < l < |added| ==> added[k].paymentId != added[l].paymentId
    ensures forall j :: 0 <= j < |payments| && payments[j].status == SUCCEEDED && start <= payments[j].createdAt <= end ==>
      exists k :: 0 <= k < |added| && added[k].paymentId == Some(j)
  {
    forall k | 0 <= k < |added| ensures Consistent(added[k]) {
      TransitionsKeepConsistent(NewInvoice(payments[ids[k]], ids[k], uuids(k), now), now);
    }
    forall j | 0 <= j < |payments| && payments[j].status == SUCCEEDED && start <= payments[j].createdAt <= end
      ensures exists k :: 0 <= k < |added| && added[k].paymentId == Some(j)
    {
      var k :| 0 <= k < |ids| && ids[k] == j;
      assert added[k].paymentId == Some(j);
    }
  }
}
