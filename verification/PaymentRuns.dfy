/** What every run of the payment tables keeps, whatever the interleaving. */
module PaymentRuns {
  import opened Base
  import opened Payments

  // -- counting --------------------------------------------------------------

  function Bit(b: bool): nat { if b then 1 else 0 }

  predicate Has(p: Payment, r: RequestId, s: PaymentStatus) {
    p.request == r && p.status == s
  }

  /** How many payments of a request have a status. */
  function Count(ps: seq<Payment>, r: RequestId, s: PaymentStatus): nat {
    if ps == [] then 0 else Count(ps[..|ps| - 1], r, s) + Bit(Has(ps[|ps| - 1], r, s))
  }

  function AmountIf(p: Payment, s: PaymentStatus): int {
    if p.status == s then p.amount else 0
  }

  function Sum(ps: seq<Payment>, s: PaymentStatus): int {
    if ps == [] then 0 else Sum(ps[..|ps| - 1], s) + AmountIf(ps[|ps| - 1], s)
  }

  lemma {:induction false} CountUpdate(ps: seq<Payment>, t: TranId, p: Payment, r: RequestId, s: PaymentStatus)
    requires t < |ps|
    ensures Count(ps[t := p], r, s) + Bit(Has(ps[t], r, s)) == Count(ps, r, s) + Bit(Has(p, r, s))
  {
    var n := |ps| - 1;
    if t == n {
      assert ps[t := p][..n] == ps[..n];
    } else {
      assert ps[t := p][..n] == ps[..n][t := p];
      CountUpdate(ps[..n], t, p, r, s);
    }
  }

  lemma {:induction false} SumUpdate(ps: seq<Payment>, t: TranId, p: Payment, s: PaymentStatus)
    requires t < |ps|
    ensures Sum(ps[t := p], s) + AmountIf(ps[t], s) == Sum(ps, s) + AmountIf(p, s)
  {
    var n := |ps| - 1;
    if t == n {
      assert ps[t := p][..n] == ps[..n];
    } else {
      assert ps[t := p][..n] == ps[..n][t := p];
      SumUpdate(ps[..n], t, p, s);
    }
  }

  lemma {:induction false} CountPositive(ps: seq<Payment>, r: RequestId, s: PaymentStatus)
    ensures Count(ps, r, s) > 0 <==> exists i :: 0 <= i < |ps| && Has(ps[i], r, s)
  {
    if ps != [] {
      var n := |ps| - 1;
      CountPositive(ps[..n], r, s);
      if Has(ps[n], r, s) {
      } else if i :| 0 <= i < |ps| && Has(ps[i], r, s) {
        assert ps[..n][i] == ps[i];
      }
    }
  }

  // -- the invariant ---------------------------------------------------------

  predicate Settled(p: Payment) {
    p.status == SUCCESS || p.status == REFUNDED
  }

  ghost predicate PaymentOk(p: Payment, requests: nat) {
    && p.request < requests && p.amount > 0
    && (p.session == REFUSED ==> !Settled(p))
    && (p.refund.Some? ==> p.refund.value.amount == p.amount && Settled(p))
    && (p.refund.Some? && p.refund.value.status == REQUESTED ==> p.status == SUCCESS)
    && (p.status == REFUNDED <==> p.refund.Some? && p.refund.value.status == PROCESSED)
  }

  /**
   One PAYMENT_SUCCESS audit row and one notification for a payment that ever succeeded,
   none otherwise; at most one receipt.
   */
  ghost predicate BooksOk(db: Db, t: TranId) {
    var settled := Bit(t < |db.payments| && Settled(db.payments[t]));
    && db.audits[PAYMENT_SUCCESS(t)] == settled
    && db.notifications[PaymentReceived(t)] == settled
    && db.receiptsDue[t] + db.receipts[t] <= settled
  }

  /** The status of a request is decided by how many of its payments are SUCCESS and REFUNDED. */
  ghost predicate RequestOk(db: Db, r: RequestId)
    requires r < |db.requests|
  {
    var succeeded, refunded := Count(db.payments, r, SUCCESS), Count(db.payments, r, REFUNDED);
    var s := db.requests[r].status;
    && succeeded <= 1
    && (s in {PAID, PROCESSING, COMPLETED, REJECTED} <==> succeeded == 1)
    && (s == RequestStatus.CANCELLED <==> succeeded == 0 && refunded > 0)
    && (s == PENDING_PAYMENT <==> succeeded == 0 && refunded == 0)
  }

  ghost predicate TicketOk(db: Db, t: Ticket) {
    && t.tran < |db.payments|
    && (t.Asking? ==> t.amount == db.payments[t.tran].amount && t.currency == db.payments[t.tran].currency)
    && (t.Validated? ==> t.reply.amount == db.payments[t.tran].amount && db.payments[t.tran].session != REFUSED)
  }

  ghost predicate MoneyOk(db: Db) {
    db.received - db.returned == Sum(db.payments, SUCCESS) && db.returned == Sum(db.payments, REFUNDED)
  }

  ghost predicate Inv(db: Db) {
    && (forall t :: 0 <= t < |db.payments| ==> PaymentOk(db.payments[t], |db.requests|))
    && (forall t: TranId :: BooksOk(db, t))
    && (forall r :: 0 <= r < |db.requests| ==> RequestOk(db, r))
    && (forall w :: w in db.tickets ==> TicketOk(db, db.tickets[w]))
    && MoneyOk(db)
  }

  // -- what no step takes back -----------------------------------------------

  /**
   The statuses a payment can still reach; nothing leads back to PENDING, nor from FAILED
   or CANCELLED to SUCCESS.
   */
  ghost predicate Later(a: PaymentStatus, b: PaymentStatus) {
    a == b || a == PENDING || (a == SUCCESS && b == REFUNDED) || (a == PaymentStatus.CANCELLED && b == FAILED)
  }

  ghost predicate Continues(p: Payment, q: Payment) {
    && q.request == p.request && q.user == p.user && q.amount == p.amount && q.currency == p.currency
    && Later(p.status, q.status)
    && (p.session != OPENING ==> q.session == p.session)
    && (p.refund.Some? ==> q.refund.Some? && q.refund.value.amount == p.refund.value.amount)
  }

  ghost predicate AllContinue(a: Db, b: Db) {
    |a.payments| <= |b.payments| && forall t :: 0 <= t < |a.payments| ==> Continues(a.payments[t], b.payments[t])
  }

  // -- step lemmas -----------------------------------------------------------

  /** An update of one payment that neither settles it nor refunds it. */
  lemma QuietUpdate(db: Db, t: TranId, p: Payment)
    requires Inv(db) && t < |db.payments| && PaymentOk(p, |db.requests|) && Continues(db.payments[t], p)
    requires Settled(p) || Settled(db.payments[t]) ==> p.status == db.payments[t].status
    requires p.session == REFUSED ==> db.payments[t].session == REFUSED || !Vouched(db, t)
    ensures Inv(SetPayment(db, t, p)) && AllContinue(db, SetPayment(db, t, p))
  {
    var d := SetPayment(db, t, p);
    forall u: TranId ensures BooksOk(d, u) { assert BooksOk(db, u); }
    forall r | 0 <= r < |d.requests| ensures RequestOk(d, r) {
      assert RequestOk(db, r);
      CountUpdate(db.payments, t, p, r, SUCCESS);
      CountUpdate(db.payments, t, p, r, REFUNDED);
    }
    forall w | w in d.tickets ensures TicketOk(d, d.tickets[w]) { assert TicketOk(db, db.tickets[w]); }
    SumUpdate(db.payments, t, p, SUCCESS);
    SumUpdate(db.payments, t, p, REFUNDED);
  }

  /** Steps that leave the payments, requests and books alone. */
  lemma SideUpdate(db: Db, d: Db)
    requires Inv(db)
    requires d == db.(tickets := d.tickets, fees := d.fees, audits := d.audits, notifications := d.notifications,
                      receiptsDue := d.receiptsDue, receipts := d.receipts)
    requires forall t: TranId :: BooksOk(d, t)
    requires forall w :: w in d.tickets ==> TicketOk(db, d.tickets[w])
    ensures Inv(d) && AllContinue(db, d)
  {
    forall r | 0 <= r < |d.requests| ensures RequestOk(d, r) { assert RequestOk(db, r); }
    forall w | w in d.tickets ensures TicketOk(d, d.tickets[w]) { assert TicketOk(db, d.tickets[w]); }
  }

  lemma TicketUpdate(db: Db, d: Db)
    requires Inv(db) && d == db.(tickets := d.tickets)
    requires forall w :: w in d.tickets ==> TicketOk(db, d.tickets[w])
    ensures Inv(d) && AllContinue(db, d)
  {
    forall t: TranId ensures BooksOk(d, t) { assert BooksOk(db, t); }
    SideUpdate(db, d);
  }

  lemma CreateRequestKeeps(db: Db, citizen: UserId, serviceType: TypeId)
    requires Inv(db)
    ensures var d := CreateRequestStep(db, citizen, serviceType).0; Inv(d) && AllContinue(db, d)
  {
    var d := CreateRequestStep(db, citizen, serviceType).0;
    forall t: TranId ensures BooksOk(d, t) { assert BooksOk(db, t); }
    forall r | 0 <= r < |d.requests| ensures RequestOk(d, r) {
      if r < |db.requests| {
        assert RequestOk(db, r);
      } else {
        CountPositive(db.payments, r, SUCCESS);
        CountPositive(db.payments, r, REFUNDED);
      }
    }
    forall w | w in d.tickets ensures TicketOk(d, d.tickets[w]) { assert TicketOk(db, db.tickets[w]); }
  }

  lemma InitiateKeeps(db: Db, user: UserId, request: RequestId)
    requires Inv(db)
    ensures var d := InitiateStep(db, user, request).0; Inv(d) && AllContinue(db, d)
  {
    var d := InitiateStep(db, user, request).0;
    if d != db {
      assert d.payments[..|db.payments|] == db.payments;
      forall t: TranId ensures BooksOk(d, t) { assert BooksOk(db, t); }
      forall r | 0 <= r < |d.requests| ensures RequestOk(d, r) { assert RequestOk(db, r); }
      forall w | w in d.tickets ensures TicketOk(d, d.tickets[w]) { assert TicketOk(db, db.tickets[w]); }
    }
  }

  lemma InitReplyKeeps(db: Db, t: TranId, ok: bool)
    requires Inv(db) && Honest(db, InitReply(t, ok))
    ensures var d := InitReplyStep(db, t, ok).0; Inv(d) && AllContinue(db, d)
  {
    if t < |db.payments| && db.payments[t].session == OPENING {
      var p := db.payments[t];
      assert PaymentOk(p, |db.requests|);
      if ok {
        QuietUpdate(db, t, p.(session := OPEN));
        var mid := SetPayment(db, t, p.(session := OPEN));
        var d := InitReplyStep(db, t, ok).0;
        forall u: TranId ensures BooksOk(d, u) { assert BooksOk(mid, u); }
        SideUpdate(mid, d);
      } else {
        QuietUpdate(db, t, InitFailed(p));
      }
    }
  }

  lemma ReadForConfirmKeeps(db: Db, w: Worker, t: TranId)
    requires Inv(db)
    ensures var d := ReadForConfirmStep(db, w, t).0; Inv(d) && AllContinue(db, d)
  {
    var d := ReadForConfirmStep(db, w, t).0;
    forall v | v in d.tickets ensures TicketOk(db, d.tickets[v]) {
      if v in db.tickets { assert TicketOk(db, db.tickets[v]); }
    }
    TicketUpdate(db, d);
  }

  lemma ValidateKeeps(db: Db, w: Worker, reply: Option<Validation>)
    requires Inv(db) && Honest(db, Validate(w, reply))
    ensures var d := ValidateStep(db, w, reply).0; Inv(d) && AllContinue(db, d)
  {
    var d := ValidateStep(db, w, reply).0;
    forall v | v in d.tickets ensures TicketOk(db, d.tickets[v]) {
      if v in db.tickets { assert TicketOk(db, db.tickets[v]); }
    }
    TicketUpdate(db, d);
  }

  /** The flip of one PENDING payment, with its request and its books. */
  lemma CommitKeeps(db: Db, w: Worker, now: Time)
    requires Inv(db)
    ensures var d := CommitStep(db, w, now).0; Inv(d) && AllContinue(db, d)
  {
    if w in db.tickets && db.tickets[w].Validated? {
      var t, reply := db.tickets[w].tran, db.tickets[w].reply;
      assert TicketOk(db, db.tickets[w]);
      var free := DropTicket(db, w);
      forall v | v in free.tickets ensures TicketOk(db, free.tickets[v]) { assert TicketOk(db, db.tickets[v]); }
      TicketUpdate(db, free);
      if db.payments[t].status == PENDING && !SuccessTaken(db.payments, db.payments[t].request) {
        BookedKeeps(free, t, reply, now);
      }
    }
  }

  /** The whole transaction, on a table that has let the ticket go. */
  lemma BookedKeeps(db: Db, t: TranId, reply: Validation, now: Time)
    requires Inv(db) && t < |db.payments| && db.payments[t].status == PENDING && db.payments[t].session != REFUSED
    requires !SuccessTaken(db.payments, db.payments[t].request) && reply.amount == db.payments[t].amount
    ensures Inv(Booked(db, t, reply, now)) && AllContinue(db, Booked(db, t, reply, now))
  {
    var d := Booked(db, t, reply, now);
    var p := db.payments[t];
    assert PaymentOk(p, |db.requests|);
    var paid := SetRequest(SetPayment(db, t, Paid(p, reply, now)), p.request, PAID);
    CommitRequests(db, t, reply, now);
    forall r | 0 <= r < |d.requests| ensures RequestOk(d, r) { assert RequestOk(paid, r); }
    forall u: TranId ensures BooksOk(d, u) { assert BooksOk(db, u); }
    forall v | v in d.tickets ensures TicketOk(d, d.tickets[v]) { assert TicketOk(db, db.tickets[v]); }
    SumUpdate(db.payments, t, Paid(p, reply, now), SUCCESS);
    SumUpdate(db.payments, t, Paid(p, reply, now), REFUNDED);
  }

  lemma CommitRequests(db: Db, t: TranId, reply: Validation, now: Time)
    requires Inv(db) && t < |db.payments| && db.payments[t].status == PENDING
    requires !SuccessTaken(db.payments, db.payments[t].request)
    ensures var d := SetRequest(SetPayment(db, t, Paid(db.payments[t], reply, now)), db.payments[t].request, PAID);
      forall r :: 0 <= r < |d.requests| ==> RequestOk(d, r)
  {
    var p := db.payments[t];
    var d := SetRequest(SetPayment(db, t, Paid(p, reply, now)), p.request, PAID);
    CountPositive(db.payments, p.request, SUCCESS);
    assert forall i :: 0 <= i < |db.payments| ==> !Has(db.payments[i], p.request, SUCCESS);
    assert PaymentOk(p, |db.requests|);
    forall r | 0 <= r < |d.requests| ensures RequestOk(d, r) {
      assert RequestOk(db, r);
      CountUpdate(db.payments, t, Paid(p, reply, now), r, SUCCESS);
      CountUpdate(db.payments, t, Paid(p, reply, now), r, REFUNDED);
    }
  }

  lemma SetFeeKeeps(db: Db, serviceType: TypeId, fee: int)
    requires Inv(db)
    ensures var d := db.(fees := db.fees[serviceType := fee]); Inv(d) && AllContinue(db, d)
  {
    var d := db.(fees := db.fees[serviceType := fee]);
    forall t: TranId ensures BooksOk(d, t) { assert BooksOk(db, t); }
    SideUpdate(db, d);
  }

  lemma ReceiptKeeps(db: Db, t: TranId)
    requires Inv(db)
    ensures Inv(DispatchStep(db, t).0) && AllContinue(db, DispatchStep(db, t).0)
    ensures Inv(LoseStep(db, t).0) && AllContinue(db, LoseStep(db, t).0)
  {
    var sent, lost := DispatchStep(db, t).0, LoseStep(db, t).0;
    forall u: TranId ensures BooksOk(sent, u) && BooksOk(lost, u) { assert BooksOk(db, u); }
    SideUpdate(db, sent);
    SideUpdate(db, lost);
  }

  lemma MarkTerminalKeeps(db: Db, t: TranId, status: PaymentStatus)
    requires Inv(db)
    ensures var d := MarkTerminalStep(db, t, status).0; Inv(d) && AllContinue(db, d)
  {
    if status in {FAILED, PaymentStatus.CANCELLED} && t < |db.payments| && db.payments[t].status == PENDING {
      assert PaymentOk(db.payments[t], |db.requests|);
      QuietUpdate(db, t, db.payments[t].(status := status));
    }
  }

  /** Moving a request between two statuses that both mean paid. */
  lemma PaidRequestMoves(db: Db, r: RequestId, next: RequestStatus)
    requires Inv(db) && r < |db.requests|
    requires db.requests[r].status in {PAID, PROCESSING, COMPLETED, REJECTED}
    requires next in {PAID, PROCESSING, COMPLETED, REJECTED}
    ensures Inv(SetRequest(db, r, next)) && AllContinue(db, SetRequest(db, r, next))
  {
    var d := SetRequest(db, r, next);
    forall t: TranId ensures BooksOk(d, t) { assert BooksOk(db, t); }
    forall q | 0 <= q < |d.requests| ensures RequestOk(d, q) { assert RequestOk(db, q); }
    forall w | w in d.tickets ensures TicketOk(d, d.tickets[w]) { assert TicketOk(db, db.tickets[w]); }
  }

  lemma UpdateRequestKeeps(db: Db, r: RequestId, next: RequestStatus)
    requires Inv(db)
    ensures var d := UpdateRequestStep(db, r, next).0; Inv(d) && AllContinue(db, d)
  {
    if r < |db.requests| && next in AllowedNext(db.requests[r].status) {
      PaidRequestMoves(db, r, next);
    }
  }

  lemma RequestRefundKeeps(db: Db, t: TranId, admin: UserId)
    requires Inv(db)
    ensures var d := RequestRefundStep(db, t, admin).0; Inv(d) && AllContinue(db, d)
  {
    var d := RequestRefundStep(db, t, admin).0;
    if d != db {
      var p := db.payments[t];
      assert PaymentOk(p, |db.requests|);
      var q := p.(refund := Some(Refund(p.amount, REQUESTED, admin, None)));
      QuietUpdate(db, t, q);
      var mid := SetPayment(db, t, q);
      forall u: TranId ensures BooksOk(d, u) { assert BooksOk(mid, u); }
      SideUpdate(mid, d);
    }
  }

  lemma ApproveRefundKeeps(db: Db, t: TranId, superAdmin: UserId, accepted: bool)
    requires Inv(db)
    ensures var d := ApproveRefundStep(db, t, superAdmin, accepted).0; Inv(d) && AllContinue(db, d)
  {
    var d := ApproveRefundStep(db, t, superAdmin, accepted).0;
    if d != db {
      var p := db.payments[t];
      assert PaymentOk(p, |db.requests|) && RequestOk(db, p.request);
      var q := Returned(p, superAdmin);
      CountUpdate(db.payments, t, q, p.request, SUCCESS);
      forall u: TranId ensures BooksOk(d, u) { assert BooksOk(db, u); }
      forall r | 0 <= r < |d.requests| ensures RequestOk(d, r) {
        assert RequestOk(db, r);
        CountUpdate(db.payments, t, q, r, SUCCESS);
        CountUpdate(db.payments, t, q, r, REFUNDED);
      }
      forall w | w in d.tickets ensures TicketOk(d, d.tickets[w]) { assert TicketOk(db, db.tickets[w]); }
      SumUpdate(db.payments, t, q, SUCCESS);
      SumUpdate(db.payments, t, q, REFUNDED);
    }
  }

  lemma IntakeKeeps(db: Db, e: Event)
    requires Inv(db) && Honest(db, e)
    requires e.SetFee? || e.CreateRequest? || e.Initiate? || e.InitReply? || e.MarkTerminal? || e.UpdateRequest?
    ensures Inv(Step(db, e).0) && AllContinue(db, Step(db, e).0)
  {
    match e
    case SetFee(ty, fee) => SetFeeKeeps(db, ty, fee);
    case CreateRequest(citizen, ty) => CreateRequestKeeps(db, citizen, ty);
    case Initiate(user, r) => InitiateKeeps(db, user, r);
    case InitReply(t, ok) => InitReplyKeeps(db, t, ok);
    case MarkTerminal(t, status) => MarkTerminalKeeps(db, t, status);
    case UpdateRequest(r, next) => UpdateRequestKeeps(db, r, next);
  }

  lemma ConfirmKeeps(db: Db, e: Event)
    requires Inv(db) && Honest(db, e)
    requires e.ReadForConfirm? || e.Validate? || e.Commit? || e.DispatchReceipt? || e.LoseReceipt?
    ensures Inv(Step(db, e).0) && AllContinue(db, Step(db, e).0)
  {
    match e
    case ReadForConfirm(w, t) => ReadForConfirmKeeps(db, w, t);
    case Validate(w, reply) => ValidateKeeps(db, w, reply);
    case Commit(w, now) => CommitKeeps(db, w, now);
    case DispatchReceipt(t) => ReceiptKeeps(db, t);
    case LoseReceipt(t) => ReceiptKeeps(db, t);
  }

  lemma RefundKeeps(db: Db, e: Event)
    requires Inv(db) && (e.RequestRefund? || e.ApproveRefund?)
    ensures Inv(Step(db, e).0) && AllContinue(db, Step(db, e).0)
  {
    match e
    case RequestRefund(t, admin) => RequestRefundKeeps(db, t, admin);
    case ApproveRefund(t, superAdmin, accepted) => ApproveRefundKeeps(db, t, superAdmin, accepted);
  }

  lemma StepKeeps(db: Db, e: Event)
    requires Inv(db) && Honest(db, e)
    ensures Inv(Step(db, e).0) && AllContinue(db, Step(db, e).0)
  {
    if e.RequestRefund? || e.ApproveRefund? {
      RefundKeeps(db, e);
    } else if e.ReadForConfirm? || e.Validate? || e.Commit? || e.DispatchReceipt? || e.LoseReceipt? {
      ConfirmKeeps(db, e);
    } else {
      IntakeKeeps(db, e);
    }
  }

  /** The moves a service request makes. */
  predicate RequestEdge(a: RequestStatus, b: RequestStatus) {
    match a
    case PENDING_PAYMENT => b == PAID
    case PAID => b in {PROCESSING, REJECTED, RequestStatus.CANCELLED}
    case PROCESSING => b in {COMPLETED, REJECTED, RequestStatus.CANCELLED}
    case COMPLETED => b == RequestStatus.CANCELLED
    case REJECTED => b == RequestStatus.CANCELLED
    case CANCELLED => b == PAID
  }

  /** A committed payment lands only on a request that is unpaid or cancelled. */
  lemma CommitLandsOnUnpaid(db: Db, t: TranId)
    requires Inv(db) && t < |db.payments| && !SuccessTaken(db.payments, db.payments[t].request)
    ensures db.payments[t].request < |db.requests|
    ensures RequestEdge(db.requests[db.payments[t].request].status, PAID)
  {
    var p := db.payments[t];
    assert PaymentOk(p, |db.requests|) && RequestOk(db, p.request);
    CountPositive(db.payments, p.request, SUCCESS);
    assert forall i :: 0 <= i < |db.payments| ==> !Has(db.payments[i], p.request, SUCCESS);
  }

  /** An approved refund lands only on a request that is paid for. */
  lemma RefundLandsOnPaid(db: Db, t: TranId)
    requires Inv(db) && t < |db.payments| && db.payments[t].refund.Some? && db.payments[t].refund.value.status == REQUESTED
    ensures db.payments[t].request < |db.requests|
    ensures RequestEdge(db.requests[db.payments[t].request].status, RequestStatus.CANCELLED)
  {
    var p := db.payments[t];
    assert PaymentOk(p, |db.requests|) && RequestOk(db, p.request);
    CountPositive(db.payments, p.request, SUCCESS);
    assert Has(p, p.request, SUCCESS);
  }

  /**
   Neither the PAID of `confirm` nor the CANCELLED of an approved refund looks at
   the request's status, yet every step moves a request along a known edge.
   */
  lemma RequestsMoveAlongEdges(db: Db, e: Event, r: RequestId)
    requires Inv(db) && r < |db.requests|
    ensures r < |Step(db, e).0.requests|
    ensures var a, b := db.requests[r].status, Step(db, e).0.requests[r].status; a == b || RequestEdge(a, b)
  {
    if e.Commit? && e.worker in db.tickets {
      var t := db.tickets[e.worker].tran;
      if t < |db.payments| && !SuccessTaken(db.payments, db.payments[t].request) { CommitLandsOnUnpaid(db, t); }
    } else if e.ApproveRefund? && e.tran < |db.payments| {
      var p := db.payments[e.tran];
      if p.refund.Some? && p.refund.value.status == REQUESTED { RefundLandsOnPaid(db, e.tran); }
    }
  }

  // -- run theorems ----------------------------------------------------------

  lemma EmptyInv()
    ensures Inv(EMPTY)
  {
    forall t: TranId ensures BooksOk(EMPTY, t) {}
  }

  lemma AllContinueTransitive(a: Db, b: Db, c: Db)
    requires AllContinue(a, b) && AllContinue(b, c)
    ensures AllContinue(a, c)
  {
    forall t | 0 <= t < |a.payments| ensures Continues(a.payments[t], c.payments[t]) {
      assert Continues(a.payments[t], b.payments[t]) && Continues(b.payments[t], c.payments[t]);
    }
  }

  lemma {:induction false} RunKeeps(db: Db, events: seq<Event>)
    requires Inv(db) && HonestRun(db, events)
    ensures Inv(Run(db, events)) && AllContinue(db, Run(db, events))
  {
    if events != [] {
      var mid := Run(db, events[..|events| - 1]);
      RunKeeps(db, events[..|events| - 1]);
      StepKeeps(mid, events[|events| - 1]);
      AllContinueTransitive(db, mid, Run(db, events));
    }
  }

  /** Every run of an honest gateway keeps the books, the request statuses and the money. */
  lemma {:induction false} EveryRun(events: seq<Event>)
    requires HonestRun(EMPTY, events)
    ensures Inv(Run(EMPTY, events))
  {
    EmptyInv();
    RunKeeps(EMPTY, events);
  }

  /**
   Whatever the race, a payment that has failed or been cancelled never
   succeeds, its amount stays the fee of the day it was started, and one that
   has succeeded has been booked exactly once.
   */
  lemma {:induction false} PaymentLife(db: Db, events: seq<Event>, t: TranId)
    requires Inv(db) && HonestRun(db, events) && t < |db.payments|
    ensures t < |Run(db, events).payments|
    ensures var p, q, after := db.payments[t], Run(db, events).payments[t], Run(db, events);
      && q.amount == p.amount && Later(p.status, q.status)
      && (p.status in {FAILED, PaymentStatus.CANCELLED} ==> q.status in {FAILED, PaymentStatus.CANCELLED})
      && (p.status != PENDING ==> q.status != PENDING)
      && after.audits[PAYMENT_SUCCESS(t)] == after.notifications[PaymentReceived(t)] == Bit(Settled(q))
      && after.receipts[t] <= 1
  {
    RunKeeps(db, events);
    assert BooksOk(Run(db, events), t);
  }

  /** Two workers that both validated one payment: one commit books it, the other finds it done. */
  lemma OneCommitWins(db: Db, first: Worker, second: Worker, now: Time, later: Time)
    requires Inv(db) && first != second && first in db.tickets && second in db.tickets
    requires db.tickets[first].Validated? && db.tickets[second].Validated?
    requires db.tickets[first].tran == db.tickets[second].tran
    requires CommitStep(db, first, now).1 == Done
    ensures var once := CommitStep(db, first, now).0;
      CommitStep(once, second, later).1 == Already
      && CommitStep(once, second, later).0 == once.(tickets := once.tickets - {second})
  {
  }

  /**
   The write that fails a payment whose session was refused does not look at
   its status.  It keeps the books if and only if the payment has not settled;
   over a SUCCESS it would leave the request paid for by nothing.
   */
  lemma UnguardedFailure(db: Db, t: TranId)
    requires Inv(db) && t < |db.payments|
    ensures var d := SetPayment(db, t, InitFailed(db.payments[t]));
      && db.payments[t].request < |d.requests|
      && (BooksOk(d, t) <==> !Settled(db.payments[t]))
      && (db.payments[t].status == SUCCESS ==> !RequestOk(d, db.payments[t].request) && !MoneyOk(d))
      && (!Settled(db.payments[t]) ==> RequestOk(d, db.payments[t].request) && MoneyOk(d))
  {
    var p := db.payments[t];
    assert PaymentOk(p, |db.requests|) && BooksOk(db, t) && RequestOk(db, p.request);
    CountUpdate(db.payments, t, InitFailed(p), p.request, SUCCESS);
    CountUpdate(db.payments, t, InitFailed(p), p.request, REFUNDED);
    SumUpdate(db.payments, t, InitFailed(p), SUCCESS);
    SumUpdate(db.payments, t, InitFailed(p), REFUNDED);
  }

  /**
   The update in `updateStatus` does not look at the status again.  Written over
   a request that has moved on, it keeps the request in step with its payments if
   and only if the request is still paid for.
   */
  lemma {:induction false} UnguardedStatusWrite(db: Db, r: RequestId, next: RequestStatus)
    requires Inv(db) && r < |db.requests| && next in {PROCESSING, COMPLETED, REJECTED}
    ensures Inv(SetRequest(db, r, next)) <==> db.requests[r].status in {PAID, PROCESSING, COMPLETED, REJECTED}
  {
    assert RequestOk(db, r);
    if db.requests[r].status in {PAID, PROCESSING, COMPLETED, REJECTED} {
      PaidRequestMoves(db, r, next);
    } else {
      assert !RequestOk(SetRequest(db, r, next), r);
    }
  }

  /**
   It also moves the request along an edge if and only if it changes nothing or
   is a move `updateStatus` would make from the status that is there.
   */
  lemma {:induction false} UnguardedStatusMove(db: Db, r: RequestId, next: RequestStatus)
    requires Inv(db) && r < |db.requests| && next in {PROCESSING, COMPLETED, REJECTED}
    ensures var now := db.requests[r].status;
      Inv(SetRequest(db, r, next)) && (now == next || RequestEdge(now, next)) <==> now == next || next in AllowedNext(now)
  {
    UnguardedStatusWrite(db, r, next);
  }

  // -- runs that show what can happen ----------------------------------------

  lemma RunPush(db: Db, events: seq<Event>, e: Event)
    ensures Run(db, events + [e]) == Step(Run(db, events), e).0
    ensures HonestRun(db, events) && Honest(Run(db, events), e) ==> HonestRun(db, events + [e])
  {
    assert (events + [e])[..|events|] == events;
  }

  const FEE: int := 100
  const REPLY := Validation("VALID", 0, FEE, CURRENCY, "bank")

  ghost predicate Started(db: Db, session: GatewaySession) {
    && db.payments == [Payment(0, 0, FEE, CURRENCY, PENDING, "", None, None, session)]
    && db.requests == [ServiceRequest(0, 0, PENDING_PAYMENT)]
    && db.received == 0 == db.returned
  }

  /** A payment started, the gateway's answer not yet handled. */
  lemma OrderedRun() returns (events: seq<Event>)
    ensures HonestRun(EMPTY, events) && Started(Run(EMPTY, events), OPENING)
  {
    var a, b, c := [] + [SetFee(0, FEE)], CreateRequest(0, 0), Initiate(0, 0);
    RunPush(EMPTY, [], SetFee(0, FEE));
    RunPush(EMPTY, a, b);
    RunPush(EMPTY, a + [b], c);
    events := a + [b] + [c];
  }

  /** And its session opened. */
  lemma StartedRun() returns (events: seq<Event>)
    ensures HonestRun(EMPTY, events) && Started(Run(EMPTY, events), OPEN)
  {
    var ordered := OrderedRun();
    RunPush(EMPTY, ordered, InitReply(0, true));
    events := ordered + [InitReply(0, true)];
  }

  ghost predicate PaidFor(db: Db, session: GatewaySession) {
    && |db.payments| == 1 && db.payments[0].status == SUCCESS && db.payments[0].amount == FEE
    && db.payments[0].bankTran == "bank" && db.payments[0].request == 0 && db.payments[0].refund.None?
    && db.payments[0].session == session
    && |db.requests| == 1 && db.requests[0].status == PAID && db.received == FEE && db.returned == 0
  }

  lemma Vet(started: seq<Event>, session: GatewaySession) returns (events: seq<Event>)
    requires HonestRun(EMPTY, started) && Started(Run(EMPTY, started), session) && session != REFUSED
    ensures HonestRun(EMPTY, events) && Started(Run(EMPTY, events), session)
    ensures 0 in Run(EMPTY, events).tickets && Run(EMPTY, events).tickets[0] == Validated(0, REPLY)
  {
    var read, validate := ReadForConfirm(0, 0), Validate(0, Some(REPLY));
    RunPush(EMPTY, started, read);
    RunPush(EMPTY, started + [read], validate);
    events := started + [read] + [validate];
  }

  /** The payment confirmed. */
  lemma Confirm(started: seq<Event>, session: GatewaySession) returns (events: seq<Event>)
    requires HonestRun(EMPTY, started) && Started(Run(EMPTY, started), session) && session != REFUSED
    ensures HonestRun(EMPTY, events) && PaidFor(Run(EMPTY, events), session)
  {
    var vetted := Vet(started, session);
    RunPush(EMPTY, vetted, Commit(0, 0));
    events := vetted + [Commit(0, 0)];
  }

  lemma PaidRun() returns (events: seq<Event>)
    ensures HonestRun(EMPTY, events) && PaidFor(Run(EMPTY, events), OPEN)
  {
    var started := StartedRun();
    events := Confirm(started, OPEN);
  }

  /** A gateway that refuses a session after validating its transaction makes the FAILED write land on a SUCCESS. */
  lemma {:induction false} UnguardedFailureReached()
    ensures exists events ::
      && HonestRun(EMPTY, events) && PaidFor(Run(EMPTY, events), OPENING)
      && !Honest(Run(EMPTY, events), InitReply(0, false))
      && !Inv(Step(Run(EMPTY, events), InitReply(0, false)).0)
  {
    var ordered := OrderedRun();
    var events := Confirm(ordered, OPENING);
    EveryRun(events);
    RefusedAfterPaid(Run(EMPTY, events));
    assert PaidFor(Run(EMPTY, events), OPENING);
  }

  lemma RefusedAfterPaid(db: Db)
    requires Inv(db) && PaidFor(db, OPENING)
    ensures !Honest(db, InitReply(0, false)) && !Inv(Step(db, InitReply(0, false)).0)
  {
    UnguardedFailure(db, 0);
  }

  ghost predicate Refunded(db: Db) {
    && |db.payments| == 1 && db.payments[0].status == REFUNDED && db.payments[0].amount == FEE
    && |db.requests| == 1 && db.requests[0].status == RequestStatus.CANCELLED && db.received == FEE == db.returned
  }

  /** And refunded. */
  lemma RefundRun(paid: seq<Event>) returns (rest: seq<Event>)
    requires HonestRun(EMPTY, paid) && PaidFor(Run(EMPTY, paid), OPEN)
    ensures HonestRun(EMPTY, paid + rest) && Refunded(Run(EMPTY, paid + rest))
  {
    var ask, approve := RequestRefund(0, 1), ApproveRefund(0, 2, true);
    RunPush(EMPTY, paid, ask);
    RunPush(EMPTY, paid + [ask], approve);
    rest := [ask, approve];
    assert paid + rest == paid + [ask] + [approve];
  }

  /** An admin may read a request as PAID and write it after a refund has cancelled it. */
  lemma {:induction false} StaleStatusWriteReached()
    ensures exists read, rest ::
      && HonestRun(EMPTY, read + rest)
      && |Run(EMPTY, read).requests| > 0 && Run(EMPTY, read).requests[0].status == PAID
      && |Run(EMPTY, read + rest).requests| > 0
      && PROCESSING in AllowedNext(Run(EMPTY, read).requests[0].status)
      && !Inv(SetRequest(Run(EMPTY, read + rest), 0, PROCESSING))
  {
    var read := PaidRun();
    var rest := RefundRun(read);
    EveryRun(read + rest);
    UnguardedStatusWrite(Run(EMPTY, read + rest), 0, PROCESSING);
  }

  ghost predicate FirstStands(events: seq<Event>, status: RequestStatus) {
    HonestRun(EMPTY, events) && |Run(EMPTY, events).requests| > 0 && Run(EMPTY, events).requests[0].status == status
  }

  lemma Moves(events: seq<Event>, from: RequestStatus, next: RequestStatus)
    requires FirstStands(events, from) && next in AllowedNext(from)
    ensures FirstStands(events + [UpdateRequest(0, next)], next)
  {
    RunPush(EMPTY, events, UpdateRequest(0, next));
  }

  /** Two admins read a request as PROCESSING; one completes it, and the other's rejection is written over that. */
  lemma {:induction false} OffTheEdgesReached()
    ensures REJECTED in AllowedNext(PROCESSING) && !RequestEdge(COMPLETED, REJECTED)
    ensures exists read :: FirstStands(read, PROCESSING) && FirstStands(read + [UpdateRequest(0, COMPLETED)], COMPLETED)
  {
    var paid := PaidRun();
    Moves(paid, PAID, PROCESSING);
    var read := paid + [UpdateRequest(0, PROCESSING)];
    Moves(read, PROCESSING, COMPLETED);
  }
}
