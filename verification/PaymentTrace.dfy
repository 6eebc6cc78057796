/**
 Where each payment, its success and its refund came from: which events of the run, and
 what the gateway said in them.
 */
module PaymentTrace {
  import opened Base
  import opened Payments
  import opened PaymentRuns

  lemma Prefix(es: seq<Event>, e: Event)
    ensures (es + [e])[..|es|] == es && (es + [e])[|es|] == e && Run(EMPTY, es + [e]) == Step(Run(EMPTY, es), e).0
  {
  }

  // -- which replies count ---------------------------------------------------

  /** The gateway says of a payment that it was made: its transaction, amount and currency, with a good status. */
  ghost predicate Confirms(reply: Validation, t: TranId, p: Payment) {
    && (reply.status == "VALID" || reply.status == "VALIDATED")
    && reply.tran == t && reply.amount == p.amount && reply.currency == p.currency
  }

  /**
   A worker that has asked goes on exactly when the gateway confirms the payment it asked
   about; any other reply is turned away.
   */
  lemma {:induction false} OnlyConfirmationsCount(es: seq<Event>, w: Worker, reply: Option<Validation>)
    requires HonestRun(EMPTY, es) && w in Run(EMPTY, es).tickets && Run(EMPTY, es).tickets[w].Asking?
    ensures var db := Run(EMPTY, es);
      var t := db.tickets[w].tran;
      var (after, out) := Step(db, Validate(w, reply));
      && t < |db.payments|
      && (out == Done <==> reply.Some? && Confirms(reply.value, t, db.payments[t]))
      && (out != Done ==> out == Refused(VALIDATION_ERROR) && after == db.(tickets := db.tickets - {w}))
  {
    EveryRun(es);
    assert TicketOk(Run(EMPTY, es), Run(EMPTY, es).tickets[w]);
  }

  // -- no success without a confirmation -------------------------------------

  ghost predicate ConfirmedBy(db: Db, e: Event, w: Worker, reply: Validation) {
    e == Validate(w, Some(reply)) && reply.tran < |db.payments| && Confirms(reply, reply.tran, db.payments[reply.tran])
  }

  /** Some event of the run brought the worker this reply, which confirmed the payment as it stood. */
  ghost predicate Confirmed(es: seq<Event>, w: Worker, reply: Validation) {
    exists i :: 0 <= i < |es| && ConfirmedBy(Run(EMPTY, es[..i]), es[i], w, reply)
  }

  lemma StillConfirmed(es: seq<Event>, e: Event, w: Worker, reply: Validation)
    requires Confirmed(es, w, reply)
    ensures Confirmed(es + [e], w, reply)
  {
    var i :| 0 <= i < |es| && ConfirmedBy(Run(EMPTY, es[..i]), es[i], w, reply);
    assert (es + [e])[..i] == es[..i] && (es + [e])[i] == es[i];
  }

  lemma NowConfirmed(es: seq<Event>, e: Event, w: Worker, reply: Validation)
    requires ConfirmedBy(Run(EMPTY, es), e, w, reply)
    ensures Confirmed(es + [e], w, reply)
  {
    Prefix(es, e);
  }

  lemma TicketFrame(db: Db, e: Event, w: Worker)
    requires w in Step(db, e).0.tickets && Step(db, e).0.tickets[w].Validated?
    ensures || (w in db.tickets && db.tickets[w] == Step(db, e).0.tickets[w])
            || (w in db.tickets && db.tickets[w].Asking? && Step(db, e).1 == Done
                && e == Validate(w, Some(Step(db, e).0.tickets[w].reply))
                && Step(db, e).0.tickets[w].tran == db.tickets[w].tran)
  {
    match e
    case Validate(v, reply) =>
    case ReadForConfirm(v, t) =>
    case Commit(v, now) =>
    case _ =>
  }

  /** A ticket that has had its validation holds a reply that confirmed its payment. */
  lemma {:induction false} TicketsConfirmed(es: seq<Event>, w: Worker)
    requires HonestRun(EMPTY, es) && w in Run(EMPTY, es).tickets && Run(EMPTY, es).tickets[w].Validated?
    ensures var t := Run(EMPTY, es).tickets[w]; t.reply.tran == t.tran && Confirmed(es, w, t.reply)
  {
    if es != [] {
      var n := |es| - 1;
      var before, after := Run(EMPTY, es[..n]), Run(EMPTY, es);
      assert es[..n] + [es[n]] == es;
      TicketFrame(before, es[n], w);
      var reply := after.tickets[w].reply;
      if before.tickets[w] == after.tickets[w] {
        TicketsConfirmed(es[..n], w);
        StillConfirmed(es[..n], es[n], w, reply);
      } else {
        OnlyConfirmationsCount(es[..n], w, Some(reply));
        NowConfirmed(es[..n], es[n], w, reply);
      }
    }
  }

  /**
   The commit that booked a payment: it was PENDING, the worker had a confirmation, and
   the row keeps what was said.
   */
  ghost predicate CommittedAt(es: seq<Event>, j: nat, t: TranId, p: Payment, reply: Validation) {
    && j < |es| && es[j].Commit? && p.paidAt == Some(es[j].now) && p.bankTran == reply.bankTran && reply.tran == t
    && t < |Run(EMPTY, es[..j]).payments| && Run(EMPTY, es[..j]).payments[t].status == PENDING
    && Confirmed(es[..j], es[j].worker, reply)
  }

  /** The events that may write to a payment. */
  predicate WritesTo(db: Db, e: Event, t: TranId) {
    match e
    case InitReply(u, _) => u == t
    case MarkTerminal(u, _) => u == t
    case RequestRefund(u, _) => u == t
    case ApproveRefund(u, _, _) => u == t
    case Commit(w, _) => w in db.tickets && db.tickets[w].Validated? && db.tickets[w].tran == t
    case _ => false
  }

  lemma OthersStay(db: Db, e: Event, t: TranId)
    requires t < |db.payments| && !WritesTo(db, e, t)
    ensures t < |Step(db, e).0.payments| && Step(db, e).0.payments[t] == db.payments[t]
  {
    match e
    case Commit(w, now) =>
    case _ =>
  }

  lemma NewIsPending(db: Db, e: Event, t: TranId)
    requires |db.payments| <= t < |Step(db, e).0.payments|
    ensures Step(db, e).0.payments[t].status == PENDING && Step(db, e).0.payments[t].refund.None?
    ensures e.Initiate? && t == |db.payments| && |Step(db, e).0.payments| == t + 1
  {
  }

  /** What happens to a payment's receipt data in a step: nothing, unless it is the commit that books it. */
  lemma BookingFrame(db: Db, e: Event, t: TranId)
    requires Inv(db) && t < |db.payments|
    ensures t < |Step(db, e).0.payments|
    ensures var p, q := db.payments[t], Step(db, e).0.payments[t];
      && (Settled(p) ==> q.paidAt == p.paidAt && q.bankTran == p.bankTran)
      && (!Settled(p) && Settled(q) ==>
            e.Commit? && WritesTo(db, e, t) && p.status == PENDING && q == Paid(p, db.tickets[e.worker].reply, e.now))
  {
    assert PaymentOk(db.payments[t], |db.requests|);
    if !WritesTo(db, e, t) {
      OthersStay(db, e, t);
    }
  }

  /** Every payment that ever succeeded was booked by a commit of a worker whom the gateway had confirmed it to. */
  lemma {:induction false} EverySuccessWasConfirmed(es: seq<Event>, t: TranId) returns (j: nat, reply: Validation)
    requires HonestRun(EMPTY, es) && t < |Run(EMPTY, es).payments| && Settled(Run(EMPTY, es).payments[t])
    ensures CommittedAt(es, j, t, Run(EMPTY, es).payments[t], reply)
  {
    var n := |es| - 1;
    var before := Run(EMPTY, es[..n]);
    EveryRun(es[..n]);
    if t >= |before.payments| {
      NewIsPending(before, es[n], t);
      assert false;
    } else {
      BookingFrame(before, es[n], t);
      if Settled(before.payments[t]) {
        j, reply := EverySuccessWasConfirmed(es[..n], t);
        assert es[..n][..j] == es[..j];
      } else {
        TicketsConfirmed(es[..n], es[n].worker);
        j, reply := n, before.tickets[es[n].worker].reply;
      }
    }
  }

  // -- no refund without the gateway -----------------------------------------

  /** A refund the gateway does not accept changes nothing. */
  lemma {:induction false} RefusedRefund(db: Db, t: TranId, superAdmin: UserId)
    ensures var (after, out) := Step(db, ApproveRefund(t, superAdmin, false)); after == db && out.Refused?
  {
  }

  /** A payment waits for its refund, and the gateway can be asked for it. */
  predicate RefundWaits(p: Payment) {
    p.refund.Some? && p.refund.value.status == REQUESTED && p.bankTran != ""
  }

  /**
   And one it accepts goes through exactly for a payment whose refund was asked for and
   whose bank reference is known.
   */
  lemma {:induction false} AcceptedRefund(db: Db, t: TranId, superAdmin: UserId)
    ensures Step(db, ApproveRefund(t, superAdmin, true)).1 == Done <==> t < |db.payments| && RefundWaits(db.payments[t])
  {
  }

  ghost predicate Refunds(db: Db, e: Event, t: TranId, p: Payment) {
    && e.ApproveRefund? && e.tran == t && e.accepted
    && t < |db.payments| && db.payments[t].status == SUCCESS && RefundWaits(db.payments[t])
    && p.refund == Some(db.payments[t].refund.value.(status := PROCESSED, approvedBy := Some(e.superAdmin)))
  }

  lemma RefundFrame(db: Db, e: Event, t: TranId)
    requires Inv(db) && t < |db.payments| && Honest(db, e)
    ensures t < |Step(db, e).0.payments|
    ensures var p, q := db.payments[t], Step(db, e).0.payments[t];
      q.status == REFUNDED ==> if p.status == REFUNDED then q.refund == p.refund else Refunds(db, e, t, q)
  {
    assert PaymentOk(db.payments[t], |db.requests|);
    if !WritesTo(db, e, t) {
      OthersStay(db, e, t);
    }
  }

  /** Every refunded payment was a success whose refund had been asked for, and the gateway accepted it. */
  lemma {:induction false} EveryRefundWasAccepted(es: seq<Event>, t: TranId) returns (j: nat)
    requires HonestRun(EMPTY, es) && t < |Run(EMPTY, es).payments| && Run(EMPTY, es).payments[t].status == REFUNDED
    ensures j < |es| && Refunds(Run(EMPTY, es[..j]), es[j], t, Run(EMPTY, es).payments[t])
  {
    var n := |es| - 1;
    var before := Run(EMPTY, es[..n]);
    EveryRun(es[..n]);
    if t >= |before.payments| {
      NewIsPending(before, es[n], t);
      assert false;
    } else {
      RefundFrame(before, es[n], t);
      if before.payments[t].status == REFUNDED {
        j := EveryRefundWasAccepted(es[..n], t);
        assert es[..n][..j] == es[..j];
      } else {
        j := n;
      }
    }
  }

  // -- how a refund and a payment begin --------------------------------------

  ghost predicate AsksRefund(db: Db, e: Event, t: TranId, admin: UserId) {
    e == RequestRefund(t, admin) && t < |db.payments| && db.payments[t].status == SUCCESS && db.payments[t].refund.None?
  }

  lemma AskFrame(db: Db, e: Event, t: TranId)
    requires t < |db.payments|
    ensures t < |Step(db, e).0.payments|
    ensures var p, q := db.payments[t], Step(db, e).0.payments[t];
      && (p.refund.Some? ==> q.refund.Some? && q.refund.value.requestedBy == p.refund.value.requestedBy)
      && (p.refund.None? && q.refund.Some? ==> AsksRefund(db, e, t, q.refund.value.requestedBy))
  {
    if !WritesTo(db, e, t) {
      OthersStay(db, e, t);
    }
  }

  /** A refund was asked for once, of a success, by the admin it names. */
  lemma {:induction false} EveryRefundWasAsked(es: seq<Event>, t: TranId) returns (j: nat)
    requires t < |Run(EMPTY, es).payments| && Run(EMPTY, es).payments[t].refund.Some?
    ensures j < |es| && AsksRefund(Run(EMPTY, es[..j]), es[j], t, Run(EMPTY, es).payments[t].refund.value.requestedBy)
  {
    var n := |es| - 1;
    var before := Run(EMPTY, es[..n]);
    if t >= |before.payments| {
      NewIsPending(before, es[n], t);
      assert false;
    } else {
      AskFrame(before, es[n], t);
      if before.payments[t].refund.Some? {
        j := EveryRefundWasAsked(es[..n], t);
        assert es[..n][..j] == es[..j];
      } else {
        j := n;
      }
    }
  }

  /** No payment of the request has ever succeeded. */
  ghost predicate Unpaid(db: Db, r: RequestId) {
    forall i :: 0 <= i < |db.payments| && db.payments[i].request == r ==> !Settled(db.payments[i])
  }

  /** The fee set for the type of a request. */
  function FeeOf(db: Db, r: RequestId): Option<int>
    requires r < |db.requests|
  {
    var ty := db.requests[r].serviceType; if ty in db.fees then Some(db.fees[ty]) else None
  }

  lemma UnpaidIsPending(db: Db, r: RequestId)
    requires Inv(db) && r < |db.requests|
    ensures db.requests[r].status == PENDING_PAYMENT <==> Unpaid(db, r)
  {
    assert RequestOk(db, r);
    CountPositive(db.payments, r, SUCCESS);
    CountPositive(db.payments, r, REFUNDED);
    if Unpaid(db, r) {
      assert forall i :: 0 <= i < |db.payments| ==> !Has(db.payments[i], r, SUCCESS) && !Has(db.payments[i], r, REFUNDED);
    } else {
      var i :| 0 <= i < |db.payments| && db.payments[i].request == r && Settled(db.payments[i]);
      assert Has(db.payments[i], r, SUCCESS) || Has(db.payments[i], r, REFUNDED);
    }
  }

  lemma RunPending(es: seq<Event>, r: RequestId)
    requires HonestRun(EMPTY, es) && r < |Run(EMPTY, es).requests|
    ensures Run(EMPTY, es).requests[r].status == PENDING_PAYMENT <==> Unpaid(Run(EMPTY, es), r)
  {
    EveryRun(es);
    UnpaidIsPending(Run(EMPTY, es), r);
  }

  /**
   A payment can be started exactly by the owner of a request that no payment has ever
   paid, while its fee is positive.
   */
  lemma {:induction false} WhoMayPay(es: seq<Event>, user: UserId, r: RequestId)
    requires HonestRun(EMPTY, es)
    ensures var db := Run(EMPTY, es);
      var out, owns := Step(db, Initiate(user, r)).1, r < |db.requests| && db.requests[r].citizen == user;
      && (out == Done <==> owns && Unpaid(db, r) && FeeOf(db, r).Some? && FeeOf(db, r).value > 0)
      && (out == Refused(ALREADY_PAID) <==> owns && !Unpaid(db, r))
  {
    if r < |Run(EMPTY, es).requests| { RunPending(es, r); }
  }

  /** The event starts the payment, for the fee of that moment. */
  ghost predicate Starts(db: Db, e: Event, t: TranId, p: Payment) {
    && e == Initiate(p.user, p.request) && t == |db.payments|
    && p.request < |db.requests| && db.requests[p.request].citizen == p.user
    && FeeOf(db, p.request) == Some(p.amount) && p.amount > 0 && p.currency == "BDT" && Unpaid(db, p.request)
  }

  /** Every payment was started by the owner of an unpaid request, and its amount is the fee of that moment. */
  lemma {:induction false} EveryPaymentWasStarted(es: seq<Event>, t: TranId) returns (j: nat)
    requires HonestRun(EMPTY, es) && t < |Run(EMPTY, es).payments|
    ensures j < |es| && Starts(Run(EMPTY, es[..j]), es[j], t, Run(EMPTY, es).payments[t])
  {
    var n := |es| - 1;
    var before := Run(EMPTY, es[..n]);
    EveryRun(es[..n]);
    if t < |before.payments| {
      StepKeeps(before, es[n]);
      assert Continues(before.payments[t], Run(EMPTY, es).payments[t]);
      j := EveryPaymentWasStarted(es[..n], t);
      assert es[..n][..j] == es[..j];
    } else {
      j := n;
      NewIsPending(before, es[n], t);
      UnpaidIsPending(before, es[n].request);
    }
  }

  // -- the money, told by the events -----------------------------------------

  /** What the gateway last said to a worker that went on with it. */
  function LastReply(es: seq<Event>, w: Worker): Option<Validation> {
    if es == [] then None
    else
      var n := |es| - 1;
      if es[n].Validate? && es[n].worker == w && Step(Run(EMPTY, es[..n]), es[n]).1 == Done then es[n].reply
      else LastReply(es[..n], w)
  }

  /** The event makes the payment a success. */
  predicate Turns(db: Db, e: Event, t: TranId) {
    var after := Step(db, e).0;
    && e.Commit? && t < |db.payments| && db.payments[t].status == PENDING
    && t < |after.payments| && after.payments[t].status == SUCCESS
  }

  /** What one event adds to what was taken in. */
  function Taken(es: seq<Event>, e: Event): int {
    if e.Commit? && LastReply(es, e.worker).Some? && Turns(Run(EMPTY, es), e, LastReply(es, e.worker).value.tran)
    then LastReply(es, e.worker).value.amount else 0
  }

  /** What the gateway said it took in the replies by which payments became successes. */
  function TakenIn(es: seq<Event>): int {
    if es == [] then 0 else TakenIn(es[..|es| - 1]) + Taken(es[..|es| - 1], es[|es| - 1])
  }

  /** What one event adds to what was given back. */
  function Given(db: Db, e: Event): int {
    if e.ApproveRefund? && e.accepted && e.tran < |db.payments| && RefundWaits(db.payments[e.tran])
    then db.payments[e.tran].refund.value.amount else 0
  }

  /** What it gave back: the refunds it was asked for and accepted. */
  function GivenBack(es: seq<Event>): int {
    if es == [] then 0 else GivenBack(es[..|es| - 1]) + Given(Run(EMPTY, es[..|es| - 1]), es[|es| - 1])
  }

  lemma {:induction false} TicketsReply(es: seq<Event>, w: Worker)
    requires w in Run(EMPTY, es).tickets && Run(EMPTY, es).tickets[w].Validated?
    ensures LastReply(es, w) == Some(Run(EMPTY, es).tickets[w].reply)
  {
    if es != [] {
      var n := |es| - 1;
      var before, after := Run(EMPTY, es[..n]), Run(EMPTY, es);
      TicketFrame(before, es[n], w);
      if before.tickets[w] == after.tickets[w] { TicketsReply(es[..n], w); }
    }
  }

  /** A validated ticket holds what was said last, about the payment it is for. */
  lemma TicketTold(es: seq<Event>, w: Worker)
    requires HonestRun(EMPTY, es) && w in Run(EMPTY, es).tickets && Run(EMPTY, es).tickets[w].Validated?
    ensures var t := Run(EMPTY, es).tickets[w]; LastReply(es, w) == Some(t.reply) && t.reply.tran == t.tran
  {
    TicketsReply(es, w);
    TicketsConfirmed(es, w);
  }

  lemma CommitAdds(es: seq<Event>, w: Worker, now: Time)
    requires var ts := Run(EMPTY, es).tickets;
      w in ts && ts[w].Validated? ==> LastReply(es, w) == Some(ts[w].reply) && ts[w].reply.tran == ts[w].tran
    ensures Step(Run(EMPTY, es), Commit(w, now)).0.received == Run(EMPTY, es).received + Taken(es, Commit(w, now))
  {
    var db := Run(EMPTY, es);
  }

  lemma CommitTaken(es: seq<Event>, w: Worker, now: Time)
    requires HonestRun(EMPTY, es)
    ensures Step(Run(EMPTY, es), Commit(w, now)).0.received == Run(EMPTY, es).received + Taken(es, Commit(w, now))
  {
    if w in Run(EMPTY, es).tickets && Run(EMPTY, es).tickets[w].Validated? { TicketTold(es, w); }
    CommitAdds(es, w, now);
  }

  lemma {:induction false} ReceivedIsTakenIn(es: seq<Event>)
    requires HonestRun(EMPTY, es)
    ensures Run(EMPTY, es).received == TakenIn(es)
  {
    if es != [] {
      var n := |es| - 1;
      ReceivedIsTakenIn(es[..n]);
      if es[n].Commit? {
        CommitTaken(es[..n], es[n].worker, es[n].now);
      }
    }
  }

  lemma RefundAmount(es: seq<Event>, t: TranId)
    requires HonestRun(EMPTY, es) && t < |Run(EMPTY, es).payments| && Run(EMPTY, es).payments[t].refund.Some?
    ensures Run(EMPTY, es).payments[t].refund.value.amount == Run(EMPTY, es).payments[t].amount
  {
    EveryRun(es);
    assert PaymentOk(Run(EMPTY, es).payments[t], |Run(EMPTY, es).requests|);
  }

  lemma ReturnedFrame(db: Db, e: Event)
    requires !e.ApproveRefund?
    ensures Step(db, e).0.returned == db.returned
  {
  }

  lemma ApproveGives(db: Db, e: Event)
    requires e.ApproveRefund?
    requires e.tran < |db.payments| && db.payments[e.tran].refund.Some? ==>
      db.payments[e.tran].refund.value.amount == db.payments[e.tran].amount
    ensures Step(db, e).0.returned == db.returned + Given(db, e)
  {
  }

  lemma {:induction false} ReturnedIsGivenBack(es: seq<Event>)
    requires HonestRun(EMPTY, es)
    ensures Run(EMPTY, es).returned == GivenBack(es)
  {
    if es != [] {
      var n := |es| - 1;
      var db := Run(EMPTY, es[..n]);
      ReturnedIsGivenBack(es[..n]);
      if es[n].ApproveRefund? {
        if es[n].tran < |db.payments| && db.payments[es[n].tran].refund.Some? { RefundAmount(es[..n], es[n].tran); }
        ApproveGives(db, es[n]);
      } else {
        ReturnedFrame(db, es[n]);
      }
    }
  }

  // -- the paperwork ---------------------------------------------------------

  /** One audit row for each thing that happened to a payment, and one notification of its refund. */
  ghost predicate PaperOk(db: Db, t: TranId) {
    var there := t < |db.payments|;
    && db.audits[PAYMENT_INITIATED(t)] == Bit(there && db.payments[t].session == OPEN)
    && db.audits[PAYMENT_REFUND_REQUESTED(t)] == Bit(there && db.payments[t].refund.Some?)
    && db.audits[PAYMENT_REFUNDED(t)] == Bit(there && db.payments[t].status == REFUNDED)
    && db.notifications[PaymentRefunded(t)] == Bit(there && db.payments[t].status == REFUNDED)
  }

  lemma PaperSession(db: Db, u: TranId, ok: bool, t: TranId)
    requires PaperOk(db, t) && (t < |db.payments| && db.payments[t].status == REFUNDED ==> Honest(db, InitReply(u, ok)))
    ensures PaperOk(InitReplyStep(db, u, ok).0, t)
  {
    if u == t && t < |db.payments| && !ok && db.payments[t].session == OPENING {
      assert db.payments[t].status != REFUNDED by {
        if db.payments[t].status == REFUNDED { assert Vouched(db, t); }
      }
    }
  }

  lemma PaperCommit(db: Db, w: Worker, now: Time, t: TranId)
    requires PaperOk(db, t)
    ensures PaperOk(CommitStep(db, w, now).0, t)
  {
  }

  lemma PaperRefund(db: Db, e: Event, t: TranId)
    requires PaperOk(db, t) && (e.RequestRefund? || e.ApproveRefund?)
    requires t < |db.payments| ==> PaymentOk(db.payments[t], |db.requests|)
    ensures PaperOk(Step(db, e).0, t)
  {
  }

  lemma PaperStart(db: Db, user: UserId, r: RequestId, t: TranId)
    requires PaperOk(db, t)
    ensures PaperOk(InitiateStep(db, user, r).0, t)
  {
  }

  lemma PaperAside(db: Db, e: Event, t: TranId)
    requires PaperOk(db, t)
    requires e.SetFee? || e.CreateRequest? || e.ReadForConfirm? || e.Validate? || e.DispatchReceipt? || e.LoseReceipt?
             || e.UpdateRequest?
    ensures PaperOk(Step(db, e).0, t)
  {
  }

  lemma PaperStep(db: Db, e: Event, t: TranId)
    requires Inv(db) && Honest(db, e) && PaperOk(db, t)
    ensures PaperOk(Step(db, e).0, t)
  {
    if t < |db.payments| { assert PaymentOk(db.payments[t], |db.requests|); }
    if e.InitReply? {
      PaperSession(db, e.tran, e.ok, t);
    } else if e.Commit? {
      PaperCommit(db, e.worker, e.now, t);
    } else if e.RequestRefund? || e.ApproveRefund? {
      PaperRefund(db, e, t);
    } else if e.Initiate? {
      PaperStart(db, e.user, e.request, t);
    } else if !e.MarkTerminal? {
      PaperAside(db, e, t);
    }
  }

  /**
   Each opened session, refund asked for and refund made left its one audit row, and a
   refund its notification, and nothing else did.
   */
  lemma {:induction false} EveryPaper(es: seq<Event>, t: TranId)
    requires HonestRun(EMPTY, es)
    ensures PaperOk(Run(EMPTY, es), t)
  {
    if es != [] {
      var n := |es| - 1;
      EveryPaper(es[..n], t);
      EveryRun(es[..n]);
      PaperStep(Run(EMPTY, es[..n]), es[n], t);
    }
  }

  /** The receipts a dying process took with it, and those that were sent. */
  function Lost(es: seq<Event>, t: TranId): nat {
    if es == [] then 0
    else
      var n := |es| - 1;
      Lost(es[..n], t) + (if es[n] == LoseReceipt(t) && t in Run(EMPTY, es[..n]).receiptsDue then 1 else 0)
  }

  function Sent(es: seq<Event>, t: TranId): nat {
    if es == [] then 0
    else
      var n := |es| - 1;
      Sent(es[..n], t) + (if es[n] == DispatchReceipt(t) && Step(Run(EMPTY, es[..n]), es[n]).1 == Done then 1 else 0)
  }

  function SettledBit(db: Db, t: TranId): nat {
    Bit(t < |db.payments| && Settled(db.payments[t]))
  }

  /** A step that sends or loses no receipt makes one due for each payment it settles. */
  ghost predicate Owes(db: Db, after: Db, t: TranId) {
    && after.receipts[t] == db.receipts[t]
    && after.receiptsDue[t] + SettledBit(db, t) == db.receiptsDue[t] + SettledBit(after, t)
  }

  lemma CommitOwes(db: Db, w: Worker, now: Time, t: TranId)
    ensures Owes(db, CommitStep(db, w, now).0, t)
  {
  }

  lemma RefundOwes(db: Db, e: Event, t: TranId)
    requires e.RequestRefund? || e.ApproveRefund?
    requires t < |db.payments| ==> PaymentOk(db.payments[t], |db.requests|)
    ensures Owes(db, Step(db, e).0, t)
  {
  }

  lemma SessionOwes(db: Db, u: TranId, ok: bool, t: TranId)
    requires Honest(db, InitReply(u, ok))
    ensures Owes(db, InitReplyStep(db, u, ok).0, t)
  {
    if u == t && t < |db.payments| && !ok && Settled(db.payments[t]) { assert Vouched(db, t); }
  }

  lemma AsideOwes(db: Db, e: Event, t: TranId)
    requires e.SetFee? || e.CreateRequest? || e.Initiate? || e.ReadForConfirm? || e.Validate? || e.MarkTerminal? || e.UpdateRequest?
    ensures Owes(db, Step(db, e).0, t)
  {
  }

  /** One receipt sent, or lost. */
  lemma ReceiptMoves(db: Db, e: Event, t: TranId)
    requires e.DispatchReceipt? || e.LoseReceipt?
    ensures var after := Step(db, e).0;
      && SettledBit(after, t) == SettledBit(db, t)
      && after.receipts[t] == db.receipts[t] + (if e == DispatchReceipt(t) && Step(db, e).1 == Done then 1 else 0)
      && after.receiptsDue[t] + after.receipts[t]
         == db.receiptsDue[t] + db.receipts[t] - (if e == LoseReceipt(t) && t in db.receiptsDue then 1 else 0)
  {
  }

  lemma StepOwes(db: Db, e: Event, t: TranId)
    requires Inv(db) && Honest(db, e) && !e.DispatchReceipt? && !e.LoseReceipt?
    ensures Owes(db, Step(db, e).0, t)
  {
    if t < |db.payments| { assert PaymentOk(db.payments[t], |db.requests|); }
    if e.Commit? {
      CommitOwes(db, e.worker, e.now, t);
    } else if e.InitReply? {
      SessionOwes(db, e.tran, e.ok, t);
    } else if e.RequestRefund? || e.ApproveRefund? {
      RefundOwes(db, e, t);
    } else {
      AsideOwes(db, e, t);
    }
  }

  /** Every payment that succeeded has its one receipt sent, still due, or lost with a process. */
  lemma {:induction false} EveryReceipt(es: seq<Event>, t: TranId)
    requires HonestRun(EMPTY, es)
    ensures var db := Run(EMPTY, es);
      && db.receipts[t] == Sent(es, t)
      && db.receiptsDue[t] + Sent(es, t) + Lost(es, t) == SettledBit(db, t)
  {
    if es != [] {
      var n := |es| - 1;
      EveryReceipt(es[..n], t);
      if es[n].DispatchReceipt? || es[n].LoseReceipt? {
        ReceiptMoves(Run(EMPTY, es[..n]), es[n], t);
      } else {
        EveryRun(es[..n]);
        StepOwes(Run(EMPTY, es[..n]), es[n], t);
      }
    }
  }

  // -- callbacks and the admin's moves ---------------------------------------

  /** A fail or cancel callback moves the payment exactly while it is PENDING, and nothing else. */
  lemma {:induction false} CallbackMoves(db: Db, t: TranId, status: PaymentStatus)
    requires status == FAILED || status == PaymentStatus.CANCELLED
    ensures var after := Step(db, MarkTerminal(t, status)).0;
      && after == db.(payments := after.payments) && |after.payments| == |db.payments|
      && forall u :: 0 <= u < |db.payments| ==>
        after.payments[u]
        == if u == t && db.payments[u].status == PENDING then db.payments[u].(status := status) else db.payments[u]
  {
  }

  /** The admin's moves: on from PAID to PROCESSING and from there to COMPLETED, or from either to REJECTED. */
  lemma {:induction false} AdminMoves(db: Db, r: RequestId, next: RequestStatus)
    ensures var (after, out) := Step(db, UpdateRequest(r, next));
      && (out == Done <==>
            r < |db.requests| && (db.requests[r].status, next) in
              {(PAID, PROCESSING), (PAID, REJECTED), (PROCESSING, COMPLETED), (PROCESSING, REJECTED)})
      && (out != Done ==> after == db)
      && (out == Done ==> after == db.(requests := db.requests[r := db.requests[r].(status := next)]))
  {
  }
}
