/** The payment requests and callbacks as they run: each method updates the tables in place. */
module PaymentService {
  import opened Base
  import opened Payments
  import opened PaymentRuns
  import opened PaymentTrace

  class Service {
    var payments: seq<Payment>
    var requests: seq<ServiceRequest>
    var fees: map<TypeId, int>
    var tickets: map<Worker, Ticket>
    var audits: multiset<AuditRow>
    var notifications: multiset<Notification>
    var receiptsDue: multiset<TranId>
    var receipts: multiset<TranId>
    var received: int
    var returned: int

    function View(): Db
      reads this
    {
      Db(payments, requests, fees, tickets, audits, notifications, receiptsDue, receipts, received, returned)
    }

    /** What every run of the tables keeps. */
    ghost predicate Valid()
      reads this
    {
      Inv(View())
    }

    constructor ()
      ensures View() == EMPTY && Valid()
    {
      payments, requests, fees, tickets := [], [], map[], map[];
      audits, notifications, receiptsDue, receipts := multiset{}, multiset{}, multiset{}, multiset{};
      received, returned := 0, 0;
      new;
      EmptyInv();
      assert View() == EMPTY;
    }

    method CreateServiceRequest(citizen: UserId, serviceType: TypeId) returns (out: Outcome)
      requires Valid()
      modifies this`requests
      ensures (View(), out) == CreateRequestStep(old(View()), citizen, serviceType)
      ensures Valid()
    {
      StepKeeps(View(), CreateRequest(citizen, serviceType));
      if serviceType !in fees { return Refused(VALIDATION_ERROR); }
      requests := requests + [ServiceRequest(citizen, serviceType, PENDING_PAYMENT)];
      out := Done;
    }

    method InitiatePayment(user: UserId, request: RequestId) returns (out: Outcome)
      requires Valid()
      modifies this`payments
      ensures (View(), out) == InitiateStep(old(View()), user, request)
      ensures Valid()
    {
      StepKeeps(View(), Initiate(user, request));
      if request >= |requests| || requests[request].citizen != user { return Refused(NOT_FOUND); }
      var sr := requests[request];
      if sr.status != PENDING_PAYMENT { return Refused(ALREADY_PAID); }
      if sr.serviceType !in fees { return Refused(CONSTRAINT); }
      var amount := fees[sr.serviceType];
      if amount <= 0 { return Refused(CONSTRAINT); }
      payments := payments + [Payment(request, user, amount, CURRENCY, PENDING, "", None, None, OPENING)];
      out := Done;
    }

    /** What follows the gateway's answer to `init`. */
    method FinishInitiate(t: TranId, ok: bool) returns (out: Outcome)
      requires Valid()
      modifies this`payments, this`audits
      ensures (View(), out) == InitReplyStep(old(View()), t, ok)
      ensures Honest(old(View()), InitReply(t, ok)) ==> Valid()
    {
      if Honest(View(), InitReply(t, ok)) { StepKeeps(View(), InitReply(t, ok)); }
      if t >= |payments| || payments[t].session != OPENING { return Refused(NOT_FOUND); }
      if !ok {
        payments := payments[t := payments[t].(status := FAILED, session := REFUSED)];
        return Refused(GATEWAY_ERROR);
      }
      payments := payments[t := payments[t].(session := OPEN)];
      audits := audits + multiset{PAYMENT_INITIATED(t)};
      out := Done;
    }

    method FindPayment(worker: Worker, t: TranId) returns (out: Outcome)
      requires Valid()
      modifies this`tickets
      ensures (View(), out) == ReadForConfirmStep(old(View()), worker, t)
      ensures Valid()
    {
      StepKeeps(View(), ReadForConfirm(worker, t));
      if t >= |payments| { return Refused(NOT_FOUND); }
      var payment := payments[t];
      if payment.status == SUCCESS { return Already; }
      tickets := tickets[worker := Asking(t, payment.amount, payment.currency)];
      out := Done;
    }

    method CheckValidation(worker: Worker, reply: Option<Validation>) returns (out: Outcome)
      requires Valid()
      modifies this`tickets
      ensures (View(), out) == ValidateStep(old(View()), worker, reply)
      ensures worker in old(tickets) && old(tickets)[worker].Asking? ==>
        var t := old(tickets)[worker].tran;
        t < |payments| && (out == Done <==> reply.Some? && Confirms(reply.value, t, payments[t]))
      ensures Honest(old(View()), Validate(worker, reply)) ==> Valid()
    {
      if Honest(View(), Validate(worker, reply)) { StepKeeps(View(), Validate(worker, reply)); }
      if worker in tickets { assert TicketOk(View(), tickets[worker]); }
      if worker !in tickets || !tickets[worker].Asking? { return Refused(NOT_FOUND); }
      var t := tickets[worker];
      var good := false;
      match reply {
        case None =>
        case Some(v) =>
          good := (v.status == "VALID" || v.status == "VALIDATED")
                  && v.tran == t.tran && v.amount == t.amount && v.currency == t.currency;
      }
      if !good {
        tickets := tickets - {worker};
        return Refused(VALIDATION_ERROR);
      }
      tickets := tickets[worker := Validated(t.tran, reply.value)];
      out := Done;
    }

    /** The transaction of `confirm`, all of it or nothing. */
    method CommitConfirm(worker: Worker, now: Time) returns (out: Outcome)
      requires Valid()
      modifies this
      ensures (View(), out) == CommitStep(old(View()), worker, now)
      ensures Valid()
    {
      StepKeeps(View(), Commit(worker, now));
      if worker !in tickets || !tickets[worker].Validated? || tickets[worker].tran >= |payments| {
        return Refused(NOT_FOUND);
      }
      var t, reply := tickets[worker].tran, tickets[worker].reply;
      tickets := tickets - {worker};
      var payment := payments[t];
      if payment.status != PENDING { return Already; }
      if SuccessTaken(payments, payment.request) { return Refused(CONSTRAINT); }
      Book(t, reply, now);
      out := Done;
    }

    method Book(t: TranId, reply: Validation, now: Time)
      requires t < |payments|
      modifies this
      ensures View() == Booked(old(View()), t, reply, now)
    {
      Settle(t, reply, now);
      audits := audits + multiset{PAYMENT_SUCCESS(t)};
      notifications := notifications + multiset{PaymentReceived(t)};
      receiptsDue := receiptsDue + multiset{t};
      received := received + reply.amount;
    }

    method Settle(t: TranId, reply: Validation, now: Time)
      requires t < |payments|
      modifies this`payments, this`requests
      ensures payments == old(payments)[t := Paid(old(payments)[t], reply, now)]
      ensures requests == WithStatus(old(requests), old(payments)[t].request, PAID)
    {
      var payment := payments[t];
      payments := payments[t := payment.(status := SUCCESS, bankTran := reply.bankTran, paidAt := Some(now))];
      if payment.request < |requests| {
        requests := requests[payment.request := requests[payment.request].(status := PAID)];
      }
    }

    method SendReceipt(t: TranId) returns (out: Outcome)
      requires Valid()
      modifies this`receiptsDue, this`receipts
      ensures (View(), out) == DispatchStep(old(View()), t)
      ensures Valid()
    {
      StepKeeps(View(), DispatchReceipt(t));
      if t !in receiptsDue { return Refused(NOT_FOUND); }
      receiptsDue := receiptsDue - multiset{t};
      receipts := receipts + multiset{t};
      out := Done;
    }

    method Mark(t: TranId, status: PaymentStatus) returns (out: Outcome)
      requires Valid()
      modifies this`payments
      ensures (View(), out) == MarkTerminalStep(old(View()), t, status)
      ensures Valid()
    {
      StepKeeps(View(), MarkTerminal(t, status));
      if status != FAILED && status != PaymentStatus.CANCELLED { return Refused(VALIDATION_ERROR); }
      if t < |payments| && payments[t].status == PENDING {
        payments := payments[t := payments[t].(status := status)];
      }
      out := Done;
    }

    method UpdateRequestStatus(r: RequestId, next: RequestStatus) returns (out: Outcome)
      requires Valid()
      modifies this`requests
      ensures (View(), out) == UpdateRequestStep(old(View()), r, next)
      ensures Valid()
    {
      StepKeeps(View(), UpdateRequest(r, next));
      if r >= |requests| { return Refused(NOT_FOUND); }
      var current := requests[r].status;
      var allowed :=
        (current == PAID && (next == PROCESSING || next == REJECTED))
        || (current == PROCESSING && (next == COMPLETED || next == REJECTED));
      if !allowed { return Refused(INVALID_TRANSITION); }
      requests := requests[r := requests[r].(status := next)];
      out := Done;
    }

    method AskRefund(t: TranId, admin: UserId) returns (out: Outcome)
      requires Valid()
      modifies this`payments, this`audits
      ensures (View(), out) == RequestRefundStep(old(View()), t, admin)
      ensures Valid()
    {
      StepKeeps(View(), RequestRefund(t, admin));
      if t >= |payments| { return Refused(NOT_FOUND); }
      var payment := payments[t];
      if payment.status != SUCCESS { return Refused(CONFLICT); }
      if payment.refund.Some? { return Refused(CONFLICT); }
      payments := payments[t := payment.(refund := Some(Refund(payment.amount, REQUESTED, admin, None)))];
      audits := audits + multiset{PAYMENT_REFUND_REQUESTED(t)};
      out := Done;
    }

    method ApproveAskedRefund(t: TranId, superAdmin: UserId, accepted: bool) returns (out: Outcome)
      requires Valid()
      modifies this
      ensures (View(), out) == ApproveRefundStep(old(View()), t, superAdmin, accepted)
      ensures !accepted ==> View() == old(View()) && out.Refused?
      ensures accepted ==> (out == Done <==> t < |old(payments)| && RefundWaits(old(payments)[t]))
      ensures Valid()
    {
      StepKeeps(View(), ApproveRefund(t, superAdmin, accepted));
      out := GiveBack(t, superAdmin, accepted);
    }

    /** The gateway's answer, and what an accepted refund writes. */
    method GiveBack(t: TranId, superAdmin: UserId, accepted: bool) returns (out: Outcome)
      modifies this
      ensures (View(), out) == ApproveRefundStep(old(View()), t, superAdmin, accepted)
    {
      if t >= |payments| || payments[t].refund.None? { return Refused(NOT_FOUND); }
      var payment := payments[t];
      if payment.refund.value.status != REQUESTED { return Refused(CONFLICT); }
      if payment.bankTran == "" { return Refused(CONFLICT); }
      if !accepted { return Refused(GATEWAY_ERROR); }
      returned := returned + payment.amount;
      var refund := payment.refund.value.(status := PROCESSED, approvedBy := Some(superAdmin));
      payments := payments[t := payment.(refund := Some(refund))];
      payments := payments[t := payments[t].(status := REFUNDED)];
      assert payments == old(payments)[t := Returned(payment, superAdmin)];
      if payment.request < |requests| {
        requests := requests[payment.request := requests[payment.request].(status := RequestStatus.CANCELLED)];
      }
      audits := audits + multiset{PAYMENT_REFUNDED(t)};
      notifications := notifications + multiset{PaymentRefunded(t)};
      out := Done;
    }
  }
}
