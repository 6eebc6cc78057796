/**
 Payments, service requests and refunds: confirm workers racing callbacks.

 The payment and request tables are append-only; a row's id, and a payment's
 transaction id, is its position.  A refund hangs off its payment.  Amounts are
 whole paisa.  The gateway is outside: its replies are arguments, and what it
 has opened is remembered so that its honesty can be stated.
 */
module Payments {
  import opened Base

  type TranId = nat
  type RequestId = nat
  type TypeId = nat
  type Worker = nat

  datatype PaymentStatus = PENDING | SUCCESS | FAILED | CANCELLED | REFUNDED

  datatype RequestStatus = PENDING_PAYMENT | PAID | PROCESSING | COMPLETED | REJECTED | CANCELLED

  datatype RefundStatus = REQUESTED | PROCESSED

  datatype Refund = Refund(amount: int, status: RefundStatus, requestedBy: UserId, approvedBy: Option<UserId>)

  /** What the gateway has answered about a transaction's session: nothing so far, a payment page, or a refusal. */
  datatype GatewaySession = OPENING | OPEN | REFUSED

  datatype Payment = Payment(
    request: RequestId, user: UserId, amount: int, currency: string, status: PaymentStatus,
    bankTran: string, paidAt: Option<Time>, refund: Option<Refund>, session: GatewaySession)

  datatype ServiceRequest = ServiceRequest(citizen: UserId, serviceType: TypeId, status: RequestStatus)

  datatype Validation = Validation(status: string, tran: TranId, amount: int, currency: string, bankTran: string)

  /** A confirm worker: it has read the payment, or has also had a good validation for it. */
  datatype Ticket =
    | Asking(tran: TranId, amount: int, currency: string)
    | Validated(tran: TranId, reply: Validation)

  datatype AuditRow =
    | PAYMENT_INITIATED(tran: TranId)
    | PAYMENT_SUCCESS(tran: TranId)
    | PAYMENT_REFUND_REQUESTED(tran: TranId)
    | PAYMENT_REFUNDED(tran: TranId)

  datatype Notification = PaymentReceived(tran: TranId) | PaymentRefunded(tran: TranId)

  /**
   `receiptsDue` holds the receipts a commit has left to be sent, `receipts` those
   dispatched.  `received` and `returned` add up what the gateway said it took in
   the validations that were committed and what it was told to give back.
   */
  datatype Db = Db(
    payments: seq<Payment>, requests: seq<ServiceRequest>, fees: map<TypeId, int>,
    tickets: map<Worker, Ticket>, audits: multiset<AuditRow>, notifications: multiset<Notification>,
    receiptsDue: multiset<TranId>, receipts: multiset<TranId>, received: int, returned: int)

  const EMPTY := Db([], [], map[], map[], multiset{}, multiset{}, multiset{}, multiset{}, 0, 0)

  datatype Error =
    | NOT_FOUND | ALREADY_PAID | VALIDATION_ERROR | GATEWAY_ERROR | CONFLICT
    | INVALID_TRANSITION | CONSTRAINT

  datatype Outcome = Done | Already | Refused(error: Error)

  const CURRENCY := "BDT"

  /** One atomic step of one request or callback. */
  datatype Event =
    | SetFee(serviceType: TypeId, fee: int)
    | CreateRequest(citizen: UserId, serviceType: TypeId)
    | Initiate(user: UserId, request: RequestId)
    | InitReply(tran: TranId, ok: bool)
    | ReadForConfirm(worker: Worker, tran: TranId)
    | Validate(worker: Worker, reply: Option<Validation>)
    | Commit(worker: Worker, now: Time)
    | DispatchReceipt(tran: TranId)
    | LoseReceipt(tran: TranId)
    | MarkTerminal(tran: TranId, status: PaymentStatus)
    | UpdateRequest(request: RequestId, next: RequestStatus)
    | RequestRefund(tran: TranId, admin: UserId)
    | ApproveRefund(tran: TranId, superAdmin: UserId, accepted: bool)

  function SetPayment(db: Db, t: TranId, p: Payment): Db
    requires t < |db.payments|
  {
    db.(payments := db.payments[t := p])
  }

  function SetRequest(db: Db, r: RequestId, status: RequestStatus): Db {
    db.(requests := WithStatus(db.requests, r, status))
  }

  function WithStatus(requests: seq<ServiceRequest>, r: RequestId, status: RequestStatus): seq<ServiceRequest> {
    if r < |requests| then requests[r := requests[r].(status := status)] else requests
  }

  function DropTicket(db: Db, w: Worker): Db {
    db.(tickets := db.tickets - {w})
  }

  function CreateRequestStep(db: Db, citizen: UserId, serviceType: TypeId): (Db, Outcome) {
    if serviceType !in db.fees then (db, Refused(VALIDATION_ERROR))
    else (db.(requests := db.requests + [ServiceRequest(citizen, serviceType, PENDING_PAYMENT)]), Done)
  }

  /** The payment row is written with the fee of the moment before the gateway is called. */
  function InitiateStep(db: Db, user: UserId, request: RequestId): (Db, Outcome) {
    if request >= |db.requests| || db.requests[request].citizen != user then (db, Refused(NOT_FOUND))
    else
      var r := db.requests[request];
      if r.status != PENDING_PAYMENT then (db, Refused(ALREADY_PAID))
      else if r.serviceType !in db.fees || db.fees[r.serviceType] <= 0 then (db, Refused(CONSTRAINT))
      else
        var p := Payment(request, user, db.fees[r.serviceType], CURRENCY, PENDING, "", None, None, OPENING);
        (db.(payments := db.payments + [p]), Done)
  }

  /** A refused session fails the payment, whatever status it has by then. */
  function InitFailed(p: Payment): Payment {
    p.(status := FAILED, session := REFUSED)
  }

  function InitReplyStep(db: Db, t: TranId, ok: bool): (Db, Outcome) {
    if t >= |db.payments| || db.payments[t].session != OPENING then (db, Refused(NOT_FOUND))
    else if !ok then (SetPayment(db, t, InitFailed(db.payments[t])), Refused(GATEWAY_ERROR))
    else
      (SetPayment(db, t, db.payments[t].(session := OPEN)).(audits := db.audits + multiset{PAYMENT_INITIATED(t)}), Done)
  }

  function ReadForConfirmStep(db: Db, w: Worker, t: TranId): (Db, Outcome) {
    if t >= |db.payments| then (db, Refused(NOT_FOUND))
    else
      var p := db.payments[t];
      if p.status == SUCCESS then (db, Already)
      else (db.(tickets := db.tickets[w := Asking(t, p.amount, p.currency)]), Done)
  }

  predicate Accepts(t: Ticket, reply: Option<Validation>)
    requires t.Asking?
  {
    reply.Some? && reply.value.status in {"VALID", "VALIDATED"} && reply.value.tran == t.tran
    && reply.value.amount == t.amount && reply.value.currency == t.currency
  }

  function ValidateStep(db: Db, w: Worker, reply: Option<Validation>): (Db, Outcome) {
    if w !in db.tickets || !db.tickets[w].Asking? then (db, Refused(NOT_FOUND))
    else if !Accepts(db.tickets[w], reply) then (DropTicket(db, w), Refused(VALIDATION_ERROR))
    else (db.(tickets := db.tickets[w := Validated(db.tickets[w].tran, reply.value)]), Done)
  }

  function Paid(p: Payment, reply: Validation, now: Time): Payment {
    p.(status := SUCCESS, bankTran := reply.bankTran, paidAt := Some(now))
  }

  /** The partial unique index: another SUCCESS payment of the same request. */
  predicate SuccessTaken(payments: seq<Payment>, r: RequestId) {
    exists i :: 0 <= i < |payments| && payments[i].request == r && payments[i].status == SUCCESS
  }

  /** All that a successful commit writes. */
  function Booked(db: Db, t: TranId, reply: Validation, now: Time): Db
    requires t < |db.payments|
  {
    db.(payments := db.payments[t := Paid(db.payments[t], reply, now)],
        requests := WithStatus(db.requests, db.payments[t].request, PAID),
        audits := db.audits + multiset{PAYMENT_SUCCESS(t)},
        notifications := db.notifications + multiset{PaymentReceived(t)},
        receiptsDue := db.receiptsDue + multiset{t},
        received := db.received + reply.amount)
  }

  /** The transaction of `confirm`: only a PENDING row moves, and the index may still abort it. */
  function CommitStep(db: Db, w: Worker, now: Time): (Db, Outcome) {
    if w !in db.tickets || !db.tickets[w].Validated? || db.tickets[w].tran >= |db.payments|
    then (db, Refused(NOT_FOUND))
    else
      var t, reply := db.tickets[w].tran, db.tickets[w].reply;
      var p := db.payments[t];
      var free := DropTicket(db, w);
      if p.status != PENDING then (free, Already)
      else if SuccessTaken(db.payments, p.request) then (free, Refused(CONSTRAINT))
      else
        (Booked(free, t, reply, now), Done)
  }

  function DispatchStep(db: Db, t: TranId): (Db, Outcome) {
    if t !in db.receiptsDue then (db, Refused(NOT_FOUND))
    else (db.(receiptsDue := db.receiptsDue - multiset{t}, receipts := db.receipts + multiset{t}), Done)
  }

  /** The process died between the commit and the dispatch. */
  function LoseStep(db: Db, t: TranId): (Db, Outcome) {
    (db.(receiptsDue := db.receiptsDue - multiset{t}), Done)
  }

  function MarkTerminalStep(db: Db, t: TranId, status: PaymentStatus): (Db, Outcome) {
    if status !in {FAILED, PaymentStatus.CANCELLED} then (db, Refused(VALIDATION_ERROR))
    else if t < |db.payments| && db.payments[t].status == PENDING
    then (SetPayment(db, t, db.payments[t].(status := status)), Done)
    else (db, Done)
  }

  function AllowedNext(s: RequestStatus): set<RequestStatus> {
    match s
    case PAID => {PROCESSING, REJECTED}
    case PROCESSING => {COMPLETED, REJECTED}
    case _ => {}
  }

  function UpdateRequestStep(db: Db, r: RequestId, next: RequestStatus): (Db, Outcome) {
    if r >= |db.requests| then (db, Refused(NOT_FOUND))
    else if next !in AllowedNext(db.requests[r].status) then (db, Refused(INVALID_TRANSITION))
    else (SetRequest(db, r, next), Done)
  }

  function RequestRefundStep(db: Db, t: TranId, admin: UserId): (Db, Outcome) {
    if t >= |db.payments| then (db, Refused(NOT_FOUND))
    else
      var p := db.payments[t];
      if p.status != SUCCESS then (db, Refused(CONFLICT))
      else if p.refund.Some? then (db, Refused(CONFLICT))
      else
        (SetPayment(db, t, p.(refund := Some(Refund(p.amount, REQUESTED, admin, None))))
           .(audits := db.audits + multiset{PAYMENT_REFUND_REQUESTED(t)}), Done)
  }

  function Returned(p: Payment, superAdmin: UserId): Payment
    requires p.refund.Some?
  {
    p.(status := REFUNDED, refund := Some(p.refund.value.(status := PROCESSED, approvedBy := Some(superAdmin))))
  }

  function ApproveRefundStep(db: Db, t: TranId, superAdmin: UserId, accepted: bool): (Db, Outcome) {
    if t >= |db.payments| || db.payments[t].refund.None? then (db, Refused(NOT_FOUND))
    else
      var p := db.payments[t];
      if p.refund.value.status != REQUESTED then (db, Refused(CONFLICT))
      else if p.bankTran == "" then (db, Refused(CONFLICT))
      else if !accepted then (db, Refused(GATEWAY_ERROR))
      else
        (db.(payments := db.payments[t := Returned(p, superAdmin)],
             requests := WithStatus(db.requests, p.request, RequestStatus.CANCELLED),
             audits := db.audits + multiset{PAYMENT_REFUNDED(t)},
             notifications := db.notifications + multiset{PaymentRefunded(t)},
             returned := db.returned + p.amount), Done)
  }

  function Step(db: Db, e: Event): (Db, Outcome) {
    match e
    case SetFee(ty, fee) => (db.(fees := db.fees[ty := fee]), Done)
    case CreateRequest(citizen, ty) => CreateRequestStep(db, citizen, ty)
    case Initiate(user, r) => InitiateStep(db, user, r)
    case InitReply(t, ok) => InitReplyStep(db, t, ok)
    case ReadForConfirm(w, t) => ReadForConfirmStep(db, w, t)
    case Validate(w, reply) => ValidateStep(db, w, reply)
    case Commit(w, now) => CommitStep(db, w, now)
    case DispatchReceipt(t) => DispatchStep(db, t)
    case LoseReceipt(t) => LoseStep(db, t)
    case MarkTerminal(t, status) => MarkTerminalStep(db, t, status)
    case UpdateRequest(r, next) => UpdateRequestStep(db, r, next)
    case RequestRefund(t, admin) => RequestRefundStep(db, t, admin)
    case ApproveRefund(t, superAdmin, accepted) => ApproveRefundStep(db, t, superAdmin, accepted)
  }

  function Run(db: Db, events: seq<Event>): Db {
    if events == [] then db else Step(Run(db, events[..|events| - 1]), events[|events| - 1]).0
  }

  /** The gateway has said of the transaction that it was paid. */
  predicate Vouched(db: Db, t: TranId)
    requires t < |db.payments|
  {
    || db.payments[t].status in {SUCCESS, REFUNDED}
    || exists w :: w in db.tickets && db.tickets[w].Validated? && db.tickets[w].tran == t
  }

  /** The gateway never both refuses a session and validates its transaction, whichever answer comes first. */
  predicate Honest(db: Db, e: Event) {
    match e
    case Validate(_, Some(reply)) =>
      reply.status in {"VALID", "VALIDATED"} ==> reply.tran < |db.payments| && db.payments[reply.tran].session != REFUSED
    case InitReply(t, false) =>
      t < |db.payments| && db.payments[t].session == OPENING ==> !Vouched(db, t)
    case _ => true
  }

  predicate HonestRun(db: Db, events: seq<Event>) {
    events == [] ||
    (HonestRun(db, events[..|events| - 1]) && Honest(Run(db, events[..|events| - 1]), events[|events| - 1]))
  }
}
