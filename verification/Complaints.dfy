/**
 The complaint table, the workers that change it, and what every run keeps.

 A row carries its child tables (history, assignments, attachments, feedback,
 escalations) as fields.  The table is append-only: a row's id is its position.
 A request that reads a row and writes it later leaves a ticket in between, so
 any number of requests may act on what they read earlier.
 */
module Complaints {
  import opened Base

  datatype Status =
    SUBMITTED | UNDER_REVIEW | ASSIGNED | IN_PROGRESS | RESOLVED | CLOSED | REOPENED | REJECTED | CANCELLED

  /** The edges out of a status, each with the roles that may take it. */
  function Transitions(from: Status): map<Status, set<Role>> {
    match from
    case SUBMITTED => map[UNDER_REVIEW := {ADMIN}, CANCELLED := {CITIZEN}]
    case UNDER_REVIEW => map[ASSIGNED := {ADMIN}, REJECTED := {ADMIN}]
    case ASSIGNED => map[IN_PROGRESS := {OFFICER}]
    case IN_PROGRESS => map[RESOLVED := {OFFICER}]
    case RESOLVED => map[CLOSED := {CITIZEN, ADMIN}, REOPENED := {CITIZEN}]
    case REOPENED => map[ASSIGNED := {ADMIN}]
    case CLOSED => map[]
    case REJECTED => map[]
    case CANCELLED => map[]
  }

  predicate IsOpen(s: Status) {
    s in {SUBMITTED, UNDER_REVIEW, ASSIGNED, IN_PROGRESS, REOPENED}
  }

  const MAX_ATTACHMENTS := 5
  const DUPLICATE_WINDOW_MS := 24 * HOUR_MS
  const AUTO_CLOSE_MS := 7 * DAY_MS

  // -- rows ------------------------------------------------------------------

  type Id = nat
  type Worker = nat

  /** The stored id of whoever made the change, with the role it was made in; None is the scheduled job. */
  datatype HistoryRow = HistoryRow(from: Option<Status>, to: Status, changedBy: Option<Actor>)

  datatype AssignmentRow =
    AssignmentRow(officer: UserId, assignedBy: Option<UserId>, unassignedAt: Option<Time>)

  datatype AttachmentKind = EVIDENCE | RESOLUTION_PROOF

  datatype Complaint = Complaint(
    citizen: UserId, category: nat, ward: nat, createdAt: Time, slaDueAt: Time,
    status: Status, officer: Option<UserId>, reopenCount: nat,
    resolvedAt: Option<Time>, closedAt: Option<Time>, deletedAt: Option<Time>,
    history: seq<HistoryRow>, assignments: seq<AssignmentRow>, attachments: seq<AttachmentKind>,
    feedback: bool, isEscalated: bool, escalations: seq<int>)

  /** What a request remembers between its read and its write. */
  datatype Ticket =
    | Move(id: Id, from: Status, next: Status, mover: Option<Actor>)
    | Rate(id: Id, from: Status, author: Actor)
    | Asked(id: Id, actor: Actor)

  datatype Db = Db(rows: seq<Complaint>, tickets: map<Worker, Ticket>)

  const EMPTY := Db([], map[])

  datatype Error =
    | NOT_FOUND | DUPLICATE_COMPLAINT | VALIDATION_ERROR | INVALID_TRANSITION
    | FORBIDDEN_ROLE | NOT_OWNER | CONFLICT

  datatype Outcome = Done | Refused(error: Error)

  /** The soft-delete filter: only a live row can be read by id. */
  predicate Live(db: Db, id: Id) {
    id < |db.rows| && db.rows[id].deletedAt.None?
  }

  // -- row updates -----------------------------------------------------------

  function NewComplaint(citizen: UserId, category: nat, ward: nat, slaMs: int, now: Time): Complaint {
    Complaint(citizen, category, ward, now, now + slaMs, SUBMITTED, None, 0, None, None, None,
              [HistoryRow(None, SUBMITTED, Some(Actor(citizen, CITIZEN)))], [], [], false, false, [])
  }

  /** The update and the history row of one status change. */
  function Moved(c: Complaint, from: Status, next: Status, mover: Option<Actor>, now: Time): Complaint {
    c.(status := next,
       resolvedAt := if next == RESOLVED then Some(now) else if next == REOPENED then None else c.resolvedAt,
       closedAt := if next == CLOSED then Some(now) else c.closedAt,
       reopenCount := if next == REOPENED then c.reopenCount + 1 else c.reopenCount,
       history := c.history + [HistoryRow(Some(from), next, mover)])
  }

  function CloseAssignments(rows: seq<AssignmentRow>, now: Time): seq<AssignmentRow> {
    seq(|rows|, i requires 0 <= i < |rows| =>
      if rows[i].unassignedAt.None? then rows[i].(unassignedAt := Some(now)) else rows[i])
  }

  function StatusAfterAssign(s: Status): Status {
    if s == UNDER_REVIEW || s == REOPENED then ASSIGNED else s
  }

  /** The transaction of `assign`: `read` is the status the request saw, which the update does not check. */
  function Assigned(c: Complaint, read: Status, officer: UserId, auto: bool, assigner: Actor, now: Time): Complaint {
    var next := StatusAfterAssign(read);
    c.(officer := Some(officer),
       status := next,
       assignments := CloseAssignments(c.assignments, now)
                      + [AssignmentRow(officer, if auto then None else Some(assigner.id), None)],
       history := if next != read then c.history + [HistoryRow(Some(read), next, Some(assigner))] else c.history)
  }

  // -- officers --------------------------------------------------------------

  datatype Officer = Officer(id: UserId, department: nat, active: bool)

  datatype Choice = Auto | Manual(officer: UserId)

  function Candidates(officers: seq<Officer>, department: nat): (ids: seq<UserId>)
    ensures forall u :: u in ids <==> exists k :: 0 <= k < |officers| && officers[k] == Officer(u, department, true)
  {
    if officers == [] then []
    else
      var rest := Candidates(officers[1..], department);
      assert forall k :: 0 <= k < |officers[1..]| ==> officers[1..][k] == officers[k + 1];
      if officers[0].active && officers[0].department == department then
        assert officers[0] == Officer(officers[0].id, department, true);
        [officers[0].id] + rest
      else rest
  }

  /** Soft-deleted complaints count too: the grouped query is not covered by the soft-delete filter. */
  function Load(rows: seq<Complaint>, officer: UserId): nat {
    if rows == [] then 0
    else Load(rows[..|rows| - 1], officer) + (if Burdens(rows[|rows| - 1], officer) then 1 else 0)
  }

  predicate Burdens(c: Complaint, officer: UserId) {
    c.officer == Some(officer) && IsOpen(c.status)
  }

  /** The reduction over the officers: a strictly smaller load takes over, a tie does not. */
  function PickOfficer(rows: seq<Complaint>, candidates: seq<UserId>): UserId
    requires candidates != []
  {
    var last := candidates[|candidates| - 1];
    if |candidates| == 1 then last
    else
      var best := PickOfficer(rows, candidates[..|candidates| - 1]);
      if Load(rows, last) < Load(rows, best) then last else best
  }

  // -- requests --------------------------------------------------------------

  predicate HasDuplicate(db: Db, citizen: UserId, category: nat, ward: nat, now: Time) {
    exists i :: 0 <= i < |db.rows| && Duplicates(db.rows[i], citizen, category, ward, now)
  }

  predicate Duplicates(c: Complaint, citizen: UserId, category: nat, ward: nat, now: Time) {
    c.deletedAt.None? && c.citizen == citizen && c.category == category && c.ward == ward
    && IsOpen(c.status) && c.createdAt >= now - DUPLICATE_WINDOW_MS
  }

  /** What stops a status change, in the order the checks are made; the last is the proof count. */
  function ChangeError(db: Db, id: Id, next: Status, hasNote: bool, actor: Actor): Option<Error> {
    if !Live(db, id) then Some(NOT_FOUND)
    else
      var c := db.rows[id];
      if next !in Transitions(c.status) then Some(INVALID_TRANSITION)
      else if actor.role !in Transitions(c.status)[next] then Some(FORBIDDEN_ROLE)
      else if actor.role == CITIZEN && c.citizen != actor.id then Some(NOT_OWNER)
      else if actor.role == OFFICER && c.officer != Some(actor.id) then Some(NOT_OWNER)
      else if next == REJECTED && !hasNote then Some(VALIDATION_ERROR)
      else if next == RESOLVED && RESOLUTION_PROOF !in c.attachments then Some(CONFLICT)
      else None
  }

  /** What `reopen` checks before it hands over to the status change. */
  function ReopenError(db: Db, id: Id, actor: Actor, limit: int, windowDays: int, now: Time): Option<Error> {
    if !Live(db, id) then Some(NOT_FOUND)
    else
      var c := db.rows[id];
      if c.citizen != actor.id then Some(NOT_OWNER)
      else if c.reopenCount >= limit then Some(CONFLICT)
      else if c.resolvedAt.None? || c.resolvedAt.value + windowDays * DAY_MS < now then Some(CONFLICT)
      else None
  }

  /** The route admits citizens only. */
  function FeedbackError(db: Db, id: Id, actor: Actor): Option<Error> {
    if actor.role != CITIZEN then Some(FORBIDDEN_ROLE)
    else if !Live(db, id) then Some(NOT_FOUND)
    else
      var c := db.rows[id];
      if c.citizen != actor.id then Some(NOT_OWNER)
      else if c.status != RESOLVED && c.status != CLOSED then Some(CONFLICT)
      else if c.feedback then Some(CONFLICT)
      else None
  }

  datatype Target = Chosen(officer: UserId) | NoTarget(error: Error)

  /** The officer an assignment goes to, or what stops it; `department` is that of the complaint's category. */
  function AssignTarget(db: Db, officers: seq<Officer>, department: nat, id: Id, choice: Choice): Target {
    if !Live(db, id) then NoTarget(NOT_FOUND)
    else
      var candidates := Candidates(officers, department);
      match choice
      case Auto => if candidates == [] then NoTarget(CONFLICT) else Chosen(PickOfficer(db.rows, candidates))
      case Manual(o) =>
        if !exists k :: 0 <= k < |officers| && officers[k].id == o && officers[k].active then NoTarget(VALIDATION_ERROR)
        else if o !in candidates then NoTarget(CONFLICT)
        else Chosen(o)
  }

  function AttachmentError(db: Db, id: Id, kind: Option<AttachmentKind>, actor: Actor): Option<Error> {
    if !Live(db, id) then Some(NOT_FOUND)
    else
      var c := db.rows[id];
      var k := ResolvedKind(c, kind, actor);
      if k == EVIDENCE && c.citizen != actor.id && actor.role != ADMIN then Some(NOT_OWNER)
      else if k == RESOLUTION_PROOF && c.officer != Some(actor.id) && actor.role != ADMIN then Some(NOT_OWNER)
      else if |c.attachments| >= MAX_ATTACHMENTS then Some(CONFLICT)
      else None
  }

  function ResolvedKind(c: Complaint, kind: Option<AttachmentKind>, actor: Actor): AttachmentKind {
    if kind.Some? then kind.value
    else if c.officer == Some(actor.id) && actor.role == OFFICER then RESOLUTION_PROOF else EVIDENCE
  }

  // -- steps -----------------------------------------------------------------

  /** One atomic step of one request or job. */
  datatype Event =
    | Create(citizen: UserId, category: nat, ward: nat, slaMs: Option<int>, wardExists: bool, now: Time)
    | ReadChange(worker: Worker, id: Id, next: Status, hasNote: bool, actor: Actor)
    | ReadReopen(worker: Worker, id: Id, actor: Actor, limit: int, windowDays: int, now: Time)
    | ReadAsked(worker: Worker)
    | ReadFeedback(worker: Worker, id: Id, actor: Actor)
    | ReadAutoClose(worker: Worker, id: Id, now: Time)
    | WriteFeedback(worker: Worker)
    | WriteMove(worker: Worker, now: Time)
    | Assign(id: Id, officers: seq<Officer>, department: nat, choice: Choice, actor: Actor, now: Time)
    | Attach(id: Id, kind: Option<AttachmentKind>, actor: Actor)
    | Delete(id: Id, now: Time)
    | Restore(id: Id)

  function SetRow(db: Db, id: Id, c: Complaint): Db
    requires id < |db.rows|
  {
    db.(rows := db.rows[id := c])
  }

  function PutTicket(db: Db, worker: Worker, t: Ticket): Db {
    db.(tickets := db.tickets[worker := t])
  }

  function DropTicket(db: Db, worker: Worker): Db {
    db.(tickets := db.tickets - {worker})
  }

  function CreateStep(db: Db, e: Event): (Db, Outcome)
    requires e.Create?
  {
    if e.slaMs.None? || !e.wardExists then (db, Refused(VALIDATION_ERROR))
    else if HasDuplicate(db, e.citizen, e.category, e.ward, e.now) then (db, Refused(DUPLICATE_COMPLAINT))
    else (db.(rows := db.rows + [NewComplaint(e.citizen, e.category, e.ward, e.slaMs.value, e.now)]), Done)
  }

  function ReadChangeStep(db: Db, worker: Worker, id: Id, next: Status, hasNote: bool, actor: Actor): (Db, Outcome) {
    match ChangeError(db, id, next, hasNote, actor)
    case Some(err) => (db, Refused(err))
    case None => (PutTicket(db, worker, Move(id, db.rows[id].status, next, Some(actor))), Done)
  }

  /** The checks of `reopen` itself. */
  function ReadReopenStep(db: Db, e: Event): (Db, Outcome)
    requires e.ReadReopen?
  {
    match ReopenError(db, e.id, e.actor, e.limit, e.windowDays, e.now)
    case Some(err) => (db, Refused(err))
    case None => (PutTicket(db, e.worker, Asked(e.id, e.actor)), Done)
  }

  /** `reopen` goes on to the status change, which reads the row afresh. */
  function ReadAskedStep(db: Db, worker: Worker): (Db, Outcome) {
    if worker !in db.tickets || !db.tickets[worker].Asked? then (db, Refused(NOT_FOUND))
    else
      var t := db.tickets[worker];
      match ChangeError(db, t.id, REOPENED, true, t.actor)
      case Some(err) => (DropTicket(db, worker), Refused(err))
      case None => (PutTicket(db, worker, Move(t.id, db.rows[t.id].status, REOPENED, Some(t.actor))), Done)
  }

  function ReadFeedbackStep(db: Db, worker: Worker, id: Id, actor: Actor): (Db, Outcome) {
    match FeedbackError(db, id, actor)
    case Some(err) => (db, Refused(err))
    case None => (PutTicket(db, worker, Rate(id, db.rows[id].status, actor)), Done)
  }

  /** One row of the job's query: RESOLVED, unrated, live, and older than a week. */
  predicate AutoClosable(db: Db, id: Id, now: Time) {
    Live(db, id) && db.rows[id].status == RESOLVED && !db.rows[id].feedback
    && db.rows[id].resolvedAt.Some? && db.rows[id].resolvedAt.value < now - AUTO_CLOSE_MS
  }

  function ReadAutoCloseStep(db: Db, worker: Worker, id: Id, now: Time): (Db, Outcome) {
    if AutoClosable(db, id, now) then (PutTicket(db, worker, Move(id, RESOLVED, CLOSED, None)), Done)
    else (db, Refused(NOT_FOUND))
  }

  /** Inserts the rating; its unique key on the complaint is the only guard. */
  function WriteFeedbackStep(db: Db, worker: Worker): (Db, Outcome) {
    if worker !in db.tickets || !db.tickets[worker].Rate? || db.tickets[worker].id >= |db.rows|
    then (db, Refused(NOT_FOUND))
    else
      var t := db.tickets[worker];
      var c := db.rows[t.id];
      if c.feedback then (DropTicket(db, worker), Refused(CONFLICT))
      else
        var rated := SetRow(db, t.id, c.(feedback := true));
        if t.from == RESOLVED
        then (PutTicket(rated, worker, Move(t.id, RESOLVED, CLOSED, Some(t.author))), Done)
        else (DropTicket(rated, worker), Done)
  }

  /** The guarded write: it moves the row only if the row is live and still has the status that was read. */
  function WriteMoveStep(db: Db, worker: Worker, now: Time): (Db, Outcome) {
    if worker !in db.tickets || !db.tickets[worker].Move? then (db, Refused(NOT_FOUND))
    else
      var t := db.tickets[worker];
      if Live(db, t.id) && db.rows[t.id].status == t.from
      then (SetRow(DropTicket(db, worker), t.id, Moved(db.rows[t.id], t.from, t.next, t.mover, now)), Done)
      else (DropTicket(db, worker), Refused(CONFLICT))
  }

  /** The route admits admins only. */
  function AssignStep(db: Db, e: Event): (Db, Outcome)
    requires e.Assign?
  {
    if e.actor.role != ADMIN then (db, Refused(FORBIDDEN_ROLE)) else
    match AssignTarget(db, e.officers, e.department, e.id, e.choice)
    case NoTarget(err) => (db, Refused(err))
    case Chosen(officer) =>
      var c := db.rows[e.id];
      (SetRow(db, e.id, Assigned(c, c.status, officer, e.choice.Auto?, e.actor, e.now)), Done)
  }

  function AttachStep(db: Db, id: Id, kind: Option<AttachmentKind>, actor: Actor): (Db, Outcome) {
    match AttachmentError(db, id, kind, actor)
    case Some(err) => (db, Refused(err))
    case None =>
      var c := db.rows[id];
      (SetRow(db, id, c.(attachments := c.attachments + [ResolvedKind(c, kind, actor)])), Done)
  }

  function DeleteStep(db: Db, id: Id, now: Time): (Db, Outcome) {
    if Live(db, id) then (SetRow(db, id, db.rows[id].(deletedAt := Some(now))), Done) else (db, Refused(NOT_FOUND))
  }

  function RestoreStep(db: Db, id: Id): (Db, Outcome) {
    if id < |db.rows| && db.rows[id].deletedAt.Some? then (SetRow(db, id, db.rows[id].(deletedAt := None)), Done)
    else (db, Refused(NOT_FOUND))
  }

  function Step(db: Db, e: Event): (Db, Outcome) {
    match e
    case Create(_, _, _, _, _, _) => CreateStep(db, e)
    case ReadChange(w, id, next, hasNote, actor) => ReadChangeStep(db, w, id, next, hasNote, actor)
    case ReadReopen(_, _, _, _, _, _) => ReadReopenStep(db, e)
    case ReadAsked(w) => ReadAskedStep(db, w)
    case ReadFeedback(w, id, actor) => ReadFeedbackStep(db, w, id, actor)
    case ReadAutoClose(w, id, now) => ReadAutoCloseStep(db, w, id, now)
    case WriteFeedback(w) => WriteFeedbackStep(db, w)
    case WriteMove(w, now) => WriteMoveStep(db, w, now)
    case Assign(_, _, _, _, _, _) => AssignStep(db, e)
    case Attach(id, kind, actor) => AttachStep(db, id, kind, actor)
    case Delete(id, now) => DeleteStep(db, id, now)
    case Restore(id) => RestoreStep(db, id)
  }

  function Run(db: Db, events: seq<Event>): Db {
    if events == [] then db else Step(Run(db, events[..|events| - 1]), events[|events| - 1]).0
  }
}
