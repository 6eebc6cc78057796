/** The complaint requests and jobs as they run: each method updates the table in place. */
module ComplaintService {
  import opened Base
  import opened Complaints
  import opened ComplaintAnswers
  import opened ComplaintRuns

  /** Read as RESOLVED, a row can still be closed when it is live and RESOLVED. */
  predicate Closable(rows: seq<Complaint>, id: Id) {
    id < |rows| && rows[id].deletedAt.None? && rows[id].status == RESOLVED
  }

  function StillResolved(rows: seq<Complaint>, fetched: seq<Id>): set<Id> {
    set id | id in fetched && Closable(rows, id)
  }

  function ClosedOne(rows: seq<Complaint>, id: Id, now: Time): (after: seq<Complaint>)
    ensures |after| == |rows|
  {
    if Closable(rows, id) then rows[id := Moved(rows[id], RESOLVED, CLOSED, None, now)] else rows
  }

  /** The rows after the loop, each turn at its own reading of the clock. */
  function ClosedRows(rows: seq<Complaint>, fetched: seq<Id>, clock: seq<Time>): (after: seq<Complaint>)
    requires |clock| == |fetched|
    ensures |after| == |rows|
  {
    if fetched == [] then rows
    else
      var n := |fetched| - 1;
      ClosedOne(ClosedRows(rows, fetched[..n], clock[..n]), fetched[n], clock[n])
  }

  /** A row of the batch is closed at its own turn if it could be; every other row is left alone. */
  lemma {:induction false} ClosedRowsAt(rows: seq<Complaint>, fetched: seq<Id>, clock: seq<Time>, id: Id)
    requires |clock| == |fetched| && id < |rows|
    requires forall i, j :: 0 <= i < j < |fetched| ==> fetched[i] != fetched[j]
    ensures id !in StillResolved(rows, fetched) ==> ClosedRows(rows, fetched, clock)[id] == rows[id]
    ensures forall k :: 0 <= k < |fetched| && fetched[k] == id && Closable(rows, id) ==>
      ClosedRows(rows, fetched, clock)[id] == Moved(rows[id], RESOLVED, CLOSED, None, clock[k])
  {
    if fetched != [] {
      var n := |fetched| - 1;
      ClosedRowsAt(rows, fetched[..n], clock[..n], id);
      assert fetched == fetched[..n] + [fetched[n]];
      assert fetched[n] !in fetched[..n];
    }
  }

  /** One more turn adds its own row, if that is still there to be closed. */
  lemma StillResolvedStep(rows: seq<Complaint>, fetched: seq<Id>, k: nat)
    requires k < |fetched| && forall i, j :: 0 <= i < j < |fetched| ==> fetched[i] != fetched[j]
    ensures fetched[k] !in fetched[..k]
    ensures StillResolved(rows, fetched[..k + 1])
         == StillResolved(rows, fetched[..k]) + (if Closable(rows, fetched[k]) then {fetched[k]} else {})
  {
    assert forall id :: id in fetched[..k + 1] <==> id in fetched[..k] || id == fetched[k];
  }

  /** What a turn finds is what was there before the loop. */
  lemma TurnFinds(rows: seq<Complaint>, fetched: seq<Id>, clock: seq<Time>, k: nat)
    requires |clock| == |fetched| && k < |fetched|
    requires forall i, j :: 0 <= i < j < |fetched| ==> fetched[i] != fetched[j]
    ensures var before := ClosedRows(rows, fetched[..k], clock[..k]);
      && Closable(before, fetched[k]) == Closable(rows, fetched[k])
      && ClosedRows(rows, fetched[..k + 1], clock[..k + 1]) == ClosedOne(before, fetched[k], clock[k])
    ensures |StillResolved(rows, fetched[..k + 1])|
         == |StillResolved(rows, fetched[..k])| + (if Closable(rows, fetched[k]) then 1 else 0)
  {
    StillResolvedStep(rows, fetched, k);
    if fetched[k] < |rows| { ClosedRowsAt(rows, fetched[..k], clock[..k], fetched[k]); }
    assert fetched[..k + 1][..k] == fetched[..k] && clock[..k + 1][..k] == clock[..k];
  }

  lemma CloseKeeps(db: Db, worker: Worker, id: Id, now: Time)
    requires Inv(db) && id < |db.rows|
    ensures Inv(WriteMoveStep(PutTicket(db, worker, Move(id, RESOLVED, CLOSED, None)), worker, now).0)
  {
    PutTicketKeeps(db, worker, Move(id, RESOLVED, CLOSED, None));
    WriteMoveKeeps(PutTicket(db, worker, Move(id, RESOLVED, CLOSED, None)), worker, now);
  }

  class Service {
    var rows: seq<Complaint>
    var tickets: map<Worker, Ticket>

    function View(): Db
      reads this
    {
      Db(rows, tickets)
    }

    /** What every run of the tables keeps. */
    ghost predicate Valid()
      reads this
    {
      Inv(View())
    }

    constructor ()
      ensures View() == EMPTY && Valid()
    {
      rows, tickets := [], map[];
    }

    method CreateComplaint(citizen: UserId, category: nat, ward: nat, slaMs: Option<int>, wardExists: bool, now: Time)
      returns (out: Outcome)
      requires Valid()
      modifies this
      ensures (View(), out) == Step(old(View()), Create(citizen, category, ward, slaMs, wardExists, now))
      ensures Valid()
    {
      StepKeeps(View(), Create(citizen, category, ward, slaMs, wardExists, now));
      if slaMs.None? { return Refused(VALIDATION_ERROR); }
      if !wardExists { return Refused(VALIDATION_ERROR); }
      if HasDuplicate(View(), citizen, category, ward, now) { return Refused(DUPLICATE_COMPLAINT); }
      var created := Complaint(citizen, category, ward, now, now + slaMs.value, SUBMITTED, None, 0, None, None, None,
                               [], [], [], false, false, []);
      created := created.(history := [HistoryRow(None, SUBMITTED, Some(Actor(citizen, CITIZEN)))]);
      rows := rows + [created];
      out := Done;
    }

    /** Everything `changeStatus` does before the guarded write. */
    method ReadForChange(worker: Worker, id: Id, next: Status, hasNote: bool, actor: Actor) returns (out: Outcome)
      requires Valid()
      modifies this`tickets
      ensures (View(), out) == Step(old(View()), ReadChange(worker, id, next, hasNote, actor))
      ensures out == Done <==> Live(View(), id) && MayMove(rows[id], next, hasNote, actor)
      ensures Valid()
    {
      StepKeeps(View(), ReadChange(worker, id, next, hasNote, actor));
      if id >= |rows| || rows[id].deletedAt.Some? { return Refused(NOT_FOUND); }
      var current := rows[id];
      if next !in Transitions(current.status) { return Refused(INVALID_TRANSITION); }
      var roles := Transitions(current.status)[next];
      if actor.role !in roles { return Refused(FORBIDDEN_ROLE); }
      if actor.role == CITIZEN && current.citizen != actor.id { return Refused(NOT_OWNER); }
      if actor.role == OFFICER && current.officer != Some(actor.id) { return Refused(NOT_OWNER); }
      if next == REJECTED && !hasNote { return Refused(VALIDATION_ERROR); }
      if next == RESOLVED {
        if RESOLUTION_PROOF !in current.attachments { return Refused(CONFLICT); }
      }
      tickets := tickets[worker := Move(id, current.status, next, Some(actor))];
      out := Done;
    }

    /** The transaction every status change ends in. */
    method ApplyStatusChange(worker: Worker, now: Time) returns (out: Outcome)
      requires Valid()
      modifies this
      ensures (View(), out) == Step(old(View()), WriteMove(worker, now))
      ensures Valid()
    {
      StepKeeps(View(), WriteMove(worker, now));
      out := GuardedWrite(worker, now);
    }

    /** The update with the status that was read in its condition, and the history row if it hit. */
    method GuardedWrite(worker: Worker, now: Time) returns (out: Outcome)
      modifies this
      ensures (View(), out) == WriteMoveStep(old(View()), worker, now)
    {
      if worker !in tickets || !tickets[worker].Move? { return Refused(NOT_FOUND); }
      var t := tickets[worker];
      tickets := tickets - {worker};
      if t.id >= |rows| || rows[t.id].deletedAt.Some? || rows[t.id].status != t.from { return Refused(CONFLICT); }
      var c := rows[t.id].(status := t.next);
      if t.next == RESOLVED { c := c.(resolvedAt := Some(now)); }
      if t.next == CLOSED { c := c.(closedAt := Some(now)); }
      if t.next == REOPENED { c := c.(reopenCount := c.reopenCount + 1, resolvedAt := None); }
      c := c.(history := c.history + [HistoryRow(Some(t.from), t.next, t.mover)]);
      rows := rows[t.id := c];
      out := Done;
    }

    /** The checks `reopen` makes of its own. */
    method CheckReopen(worker: Worker, id: Id, actor: Actor, limit: int, windowDays: int, now: Time)
      returns (out: Outcome)
      requires Valid()
      modifies this`tickets
      ensures (View(), out) == Step(old(View()), ReadReopen(worker, id, actor, limit, windowDays, now))
      ensures Valid()
    {
      StepKeeps(View(), ReadReopen(worker, id, actor, limit, windowDays, now));
      if id >= |rows| || rows[id].deletedAt.Some? { return Refused(NOT_FOUND); }
      var complaint := rows[id];
      if complaint.citizen != actor.id { return Refused(NOT_OWNER); }
      if complaint.reopenCount >= limit { return Refused(CONFLICT); }
      if complaint.resolvedAt.None? { return Refused(CONFLICT); }
      var deadline := complaint.resolvedAt.value + windowDays * DAY_MS;
      if deadline < now { return Refused(CONFLICT); }
      tickets := tickets[worker := Asked(id, actor)];
      out := Done;
    }

    /** And the status change it then asks for, which reads the row again. */
    method ReadForReopen(worker: Worker) returns (out: Outcome)
      requires Valid()
      modifies this`tickets
      ensures (View(), out) == Step(old(View()), ReadAsked(worker))
      ensures Valid()
    {
      ghost var before := View();
      StepKeeps(before, ReadAsked(worker));
      out := GoOn(worker);
      assert View() == Step(before, ReadAsked(worker)).0;
    }

    method GoOn(worker: Worker) returns (out: Outcome)
      modifies this`tickets
      ensures (View(), out) == ReadAskedStep(old(View()), worker)
    {
      if worker !in tickets || !tickets[worker].Asked? { return Refused(NOT_FOUND); }
      var t := tickets[worker];
      tickets := tickets - {worker};
      if t.id >= |rows| || rows[t.id].deletedAt.Some? { return Refused(NOT_FOUND); }
      var current := rows[t.id];
      if REOPENED !in Transitions(current.status) { return Refused(INVALID_TRANSITION); }
      if t.actor.role !in Transitions(current.status)[REOPENED] { return Refused(FORBIDDEN_ROLE); }
      if t.actor.role == CITIZEN && current.citizen != t.actor.id { return Refused(NOT_OWNER); }
      if t.actor.role == OFFICER && current.officer != Some(t.actor.id) { return Refused(NOT_OWNER); }
      tickets := tickets[worker := Move(t.id, current.status, REOPENED, Some(t.actor))];
      assert tickets == old(tickets)[worker := Move(t.id, current.status, REOPENED, Some(t.actor))];
      out := Done;
    }

    method ReadForFeedback(worker: Worker, id: Id, actor: Actor) returns (out: Outcome)
      requires Valid()
      modifies this`tickets
      ensures (View(), out) == Step(old(View()), ReadFeedback(worker, id, actor))
      ensures Valid()
    {
      StepKeeps(View(), ReadFeedback(worker, id, actor));
      if actor.role != CITIZEN { return Refused(FORBIDDEN_ROLE); }
      if id >= |rows| || rows[id].deletedAt.Some? { return Refused(NOT_FOUND); }
      var complaint := rows[id];
      if complaint.citizen != actor.id { return Refused(NOT_OWNER); }
      if complaint.status != RESOLVED && complaint.status != CLOSED { return Refused(CONFLICT); }
      if complaint.feedback { return Refused(CONFLICT); }
      tickets := tickets[worker := Rate(id, complaint.status, actor)];
      out := Done;
    }

    method InsertFeedback(worker: Worker) returns (out: Outcome)
      requires Valid()
      modifies this
      ensures (View(), out) == Step(old(View()), WriteFeedback(worker))
      ensures Valid()
    {
      ghost var before := View();
      StepKeeps(before, WriteFeedback(worker));
      out := StoreRating(worker);
      assert View() == Step(before, WriteFeedback(worker)).0;
    }

    /** The rating, and what is left to do after it. */
    method StoreRating(worker: Worker) returns (out: Outcome)
      modifies this
      ensures (View(), out) == WriteFeedbackStep(old(View()), worker)
    {
      if worker !in tickets || !tickets[worker].Rate? { return Refused(NOT_FOUND); }
      var t := tickets[worker];
      if t.id >= |rows| { return Refused(NOT_FOUND); }
      if rows[t.id].feedback {
        tickets := tickets - {worker};
        return Refused(CONFLICT);
      }
      rows := rows[t.id := rows[t.id].(feedback := true)];
      if t.from == RESOLVED {
        tickets := tickets[worker := Move(t.id, RESOLVED, CLOSED, Some(t.author))];
      } else {
        tickets := tickets - {worker};
      }
      out := Done;
    }

    method AssignOfficer(id: Id, officers: seq<Officer>, department: nat, choice: Choice, actor: Actor, now: Time)
      returns (out: Outcome)
      requires Valid()
      modifies this`rows
      ensures (View(), out) == Step(old(View()), Assign(id, officers, department, choice, actor, now))
      ensures Valid()
    {
      StepKeeps(View(), Assign(id, officers, department, choice, actor, now));
      out := GiveTo(id, officers, department, choice, actor, now);
    }

    /** The target, or its error, and the transaction. */
    method GiveTo(id: Id, officers: seq<Officer>, department: nat, choice: Choice, actor: Actor, now: Time)
      returns (out: Outcome)
      modifies this`rows
      ensures (View(), out) == Step(old(View()), Assign(id, officers, department, choice, actor, now))
    {
      if actor.role != ADMIN { return Refused(FORBIDDEN_ROLE); }
      if id >= |rows| || rows[id].deletedAt.Some? { return Refused(NOT_FOUND); }
      var complaint := rows[id];
      var candidates := Candidates(officers, department);
      var officer;
      match choice {
        case Auto =>
          if candidates == [] { return Refused(CONFLICT); }
          officer := PickOfficer(rows, candidates);
        case Manual(o) =>
          if !exists k :: 0 <= k < |officers| && officers[k].id == o && officers[k].active {
            return Refused(VALIDATION_ERROR);
          }
          if o !in candidates { return Refused(CONFLICT); }
          officer := o;
      }
      var next := StatusAfterAssign(complaint.status);
      var c := complaint;
      c := c.(assignments := CloseAssignments(c.assignments, now));
      c := c.(assignments := c.assignments
                             + [AssignmentRow(officer, if choice.Auto? then None else Some(actor.id), None)]);
      c := c.(officer := Some(officer), status := next);
      if next != complaint.status {
        c := c.(history := c.history + [HistoryRow(Some(complaint.status), next, Some(actor))]);
      }
      rows := rows[id := c];
      out := Done;
    }

    method AddAttachment(id: Id, kind: Option<AttachmentKind>, actor: Actor) returns (out: Outcome)
      requires Valid()
      modifies this`rows
      ensures (View(), out) == Step(old(View()), Attach(id, kind, actor))
      ensures Valid()
    {
      ghost var before := View();
      StepKeeps(before, Attach(id, kind, actor));
      out := StoreFile(id, kind, actor);
      assert View() == Step(before, Attach(id, kind, actor)).0;
    }

    /** The kind the file is taken for, who may add it, and the limit. */
    method StoreFile(id: Id, kind: Option<AttachmentKind>, actor: Actor) returns (out: Outcome)
      modifies this`rows
      ensures (View(), out) == AttachStep(old(View()), id, kind, actor)
    {
      if id >= |rows| || rows[id].deletedAt.Some? { return Refused(NOT_FOUND); }
      var complaint := rows[id];
      var isOwner := complaint.citizen == actor.id;
      var isAssignedOfficer := complaint.officer == Some(actor.id);
      var resolvedKind :=
        if kind.Some? then kind.value
        else if isAssignedOfficer && actor.role == OFFICER then RESOLUTION_PROOF else EVIDENCE;
      if resolvedKind == EVIDENCE && !isOwner && actor.role != ADMIN { return Refused(NOT_OWNER); }
      if resolvedKind == RESOLUTION_PROOF && !isAssignedOfficer && actor.role != ADMIN { return Refused(NOT_OWNER); }
      if |complaint.attachments| >= MAX_ATTACHMENTS { return Refused(CONFLICT); }
      rows := rows[id := complaint.(attachments := complaint.attachments + [resolvedKind])];
      out := Done;
    }

    method SoftDelete(id: Id, now: Time) returns (out: Outcome)
      requires Valid()
      modifies this`rows
      ensures (View(), out) == Step(old(View()), Delete(id, now))
      ensures Valid()
    {
      StepKeeps(View(), Delete(id, now));
      if id >= |rows| || rows[id].deletedAt.Some? { return Refused(NOT_FOUND); }
      rows := rows[id := rows[id].(deletedAt := Some(now))];
      out := Done;
    }

    method RestoreDeleted(id: Id) returns (out: Outcome)
      requires Valid()
      modifies this`rows
      ensures (View(), out) == Step(old(View()), Restore(id))
      ensures Valid()
    {
      StepKeeps(View(), Restore(id));
      if id >= |rows| || rows[id].deletedAt.None? { return Refused(NOT_FOUND); }
      rows := rows[id := rows[id].(deletedAt := None)];
      out := Done;
    }

    /** One row of the auto-close query, remembered by a worker that writes it later. */
    method ReadStale(worker: Worker, id: Id, now: Time) returns (out: Outcome)
      requires Valid()
      modifies this`tickets
      ensures (View(), out) == Step(old(View()), ReadAutoClose(worker, id, now))
      ensures Valid()
    {
      StepKeeps(View(), ReadAutoClose(worker, id, now));
      if id >= |rows| || rows[id].deletedAt.Some? || rows[id].status != RESOLVED || rows[id].feedback {
        return Refused(NOT_FOUND);
      }
      if rows[id].resolvedAt.None? || rows[id].resolvedAt.value >= now - AUTO_CLOSE_MS { return Refused(NOT_FOUND); }
      tickets := tickets[worker := Move(id, RESOLVED, CLOSED, None)];
      out := Done;
    }

    /** One turn of the auto-close loop: the guarded write for a row that was RESOLVED when it was fetched. */
    method CloseOne(worker: Worker, id: Id, now: Time) returns (done: bool)
      requires Valid() && worker !in tickets && id < |rows|
      modifies this
      ensures tickets == old(tickets) && rows == ClosedOne(old(rows), id, now) && done == Closable(old(rows), id)
      ensures Valid()
    {
      CloseKeeps(View(), worker, id, now);
      tickets := tickets[worker := Move(id, RESOLVED, CLOSED, None)];
      var out := GuardedWrite(worker, now);
      done := out == Done;
      assert tickets == old(tickets);
    }

    /**
     The auto-close loop over a batch its query returned some time ago.  A row that
     was closed, reopened or deleted since is skipped; every other row of the batch
     is closed at the reading of the clock of its own turn, and counted.
     */
    method AutoCloseResolved(worker: Worker, fetched: seq<Id>, clock: seq<Time>) returns (closed: nat)
      requires Valid() && worker !in tickets && |clock| == |fetched|
      requires forall k :: 0 <= k < |fetched| ==> fetched[k] < |rows|
      requires forall j, k :: 0 <= j < k < |fetched| ==> fetched[j] != fetched[k]
      modifies this
      ensures Valid() && tickets == old(tickets) && |rows| == |old(rows)|
      ensures closed == |StillResolved(old(rows), fetched)|
      ensures forall k :: 0 <= k < |fetched| && Closable(old(rows), fetched[k]) ==>
        rows[fetched[k]] == Moved(old(rows)[fetched[k]], RESOLVED, CLOSED, None, clock[k])
      ensures forall id :: 0 <= id < |rows| && id !in StillResolved(old(rows), fetched) ==> rows[id] == old(rows)[id]
    {
      closed := 0;
      for k := 0 to |fetched|
        invariant Valid() && tickets == old(tickets)
        invariant rows == ClosedRows(old(rows), fetched[..k], clock[..k])
        invariant closed == |StillResolved(old(rows), fetched[..k])|
      {
        TurnFinds(old(rows), fetched, clock, k);
        var done := CloseOne(worker, fetched[k], clock[k]);
        if done { closed := closed + 1; }
      }
      assert fetched[..|fetched|] == fetched && clock[..|fetched|] == clock;
      forall id | 0 <= id < |rows|
        ensures id !in StillResolved(old(rows), fetched) ==> rows[id] == old(rows)[id]
        ensures forall k :: 0 <= k < |fetched| && fetched[k] == id && Closable(old(rows), id) ==>
          rows[id] == Moved(old(rows)[id], RESOLVED, CLOSED, None, clock[k])
      {
        ClosedRowsAt(old(rows), fetched, clock, id);
      }
    }
  }
}
