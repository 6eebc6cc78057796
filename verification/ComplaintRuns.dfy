/** What every run of the complaint table keeps, whatever the interleaving. */
module ComplaintRuns {
  import opened Base
  import opened Complaints

  // -- the row invariant -----------------------------------------------------

  /** The history is a path of listed edges from SUBMITTED to the current status. */
  ghost predicate PathOk(c: Complaint) {
    var h := c.history;
    && |h| > 0
    && h[0].from == None && h[0].to == SUBMITTED
    && (forall i :: 0 < i < |h| ==> h[i].from == Some(h[i - 1].to) && h[i].to in Transitions(h[i - 1].to))
    && h[|h| - 1].to == c.status
  }

  ghost predicate StampsOk(c: Complaint) {
    && (c.resolvedAt.Some? <==> c.status in {RESOLVED, CLOSED})
    && (c.closedAt.Some? <==> c.status == CLOSED)
  }

  ghost predicate Visited(c: Complaint, s: Status) {
    exists i :: 0 <= i < |c.history| && c.history[i].to == s
  }

  ghost predicate OfficerOk(c: Complaint) {
    && (c.status in {IN_PROGRESS, RESOLVED, REOPENED, CLOSED} ==> c.officer.Some?)
    && (Visited(c, RESOLVED) ==> RESOLUTION_PROOF in c.attachments)
  }

  ghost predicate EverAssigned(c: Complaint, officer: UserId) {
    exists i :: 0 <= i < |c.assignments| && c.assignments[i].officer == officer
  }

  /** Who may make a change: a role on the edge, and as a citizen the owner, as an officer an assignee. */
  ghost predicate AuthorOk(c: Complaint, from: Status, to: Status, mover: Option<Actor>) {
    match mover
    case None => from == RESOLVED && to == CLOSED
    case Some(a) =>
      && to in Transitions(from) && a.role in Transitions(from)[to]
      && (a.role == CITIZEN ==> a.id == c.citizen)
      && (a.role == OFFICER ==> EverAssigned(c, a.id))
  }

  ghost predicate AuthorsOk(c: Complaint) {
    var h := c.history;
    && |h| > 0 && h[0].changedBy == Some(Actor(c.citizen, CITIZEN))
    && forall i :: 0 < i < |h| ==> AuthorOk(c, h[i - 1].to, h[i].to, h[i].changedBy)
  }

  function OpenOfficers(rows: seq<AssignmentRow>): seq<UserId> {
    if rows == [] then []
    else
      var last := rows[|rows| - 1];
      OpenOfficers(rows[..|rows| - 1]) + (if last.unassignedAt.None? then [last.officer] else [])
  }

  /** The open assignment rows are exactly one naming the officer, or none when there is no officer. */
  ghost predicate AssignmentsOk(c: Complaint) {
    OpenOfficers(c.assignments) == if c.officer.Some? then [c.officer.value] else []
  }

  function Reopenings(h: seq<HistoryRow>): nat {
    if h == [] then 0 else Reopenings(h[..|h| - 1]) + (if h[|h| - 1].to == REOPENED then 1 else 0)
  }

  /** How many history rows a first pass through the machine has written on reaching a status. */
  function Rank(s: Status): nat {
    match s
    case SUBMITTED => 1
    case UNDER_REVIEW => 2
    case CANCELLED => 2
    case REOPENED => 2
    case ASSIGNED => 3
    case REJECTED => 3
    case IN_PROGRESS => 4
    case RESOLVED => 5
    case CLOSED => 6
  }

  ghost predicate AccountingOk(c: Complaint) {
    && |c.history| == Rank(c.status) + 4 * c.reopenCount
    && c.reopenCount == Reopenings(c.history)
  }

  ghost predicate RowInv(c: Complaint) {
    PathOk(c) && AuthorsOk(c) && StampsOk(c) && OfficerOk(c) && AssignmentsOk(c) && AccountingOk(c)
  }

  /** What a ticket's checks established and no later step can undo. */
  ghost predicate TicketOk(db: Db, t: Ticket) {
    && t.id < |db.rows|
    && (t.Rate? ==> t.author == Actor(db.rows[t.id].citizen, CITIZEN))
    && (t.Move? ==>
          && t.next in Transitions(t.from)
          && AuthorOk(db.rows[t.id], t.from, t.next, t.mover)
          && (t.next == RESOLVED ==> RESOLUTION_PROOF in db.rows[t.id].attachments)
          && (t.next == IN_PROGRESS ==> db.rows[t.id].officer.Some?))
  }

  ghost predicate Inv(db: Db) {
    && (forall i :: 0 <= i < |db.rows| ==> RowInv(db.rows[i]))
    && (forall w :: w in db.tickets ==> TicketOk(db, db.tickets[w]))
  }

  /** What no step takes away from a row. */
  ghost predicate Grows(c: Complaint, d: Complaint) {
    && c.history <= d.history
    && c.attachments <= d.attachments
    && (c.officer.Some? ==> d.officer.Some?)
    && c.reopenCount <= d.reopenCount
    && (forall u :: EverAssigned(c, u) ==> EverAssigned(d, u))
    && (c.feedback ==> d.feedback)
    && d.citizen == c.citizen && d.slaDueAt == c.slaDueAt
    && d.isEscalated == c.isEscalated && d.escalations == c.escalations
  }

  ghost predicate AllGrow(a: Db, b: Db) {
    |a.rows| <= |b.rows| && forall i :: 0 <= i < |a.rows| ==> Grows(a.rows[i], b.rows[i])
  }

  // -- row lemmas ------------------------------------------------------------

  lemma OpenOfficersAppend(rows: seq<AssignmentRow>, r: AssignmentRow)
    ensures OpenOfficers(rows + [r]) == OpenOfficers(rows) + (if r.unassignedAt.None? then [r.officer] else [])
  {
    assert (rows + [r])[..|rows|] == rows;
  }

  /** Closing the open rows leaves none open. */
  lemma {:induction false} ClosedHasNoOpen(rows: seq<AssignmentRow>, now: Time)
    ensures OpenOfficers(CloseAssignments(rows, now)) == []
  {
    if rows != [] {
      var n := |rows| - 1;
      ClosedHasNoOpen(rows[..n], now);
      assert CloseAssignments(rows, now)[..n] == CloseAssignments(rows[..n], now);
    }
  }

  /** An officer in charge has an assignment row. */
  lemma {:induction false} OpenIsAssigned(rows: seq<AssignmentRow>, officer: UserId)
    requires officer in OpenOfficers(rows)
    ensures exists i :: 0 <= i < |rows| && rows[i].officer == officer
  {
    var n := |rows| - 1;
    if officer in OpenOfficers(rows[..n]) {
      OpenIsAssigned(rows[..n], officer);
      var i :| 0 <= i < n && rows[..n][i].officer == officer;
      assert rows[i].officer == officer;
    } else {
      assert rows[n].officer == officer;
    }
  }

  /** Assigning keeps every earlier assignee on record and adds the new one. */
  lemma AssigneesAfterAssign(c: Complaint, read: Status, officer: UserId, auto: bool, assigner: Actor, now: Time)
    ensures var d := Assigned(c, read, officer, auto, assigner, now);
      forall u :: EverAssigned(c, u) || u == officer ==> EverAssigned(d, u)
  {
    var d := Assigned(c, read, officer, auto, assigner, now);
    var n := |c.assignments|;
    assert d.assignments[n].officer == officer;
    forall u | EverAssigned(c, u) ensures EverAssigned(d, u) {
      var i :| 0 <= i < n && c.assignments[i].officer == u;
      assert d.assignments[i].officer == u;
    }
  }

  /** Authorship is not lost when assignees are added, and extends over one more authorised row. */
  lemma AuthorsExtend(c: Complaint, d: Complaint, next: Status, mover: Option<Actor>)
    requires PathOk(c) && AuthorsOk(c) && AuthorOk(d, c.status, next, mover)
    requires d.citizen == c.citizen && forall u :: EverAssigned(c, u) ==> EverAssigned(d, u)
    requires d.history == c.history + [HistoryRow(Some(c.status), next, mover)]
    ensures AuthorsOk(d)
  {
    var h, g := c.history, d.history;
    forall i | 0 < i < |g| ensures AuthorOk(d, g[i - 1].to, g[i].to, g[i].changedBy) {
      if i < |h| { assert AuthorOk(c, h[i - 1].to, h[i].to, h[i].changedBy); }
    }
  }

  lemma AuthorsFrame(c: Complaint, d: Complaint)
    requires AuthorsOk(c) && d.history == c.history && d.citizen == c.citizen
    requires forall u :: EverAssigned(c, u) ==> EverAssigned(d, u)
    ensures AuthorsOk(d)
  {
    var h := c.history;
    forall i | 0 < i < |h| ensures AuthorOk(d, h[i - 1].to, h[i].to, h[i].changedBy) {
      assert AuthorOk(c, h[i - 1].to, h[i].to, h[i].changedBy);
    }
  }

  lemma ReopeningsAppend(h: seq<HistoryRow>, r: HistoryRow)
    ensures Reopenings(h + [r]) == Reopenings(h) + (if r.to == REOPENED then 1 else 0)
  {
    assert (h + [r])[..|h|] == h;
  }

  /** Appending a listed edge from the current status extends the path. */
  lemma PathExtends(c: Complaint, d: Complaint, next: Status, mover: Option<Actor>)
    requires PathOk(c) && next in Transitions(c.status)
    requires d.history == c.history + [HistoryRow(Some(c.status), next, mover)] && d.status == next
    ensures PathOk(d)
  {
    var h, g := c.history, d.history;
    forall i | 0 < i < |g| ensures g[i].from == Some(g[i - 1].to) && g[i].to in Transitions(g[i - 1].to) {
      if i < |h| { assert g[i] == h[i] && g[i - 1] == h[i - 1]; }
    }
  }

  lemma VisitedAppend(c: Complaint, d: Complaint, r: HistoryRow, s: Status)
    requires d.history == c.history + [r]
    ensures Visited(d, s) <==> Visited(c, s) || r.to == s
  {
    if Visited(c, s) {
      var i :| 0 <= i < |c.history| && c.history[i].to == s;
      assert d.history[i].to == s;
    }
    assert d.history[|c.history|] == r;
  }

  lemma MoveKeepsHistory(c: Complaint, next: Status, mover: Option<Actor>, now: Time)
    requires PathOk(c) && AuthorsOk(c) && AccountingOk(c)
    requires next in Transitions(c.status) && AuthorOk(c, c.status, next, mover)
    ensures var d := Moved(c, c.status, next, mover, now); PathOk(d) && AuthorsOk(d) && AccountingOk(d)
  {
    var d := Moved(c, c.status, next, mover, now);
    PathExtends(c, d, next, mover);
    assert d.assignments == c.assignments;
    assert forall u :: EverAssigned(d, u) <==> EverAssigned(c, u);
    AuthorsExtend(c, d, next, mover);
    MoveAccounts(c, next, mover, now);
  }

  /** Along an edge the rank goes up by one, or down by three into REOPENED. */
  lemma EdgeRank(from: Status, to: Status)
    requires to in Transitions(from)
    ensures Rank(to) + (if to == REOPENED then 4 else 0) == Rank(from) + 1
  {
  }

  lemma MoveAccounts(c: Complaint, next: Status, mover: Option<Actor>, now: Time)
    requires AccountingOk(c) && next in Transitions(c.status)
    ensures AccountingOk(Moved(c, c.status, next, mover, now))
  {
    EdgeRank(c.status, next);
    ReopeningsAppend(c.history, HistoryRow(Some(c.status), next, mover));
  }

  lemma MoveGrows(c: Complaint, next: Status, mover: Option<Actor>, now: Time)
    ensures Grows(c, Moved(c, c.status, next, mover, now))
  {
    assert forall u :: EverAssigned(Moved(c, c.status, next, mover, now), u) <==> EverAssigned(c, u);
  }

  /** A status change from the row's own status along a listed edge keeps the row invariant. */
  lemma {:induction false} MoveKeepsRow(c: Complaint, next: Status, mover: Option<Actor>, now: Time)
    requires RowInv(c) && next in Transitions(c.status) && AuthorOk(c, c.status, next, mover)
    requires next == RESOLVED ==> RESOLUTION_PROOF in c.attachments
    requires next == IN_PROGRESS ==> c.officer.Some?
    ensures RowInv(Moved(c, c.status, next, mover, now)) && Grows(c, Moved(c, c.status, next, mover, now))
  {
    MoveKeepsHistory(c, next, mover, now);
    MoveGrows(c, next, mover, now);
    VisitedAppend(c, Moved(c, c.status, next, mover, now), HistoryRow(Some(c.status), next, mover), RESOLVED);
  }

  lemma AssignmentsAfterAssign(c: Complaint, read: Status, officer: UserId, auto: bool, assigner: Actor, now: Time)
    ensures AssignmentsOk(Assigned(c, read, officer, auto, assigner, now))
  {
    ClosedHasNoOpen(c.assignments, now);
    OpenOfficersAppend(CloseAssignments(c.assignments, now),
                       AssignmentRow(officer, if auto then None else Some(assigner.id), None));
  }

  lemma AssignKeepsHistory(c: Complaint, officer: UserId, auto: bool, assigner: Actor, now: Time)
    requires PathOk(c) && AuthorsOk(c) && AccountingOk(c) && assigner.role == ADMIN
    ensures var d := Assigned(c, c.status, officer, auto, assigner, now); PathOk(d) && AuthorsOk(d) && AccountingOk(d)
  {
    var d := Assigned(c, c.status, officer, auto, assigner, now);
    AssigneesAfterAssign(c, c.status, officer, auto, assigner, now);
    if d.status != c.status {
      PathExtends(c, d, ASSIGNED, Some(assigner));
      AuthorsExtend(c, d, ASSIGNED, Some(assigner));
      ReopeningsAppend(c.history, HistoryRow(Some(c.status), ASSIGNED, Some(assigner)));
    } else {
      AuthorsFrame(c, d);
    }
  }

  lemma AssignKeepsFields(c: Complaint, officer: UserId, auto: bool, assigner: Actor, now: Time)
    requires StampsOk(c) && OfficerOk(c)
    ensures var d := Assigned(c, c.status, officer, auto, assigner, now); StampsOk(d) && OfficerOk(d) && Grows(c, d)
  {
    var d := Assigned(c, c.status, officer, auto, assigner, now);
    AssigneesAfterAssign(c, c.status, officer, auto, assigner, now);
    if d.status != c.status {
      VisitedAppend(c, d, HistoryRow(Some(c.status), ASSIGNED, Some(assigner)), RESOLVED);
    }
  }

  /** An assignment that read the row's own status keeps the row invariant. */
  lemma {:induction false} AssignKeepsRow(c: Complaint, officer: UserId, auto: bool, assigner: Actor, now: Time)
    requires RowInv(c) && assigner.role == ADMIN
    ensures var d := Assigned(c, c.status, officer, auto, assigner, now); RowInv(d) && Grows(c, d)
  {
    AssignmentsAfterAssign(c, c.status, officer, auto, assigner, now);
    AssignKeepsHistory(c, officer, auto, assigner, now);
    AssignKeepsFields(c, officer, auto, assigner, now);
  }

  /**
   The update in `assign` is not guarded by the status that was read.  Written
   over a row that has moved on, it keeps the history a path if and only if the
   status is still the one that was read.
   */
  lemma {:induction false} StaleAssign(c: Complaint, read: Status, officer: UserId, auto: bool, assigner: Actor, now: Time)
    requires PathOk(c)
    ensures PathOk(Assigned(c, read, officer, auto, assigner, now)) <==> c.status == read
  {
    var d := Assigned(c, read, officer, auto, assigner, now);
    if c.status != read {
      StaleBreaksPath(c, d, read, Some(assigner));
    } else if d.status != c.status {
      PathExtends(c, d, ASSIGNED, Some(assigner));
    }
  }

  /**
   Either the row appended starts elsewhere than the last one ended, or none is and the
   status left the history's end.
   */
  lemma StaleBreaksPath(c: Complaint, d: Complaint, read: Status, mover: Option<Actor>)
    requires PathOk(c) && c.status != read
    requires (d.status == read && d.history == c.history) || d.history == c.history + [HistoryRow(Some(read), d.status, mover)]
    ensures !PathOk(d)
  {
    var n := |c.history|;
    assert d.history[n - 1] == c.history[n - 1];
    if |d.history| > n { assert d.history[n].from == Some(read); }
  }

  // -- step lemmas -----------------------------------------------------------

  lemma AllGrowTransitive(a: Db, b: Db, c: Db)
    requires AllGrow(a, b) && AllGrow(b, c)
    ensures AllGrow(a, c)
  {
  }

  /** What a ticket relies on is among what rows never lose. */
  lemma TicketStays(a: Db, b: Db, t: Ticket)
    requires TicketOk(a, t) && AllGrow(a, b)
    ensures TicketOk(b, t)
  {
    var c, d := a.rows[t.id], b.rows[t.id];
    assert Grows(c, d);
    if RESOLUTION_PROOF in c.attachments {
      var i :| 0 <= i < |c.attachments| && c.attachments[i] == RESOLUTION_PROOF;
      assert d.attachments[i] == RESOLUTION_PROOF;
    }
  }

  lemma SetRowKeeps(db: Db, id: Id, c: Complaint)
    requires Inv(db) && id < |db.rows| && RowInv(c) && Grows(db.rows[id], c)
    ensures Inv(SetRow(db, id, c)) && AllGrow(db, SetRow(db, id, c))
  {
    var e := SetRow(db, id, c);
    assert AllGrow(db, e);
    forall w | w in e.tickets ensures TicketOk(e, e.tickets[w]) { TicketStays(db, e, db.tickets[w]); }
  }

  lemma DropTicketKeeps(db: Db, w: Worker)
    requires Inv(db)
    ensures Inv(DropTicket(db, w)) && AllGrow(db, DropTicket(db, w))
  {
    var e := DropTicket(db, w);
    forall v | v in e.tickets ensures TicketOk(e, e.tickets[v]) {
      assert TicketOk(db, db.tickets[v]);
    }
  }

  lemma PutTicketKeeps(db: Db, w: Worker, t: Ticket)
    requires Inv(db) && TicketOk(db, t)
    ensures Inv(PutTicket(db, w, t)) && AllGrow(db, PutTicket(db, w, t))
  {
    var e := PutTicket(db, w, t);
    forall v | v in e.tickets ensures TicketOk(e, e.tickets[v]) {
      if v != w { assert TicketOk(db, db.tickets[v]); }
    }
  }

  lemma NewRowInv(citizen: UserId, category: nat, ward: nat, slaMs: int, now: Time)
    ensures RowInv(NewComplaint(citizen, category, ward, slaMs, now))
  {
    var c := NewComplaint(citizen, category, ward, slaMs, now);
    assert c.history[..0] == [];
  }

  lemma CreateKeeps(db: Db, e: Event)
    requires Inv(db) && e.Create?
    ensures Inv(CreateStep(db, e).0) && AllGrow(db, CreateStep(db, e).0)
  {
    var d := CreateStep(db, e).0;
    if d != db {
      NewRowInv(e.citizen, e.category, e.ward, e.slaMs.value, e.now);
      forall v | v in d.tickets ensures TicketOk(d, d.tickets[v]) {
        assert TicketOk(db, db.tickets[v]);
      }
    }
  }

  /** What the checks of a status change establish. */
  lemma ChangeIsOk(db: Db, id: Id, next: Status, hasNote: bool, actor: Actor)
    requires Inv(db) && ChangeError(db, id, next, hasNote, actor).None?
    ensures TicketOk(db, Move(id, db.rows[id].status, next, Some(actor)))
  {
    assert RowInv(db.rows[id]);
    if actor.role == OFFICER { OpenIsAssigned(db.rows[id].assignments, actor.id); }
  }

  lemma ReadChangeKeeps(db: Db, w: Worker, id: Id, next: Status, hasNote: bool, actor: Actor)
    requires Inv(db)
    ensures var d := ReadChangeStep(db, w, id, next, hasNote, actor).0; Inv(d) && AllGrow(db, d)
  {
    if ChangeError(db, id, next, hasNote, actor).None? {
      ChangeIsOk(db, id, next, hasNote, actor);
      PutTicketKeeps(db, w, Move(id, db.rows[id].status, next, Some(actor)));
    }
  }

  lemma RateKeepsRow(c: Complaint)
    requires RowInv(c)
    ensures RowInv(c.(feedback := true)) && Grows(c, c.(feedback := true))
  {
    FrameInv(c, c.(feedback := true));
    assert forall u :: EverAssigned(c.(feedback := true), u) <==> EverAssigned(c, u);
  }

  lemma WriteFeedbackKeeps(db: Db, w: Worker)
    requires Inv(db)
    ensures Inv(WriteFeedbackStep(db, w).0) && AllGrow(db, WriteFeedbackStep(db, w).0)
  {
    DropTicketKeeps(db, w);
    if w in db.tickets && db.tickets[w].Rate? && !db.rows[db.tickets[w].id].feedback {
      InsertKeeps(db, w, db.tickets[w]);
    }
  }

  lemma InsertKeeps(db: Db, w: Worker, t: Ticket)
    requires Inv(db) && t.Rate? && TicketOk(db, t)
    ensures var rated := SetRow(db, t.id, db.rows[t.id].(feedback := true));
      && Inv(DropTicket(rated, w)) && AllGrow(db, DropTicket(rated, w))
      && (t.from == RESOLVED ==>
            Inv(PutTicket(rated, w, Move(t.id, RESOLVED, CLOSED, Some(t.author))))
            && AllGrow(db, PutTicket(rated, w, Move(t.id, RESOLVED, CLOSED, Some(t.author)))))
  {
    var c := db.rows[t.id];
    RateKeepsRow(c);
    SetRowKeeps(db, t.id, c.(feedback := true));
    var rated := SetRow(db, t.id, c.(feedback := true));
    DropTicketKeeps(rated, w);
    PutTicketKeeps(rated, w, Move(t.id, RESOLVED, CLOSED, Some(t.author)));
  }

  /** Fields the row invariant does not read may change freely, and attachments may be added. */
  lemma FrameInv(c: Complaint, d: Complaint)
    requires RowInv(c)
    requires d.status == c.status && d.officer == c.officer && d.reopenCount == c.reopenCount
    requires d.resolvedAt == c.resolvedAt && d.closedAt == c.closedAt
    requires d.history == c.history && d.assignments == c.assignments && c.attachments <= d.attachments
    requires d.citizen == c.citizen
    ensures RowInv(d)
  {
    assert forall u :: EverAssigned(d, u) <==> EverAssigned(c, u);
    AuthorsFrame(c, d);
    assert Visited(d, RESOLVED) <==> Visited(c, RESOLVED);
    if RESOLUTION_PROOF in c.attachments {
      var i :| 0 <= i < |c.attachments| && c.attachments[i] == RESOLUTION_PROOF;
      assert d.attachments[i] == RESOLUTION_PROOF;
    }
  }

  lemma WriteMoveKeeps(db: Db, w: Worker, now: Time)
    requires Inv(db)
    ensures Inv(WriteMoveStep(db, w, now).0) && AllGrow(db, WriteMoveStep(db, w, now).0)
  {
    if w in db.tickets && db.tickets[w].Move? {
      var t := db.tickets[w];
      assert TicketOk(db, t);
      DropTicketKeeps(db, w);
      var dropped := DropTicket(db, w);
      if Live(db, t.id) && db.rows[t.id].status == t.from {
        MoveKeepsRow(db.rows[t.id], t.next, t.mover, now);
        SetRowKeeps(dropped, t.id, Moved(db.rows[t.id], t.from, t.next, t.mover, now));
      }
    }
  }

  lemma AssignKeeps(db: Db, e: Event)
    requires Inv(db) && e.Assign?
    ensures Inv(AssignStep(db, e).0) && AllGrow(db, AssignStep(db, e).0)
  {
    var target := AssignTarget(db, e.officers, e.department, e.id, e.choice);
    if target.Chosen? && e.actor.role == ADMIN {
      var c := db.rows[e.id];
      AssignKeepsRow(c, target.officer, e.choice.Auto?, e.actor, e.now);
      SetRowKeeps(db, e.id, Assigned(c, c.status, target.officer, e.choice.Auto?, e.actor, e.now));
    }
  }

  lemma TouchKeeps(db: Db, id: Id, d: Complaint)
    requires Inv(db) && id < |db.rows|
    requires var c := db.rows[id];
      d == c.(deletedAt := d.deletedAt, attachments := d.attachments) && c.attachments <= d.attachments
    ensures Inv(SetRow(db, id, d)) && AllGrow(db, SetRow(db, id, d))
  {
    FrameInv(db.rows[id], d);
    SetRowKeeps(db, id, d);
  }

  lemma ReadAskedKeeps(db: Db, w: Worker)
    requires Inv(db)
    ensures Inv(ReadAskedStep(db, w).0) && AllGrow(db, ReadAskedStep(db, w).0)
  {
    if w in db.tickets && db.tickets[w].Asked? {
      var t := db.tickets[w];
      DropTicketKeeps(db, w);
      ReadChangeKeeps(db, w, t.id, REOPENED, true, t.actor);
    }
  }

  lemma ReadsKeep(db: Db, e: Event)
    requires Inv(db) && (e.ReadChange? || e.ReadReopen? || e.ReadAsked? || e.ReadFeedback? || e.ReadAutoClose?)
    ensures Inv(Step(db, e).0) && AllGrow(db, Step(db, e).0)
  {
    match e
    case ReadChange(w, id, next, hasNote, actor) => ReadChangeKeeps(db, w, id, next, hasNote, actor);
    case ReadReopen(w, id, actor, limit, windowDays, now) =>
      if ReopenError(db, id, actor, limit, windowDays, now).None? { PutTicketKeeps(db, w, Asked(id, actor)); }
    case ReadAsked(w) => ReadAskedKeeps(db, w);
    case ReadFeedback(w, id, actor) =>
      if FeedbackError(db, id, actor).None? { PutTicketKeeps(db, w, Rate(id, db.rows[id].status, actor)); }
    case ReadAutoClose(w, id, now) =>
      if AutoClosable(db, id, now) { PutTicketKeeps(db, w, Move(id, RESOLVED, CLOSED, None)); }
  }

  lemma AttachKeeps(db: Db, id: Id, kind: Option<AttachmentKind>, actor: Actor)
    requires Inv(db)
    ensures Inv(AttachStep(db, id, kind, actor).0) && AllGrow(db, AttachStep(db, id, kind, actor).0)
  {
    if AttachmentError(db, id, kind, actor).None? {
      var c := db.rows[id];
      TouchKeeps(db, id, c.(attachments := c.attachments + [ResolvedKind(c, kind, actor)]));
    }
  }

  lemma DeleteKeeps(db: Db, id: Id, now: Time)
    requires Inv(db)
    ensures Inv(DeleteStep(db, id, now).0) && AllGrow(db, DeleteStep(db, id, now).0)
  {
    if Live(db, id) { TouchKeeps(db, id, db.rows[id].(deletedAt := Some(now))); }
  }

  lemma RestoreKeeps(db: Db, id: Id)
    requires Inv(db)
    ensures Inv(RestoreStep(db, id).0) && AllGrow(db, RestoreStep(db, id).0)
  {
    if id < |db.rows| { TouchKeeps(db, id, db.rows[id].(deletedAt := None)); }
  }

  lemma {:induction false} StepKeeps(db: Db, e: Event)
    requires Inv(db)
    ensures Inv(Step(db, e).0) && AllGrow(db, Step(db, e).0)
  {
    if e.ReadChange? || e.ReadReopen? || e.ReadAsked? || e.ReadFeedback? || e.ReadAutoClose? {
      ReadsKeep(db, e);
    } else if e.Attach? {
      AttachKeeps(db, e.id, e.kind, e.actor);
    } else if e.Delete? {
      DeleteKeeps(db, e.id, e.now);
    } else if e.Restore? {
      RestoreKeeps(db, e.id);
    } else if e.WriteFeedback? {
      WriteFeedbackKeeps(db, e.worker);
    } else if e.WriteMove? {
      WriteMoveKeeps(db, e.worker, e.now);
    } else if e.Assign? {
      AssignKeeps(db, e);
    } else {
      CreateKeeps(db, e);
    }
  }

  // -- run theorems ----------------------------------------------------------

  /** Every run from the empty table keeps the row invariant on every complaint. */
  lemma {:induction false} EveryRun(events: seq<Event>)
    ensures Inv(Run(EMPTY, events))
  {
    if events != [] {
      EveryRun(events[..|events| - 1]);
      StepKeeps(Run(EMPTY, events[..|events| - 1]), events[|events| - 1]);
    }
  }

  lemma {:induction false} RunKeeps(db: Db, events: seq<Event>)
    requires Inv(db)
    ensures Inv(Run(db, events)) && AllGrow(db, Run(db, events))
  {
    if events != [] {
      var mid := Run(db, events[..|events| - 1]);
      RunKeeps(db, events[..|events| - 1]);
      StepKeeps(mid, events[|events| - 1]);
      AllGrowTransitive(db, mid, Run(db, events));
    }
  }

  /** The history is append-only, and with k reopenings a row has at most 6 + 4k history rows. */
  lemma {:induction false} HistoryBound(db: Db, events: seq<Event>, id: Id)
    requires Inv(db) && id < |db.rows|
    ensures id < |Run(db, events).rows|
    ensures var c, d := db.rows[id], Run(db, events).rows[id];
      c.history <= d.history && |d.history| <= 6 + 4 * Reopenings(d.history)
  {
    RunKeeps(db, events);
    assert RowInv(Run(db, events).rows[id]);
  }

  /**
   The optimistic lock.  If a row has moved since a ticket read it and the
   ticket's status is there again, the complaint went round by a reopening:
   the history grew by four rows for each one.  So of the requests that read
   the same status, at most one moves the row per reopening cycle.
   */
  lemma LostUpdateNeedsReopening(db: Db, events: seq<Event>, id: Id)
    requires Inv(db) && id < |db.rows|
    requires id < |Run(db, events).rows| && Run(db, events).rows[id].status == db.rows[id].status
    ensures var c, d := db.rows[id], Run(db, events).rows[id];
      |d.history| - |c.history| == 4 * (d.reopenCount - c.reopenCount)
      && (d.history != c.history <==> d.reopenCount > c.reopenCount)
  {
    RunKeeps(db, events);
    assert RowInv(db.rows[id]) && RowInv(Run(db, events).rows[id]);
    var c, d := db.rows[id], Run(db, events).rows[id];
    assert Grows(c, d);
    if |d.history| == |c.history| { assert c.history == d.history; }
  }

  /** No edge leads back to where it starts. */
  lemma EdgeLeaves(from: Status, to: Status)
    requires to in Transitions(from)
    ensures to != from
  {
  }

  lemma SecondWriteMisses(db: Db, first: Worker, second: Worker, now: Time, later: Time)
    requires first != second && first in db.tickets && second in db.tickets
    requires db.tickets[first].Move? && db.tickets[second].Move?
    requires db.tickets[first].id == db.tickets[second].id && db.tickets[first].from == db.tickets[second].from
    requires db.tickets[first].next != db.tickets[first].from && WriteMoveStep(db, first, now).1 == Done
    ensures WriteMoveStep(WriteMoveStep(db, first, now).0, second, later).1 == Refused(CONFLICT)
  {
  }

  /** Two requests that read the same row in the same status: the first write moves it, the second is refused. */
  lemma {:induction false} OneWinner(db: Db, first: Worker, second: Worker, now: Time, later: Time)
    requires Inv(db) && first != second && first in db.tickets && second in db.tickets
    requires db.tickets[first].Move? && db.tickets[second].Move?
    requires db.tickets[first].id == db.tickets[second].id && db.tickets[first].from == db.tickets[second].from
    requires WriteMoveStep(db, first, now).1 == Done
    ensures WriteMoveStep(WriteMoveStep(db, first, now).0, second, later).1 == Refused(CONFLICT)
  {
    assert TicketOk(db, db.tickets[first]);
    EdgeLeaves(db.tickets[first].from, db.tickets[first].next);
    SecondWriteMisses(db, first, second, now, later);
  }

  // -- the reopen limit ------------------------------------------------------

  /** `reopen` adds exactly two checks to the plain status change: the limit and the window. */
  lemma ReopenAddsTwoChecks(db: Db, w: Worker, id: Id, actor: Actor, limit: int, windowDays: int, now: Time)
    requires Inv(db)
    ensures var (checked, out) := ReadReopenStep(db, ReadReopen(w, id, actor, limit, windowDays, now));
      out == Done && ReadAskedStep(checked, w).1 == Done
      <==> && ReadChangeStep(db, w, id, REOPENED, true, actor).1 == Done
           && id < |db.rows| && db.rows[id].reopenCount < limit && InWindow(db.rows[id], windowDays, now)
  {
    if id < |db.rows| { assert RowInv(db.rows[id]); }
  }

  predicate InWindow(c: Complaint, windowDays: int, now: Time) {
    c.resolvedAt.Some? && now <= c.resolvedAt.value + windowDays * DAY_MS
  }

  /** The plain status change reopens whatever the count: the limit does not bind that route. */
  lemma PlainRouteIgnoresLimit(db: Db, w: Worker, id: Id, now: Time)
    requires Inv(db) && Live(db, id) && db.rows[id].status == RESOLVED
    ensures var owner := Actor(db.rows[id].citizen, CITIZEN);
      var after := Run(db, [ReadChange(w, id, REOPENED, false, owner), WriteMove(w, now)]);
      id < |after.rows| && after.rows[id].status == REOPENED
      && after.rows[id].reopenCount == db.rows[id].reopenCount + 1
  {
    var owner := Actor(db.rows[id].citizen, CITIZEN);
    var read := ReadChange(w, id, REOPENED, false, owner);
    assert [read, WriteMove(w, now)][..1] == [read];
    assert Run(db, [read]) == Step(Run(db, []), read).0;
  }
}
