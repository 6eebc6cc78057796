/** Where each thing on a complaint's row came from: which request of the run asked for it, and whether it might. */
module ComplaintTrace {
  import opened Base
  import opened Complaints
  import opened ComplaintAnswers
  import opened ComplaintRuns

  lemma Prefix(es: seq<Event>, e: Event)
    ensures (es + [e])[..|es|] == es && (es + [e])[|es|] == e && Run(EMPTY, es + [e]) == Step(Run(EMPTY, es), e).0
  {
  }

  // -- every status change was asked for -------------------------------------

  /** The event asks for the change, finds the complaint in the status it leaves, and might ask for it. */
  ghost predicate Asks(db: Db, e: Event, id: Id, from: Status, next: Status, mover: Option<Actor>) {
    Live(db, id) && db.rows[id].status == from &&
    var c := db.rows[id];
    match e
    case ReadChange(_, i, n, hasNote, actor) =>
      i == id && n == next && mover == Some(actor) && MayMove(c, next, hasNote, actor)
    case ReadAsked(w) =>
      && next == REOPENED && mover.Some? && w in db.tickets && db.tickets[w] == Ticket.Asked(id, mover.value)
      && MayMove(c, next, true, mover.value)
    case ReadFeedback(_, i, actor) =>
      && i == id && from == RESOLVED && next == CLOSED && mover == Some(actor)
      && actor == Actor(c.citizen, CITIZEN) && !c.feedback
    case ReadAutoClose(_, i, now) =>
      && i == id && from == RESOLVED && next == CLOSED && mover == None && !c.feedback
      && c.resolvedAt.Some? && now - c.resolvedAt.value > 7 * 24 * HOUR_MS
    case Assign(i, _, _, _, actor, _) =>
      i == id && from in {UNDER_REVIEW, REOPENED} && next == ASSIGNED && mover == Some(actor) && actor.role == ADMIN
    case _ => false
  }

  ghost predicate WasAsked(es: seq<Event>, id: Id, from: Status, next: Status, mover: Option<Actor>) {
    exists j :: 0 <= j < |es| && Asks(Run(EMPTY, es[..j]), es[j], id, from, next, mover)
  }

  lemma StillAsked(es: seq<Event>, e: Event, id: Id, from: Status, next: Status, mover: Option<Actor>)
    requires WasAsked(es, id, from, next, mover)
    ensures WasAsked(es + [e], id, from, next, mover)
  {
    var j :| 0 <= j < |es| && Asks(Run(EMPTY, es[..j]), es[j], id, from, next, mover);
    assert (es + [e])[..j] == es[..j] && (es + [e])[j] == es[j];
  }

  lemma NowAsked(es: seq<Event>, e: Event, id: Id, from: Status, next: Status, mover: Option<Actor>)
    requires Asks(Run(EMPTY, es), e, id, from, next, mover)
    ensures WasAsked(es + [e], id, from, next, mover)
  {
    Prefix(es, e);
  }

  /** The change a ticket is to make was asked for. */
  ghost predicate TicketAsked(es: seq<Event>, t: Ticket) {
    match t
    case Move(id, from, next, mover) => WasAsked(es, id, from, next, mover)
    case Rate(id, from, author) => from == RESOLVED ==> WasAsked(es, id, RESOLVED, CLOSED, Some(author))
    case Asked(_, _) => true
  }

  lemma StillTicketAsked(es: seq<Event>, e: Event, t: Ticket)
    requires TicketAsked(es, t)
    ensures TicketAsked(es + [e], t)
  {
    match t
    case Move(id, from, next, mover) => StillAsked(es, e, id, from, next, mover);
    case Rate(id, from, author) => if from == RESOLVED { StillAsked(es, e, id, RESOLVED, CLOSED, Some(author)); }
    case Asked(_, _) =>
  }

  /** A ticket is an old one, is left by an event that asks for its change, or follows from a rating. */
  lemma TicketFrame(db: Db, e: Event, w: Worker)
    requires w in Step(db, e).0.tickets
    ensures var t := Step(db, e).0.tickets[w];
      || (w in db.tickets && db.tickets[w] == t)
      || t.Asked?
      || (t.Move? && Asks(db, e, t.id, t.from, t.next, t.mover))
      || (t.Rate? && (t.from == RESOLVED ==> Asks(db, e, t.id, RESOLVED, CLOSED, Some(t.author))))
      || (w in db.tickets && db.tickets[w].Rate? && db.tickets[w].from == RESOLVED
          && t == Move(db.tickets[w].id, RESOLVED, CLOSED, Some(db.tickets[w].author)))
  {
    match e
    case ReadChange(v, id, next, hasNote, actor) => ChangeAnswers(db, v, id, next, hasNote, actor);
    case ReadAsked(v) =>
    case ReadFeedback(_, _, _) =>
    case ReadAutoClose(_, _, _) =>
    case WriteFeedback(_) =>
    case _ =>
  }

  lemma {:induction false} TicketsAsked(es: seq<Event>, w: Worker)
    requires w in Run(EMPTY, es).tickets
    ensures TicketAsked(es, Run(EMPTY, es).tickets[w])
  {
    if es != [] {
      var n := |es| - 1;
      var db := Run(EMPTY, es[..n]);
      assert es[..n] + [es[n]] == es;
      TicketFrame(db, es[n], w);
      if w in db.tickets {
        TicketsAsked(es[..n], w);
        StillTicketAsked(es[..n], es[n], db.tickets[w]);
      }
      NewTicketAsked(es[..n], es[n], Run(EMPTY, es).tickets[w]);
    }
  }

  lemma NewTicketAsked(es: seq<Event>, e: Event, t: Ticket)
    ensures t.Move? && Asks(Run(EMPTY, es), e, t.id, t.from, t.next, t.mover) ==> TicketAsked(es + [e], t)
    ensures t.Rate? && (t.from == RESOLVED ==> Asks(Run(EMPTY, es), e, t.id, RESOLVED, CLOSED, Some(t.author)))
      ==> TicketAsked(es + [e], t)
  {
    match t
    case Move(id, from, next, mover) =>
      if Asks(Run(EMPTY, es), e, id, from, next, mover) { NowAsked(es, e, id, from, next, mover); }
    case Rate(id, from, author) =>
      if Asks(Run(EMPTY, es), e, id, RESOLVED, CLOSED, Some(author)) { NowAsked(es, e, id, RESOLVED, CLOSED, Some(author)); }
    case Asked(_, _) =>
  }

  /** The last of a row's history, and the status before it. */
  ghost predicate Leads(h: seq<HistoryRow>, g: seq<HistoryRow>, next: Status, mover: Option<Actor>) {
    |h| > 0 && g == h + [HistoryRow(Some(h[|h| - 1].to), next, mover)]
  }

  /** A step leaves a history alone, or adds one row: of a ticket's change, or of an assignment. */
  lemma HistoryFrame(db: Db, e: Event, id: Id)
    requires Inv(db) && id < |db.rows|
    ensures id < |Step(db, e).0.rows|
    ensures var h, g := db.rows[id].history, Step(db, e).0.rows[id].history;
      || g == h
      || (e.WriteMove? && e.worker in db.tickets && db.tickets[e.worker].Move? && db.tickets[e.worker].id == id
          && db.tickets[e.worker].from == db.rows[id].status
          && Leads(h, g, db.tickets[e.worker].next, db.tickets[e.worker].mover))
      || (e.Assign? && Asks(db, e, id, db.rows[id].status, ASSIGNED, Some(e.actor)) && Leads(h, g, ASSIGNED, Some(e.actor)))
  {
    assert RowInv(db.rows[id]);
    if e.Assign? {
      AssignHistory(db, e, id);
    } else if !e.WriteMove? {
      OtherHistory(db, e, id);
    }
  }

  lemma OtherHistory(db: Db, e: Event, id: Id)
    requires id < |db.rows| && !e.Assign? && !e.WriteMove?
    ensures id < |Step(db, e).0.rows| && Step(db, e).0.rows[id].history == db.rows[id].history
  {
    match e
    case ReadChange(_, _, _, _, _) =>
    case ReadAsked(_) =>
    case WriteFeedback(_) =>
    case _ =>
  }

  lemma AssignHistory(db: Db, e: Event, id: Id)
    requires id < |db.rows| && PathOk(db.rows[id]) && e.Assign?
    ensures id < |Step(db, e).0.rows|
    ensures var h, g := db.rows[id].history, Step(db, e).0.rows[id].history;
      || g == h
      || (Asks(db, e, id, db.rows[id].status, ASSIGNED, Some(e.actor)) && Leads(h, g, ASSIGNED, Some(e.actor)))
  {
  }

  lemma FreshHistory(db: Db, e: Event, id: Id)
    requires |db.rows| <= id < |Step(db, e).0.rows|
    ensures |Step(db, e).0.rows[id].history| == 1 && e.Create? && id == |db.rows|
  {
    match e
    case Create(_, _, _, _, _, _) =>
    case Assign(_, _, _, _, _, _) =>
    case _ =>
  }

  /**
   Every row of every history, but the first, was asked for earlier in the run by
   whoever is named in it, when the complaint was live and in the status the row
   leaves: by the owner, by the officer it was with at that moment, by an admin,
   or by the job a week after the resolution; with a note where one was due and a
   proof where one was.
   */
  lemma {:induction false} EveryMoveWasAsked(es: seq<Event>, id: Id, i: nat)
    requires id < |Run(EMPTY, es).rows| && 0 < i < |Run(EMPTY, es).rows[id].history|
    ensures var h := Run(EMPTY, es).rows[id].history; WasAsked(es, id, h[i - 1].to, h[i].to, h[i].changedBy)
  {
    var n := |es| - 1;
    var db, h := Run(EMPTY, es[..n]), Run(EMPTY, es).rows[id].history;
    assert es[..n] + [es[n]] == es;
    EveryRun(es[..n]);
    if id >= |db.rows| {
      FreshHistory(db, es[n], id);
      assert false;
    } else {
      HistoryFrame(db, es[n], id);
      if i < |db.rows[id].history| {
        EveryMoveWasAsked(es[..n], id, i);
        StillAsked(es[..n], es[n], id, h[i - 1].to, h[i].to, h[i].changedBy);
      } else if es[n].Assign? {
        assert RowInv(db.rows[id]);
        NowAsked(es[..n], es[n], id, h[i - 1].to, ASSIGNED, Some(es[n].actor));
      } else {
        assert RowInv(db.rows[id]);
        TicketsAsked(es[..n], es[n].worker);
        StillTicketAsked(es[..n], es[n], db.tickets[es[n].worker]);
      }
    }
  }

  /**
   A call of `reopen` that passed its own checks: the owner's, below the limit it was
   given, within the window.
   */
  ghost predicate CallsReopen(db: Db, e: Event, w: Worker, id: Id, actor: Actor) {
    && e.ReadReopen? && e.worker == w && e.id == id && e.actor == actor
    && Live(db, id) && db.rows[id].citizen == actor.id && db.rows[id].reopenCount < e.limit
    && InWindow(db.rows[id], e.windowDays, e.now)
  }

  lemma ReopenFrame(db: Db, e: Event, w: Worker)
    requires w in Step(db, e).0.tickets && Step(db, e).0.tickets[w].Asked?
    ensures var t := Step(db, e).0.tickets[w];
      (w in db.tickets && db.tickets[w] == t) || CallsReopen(db, e, w, t.id, t.actor)
  {
    match e
    case ReadReopen(_, _, _, _, _, _) =>
    case ReadChange(_, _, _, _, _) =>
    case ReadAsked(_) =>
    case WriteFeedback(_) =>
    case _ =>
  }

  /** The status change that `reopen` asks for comes after such a call. */
  lemma {:induction false} EveryReopenWasCalled(es: seq<Event>, w: Worker) returns (j: nat)
    requires w in Run(EMPTY, es).tickets && Run(EMPTY, es).tickets[w].Asked?
    ensures var t := Run(EMPTY, es).tickets[w]; j < |es| && CallsReopen(Run(EMPTY, es[..j]), es[j], w, t.id, t.actor)
  {
    var n := |es| - 1;
    var db := Run(EMPTY, es[..n]);
    ReopenFrame(db, es[n], w);
    if w in db.tickets && db.tickets[w] == Run(EMPTY, es).tickets[w] {
      j := EveryReopenWasCalled(es[..n], w);
      assert es[..n][..j] == es[..j];
    } else {
      j := n;
    }
  }

  // -- the stamps ------------------------------------------------------------

  function TimeOf(e: Event): Option<Time> {
    match e
    case Create(_, _, _, _, _, now) => Some(now)
    case WriteMove(_, now) => Some(now)
    case Assign(_, _, _, _, _, now) => Some(now)
    case _ => None
  }

  predicate Enters(a: Db, b: Db, id: Id, s: Status) {
    id < |b.rows| && b.rows[id].status == s && (id >= |a.rows| || a.rows[id].status != s)
  }

  /** When the complaint last came into a status. */
  function EnteredAt(es: seq<Event>, id: Id, s: Status): Option<Time> {
    if es == [] then None
    else
      var n := |es| - 1;
      if Enters(Run(EMPTY, es[..n]), Run(EMPTY, es), id, s) then TimeOf(es[n]) else EnteredAt(es[..n], id, s)
  }

  ghost predicate Stamped(es: seq<Event>, id: Id)
    requires id < |Run(EMPTY, es).rows|
  {
    var c := Run(EMPTY, es).rows[id];
    && (c.resolvedAt.Some? ==> c.resolvedAt == EnteredAt(es, id, RESOLVED))
    && (c.closedAt.Some? ==> c.closedAt == EnteredAt(es, id, CLOSED))
    && Some(c.createdAt) == EnteredAt(es, id, SUBMITTED)
  }

  /** The stamps follow the status: coming into RESOLVED or CLOSED sets one, reopening takes one away. */
  ghost predicate StampsFollow(c: Complaint, d: Complaint, at: Option<Time>) {
    && d.createdAt == c.createdAt
    && (d.status == c.status ==> d.resolvedAt == c.resolvedAt && d.closedAt == c.closedAt)
    && (d.status != c.status ==>
          && at.Some? && d.status != SUBMITTED
          && d.resolvedAt == (if d.status == RESOLVED then at else if d.status == REOPENED then None else c.resolvedAt)
          && d.closedAt == (if d.status == CLOSED then at else c.closedAt))
  }

  lemma MovedStamps(c: Complaint, next: Status, mover: Option<Actor>, now: Time)
    requires next in Transitions(c.status)
    ensures StampsFollow(c, Moved(c, c.status, next, mover, now), Some(now))
  {
    EdgeLeaves(c.status, next);
  }

  lemma MoveStamps(db: Db, w: Worker, now: Time, id: Id)
    requires id < |db.rows|
    requires w in db.tickets && db.tickets[w].Move? ==> db.tickets[w].next in Transitions(db.tickets[w].from)
    ensures id < |WriteMoveStep(db, w, now).0.rows|
    ensures StampsFollow(db.rows[id], WriteMoveStep(db, w, now).0.rows[id], Some(now))
  {
    if w in db.tickets && db.tickets[w].Move? && db.tickets[w].id == id && db.tickets[w].from == db.rows[id].status {
      MovedStamps(db.rows[id], db.tickets[w].next, db.tickets[w].mover, now);
    }
  }

  lemma OtherStamps(db: Db, e: Event, id: Id)
    requires id < |db.rows| && !e.WriteMove?
    ensures id < |Step(db, e).0.rows| && StampsFollow(db.rows[id], Step(db, e).0.rows[id], TimeOf(e))
  {
    match e
    case Assign(_, _, _, _, _, _) =>
    case WriteFeedback(_) =>
    case ReadAsked(_) =>
    case _ =>
  }

  lemma StampStep(es: seq<Event>, e: Event, id: Id)
    requires id < |Run(EMPTY, es).rows| && Stamped(es, id)
    ensures id < |Run(EMPTY, es + [e]).rows| && Stamped(es + [e], id)
  {
    var db := Run(EMPTY, es);
    Prefix(es, e);
    EveryRun(es);
    if e.WriteMove? {
      if e.worker in db.tickets { assert TicketOk(db, db.tickets[e.worker]); }
      MoveStamps(db, e.worker, e.now, id);
    } else {
      OtherStamps(db, e, id);
    }
  }

  lemma FreshStamps(es: seq<Event>, e: Event, id: Id)
    requires |Run(EMPTY, es).rows| <= id < |Run(EMPTY, es + [e]).rows|
    ensures Stamped(es + [e], id)
  {
    Prefix(es, e);
    FreshHistory(Run(EMPTY, es), e, id);
  }

  lemma {:induction false} AllStamped(es: seq<Event>, id: Id)
    requires id < |Run(EMPTY, es).rows|
    ensures Stamped(es, id)
  {
    var n := |es| - 1;
    assert es[..n] + [es[n]] == es;
    if id < |Run(EMPTY, es[..n]).rows| {
      AllStamped(es[..n], id);
      StampStep(es[..n], es[n], id);
    } else {
      FreshStamps(es[..n], es[n], id);
    }
  }

  /** The stamps are the moments: of the filing, of the last resolution while it stands, and of the closing. */
  lemma {:induction false} StampsAreMoments(es: seq<Event>, id: Id)
    requires id < |Run(EMPTY, es).rows|
    ensures var c := Run(EMPTY, es).rows[id];
      && Some(c.createdAt) == EnteredAt(es, id, SUBMITTED)
      && c.resolvedAt == (if c.status in {RESOLVED, CLOSED} then EnteredAt(es, id, RESOLVED) else None)
      && c.closedAt == (if c.status == CLOSED then EnteredAt(es, id, CLOSED) else None)
  {
    EveryRun(es);
    AllStamped(es, id);
    assert RowInv(Run(EMPTY, es).rows[id]);
  }

  // -- filing and assignments ------------------------------------------------

  ghost predicate Files(db: Db, e: Event, id: Id, c: Complaint) {
    && id == |db.rows| && e.Create? && e.slaMs.Some? && e.wardExists
    && c.citizen == e.citizen && c.category == e.category && c.ward == e.ward
    && c.createdAt == e.now && c.slaDueAt == e.now + e.slaMs.value
    && !FiledToday(db, e.citizen, e.category, e.ward, e.now)
  }

  /** What is written of a complaint when it is filed stays. */
  predicate SameFile(c: Complaint, d: Complaint) {
    && d.citizen == c.citizen && d.category == c.category && d.ward == c.ward
    && d.createdAt == c.createdAt && d.slaDueAt == c.slaDueAt
  }

  lemma FileFrame(db: Db, e: Event, id: Id)
    requires id < |db.rows|
    ensures id < |Step(db, e).0.rows| && SameFile(db.rows[id], Step(db, e).0.rows[id])
  {
    match e
    case Assign(_, _, _, _, _, _) =>
    case WriteMove(_, _) =>
    case WriteFeedback(_) =>
    case ReadAsked(_) =>
    case _ =>
  }

  /**
   Every complaint was filed when nothing like it was open from that day, and is due its
   category's time after that.
   */
  lemma {:induction false} EveryComplaintWasFiled(es: seq<Event>, id: Id) returns (j: nat)
    requires id < |Run(EMPTY, es).rows|
    ensures j < |es| && Files(Run(EMPTY, es[..j]), es[j], id, Run(EMPTY, es).rows[id])
  {
    var n := |es| - 1;
    var db := Run(EMPTY, es[..n]);
    if id < |db.rows| {
      FileFrame(db, es[n], id);
      j := EveryComplaintWasFiled(es[..n], id);
      assert es[..n][..j] == es[..j];
    } else {
      j := n;
      FreshHistory(db, es[n], id);
      var e := es[n];
      CreateAnswers(db, e.citizen, e.category, e.ward, e.slaMs, e.wardExists, e.now);
    }
  }

  /** The assignment that wrote the i-th row. */
  ghost predicate Gives(db: Db, e: Event, id: Id, i: nat, row: AssignmentRow) {
    && e.Assign? && e.id == id && e.actor.role == ADMIN && Live(db, id) && i == |db.rows[id].assignments|
    && Serves(e.officers, e.department, row.officer)
    && match e.choice
       case Auto => row.assignedBy == None
       case Manual(o) => row.officer == o && row.assignedBy == Some(e.actor.id)
  }

  /** How the assignment rows of a complaint change: not at all, or all are closed and one is added. */
  lemma AssignmentsFrame(db: Db, e: Event, id: Id)
    requires id < |db.rows|
    ensures id < |Step(db, e).0.rows|
    ensures var a, b := db.rows[id].assignments, Step(db, e).0.rows[id].assignments;
      || b == a
      || (e.Assign? && |b| == |a| + 1 && b[..|a|] == CloseAssignments(a, e.now)
          && b[|a|].unassignedAt.None? && Gives(db, e, id, |a|, b[|a|]))
  {
    match e
    case Assign(_, officers, department, choice, _, _) => TargetServes(db, e);
    case WriteMove(_, _) =>
    case WriteFeedback(_) =>
    case ReadAsked(_) =>
    case _ =>
  }

  lemma TargetServes(db: Db, e: Event)
    requires e.Assign?
    ensures var t := AssignTarget(db, e.officers, e.department, e.id, e.choice);
      t.Chosen? ==> Serves(e.officers, e.department, t.officer) && (e.choice.Manual? ==> t.officer == e.choice.officer)
  {
    var candidates := Candidates(e.officers, e.department);
    if e.choice.Auto? && candidates != [] { PickedIsCandidate(db.rows, candidates); }
  }

  lemma {:induction false} PickedIsCandidate(rows: seq<Complaint>, candidates: seq<UserId>)
    requires candidates != []
    ensures PickOfficer(rows, candidates) in candidates
  {
    if |candidates| > 1 { PickedIsCandidate(rows, candidates[..|candidates| - 1]); }
  }

  ghost predicate GivenAt(es: seq<Event>, j: nat, id: Id, i: nat, rows: seq<AssignmentRow>) {
    && j < |es| && i < |rows| && Gives(Run(EMPTY, es[..j]), es[j], id, i, rows[i])
    && (i > 0 ==> rows[i - 1].unassignedAt == Some(es[j].now))
    && (i + 1 == |rows| ==> rows[i].unassignedAt == None)
  }

  /**
   Every assignment row was written by an admin's assignment, to an active officer
   of the department: the one asked for, under the admin's name, or the one picked,
   under none.  It stands until the next one, and ends at that moment.
   */
  lemma {:induction false} EveryAssignmentWasGiven(es: seq<Event>, id: Id, i: nat) returns (j: nat)
    requires id < |Run(EMPTY, es).rows| && i < |Run(EMPTY, es).rows[id].assignments|
    ensures GivenAt(es, j, id, i, Run(EMPTY, es).rows[id].assignments)
  {
    var n := |es| - 1;
    var db, b := Run(EMPTY, es[..n]), Run(EMPTY, es).rows[id].assignments;
    if id >= |db.rows| {
      FreshAssignments(db, es[n], id);
      assert false;
    } else {
      var a := db.rows[id].assignments;
      AssignmentsFrame(db, es[n], id);
      if i < |a| {
        j := EveryAssignmentWasGiven(es[..n], id, i);
        assert es[..n][..j] == es[..j];
        StillGiven(es[..n], es, j, id, i, a, b);
      } else {
        j := n;
        if i > 0 {
          var before := EveryAssignmentWasGiven(es[..n], id, i - 1);
          assert b[..|a|][i - 1] == b[i - 1];
        }
      }
    }
  }

  lemma FreshAssignments(db: Db, e: Event, id: Id)
    requires |db.rows| <= id < |Step(db, e).0.rows|
    ensures Step(db, e).0.rows[id].assignments == []
  {
    FreshHistory(db, e, id);
  }

  lemma StillGiven(
    es: seq<Event>, longer: seq<Event>, j: nat, id: Id, i: nat, a: seq<AssignmentRow>, b: seq<AssignmentRow>)
    requires GivenAt(es, j, id, i, a) && |es| <= |longer| && longer[..j] == es[..j] && longer[j] == es[j]
    requires b == a || (|b| == |a| + 1 && exists now :: b[..|a|] == CloseAssignments(a, now))
    ensures GivenAt(longer, j, id, i, b)
  {
    if b != a {
      var now :| b[..|a|] == CloseAssignments(a, now);
      assert b[..|a|][i] == b[i];
      if i > 0 { assert b[..|a|][i - 1] == b[i - 1]; }
    }
  }

  // -- ratings and attachments -----------------------------------------------

  /** The event stores a rating of the complaint. */
  predicate Rates(db: Db, e: Event, id: Id) {
    && e.WriteFeedback? && e.worker in db.tickets && db.tickets[e.worker].Rate? && db.tickets[e.worker].id == id
    && Step(db, e).1 == Done
  }

  function Ratings(es: seq<Event>, id: Id): nat {
    if es == [] then 0
    else var n := |es| - 1; Ratings(es[..n], id) + (if Rates(Run(EMPTY, es[..n]), es[n], id) then 1 else 0)
  }

  lemma RatingFrame(db: Db, e: Event, id: Id)
    ensures id < |db.rows| ==> id < |Step(db, e).0.rows|
    ensures id < |db.rows| ==>
      Step(db, e).0.rows[id].feedback == (db.rows[id].feedback || Rates(db, e, id))
      && (Rates(db, e, id) ==> !db.rows[id].feedback)
    ensures id >= |db.rows| ==> !Rates(db, e, id) && (id < |Step(db, e).0.rows| ==> !Step(db, e).0.rows[id].feedback)
  {
    match e
    case Create(_, _, _, _, _, _) =>
    case Assign(_, _, _, _, _, _) =>
    case WriteMove(_, _) =>
    case ReadAsked(_) =>
    case WriteFeedback(_) =>
    case _ =>
  }

  /** A complaint is rated at most once, however many requests ask at the same time. */
  lemma {:induction false} RatedOnce(es: seq<Event>, id: Id)
    ensures var rows := Run(EMPTY, es).rows; Ratings(es, id) == if id < |rows| && rows[id].feedback then 1 else 0
  {
    if es != [] {
      var n := |es| - 1;
      RatedOnce(es[..n], id);
      RatingFrame(Run(EMPTY, es[..n]), es[n], id);
    }
  }

  /** The event adds the i-th file of the complaint. */
  ghost predicate Adds(db: Db, e: Event, id: Id, i: nat, kind: AttachmentKind) {
    && e.Attach? && e.id == id && Live(db, id) && i == |db.rows[id].attachments| < 5
    && kind == Meant(db.rows[id], e.kind, e.actor)
    && (e.actor.role == ADMIN
        || (if kind == EVIDENCE then db.rows[id].citizen == e.actor.id else db.rows[id].officer == Some(e.actor.id)))
  }

  lemma AttachmentsFrame(db: Db, e: Event, id: Id)
    requires id < |db.rows|
    ensures id < |Step(db, e).0.rows|
    ensures var a, b := db.rows[id].attachments, Step(db, e).0.rows[id].attachments;
      b == a || (|b| == |a| + 1 && b[..|a|] == a && Adds(db, e, id, |a|, b[|a|]))
  {
    match e
    case Attach(i, kind, actor) => AttachAnswers(db, i, kind, actor);
    case Assign(_, _, _, _, _, _) =>
    case WriteMove(_, _) =>
    case ReadAsked(_) =>
    case WriteFeedback(_) =>
    case _ =>
  }

  /**
   There are never more than five files, each added by someone who might: proofs by the
   officer it was with, or an admin.
   */
  lemma {:induction false} EveryFileWasAdded(es: seq<Event>, id: Id, i: nat) returns (j: nat)
    requires id < |Run(EMPTY, es).rows| && i < |Run(EMPTY, es).rows[id].attachments|
    ensures i < 5 && j < |es| && Adds(Run(EMPTY, es[..j]), es[j], id, i, Run(EMPTY, es).rows[id].attachments[i])
  {
    var n := |es| - 1;
    var db := Run(EMPTY, es[..n]);
    if id >= |db.rows| {
      FreshHistory(db, es[n], id);
      assert false;
    } else {
      var a, b := db.rows[id].attachments, Run(EMPTY, es).rows[id].attachments;
      AttachmentsFrame(db, es[n], id);
      if i < |a| {
        j := EveryFileWasAdded(es[..n], id, i);
        assert es[..n][..j] == es[..j] && b[..|a|][i] == b[i];
      } else {
        j := n;
      }
    }
  }
}
