/** Which complaint requests are let through, told by the row they find. */
module ComplaintAnswers {
  import opened Base
  import opened Complaints
  import opened ComplaintRuns

  // -- status changes --------------------------------------------------------

  /**
   Whose change it may be: a role on the edge, the owner, and the officer the complaint
   is with now; with a note or a proof where one is due.
   */
  predicate MayMove(c: Complaint, next: Status, hasNote: bool, actor: Actor) {
    && next in Transitions(c.status) && actor.role in Transitions(c.status)[next]
    && (actor.role == CITIZEN ==> c.citizen == actor.id)
    && (actor.role == OFFICER ==> c.officer == Some(actor.id))
    && (next == REJECTED ==> hasNote)
    && (next == RESOLVED ==> RESOLUTION_PROOF in c.attachments)
  }

  /** A status change is let through exactly for those; it leaves its ticket, and a refused one nothing. */
  lemma {:induction false} ChangeAnswers(db: Db, w: Worker, id: Id, next: Status, hasNote: bool, actor: Actor)
    ensures var (after, out) := Step(db, ReadChange(w, id, next, hasNote, actor));
      && (out == Done <==> Live(db, id) && MayMove(db.rows[id], next, hasNote, actor))
      && after == (if out == Done then PutTicket(db, w, Move(id, db.rows[id].status, next, Some(actor))) else db)
      && (out == Refused(NOT_FOUND) <==> !Live(db, id))
      && (out == Refused(NOT_OWNER) <==>
            && Live(db, id) && next in Transitions(db.rows[id].status)
            && actor.role in Transitions(db.rows[id].status)[next]
            && ((actor.role == CITIZEN && db.rows[id].citizen != actor.id)
                || (actor.role == OFFICER && db.rows[id].officer != Some(actor.id))))
  {
  }

  /** The event assigns the complaint to the officer. */
  predicate GivesTo(db: Db, e: Event, id: Id, officer: UserId) {
    e.Assign? && e.id == id && e.actor.role == ADMIN
    && AssignTarget(db, e.officers, e.department, id, e.choice) == Chosen(officer)
  }

  ghost predicate NeverGivenTo(db: Db, rest: seq<Event>, id: Id, officer: UserId) {
    forall k :: 0 <= k < |rest| ==> !GivesTo(Run(db, rest[..k]), rest[k], id, officer)
  }

  lemma OfficerFrame(db: Db, e: Event, id: Id, officer: UserId)
    requires id < |db.rows| && db.rows[id].officer != Some(officer) && !GivesTo(db, e, id, officer)
    ensures id < |Step(db, e).0.rows| && Step(db, e).0.rows[id].officer != Some(officer)
  {
    match e
    case Create(_, _, _, _, _, _) =>
    case ReadChange(_, _, _, _, _) =>
    case ReadReopen(_, _, _, _, _, _) =>
    case ReadAsked(_) =>
    case ReadFeedback(_, _, _) =>
    case ReadAutoClose(_, _, _) =>
    case WriteFeedback(_) =>
    case WriteMove(_, _) =>
    case Assign(_, _, _, _, _, _) =>
    case Attach(_, _, _) =>
    case Delete(_, _) =>
    case Restore(_) =>
  }

  lemma {:induction false} OfficerStays(db: Db, rest: seq<Event>, id: Id, officer: UserId)
    requires id < |db.rows| && db.rows[id].officer != Some(officer) && NeverGivenTo(db, rest, id, officer)
    ensures id < |Run(db, rest).rows| && Run(db, rest).rows[id].officer != Some(officer)
  {
    if rest != [] {
      var n := |rest| - 1;
      forall k | 0 <= k < n ensures !GivesTo(Run(db, rest[..n][..k]), rest[..n][k], id, officer) {
        assert rest[..n][..k] == rest[..k];
      }
      OfficerStays(db, rest[..n], id, officer);
      OfficerFrame(Run(db, rest[..n]), rest[n], id, officer);
    }
  }

  /**
   Once the complaint is with another, the former officer's requests are refused until it
   is given back, whatever happens meanwhile.
   */
  lemma {:induction false} FormerOfficerShutOut(
    db: Db, rest: seq<Event>, id: Id, officer: UserId, w: Worker, next: Status, hasNote: bool)
    requires id < |db.rows| && db.rows[id].officer != Some(officer) && NeverGivenTo(db, rest, id, officer)
    ensures var later, actor := Run(db, rest), Actor(officer, OFFICER);
      && Step(later, ReadChange(w, id, next, hasNote, actor)).1.Refused?
      && Step(later, Attach(id, Some(RESOLUTION_PROOF), actor)).1.Refused?
  {
    OfficerStays(db, rest, id, officer);
    ChangeAnswers(Run(db, rest), w, id, next, hasNote, Actor(officer, OFFICER));
  }

  /**
   The write asks for nothing but that the row is live and in the status that was read,
   whoever it is with by then.
   */
  lemma {:induction false} WriteAnswers(db: Db, w: Worker, now: Time)
    requires w in db.tickets && db.tickets[w].Move?
    ensures var t := db.tickets[w];
      var (after, out) := Step(db, WriteMove(w, now));
      && after.tickets == db.tickets - {w}
      && (out == Done <==> Live(db, t.id) && db.rows[t.id].status == t.from)
      && (out != Done ==> out == Refused(CONFLICT) && after.rows == db.rows)
      && (out == Done ==>
            && |after.rows| == |db.rows| && after.rows[t.id].status == t.next
            && after.rows[t.id].history == db.rows[t.id].history + [HistoryRow(Some(t.from), t.next, t.mover)]
            && forall i :: 0 <= i < |db.rows| && i != t.id ==> after.rows[i] == db.rows[i])
  {
  }

  // -- filing ----------------------------------------------------------------

  /** The statuses that count as open are those with a way out, but for RESOLVED. */
  lemma {:induction false} OpenHasWayOut(s: Status)
    ensures IsOpen(s) <==> s != RESOLVED && Transitions(s) != map[]
  {
    assert UNDER_REVIEW in Transitions(SUBMITTED) && REJECTED in Transitions(UNDER_REVIEW);
    assert IN_PROGRESS in Transitions(ASSIGNED) && RESOLVED in Transitions(IN_PROGRESS);
    assert ASSIGNED in Transitions(REOPENED);
  }

  /** The same citizen has filed the same thing within a day, and it is still live and not done with. */
  ghost predicate FiledToday(db: Db, citizen: UserId, category: nat, ward: nat, now: Time) {
    exists i ::
      0 <= i < |db.rows| && SameFiling(db.rows[i], citizen, category, ward) && db.rows[i].createdAt >= now - 24 * HOUR_MS
  }

  ghost predicate SameFiling(c: Complaint, citizen: UserId, category: nat, ward: nat) {
    c.deletedAt.None? && c.citizen == citizen && c.category == category && c.ward == ward
    && c.status !in {RESOLVED, CLOSED, REJECTED, Status.CANCELLED}
  }

  lemma OpenIsNotDone(s: Status)
    ensures IsOpen(s) <==> s !in {RESOLVED, CLOSED, REJECTED, Status.CANCELLED}
  {
    match s
    case SUBMITTED => case UNDER_REVIEW => case ASSIGNED => case IN_PROGRESS => case REOPENED =>
    case RESOLVED => case CLOSED => case REJECTED => case CANCELLED =>
  }

  lemma SameIsDuplicate(c: Complaint, citizen: UserId, category: nat, ward: nat, now: Time)
    ensures Duplicates(c, citizen, category, ward, now)
      <==> SameFiling(c, citizen, category, ward) && c.createdAt >= now - 24 * HOUR_MS
  {
    OpenIsNotDone(c.status);
  }

  /** A complaint is filed exactly when category and ward exist and it is no double. */
  lemma {:induction false} CreateAnswers(
    db: Db, citizen: UserId, category: nat, ward: nat, slaMs: Option<int>, wardExists: bool, now: Time)
    ensures var (after, out) := Step(db, Create(citizen, category, ward, slaMs, wardExists, now));
      && (out == Done <==> slaMs.Some? && wardExists && !FiledToday(db, citizen, category, ward, now))
      && (out == Refused(DUPLICATE_COMPLAINT) <==> slaMs.Some? && wardExists && FiledToday(db, citizen, category, ward, now))
      && (out != Done ==> after == db)
  {
    forall i | 0 <= i < |db.rows|
      ensures Duplicates(db.rows[i], citizen, category, ward, now)
        <==> SameFiling(db.rows[i], citizen, category, ward) && db.rows[i].createdAt >= now - 24 * HOUR_MS
    {
      SameIsDuplicate(db.rows[i], citizen, category, ward, now);
    }
  }

  // -- ratings and closing ---------------------------------------------------

  /** A rating is let through exactly for the owner of a live complaint, resolved or closed, that has none. */
  lemma {:induction false} FeedbackAnswers(db: Db, w: Worker, id: Id, actor: Actor)
    ensures Step(db, ReadFeedback(w, id, actor)).1 == Done <==>
      Live(db, id) && actor == Actor(db.rows[id].citizen, CITIZEN) && db.rows[id].status in {RESOLVED, CLOSED}
      && !db.rows[id].feedback
  {
  }

  /**
   The job takes up exactly the live, resolved, unrated complaints whose resolution is
   more than seven days old.
   */
  lemma {:induction false} AutoCloseAnswers(db: Db, w: Worker, id: Id, now: Time)
    ensures Step(db, ReadAutoClose(w, id, now)).1 == Done <==>
      Live(db, id) && db.rows[id].status == RESOLVED && !db.rows[id].feedback
      && db.rows[id].resolvedAt.Some? && now - db.rows[id].resolvedAt.value > 7 * 24 * HOUR_MS
  {
  }

  /**
   A rating of a resolved complaint closes it too, in the owner's name; one of a closed
   complaint changes nothing else.
   */
  lemma {:induction false} FeedbackCloses(db: Db, w: Worker, id: Id, now: Time)
    requires Live(db, id) && db.rows[id].status in {RESOLVED, CLOSED} && !db.rows[id].feedback
    ensures var c, owner := db.rows[id], Actor(db.rows[id].citizen, CITIZEN);
      var after := Run(db, [ReadFeedback(w, id, owner), WriteFeedback(w), WriteMove(w, now)]);
      && after.rows == db.rows[id :=
           if c.status == CLOSED then c.(feedback := true)
           else c.(feedback := true, status := CLOSED, closedAt := Some(now),
                   history := c.history + [HistoryRow(Some(RESOLVED), CLOSED, Some(owner))])]
      && after.tickets == db.tickets - {w}
  {
    var read, rate, close := ReadFeedback(w, id, Actor(db.rows[id].citizen, CITIZEN)), WriteFeedback(w), WriteMove(w, now);
    RunThree(db, read, rate, close);
    var rated := db.rows[id].(feedback := true);
    assert db.rows[id := rated][id := Moved(rated, RESOLVED, CLOSED, Some(Actor(db.rows[id].citizen, CITIZEN)), now)]
        == db.rows[id := Moved(rated, RESOLVED, CLOSED, Some(Actor(db.rows[id].citizen, CITIZEN)), now)];
  }

  lemma RunThree(db: Db, a: Event, b: Event, c: Event)
    ensures Run(db, [a, b, c]) == Step(Step(Step(db, a).0, b).0, c).0
  {
    assert [a, b, c][..2] == [a, b] && [a, b][..1] == [a] && [a][..0] == [];
    assert Run(db, [a]) == Step(Run(db, []), a).0;
    assert Run(db, [a, b]) == Step(Run(db, [a]), b).0;
  }

  // -- attachments and assignments -------------------------------------------

  /** A file not said to be anything is a proof from the officer in charge and evidence from anyone else. */
  function Meant(c: Complaint, kind: Option<AttachmentKind>, actor: Actor): AttachmentKind {
    match kind
    case Some(k) => k
    case None => if actor.role == OFFICER && c.officer == Some(actor.id) then RESOLUTION_PROOF else EVIDENCE
  }

  /** Evidence is the owner's to add and proof that of the officer in charge, either an admin's, five in all. */
  lemma {:induction false} AttachAnswers(db: Db, id: Id, kind: Option<AttachmentKind>, actor: Actor)
    ensures var (after, out) := Step(db, Attach(id, kind, actor));
      out == Done <==>
        && Live(db, id) && |db.rows[id].attachments| < 5
        && (actor.role == ADMIN
            || (if Meant(db.rows[id], kind, actor) == EVIDENCE then db.rows[id].citizen == actor.id
                else db.rows[id].officer == Some(actor.id)))
    ensures var (after, out) := Step(db, Attach(id, kind, actor));
      out == Done ==> id < |db.rows| && after == db.(rows := db.rows[id := db.rows[id].(attachments :=
        db.rows[id].attachments + [Meant(db.rows[id], kind, actor)])])
  {
  }

  /** An active officer of the department. */
  ghost predicate Serves(officers: seq<Officer>, department: nat, officer: UserId) {
    exists k :: 0 <= k < |officers| && officers[k] == Officer(officer, department, true)
  }

  /**
   An admin assigns a live complaint exactly to an active officer of its department, or
   to the one the department's loads pick.
   */
  lemma {:induction false} AssignAnswers(
    db: Db, id: Id, officers: seq<Officer>, department: nat, choice: Choice, actor: Actor, now: Time)
    ensures Step(db, Assign(id, officers, department, choice, actor, now)).1 == Done <==>
      && actor.role == ADMIN && Live(db, id)
      && match choice
         case Manual(o) => Serves(officers, department, o)
         case Auto => exists o :: Serves(officers, department, o)
  {
    var candidates := Candidates(officers, department);
    match choice
    case Manual(o) =>
      if Serves(officers, department, o) {
        var k :| 0 <= k < |officers| && officers[k] == Officer(o, department, true);
        assert officers[k].id == o && officers[k].active;
      }
    case Auto =>
      if candidates != [] {
        assert candidates[0] in candidates;
        assert Serves(officers, department, candidates[0]);
      }
      if o :| Serves(officers, department, o) {
        var k :| 0 <= k < |officers| && officers[k] == Officer(o, department, true);
        assert o in candidates;
      }
  }

  /** Restoring undoes a deletion, whatever else the complaint holds. */
  lemma {:induction false} RestoreUndoesDelete(db: Db, id: Id, now: Time)
    requires Live(db, id)
    ensures var (gone, out) := Step(db, Delete(id, now));
      && out == Done && !Live(gone, id) && gone.rows[id].deletedAt == Some(now)
      && Step(gone, Delete(id, now)).1 == Refused(NOT_FOUND)
      && Step(gone, Restore(id)) == (db, Done) && Step(db, Restore(id)).1 == Refused(NOT_FOUND)
  {
    assert db.rows[id := db.rows[id].(deletedAt := Some(now))][id := db.rows[id]] == db.rows;
  }
}
