/** Runs that show what the complaint requests can come to. */
module ComplaintExamples {
  import opened Base
  import opened Complaints
  import opened ComplaintRuns
  import opened OfficerLoad
  import opened ReopenLimit

  const OWNER := Actor(0, CITIZEN)
  const FIXER := Actor(1, OFFICER)
  const BOSS := Actor(9, ADMIN)
  const STAFF := [Officer(1, 0, true), Officer(2, 0, true)]

  lemma RunPush(db: Db, events: seq<Event>, e: Event)
    ensures Run(db, events + [e]) == Step(Run(db, events), e).0
  {
    assert (events + [e])[..|events|] == events;
  }

  // -- ways through the machine ----------------------------------------------

  /** The first complaint: live, with its proof uploaded. */
  ghost predicate Stands(db: Db, status: Status, reopened: nat) {
    && |db.rows| > 0 && db.rows[0].deletedAt.None? && db.rows[0].citizen == OWNER.id
    && RESOLUTION_PROOF in db.rows[0].attachments
    && db.rows[0].status == status && db.rows[0].reopenCount == reopened
    && (status == RESOLVED ==> db.rows[0].resolvedAt == Some(0))
  }

  /** Events that do not reopen anything. */
  ghost predicate Quiet(events: seq<Event>) {
    forall i :: 0 <= i < |events| ==> !events[i].ReadReopen? && (events[i].ReadChange? ==> events[i].next != REOPENED)
  }

  lemma RunTwo(db: Db, events: seq<Event>, e: Event, f: Event)
    ensures Run(db, events + [e, f]) == Step(Step(Run(db, events), e).0, f).0
  {
    RunPush(db, events, e);
    RunPush(db, events + [e], f);
    assert events + [e, f] == events + [e] + [f];
  }

  /** A status change read and written at once. */
  lemma Change(events: seq<Event>, w: Worker, next: Status, actor: Actor) returns (rest: seq<Event>)
    requires ChangeError(Run(EMPTY, events), 0, next, true, actor).None?
    ensures rest == [ReadChange(w, 0, next, true, actor), WriteMove(w, 0)]
    ensures var db := Run(EMPTY, events);
      Run(EMPTY, events + rest)
      == Db(db.rows[0 := Moved(db.rows[0], db.rows[0].status, next, Some(actor), 0)], db.tickets - {w})
  {
    rest := [ReadChange(w, 0, next, true, actor), WriteMove(w, 0)];
    RunTwo(EMPTY, events, rest[0], rest[1]);
    var t := Move(0, Run(EMPTY, events).rows[0].status, next, Some(actor));
    assert Run(EMPTY, events).tickets[w := t] - {w} == Run(EMPTY, events).tickets - {w};
  }

  lemma Give(events: seq<Event>) returns (rest: seq<Event>)
    requires Live(Run(EMPTY, events), 0)
    ensures rest == [Assign(0, STAFF, 0, Manual(FIXER.id), BOSS, 0)]
    ensures var db := Run(EMPTY, events);
      Run(EMPTY, events + rest)
      == Db(db.rows[0 := Assigned(db.rows[0], db.rows[0].status, FIXER.id, false, BOSS, 0)], db.tickets)
  {
    rest := [Assign(0, STAFF, 0, Manual(FIXER.id), BOSS, 0)];
    RunPush(EMPTY, events, rest[0]);
    assert STAFF[0] == Officer(FIXER.id, 0, true);
  }

  /** The complaint is with the fixer. */
  ghost predicate WithFixer(db: Db, status: Status, reopened: nat) {
    Stands(db, status, reopened) && db.rows[0].officer == Some(FIXER.id)
  }

  lemma GiveToFixer(events: seq<Event>, reopened: nat) returns (rest: seq<Event>)
    requires Stands(Run(EMPTY, events), UNDER_REVIEW, reopened) || Stands(Run(EMPTY, events), REOPENED, reopened)
    ensures Quiet(rest) && WithFixer(Run(EMPTY, events + rest), ASSIGNED, reopened)
    ensures Run(EMPTY, events + rest).tickets == Run(EMPTY, events).tickets
  {
    rest := Give(events);
  }

  lemma FixerMoves(events: seq<Event>, w: Worker, from: Status, next: Status, reopened: nat) returns (rest: seq<Event>)
    requires WithFixer(Run(EMPTY, events), from, reopened)
    requires (from, next) == (ASSIGNED, IN_PROGRESS) || (from, next) == (IN_PROGRESS, RESOLVED)
    ensures Quiet(rest) && WithFixer(Run(EMPTY, events + rest), next, reopened)
    ensures Run(EMPTY, events + rest).tickets == Run(EMPTY, events).tickets - {w}
  {
    rest := Change(events, w, next, FIXER);
  }

  /** From the review, or from a reopening, to RESOLVED; one worker does it all. */
  lemma Resolve(events: seq<Event>, w: Worker, reopened: nat) returns (rest: seq<Event>)
    requires Stands(Run(EMPTY, events), UNDER_REVIEW, reopened) || Stands(Run(EMPTY, events), REOPENED, reopened)
    ensures Quiet(rest) && Stands(Run(EMPTY, events + rest), RESOLVED, reopened)
    ensures Run(EMPTY, events + rest).tickets == Run(EMPTY, events).tickets - {w}
  {
    var given := GiveToFixer(events, reopened);
    var started := FixerMoves(events + given, w, ASSIGNED, IN_PROGRESS, reopened);
    var resolved := FixerMoves(events + given + started, w, IN_PROGRESS, RESOLVED, reopened);
    rest := given + started + resolved;

    Join(events, given, started, resolved);
  }

  lemma Join(events: seq<Event>, a: seq<Event>, b: seq<Event>, c: seq<Event>)
    ensures events + (a + b + c) == events + a + b + c
  {
  }

  /** A complaint filed, its proof uploaded, and taken under review. */
  lemma Review(w: Worker) returns (events: seq<Event>)
    ensures Quiet(events) && Stands(Run(EMPTY, events), UNDER_REVIEW, 0)
  {
    var file, proof := Create(OWNER.id, 0, 0, Some(0), true, 0), Attach(0, Some(RESOLUTION_PROOF), BOSS);
    RunTwo(EMPTY, [], file, proof);
    assert Step(EMPTY, file).0.rows == [NewComplaint(OWNER.id, 0, 0, 0, 0)];
    var rest := Change([] + [file, proof], w, UNDER_REVIEW, BOSS);
    events := [] + [file, proof] + rest;
  }

  // -- the plain route -------------------------------------------------------

  ghost predicate WithoutReopen(events: seq<Event>) {
    forall i :: 0 <= i < |events| ==> !events[i].ReadReopen?
  }

  lemma {:induction false} ReopenTimes(k: nat) returns (events: seq<Event>)
    ensures WithoutReopen(events) && Stands(Run(EMPTY, events), RESOLVED, k)
  {
    var before;
    if k == 0 {
      before := Review(0);
    } else {
      var resolved := ReopenTimes(k - 1);
      var reopened := Change(resolved, 0, REOPENED, OWNER);
      before := resolved + reopened;
    }
    var rest := Resolve(before, 0, k);
    events := before + rest;
  }

  /** No limit binds the plain status change: every count is reached by a run without a call of `reopen`. */
  lemma {:induction false} EveryCountIsReached(k: nat)
    ensures exists events :: WithoutReopen(events) && Stands(Run(EMPTY, events), RESOLVED, k)
  {
    var events := ReopenTimes(k);
  }

  // -- the limit in flight ---------------------------------------------------

  ghost predicate Allowed(events: seq<Event>, limit: nat, n: nat) {
    AllGated(events, limit) && FewReopeners(events, n)
  }

  /** `reopen` called and let through, up to its write. */
  lemma Ask(events: seq<Event>, w: Worker, reopened: nat, limit: nat, n: nat) returns (rest: seq<Event>)
    requires Allowed(events, limit, n) && w < n && reopened < limit
    requires Stands(Run(EMPTY, events), RESOLVED, reopened)
    ensures Allowed(events + rest, limit, n)
    ensures Run(EMPTY, events + rest)
         == PutTicket(Run(EMPTY, events), w, Move(0, RESOLVED, REOPENED, Some(OWNER)))
  {
    rest := [ReadReopen(w, 0, OWNER, limit, 0, 0), ReadAsked(w)];
    RunTwo(EMPTY, events, rest[0], rest[1]);
    var db := Run(EMPTY, events);
    assert db.tickets[w := Asked(0, OWNER)][w := Move(0, RESOLVED, REOPENED, Some(OWNER))]
        == db.tickets[w := Move(0, RESOLVED, REOPENED, Some(OWNER))];
  }

  /** A reopening in flight written, and the complaint resolved again by a worker of its own. */
  lemma Land(events: seq<Event>, w: Worker, reopened: nat, limit: nat, n: nat) returns (rest: seq<Event>)
    requires Allowed(events, limit, n) && w < n && Stands(Run(EMPTY, events), RESOLVED, reopened)
    requires w in Run(EMPTY, events).tickets
    requires Run(EMPTY, events).tickets[w] == Move(0, RESOLVED, REOPENED, Some(OWNER))
    ensures Allowed(events + rest, limit, n) && Stands(Run(EMPTY, events + rest), RESOLVED, reopened + 1)
    ensures Run(EMPTY, events + rest).tickets == Run(EMPTY, events).tickets - {w} - {n}
  {
    RunPush(EMPTY, events, WriteMove(w, 0));
    var resolved := Resolve(events + [WriteMove(w, 0)], n, reopened + 1);
    rest := [WriteMove(w, 0)] + resolved;
    assert events + rest == events + [WriteMove(w, 0)] + resolved;
  }

  /** One reopening after the other, as far as the limit lets the next one through. */
  lemma {:induction false} Serial(k: nat, limit: nat, n: nat) returns (events: seq<Event>)
    requires k < limit && n > 0
    ensures Allowed(events, limit, n) && Stands(Run(EMPTY, events), RESOLVED, k)
  {
    if k == 0 {
      var review := Review(n);
      assert [] + review == review;
      var rest := Resolve(review, n, 0);
      events := review + rest;
    } else {
      var before := Serial(k - 1, limit, n);
      var asked := Ask(before, 0, k - 1, limit, n);
      var landed := Land(before + asked, 0, k - 1, limit, n);
      events := before + asked + landed;
    }
  }

  /** The workers from a to b have a reopening in flight. */
  ghost predicate Ready(db: Db, a: nat, b: nat) {
    forall w :: a <= w < b ==> w in db.tickets && db.tickets[w] == Move(0, RESOLVED, REOPENED, Some(OWNER))
  }

  lemma {:induction false} AskAll(before: seq<Event>, m: nat, limit: nat, n: nat) returns (rest: seq<Event>)
    requires m <= n && limit > 0 && Allowed(before, limit, n) && Stands(Run(EMPTY, before), RESOLVED, limit - 1)
    ensures Allowed(before + rest, limit, n) && Stands(Run(EMPTY, before + rest), RESOLVED, limit - 1)
    ensures Ready(Run(EMPTY, before + rest), 0, m)
  {
    if m == 0 {
      rest := [];
      assert before + rest == before;
    } else {
      var earlier := AskAll(before, m - 1, limit, n);
      var last := Ask(before + earlier, m - 1, limit - 1, limit, n);
      rest := earlier + last;
      assert before + rest == before + earlier + last;
    }
  }

  lemma {:induction false} LandAll(before: seq<Event>, m: nat, limit: nat, n: nat) returns (rest: seq<Event>)
    requires m <= n && limit > 0 && Allowed(before, limit, n) && Stands(Run(EMPTY, before), RESOLVED, limit - 1)
    requires Ready(Run(EMPTY, before), 0, n)
    ensures Allowed(before + rest, limit, n) && Stands(Run(EMPTY, before + rest), RESOLVED, limit - 1 + m)
    ensures Ready(Run(EMPTY, before + rest), m, n)
  {
    if m == 0 {
      rest := [];
      assert before + rest == before;
    } else {
      var earlier := LandAll(before, m - 1, limit, n);
      var last := Land(before + earlier, m - 1, limit - 1 + (m - 1), limit, n);
      rest := earlier + last;
      assert before + rest == before + earlier + last;
    }
  }

  /**
   The bound is met: with n workers and a limit of k some run, every reopening let
   through, has k - 1 + n of them.
   */
  lemma {:induction false} LimitIsPassed(limit: nat, n: nat)
    requires limit > 0 && n > 0
    ensures exists events ::
      && AllGated(events, limit) && AtMost(events, 0, n)
      && Stands(Run(EMPTY, events), RESOLVED, Bound(limit, n)) && Bound(limit, n) == limit - 1 + n
  {
    var serial := Serial(limit - 1, limit, n);
    var asked := AskAll(serial, n, limit, n);
    var landed := LandAll(serial + asked, n, limit, n);
    var events := serial + asked + landed;
    FewReopenersAtMost(events, 0, limit, n);
    assert Stands(Run(EMPTY, events), RESOLVED, Bound(limit, n));
  }

  // -- the stale assignment --------------------------------------------------

  /** What an assignment read after one run it writes after a longer one, and the path breaks. */
  ghost predicate StaleWrite(read: seq<Event>, written: seq<Event>) {
    && read <= written
    && Stands(Run(EMPTY, read), UNDER_REVIEW, 0) && Stands(Run(EMPTY, written), REJECTED, 0)
    && AssignTarget(Run(EMPTY, read), STAFF, 0, 0, Manual(FIXER.id)) == Chosen(FIXER.id)
    && !PathOk(Assigned(Run(EMPTY, written).rows[0], UNDER_REVIEW, FIXER.id, false, BOSS, 0))
  }

  lemma FixerIsTarget(db: Db)
    requires Live(db, 0)
    ensures AssignTarget(db, STAFF, 0, 0, Manual(FIXER.id)) == Chosen(FIXER.id)
  {
    assert STAFF[0] == Officer(FIXER.id, 0, true);
  }

  lemma RejectedBreaks(events: seq<Event>)
    requires Stands(Run(EMPTY, events), REJECTED, 0)
    ensures !PathOk(Assigned(Run(EMPTY, events).rows[0], UNDER_REVIEW, FIXER.id, false, BOSS, 0))
  {
    EveryRun(events);
    assert RowInv(Run(EMPTY, events).rows[0]);
    StaleAssign(Run(EMPTY, events).rows[0], UNDER_REVIEW, FIXER.id, false, BOSS, 0);
  }

  /** An assignment may read UNDER_REVIEW and be written after a rejection; the history is then no path. */
  lemma {:induction false} StaleAssignReached()
    ensures exists read, written :: StaleWrite(read, written)
  {
    var read := Review(0);
    var rejected := Change(read, 0, REJECTED, BOSS);
    FixerIsTarget(Run(EMPTY, read));
    RejectedBreaks(read + rejected);
    assert StaleWrite(read, read + rejected);
  }

  // -- a change in flight over a reassignment --------------------------------

  /** A change the officer in charge has asked for is still to be written. */
  ghost predicate InHand(db: Db, w: Worker) {
    WithFixer(db, ASSIGNED, 0) && w in db.tickets && db.tickets[w] == Move(0, ASSIGNED, IN_PROGRESS, Some(FIXER))
  }

  /** The complaint is with the other officer, and the last row of its history is the first one's. */
  ghost predicate LandedLate(db: Db) {
    && |db.rows| > 0 && db.rows[0].officer == Some(2) && db.rows[0].status == IN_PROGRESS && db.rows[0].history != []
    && db.rows[0].history[|db.rows[0].history| - 1] == HistoryRow(Some(ASSIGNED), IN_PROGRESS, Some(FIXER))
  }

  lemma HandOver(db: Db)
    requires InHand(db, 1)
    ensures LandedLate(Step(Step(db, Assign(0, STAFF, 0, Manual(2), BOSS, 0)).0, WriteMove(1, 0)).0)
  {
    assert STAFF[1] == Officer(2, 0, true);
  }

  /** A change asked for by the officer in charge may be written when the complaint is with another already. */
  lemma {:induction false} FormerOfficerLands()
    ensures exists read, rest :: InHand(Run(EMPTY, read), 1) && LandedLate(Run(EMPTY, read + rest))
  {
    var review := Review(0);
    var given := GiveToFixer(review, 0);
    var ask := ReadChange(1, 0, IN_PROGRESS, true, FIXER);
    var read := review + given + [ask];
    RunPush(EMPTY, review + given, ask);
    var rest := [Assign(0, STAFF, 0, Manual(2), BOSS, 0), WriteMove(1, 0)];
    RunTwo(EMPTY, read, rest[0], rest[1]);
    HandOver(Run(EMPTY, read));
    assert InHand(Run(EMPTY, read), 1) && LandedLate(Run(EMPTY, read + rest));
  }

  // -- deleted complaints as load --------------------------------------------

  /** An open complaint of an officer, deleted or not. */
  ghost predicate Held(c: Complaint, officer: UserId, deleted: bool) {
    c.officer == Some(officer) && c.status == SUBMITTED && c.deletedAt.Some? == deleted
  }

  /** A complaint of its own category filed, and given to an officer. */
  lemma FileFor(events: seq<Event>, n: nat, officer: UserId) returns (longer: seq<Event>)
    requires |Run(EMPTY, events).rows| == n && officer in {1, 2}
    requires forall i :: 0 <= i < n ==> Run(EMPTY, events).rows[i].category < n
    ensures |Run(EMPTY, longer).rows| == n + 1 && Held(Run(EMPTY, longer).rows[n], officer, false)
    ensures forall i :: 0 <= i < n ==> Run(EMPTY, longer).rows[i] == Run(EMPTY, events).rows[i]
    ensures forall i :: 0 <= i <= n ==> Run(EMPTY, longer).rows[i].category <= n
  {
    var file, give := Create(OWNER.id, n, 0, Some(0), true, 0), Assign(n, STAFF, 0, Manual(officer), BOSS, 0);
    var before := Run(EMPTY, events);
    RunPush(EMPTY, events, file);
    assert !HasDuplicate(before, OWNER.id, n, 0, 0);
    RunPush(EMPTY, events + [file], give);
    assert STAFF[officer - 1] == Officer(officer, 0, true);
    longer := events + [file] + [give];
  }

  lemma Remove(events: seq<Event>, id: Id) returns (longer: seq<Event>)
    requires Live(Run(EMPTY, events), id)
    ensures var db := Run(EMPTY, events);
      Run(EMPTY, longer).rows == db.rows[id := db.rows[id].(deletedAt := Some(0))]
  {
    RunPush(EMPTY, events, Delete(id, 0));
    longer := events + [Delete(id, 0)];
  }

  /** One officer with two deleted complaints, one with a live one: the pick is the one who has something to do. */
  lemma {:induction false} DeletedComplaintsMislead()
    ensures exists events ::
      var rows := Run(EMPTY, events).rows;
      PickOfficer(rows, [1, 2]) == 2 && LiveLoad(rows, 1) == 0 && LiveLoad(rows, 2) == 1
  {
    var one := FileFor([], 0, 1);
    var two := FileFor(one, 1, 1);
    var three := FileFor(two, 2, 2);
    var gone := Remove(three, 0);
    var events := Remove(gone, 1);
    var rows := Run(EMPTY, events).rows;
    ThreeLoads(rows);
    assert PickOfficer(rows, [1, 2]) == 2;
  }

  lemma LoadOfThree(rows: seq<Complaint>, u: UserId)
    requires |rows| == 3
    ensures Load(rows, u) == Bit(Burdens(rows[0], u)) + Bit(Burdens(rows[1], u)) + Bit(Burdens(rows[2], u))
  {
    var two, one := rows[..2], rows[..1];
    assert two[..1] == one && one[..0] == [];
    assert Load(one, u) == Bit(Burdens(rows[0], u));
    assert Load(two, u) == Load(one, u) + Bit(Burdens(rows[1], u));
  }

  lemma LiveLoadOfThree(rows: seq<Complaint>, u: UserId)
    requires |rows| == 3
    ensures LiveLoad(rows, u)
         == Bit(Burdens(rows[0], u) && rows[0].deletedAt.None?) + Bit(Burdens(rows[1], u) && rows[1].deletedAt.None?)
            + Bit(Burdens(rows[2], u) && rows[2].deletedAt.None?)
  {
    var two, one := rows[..2], rows[..1];
    assert two[..1] == one && one[..0] == [];
    assert LiveLoad(one, u) == Bit(Burdens(rows[0], u) && rows[0].deletedAt.None?);
    assert LiveLoad(two, u) == LiveLoad(one, u) + Bit(Burdens(rows[1], u) && rows[1].deletedAt.None?);
  }

  lemma ThreeLoads(rows: seq<Complaint>)
    requires |rows| == 3 && Held(rows[0], 1, true) && Held(rows[1], 1, true) && Held(rows[2], 2, false)
    ensures LiveLoad(rows, 1) == 0 && LiveLoad(rows, 2) == 1 && PickOfficer(rows, [1, 2]) == 2
  {
    LoadOfThree(rows, 1);
    LoadOfThree(rows, 2);
    LiveLoadOfThree(rows, 1);
    LiveLoadOfThree(rows, 2);
    assert [1, 2][..1] == [1];
    assert PickOfficer(rows, [1]) == 1;
  }
}
