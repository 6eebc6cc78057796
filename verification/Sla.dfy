/**
 The hourly SLA check: escalation levels over any number of checks, their turns
 interleaved with complaint requests.
 */
module Sla {
  import opened Base
  import opened Complaints
  import opened ComplaintRuns

  const BATCH := 200

  /** The level a breach calls for by now: the second after 24 hours, the third after 96. */
  function LevelFor(dueAt: Time, now: Time): int {
    if now - dueAt >= 96 * HOUR_MS then 3
    else if now - dueAt >= 24 * HOUR_MS then 2
    else 1
  }

  predicate Breached(c: Complaint, now: Time) {
    c.deletedAt.None? && IsOpen(c.status) && c.slaDueAt < now
  }

  /** One complaint of the batch: the level is recorded unless it already is. */
  function Escalated(c: Complaint, now: Time): Complaint {
    var level := LevelFor(c.slaDueAt, now);
    if level in c.escalations then c else c.(escalations := c.escalations + [level], isEscalated := true)
  }

  /** The loop over the batch; each complaint is judged by the clock reading of its own turn. */
  function CheckRows(rows: seq<Complaint>, batch: seq<Id>, clock: seq<Time>): (after: seq<Complaint>)
    requires |clock| == |batch| && forall k :: 0 <= k < |batch| ==> batch[k] < |rows|
    ensures |after| == |rows|
  {
    if batch == [] then rows
    else
      var n := |batch| - 1;
      var before := CheckRows(rows, batch[..n], clock[..n]);
      before[batch[n] := Escalated(before[batch[n]], clock[n])]
  }

  /** How many complaints of the batch get a new level. */
  function Recorded(rows: seq<Complaint>, batch: seq<Id>, clock: seq<Time>): nat
    requires |clock| == |batch| && forall k :: 0 <= k < |batch| ==> batch[k] < |rows|
  {
    if batch == [] then 0
    else
      var n := |batch| - 1;
      var c := CheckRows(rows, batch[..n], clock[..n])[batch[n]];
      Recorded(rows, batch[..n], clock[..n]) + (if LevelFor(c.slaDueAt, clock[n]) in c.escalations then 0 else 1)
  }

  /** What the query may return: distinct breached complaints, all of them unless the batch is full. */
  ghost predicate IsBatch(rows: seq<Complaint>, batch: seq<Id>, now: Time) {
    && |batch| <= BATCH
    && (forall k :: 0 <= k < |batch| ==> batch[k] < |rows| && Breached(rows[batch[k]], now))
    && (forall j, k :: 0 <= j < k < |batch| ==> batch[j] != batch[k])
    && (|batch| < BATCH ==> forall i :: 0 <= i < |rows| && Breached(rows[i], now) ==> i in batch)
  }

  /** Clock readings that never go back, starting no earlier than `now`. */
  ghost predicate Ticking(clock: seq<Time>, now: Time) {
    && (forall k :: 0 <= k < |clock| ==> now <= clock[k])
    && (forall j, k :: 0 <= j < k < |clock| ==> clock[j] <= clock[k])
  }

  /** The level that is due: the second from 24 hours past the due date, the third from 96, else the first. */
  predicate Due(level: int, dueAt: Time, now: Time) {
    && level in {1, 2, 3}
    && (level >= 2 <==> now >= dueAt + 24 * HOUR_MS)
    && (level == 3 <==> now >= dueAt + 96 * HOUR_MS)
  }

  ghost predicate HasDue(levels: seq<int>, dueAt: Time, now: Time) {
    exists i :: 0 <= i < |levels| && Due(levels[i], dueAt, now)
  }

  /** And it is the last. */
  predicate StandsOn(levels: seq<int>, dueAt: Time, now: Time) {
    levels != [] && Due(levels[|levels| - 1], dueAt, now)
  }

  /** What the batch query reads of one complaint; the turn that uses it may come much later. */
  datatype Snapshot = Snapshot(id: Id, dueAt: Time, levels: seq<int>, isEscalated: bool)

  function SnapshotOf(rows: seq<Complaint>, id: Id): Snapshot
    requires id < |rows|
  {
    Snapshot(id, rows[id].slaDueAt, rows[id].escalations, rows[id].isEscalated)
  }

  /** A snapshot of the row or of an earlier version of it. */
  ghost predicate SeenOf(seen: Snapshot, rows: seq<Complaint>) {
    && seen.id < |rows|
    && seen.dueAt == rows[seen.id].slaDueAt && seen.levels <= rows[seen.id].escalations
    && (seen.isEscalated ==> rows[seen.id].isEscalated)
  }

  /** One turn, judged by the snapshot; the unique key on complaint and level undoes a turn that came second. */
  function Turn(c: Complaint, seen: Snapshot, now: Time): Complaint {
    var level := LevelFor(seen.dueAt, now);
    if level in seen.levels || level in c.escalations then c
    else c.(escalations := c.escalations + [level], isEscalated := if seen.isEscalated then c.isEscalated else true)
  }

  /** However old its snapshot, a turn does what it would do on the row as it is. */
  lemma TurnIsEscalated(rows: seq<Complaint>, seen: Snapshot, now: Time)
    requires SeenOf(seen, rows)
    ensures Turn(rows[seen.id], seen, now) == Escalated(rows[seen.id], now)
  {
    var level := LevelFor(seen.dueAt, now);
    if level in seen.levels {
      var i :| 0 <= i < |seen.levels| && seen.levels[i] == level;
      assert rows[seen.id].escalations[i] == level;
    }
  }

  function Ids(fetched: seq<Snapshot>): (ids: seq<Id>)
    ensures |ids| == |fetched| && forall k :: 0 <= k < |fetched| ==> ids[k] == fetched[k].id
  {
    seq(|fetched|, k requires 0 <= k < |fetched| => fetched[k].id)
  }

  class Checker {
    var rows: seq<Complaint>

    constructor (rows: seq<Complaint>)
      ensures this.rows == rows
    {
      this.rows := rows;
    }

    /** The loop over a batch fetched earlier; other checks may have recorded levels since. */
    method RunSlaCheck(fetched: seq<Snapshot>, clock: seq<Time>) returns (escalated: nat)
      requires |clock| == |fetched|
      requires forall k :: 0 <= k < |fetched| ==> fetched[k].id < |rows| && SeenOf(fetched[k], rows)
      modifies this
      ensures rows == CheckRows(old(rows), Ids(fetched), clock)
      ensures escalated == Recorded(old(rows), Ids(fetched), clock)
      ensures |rows| == |old(rows)|
      ensures forall k :: 0 <= k < |fetched| ==> HasDue(rows[fetched[k].id].escalations, fetched[k].dueAt, clock[k])
    {
      escalated := 0;
      ghost var batch := Ids(fetched);
      for k := 0 to |fetched|
        invariant escalated == Recorded(old(rows), batch[..k], clock[..k])
        invariant rows == CheckRows(old(rows), batch[..k], clock[..k])
      {
        CheckPush(old(rows), batch, clock, k);
        CheckKeepsSeen(old(rows), batch[..k], clock[..k], fetched[k]);
        var recorded := RecordLevel(fetched[k], clock[k]);
        if recorded { escalated := escalated + 1; }
      }
      assert batch[..|fetched|] == batch && clock[..|fetched|] == clock;
      forall k | 0 <= k < |fetched| ensures HasDue(rows[fetched[k].id].escalations, fetched[k].dueAt, clock[k]) {
        CheckRecords(old(rows), batch, clock, k);
      }
    }

    /** Skips a level that was seen; the transaction of any other fails on the key if the level is there by now. */
    method RecordLevel(seen: Snapshot, now: Time) returns (recorded: bool)
      requires SeenOf(seen, rows)
      modifies this
      ensures rows == old(rows)[seen.id := Escalated(old(rows)[seen.id], now)]
      ensures recorded == (LevelFor(seen.dueAt, now) !in old(rows)[seen.id].escalations)
    {
      TurnIsEscalated(rows, seen, now);
      var row := rows[seen.id];
      var level := LevelFor(seen.dueAt, now);
      recorded := false;
      if level !in seen.levels && level !in row.escalations {
        row := row.(escalations := row.escalations + [level]);
        if !seen.isEscalated {
          row := row.(isEscalated := true);
        }
        recorded := true;
      }
      rows := rows[seen.id := row];
    }
  }

  lemma CheckPush(rows: seq<Complaint>, batch: seq<Id>, clock: seq<Time>, k: nat)
    requires |clock| == |batch| && k < |batch| && forall j :: 0 <= j < |batch| ==> batch[j] < |rows|
    ensures var before := CheckRows(rows, batch[..k], clock[..k]);
      && CheckRows(rows, batch[..k + 1], clock[..k + 1]) == before[batch[k] := Escalated(before[batch[k]], clock[k])]
      && Recorded(rows, batch[..k + 1], clock[..k + 1])
         == Recorded(rows, batch[..k], clock[..k])
            + (if LevelFor(before[batch[k]].slaDueAt, clock[k]) in before[batch[k]].escalations then 0 else 1)
  {
    assert batch[..k + 1][..k] == batch[..k] && clock[..k + 1][..k] == clock[..k];
  }

  lemma EscalatedRecords(c: Complaint, now: Time)
    ensures HasDue(Escalated(c, now).escalations, c.slaDueAt, now)
  {
    var level, levels := LevelFor(c.slaDueAt, now), Escalated(c, now).escalations;
    if level in c.escalations {
      var i :| 0 <= i < |c.escalations| && c.escalations[i] == level;
      assert Due(levels[i], c.slaDueAt, now);
    } else {
      assert Due(levels[|levels| - 1], c.slaDueAt, now);
    }
  }

  lemma StillHasDue(levels: seq<int>, more: seq<int>, dueAt: Time, now: Time)
    requires HasDue(levels, dueAt, now) && levels <= more
    ensures HasDue(more, dueAt, now)
  {
    var i :| 0 <= i < |levels| && Due(levels[i], dueAt, now);
    assert Due(more[i], dueAt, now);
  }

  /** A check leaves each complaint of its batch with the level that was due at its turn. */
  lemma {:induction false} CheckRecords(rows: seq<Complaint>, batch: seq<Id>, clock: seq<Time>, k: nat)
    requires |clock| == |batch| && k < |batch| && forall j :: 0 <= j < |batch| ==> batch[j] < |rows|
    ensures HasDue(CheckRows(rows, batch, clock)[batch[k]].escalations, rows[batch[k]].slaDueAt, clock[k])
    ensures CheckRows(rows, batch, clock)[batch[k]].slaDueAt == rows[batch[k]].slaDueAt
  {
    var n := |batch| - 1;
    var before := CheckRows(rows, batch[..n], clock[..n]);
    CheckKeepsDue(rows, batch[..n], clock[..n], batch[k]);
    if k < n {
      CheckRecords(rows, batch[..n], clock[..n], k);
      StillHasDue(before[batch[k]].escalations, CheckRows(rows, batch, clock)[batch[k]].escalations,
                  rows[batch[k]].slaDueAt, clock[k]);
    } else {
      EscalatedRecords(before[batch[n]], clock[n]);
    }
  }

  lemma {:induction false} CheckKeepsDue(rows: seq<Complaint>, batch: seq<Id>, clock: seq<Time>, id: Id)
    requires |clock| == |batch| && id < |rows| && forall k :: 0 <= k < |batch| ==> batch[k] < |rows|
    ensures CheckRows(rows, batch, clock)[id].slaDueAt == rows[id].slaDueAt
  {
    if batch != [] { CheckKeepsDue(rows, batch[..|batch| - 1], clock[..|batch| - 1], id); }
  }

  /** What was seen of a row stays an earlier version of it while a check runs. */
  lemma {:induction false} CheckKeepsSeen(rows: seq<Complaint>, batch: seq<Id>, clock: seq<Time>, seen: Snapshot)
    requires |clock| == |batch| && forall k :: 0 <= k < |batch| ==> batch[k] < |rows|
    requires SeenOf(seen, rows)
    ensures SeenOf(seen, CheckRows(rows, batch, clock))
  {
    if batch != [] {
      var n := |batch| - 1;
      CheckKeepsSeen(rows, batch[..n], clock[..n], seen);
    }
  }

  // -- the invariant ---------------------------------------------------------

  ghost predicate Increasing(levels: seq<int>) {
    forall i, j :: 0 <= i < j < |levels| ==> levels[i] < levels[j]
  }

  /** Levels recorded so far, as of a clock reading no earlier than any of them. */
  ghost predicate EscalationsOk(c: Complaint, clock: Time) {
    && Increasing(c.escalations)
    && (forall i :: 0 <= i < |c.escalations| ==> 1 <= c.escalations[i] <= LevelFor(c.slaDueAt, clock))
    && (c.isEscalated <==> c.escalations != [])
  }

  ghost predicate AllOk(rows: seq<Complaint>, clock: Time) {
    forall i :: 0 <= i < |rows| ==> EscalationsOk(rows[i], clock)
  }

  lemma LaterClock(rows: seq<Complaint>, a: Time, b: Time)
    requires AllOk(rows, a) && a <= b
    ensures AllOk(rows, b)
  {
    forall i | 0 <= i < |rows| ensures EscalationsOk(rows[i], b) {
      assert EscalationsOk(rows[i], a);
    }
  }

  /** The level recorded is above every earlier one. */
  lemma EscalatedOk(c: Complaint, now: Time)
    requires EscalationsOk(c, now)
    ensures EscalationsOk(Escalated(c, now), now)
    ensures StandsOn(Escalated(c, now).escalations, c.slaDueAt, now)
  {
    var level := LevelFor(c.slaDueAt, now);
    if level in c.escalations {
      var i :| 0 <= i < |c.escalations| && c.escalations[i] == level;
      var last := |c.escalations| - 1;
      assert c.escalations[last] <= level;
    }
  }

  lemma {:induction false} CheckKeepsOk(rows: seq<Complaint>, batch: seq<Id>, clock: seq<Time>, now: Time)
    requires |clock| == |batch| && forall k :: 0 <= k < |batch| ==> batch[k] < |rows|
    requires AllOk(rows, now) && Ticking(clock, now)
    ensures AllOk(CheckRows(rows, batch, clock), if clock == [] then now else clock[|clock| - 1])
  {
    if batch != [] {
      var n := |batch| - 1;
      CheckKeepsOk(rows, batch[..n], clock[..n], now);
      var mid := CheckRows(rows, batch[..n], clock[..n]);
      var earlier := if n == 0 then now else clock[n - 1];
      LaterClock(mid, earlier, clock[n]);
      EscalatedOk(mid[batch[n]], clock[n]);
    }
  }

  /** What the check does to each row: one escalation for a row of the batch, nothing to any other. */
  lemma {:induction false} CheckRowsAt(rows: seq<Complaint>, batch: seq<Id>, clock: seq<Time>, i: Id)
    requires |clock| == |batch| && forall k :: 0 <= k < |batch| ==> batch[k] < |rows|
    requires forall j, k :: 0 <= j < k < |batch| ==> batch[j] != batch[k]
    requires i < |rows|
    ensures i !in batch ==> CheckRows(rows, batch, clock)[i] == rows[i]
    ensures forall k :: 0 <= k < |batch| && batch[k] == i ==>
      CheckRows(rows, batch, clock)[i] == Escalated(rows[i], clock[k])
  {
    if batch != [] {
      var n := |batch| - 1;
      CheckRowsAt(rows, batch[..n], clock[..n], i);
    }
  }

  /** After a check every complaint of the batch stands on the level its hours past the due date call for. */
  lemma CheckReachesLevel(rows: seq<Complaint>, batch: seq<Id>, clock: seq<Time>, now: Time, k: nat)
    requires AllOk(rows, now) && IsBatch(rows, batch, now)
    requires |clock| == |batch| && Ticking(clock, now) && k < |batch|
    ensures StandsOn(CheckRows(rows, batch, clock)[batch[k]].escalations, rows[batch[k]].slaDueAt, clock[k])
  {
    CheckRowsAt(rows, batch, clock, batch[k]);
    LaterClock(rows, now, clock[k]);
    EscalatedOk(rows[batch[k]], clock[k]);
  }

  /** All the levels on record. */
  function Levels(rows: seq<Complaint>): nat {
    if rows == [] then 0 else Levels(rows[..|rows| - 1]) + |rows[|rows| - 1].escalations|
  }

  lemma {:induction false} LevelsUpdate(rows: seq<Complaint>, i: Id, c: Complaint)
    requires i < |rows|
    ensures Levels(rows[i := c]) + |rows[i].escalations| == Levels(rows) + |c.escalations|
  {
    var n := |rows| - 1;
    if i == n {
      assert rows[i := c][..n] == rows[..n];
    } else {
      assert rows[i := c][..n] == rows[..n][i := c];
      LevelsUpdate(rows[..n], i, c);
    }
  }

  /** The number a check answers is the number of rows it has added. */
  lemma {:induction false} CheckCounts(rows: seq<Complaint>, batch: seq<Id>, clock: seq<Time>)
    requires |clock| == |batch| && forall k :: 0 <= k < |batch| ==> batch[k] < |rows|
    ensures Levels(CheckRows(rows, batch, clock)) == Levels(rows) + Recorded(rows, batch, clock)
  {
    if batch != [] {
      var n := |batch| - 1;
      CheckCounts(rows, batch[..n], clock[..n]);
      var before := CheckRows(rows, batch[..n], clock[..n]);
      LevelsUpdate(before, batch[n], Escalated(before[batch[n]], clock[n]));
    }
  }

  /** Checking the same batch again at the same readings changes nothing. */
  lemma CheckIsIdempotent(rows: seq<Complaint>, batch: seq<Id>, clock: seq<Time>, now: Time)
    requires IsBatch(rows, batch, now) && |clock| == |batch|
    ensures CheckRows(CheckRows(rows, batch, clock), batch, clock) == CheckRows(rows, batch, clock)
  {
    var once := CheckRows(rows, batch, clock);
    var twice := CheckRows(once, batch, clock);
    forall i | 0 <= i < |rows| ensures twice[i] == once[i] {
      CheckRowsAt(rows, batch, clock, i);
      CheckRowsAt(once, batch, clock, i);
      if i in batch {
        var k :| 0 <= k < |batch| && batch[k] == i;
        assert once[i] == Escalated(rows[i], clock[k]) && twice[i] == Escalated(once[i], clock[k]);
      }
    }
  }

  // -- runs ------------------------------------------------------------------

  datatype Tick =
    | Other(event: Event)
    | Fetch(worker: Worker, batch: seq<Id>, now: Time)
    | TakeTurn(worker: Worker, now: Time)

  /** The table, what each check has fetched and not yet come to, and the last clock reading a check has made. */
  datatype State = State(db: Db, pending: map<Worker, seq<Snapshot>>, clock: Time)

  function Fetched(rows: seq<Complaint>, batch: seq<Id>): (fetched: seq<Snapshot>)
    requires forall k :: 0 <= k < |batch| ==> batch[k] < |rows|
    ensures |fetched| == |batch| && forall k :: 0 <= k < |batch| ==> fetched[k] == SnapshotOf(rows, batch[k])
  {
    seq(|batch|, k requires 0 <= k < |batch| => SnapshotOf(rows, batch[k]))
  }

  /**
   A check fetches what its query returns, and has a turn on one complaint at a time; the
   clock does not go back.
   */
  ghost function TickStep(s: State, t: Tick): State {
    match t
    case Other(e) => s.(db := Step(s.db, e).0)
    case Fetch(w, batch, now) =>
      if now < s.clock || !IsBatch(s.db.rows, batch, now) then s
      else State(s.db, s.pending[w := Fetched(s.db.rows, batch)], now)
    case TakeTurn(w, now) =>
      if now < s.clock || w !in s.pending || s.pending[w] == [] || s.pending[w][0].id >= |s.db.rows| then s
      else
        var seen := s.pending[w][0];
        State(SetRow(s.db, seen.id, Turn(s.db.rows[seen.id], seen, now)), s.pending[w := s.pending[w][1..]], now)
  }

  ghost function TickRun(ticks: seq<Tick>, start: Time): State {
    if ticks == [] then State(EMPTY, map[], start)
    else TickStep(TickRun(ticks[..|ticks| - 1], start), ticks[|ticks| - 1])
  }

  ghost predicate PendingOk(pending: map<Worker, seq<Snapshot>>, rows: seq<Complaint>) {
    forall w, k :: w in pending && 0 <= k < |pending[w]| ==> SeenOf(pending[w][k], rows)
  }

  ghost predicate StateOk(s: State) {
    Inv(s.db) && AllOk(s.db.rows, s.clock) && PendingOk(s.pending, s.db.rows)
  }

  lemma FreshRows(db: Db, e: Event, i: Id)
    requires |db.rows| <= i < |Step(db, e).0.rows|
    ensures var c := Step(db, e).0.rows[i]; c.escalations == [] && !c.isEscalated
  {
    match e
    case Create(_, _, _, _, _, _) =>
    case ReadChange(_, _, _, _, _) =>
    case ReadReopen(_, _, _, _, _, _) =>
    case ReadAsked(_) =>
    case ReadFeedback(_, _, _) =>
    case ReadAutoClose(_, _, _) =>
    case WriteFeedback(_) =>
    case WriteMove(_, _) =>
    case Assign(_, _, _, _, _, _) =>
    case Attach(_, _, _) =>
    case Delete(_, _) =>
    case Restore(_) =>
  }

  lemma OtherKeeps(s: State, e: Event)
    requires StateOk(s)
    ensures StateOk(TickStep(s, Other(e)))
  {
    StepKeeps(s.db, e);
    var db := Step(s.db, e).0;
    forall i | 0 <= i < |db.rows| ensures EscalationsOk(db.rows[i], s.clock) {
      if i < |s.db.rows| {
        assert EscalationsOk(s.db.rows[i], s.clock) && Grows(s.db.rows[i], db.rows[i]);
      } else {
        FreshRows(s.db, e, i);
      }
    }
    forall w, k | w in s.pending && 0 <= k < |s.pending[w]| ensures SeenOf(s.pending[w][k], db.rows) {
      var seen := s.pending[w][k];
      assert SeenOf(seen, s.db.rows) && Grows(s.db.rows[seen.id], db.rows[seen.id]);
    }
  }

  lemma FetchKeeps(s: State, w: Worker, batch: seq<Id>, now: Time)
    requires StateOk(s)
    ensures StateOk(TickStep(s, Fetch(w, batch, now)))
  {
    if s.clock <= now && IsBatch(s.db.rows, batch, now) { LaterClock(s.db.rows, s.clock, now); }
  }

  /** The turn leaves everything the row invariant reads alone. */
  lemma TurnKeepsInv(db: Db, id: Id, now: Time)
    requires Inv(db) && id < |db.rows|
    ensures Inv(SetRow(db, id, Escalated(db.rows[id], now)))
  {
    var c := db.rows[id];
    var d := Escalated(c, now);
    FrameInv(c, d);
    var after := SetRow(db, id, d);
    forall w | w in after.tickets ensures TicketOk(after, after.tickets[w]) { assert TicketOk(db, db.tickets[w]); }
  }

  lemma TurnKeeps(s: State, w: Worker, now: Time)
    requires StateOk(s)
    ensures StateOk(TickStep(s, TakeTurn(w, now)))
  {
    var after := TickStep(s, TakeTurn(w, now));
    if s.clock <= now && w in s.pending && s.pending[w] != [] {
      var seen := s.pending[w][0];
      assert SeenOf(seen, s.db.rows);
      TurnIsEscalated(s.db.rows, seen, now);
      TurnKeepsInv(s.db, seen.id, now);
      LaterClock(s.db.rows, s.clock, now);
      AllOkAfter(s.db.rows, seen.id, now);
      StillSeen(s.pending, s.db.rows, seen.id, now);
    }
  }

  lemma AllOkAfter(rows: seq<Complaint>, id: Id, now: Time)
    requires AllOk(rows, now) && id < |rows|
    ensures AllOk(rows[id := Escalated(rows[id], now)], now)
  {
    EscalatedOk(rows[id], now);
  }

  /** What was seen before a turn is still an earlier version after it. */
  lemma StillSeen(pending: map<Worker, seq<Snapshot>>, rows: seq<Complaint>, id: Id, now: Time)
    requires PendingOk(pending, rows) && id < |rows|
    ensures PendingOk(pending, rows[id := Escalated(rows[id], now)])
  {
    forall w, k | w in pending && 0 <= k < |pending[w]|
      ensures SeenOf(pending[w][k], rows[id := Escalated(rows[id], now)])
    {
      assert SeenOf(pending[w][k], rows);
    }
  }

  lemma {:induction false} TicksKeep(ticks: seq<Tick>, start: Time)
    ensures StateOk(TickRun(ticks, start))
  {
    if ticks != [] {
      var n := |ticks| - 1;
      TicksKeep(ticks[..n], start);
      match ticks[n]
      case Other(e) => OtherKeeps(TickRun(ticks[..n], start), e);
      case Fetch(w, batch, now) => FetchKeeps(TickRun(ticks[..n], start), w, batch, now);
      case TakeTurn(w, now) => TurnKeeps(TickRun(ticks[..n], start), w, now);
    }
  }

  /**
   Over any number of checks, their turns mixed with each other and with complaint
   requests, and with a clock that never goes back, every complaint's levels are
   strictly increasing (so at most three), `isEscalated` says whether there are
   any, and the complaint invariant stands.
   */
  lemma {:induction false} EveryTickRun(ticks: seq<Tick>, start: Time, i: Id)
    requires i < |TickRun(ticks, start).db.rows|
    ensures var c := TickRun(ticks, start).db.rows[i];
      && RowInv(c) && Increasing(c.escalations) && |c.escalations| <= 3
      && (c.isEscalated <==> c.escalations != [])
  {
    TicksKeep(ticks, start);
    var s := TickRun(ticks, start);
    assert EscalationsOk(s.db.rows[i], s.clock);
    if s.db.rows[i].escalations != [] { AtMostLast(s.db.rows[i].escalations); }
  }

  /** After its turn, whatever happened since it was fetched, a complaint stands on the level its hours call for. */
  lemma {:induction false} TurnReachesLevel(ticks: seq<Tick>, start: Time, w: Worker, now: Time)
    requires TickRun(ticks, start).clock <= now
    requires w in TickRun(ticks, start).pending && TickRun(ticks, start).pending[w] != []
    ensures var s, after := TickRun(ticks, start), TickStep(TickRun(ticks, start), TakeTurn(w, now));
      var id := s.pending[w][0].id;
      && id < |s.db.rows| && StandsOn(after.db.rows[id].escalations, s.db.rows[id].slaDueAt, now)
      && forall j :: 0 <= j < |s.db.rows| && j != id ==> after.db.rows[j] == s.db.rows[j]
  {
    var s := TickRun(ticks, start);
    TicksKeep(ticks, start);
    var seen := s.pending[w][0];
    assert SeenOf(seen, s.db.rows);
    TurnIsEscalated(s.db.rows, seen, now);
    LaterClock(s.db.rows, s.clock, now);
    EscalatedOk(s.db.rows[seen.id], now);
  }

  /** A check has fetched the complaint live, open and past its due date. */
  ghost predicate WasLate(ticks: seq<Tick>, start: Time, i: Id) {
    exists k :: 0 <= k < |ticks| && ticks[k].Fetch? && i in ticks[k].batch && LateAt(TickRun(ticks[..k], start), ticks[k], i)
  }

  ghost predicate LateAt(s: State, t: Tick, i: Id)
    requires t.Fetch?
  {
    && i < |s.db.rows| && s.db.rows[i].deletedAt.None? && s.db.rows[i].slaDueAt < t.now
    && s.db.rows[i].status !in {RESOLVED, CLOSED, REJECTED, Status.CANCELLED}
  }

  lemma StillLate(ticks: seq<Tick>, t: Tick, start: Time, i: Id)
    requires WasLate(ticks, start, i)
    ensures WasLate(ticks + [t], start, i)
  {
    var k :| 0 <= k < |ticks| && ticks[k].Fetch? && i in ticks[k].batch && LateAt(TickRun(ticks[..k], start), ticks[k], i);
    assert (ticks + [t])[..k] == ticks[..k] && (ticks + [t])[k] == ticks[k];
  }

  lemma FetchIsLate(ticks: seq<Tick>, w: Worker, batch: seq<Id>, now: Time, start: Time, i: Id)
    requires IsBatch(TickRun(ticks, start).db.rows, batch, now) && i in batch
    ensures WasLate(ticks + [Fetch(w, batch, now)], start, i)
  {
    var k := |ticks|;
    assert (ticks + [Fetch(w, batch, now)])[..k] == ticks && (ticks + [Fetch(w, batch, now)])[k] == Fetch(w, batch, now);
  }

  /** What has been recorded of a complaint, or is to be judged, was late when some check fetched it. */
  ghost predicate AllLate(ticks: seq<Tick>, start: Time) {
    var s := TickRun(ticks, start);
    && (forall i :: 0 <= i < |s.db.rows| && s.db.rows[i].escalations != [] ==> WasLate(ticks, start, i))
    && (forall w, k :: w in s.pending && 0 <= k < |s.pending[w]| ==> WasLate(ticks, start, s.pending[w][k].id))
  }

  /** A level that was not there before is that of a fetched complaint. */
  lemma NewLevels(s: State, t: Tick, i: Id)
    requires StateOk(s) && i < |TickStep(s, t).db.rows| && TickStep(s, t).db.rows[i].escalations != []
    ensures || (i < |s.db.rows| && s.db.rows[i].escalations != [])
            || (t.TakeTurn? && t.worker in s.pending && s.pending[t.worker] != [] && s.pending[t.worker][0].id == i)
  {
    if t.Other? {
      StepKeeps(s.db, t.event);
      if i < |s.db.rows| {
        assert Grows(s.db.rows[i], TickStep(s, t).db.rows[i]);
      } else {
        FreshRows(s.db, t.event, i);
      }
    }
  }

  /** What is to be judged after a tick was to be before, or is fetched in it. */
  lemma NewPending(s: State, t: Tick, w: Worker, k: nat)
    requires w in TickStep(s, t).pending && k < |TickStep(s, t).pending[w]|
    ensures var id := TickStep(s, t).pending[w][k].id;
      || (w in s.pending && exists m :: 0 <= m < |s.pending[w]| && s.pending[w][m].id == id)
      || (t.Fetch? && IsBatch(s.db.rows, t.batch, t.now) && id in t.batch)
  {
    var after := TickStep(s, t).pending;
    if t.TakeTurn? && w in s.pending && after[w] != s.pending[w] {
      assert after[w][k] == s.pending[w][k + 1];
    } else if t.Fetch? && (w !in s.pending || after[w] != s.pending[w]) {
      assert after[w][k].id == t.batch[k];
    } else {
      assert after[w][k] == s.pending[w][k];
    }
  }

  lemma TickAllLate(ticks: seq<Tick>, t: Tick, start: Time)
    requires AllLate(ticks, start)
    ensures AllLate(ticks + [t], start)
  {
    var s, after := TickRun(ticks, start), TickRun(ticks + [t], start);
    assert (ticks + [t])[..|ticks|] == ticks;
    TicksKeep(ticks, start);
    forall i | 0 <= i < |after.db.rows| && after.db.rows[i].escalations != [] ensures WasLate(ticks + [t], start, i) {
      NewLevels(s, t, i);
      StillLate(ticks, t, start, i);
    }
    forall w, k | w in after.pending && 0 <= k < |after.pending[w]|
      ensures WasLate(ticks + [t], start, after.pending[w][k].id)
    {
      PendingLate(ticks, t, start, w, k);
    }
  }

  lemma PendingLate(ticks: seq<Tick>, t: Tick, start: Time, w: Worker, k: nat)
    requires AllLate(ticks, start)
    requires w in TickStep(TickRun(ticks, start), t).pending && k < |TickStep(TickRun(ticks, start), t).pending[w]|
    ensures WasLate(ticks + [t], start, TickStep(TickRun(ticks, start), t).pending[w][k].id)
  {
    var s := TickRun(ticks, start);
    var id := TickStep(s, t).pending[w][k].id;
    NewPending(s, t, w, k);
    if t.Fetch? && IsBatch(s.db.rows, t.batch, t.now) && id in t.batch {
      FetchIsLate(ticks, t.worker, t.batch, t.now, start, id);
    } else {
      var m :| 0 <= m < |s.pending[w]| && s.pending[w][m].id == id;
      StillLate(ticks, t, start, id);
    }
  }

  lemma {:induction false} TicksAllLate(ticks: seq<Tick>, start: Time)
    ensures AllLate(ticks, start)
  {
    if ticks != [] {
      var n := |ticks| - 1;
      TicksAllLate(ticks[..n], start);
      TickAllLate(ticks[..n], ticks[n], start);
      assert ticks[..n] + [ticks[n]] == ticks;
    }
  }

  /** Nothing is escalated that no check has fetched live, open and past its due date. */
  lemma {:induction false} EveryEscalationWasDue(ticks: seq<Tick>, start: Time, i: Id)
    requires i < |TickRun(ticks, start).db.rows| && TickRun(ticks, start).db.rows[i].isEscalated
    ensures WasLate(ticks, start, i)
  {
    EveryTickRun(ticks, start, i);
    TicksAllLate(ticks, start);
  }

  /** Increasing levels from 1 up are no more than the last of them. */
  lemma {:induction false} AtMostLast(levels: seq<int>)
    requires Increasing(levels) && levels != [] && levels[0] >= 1
    ensures |levels| <= levels[|levels| - 1]
  {
    var n := |levels| - 1;
    if n > 0 { AtMostLast(levels[..n]); }
  }
}
