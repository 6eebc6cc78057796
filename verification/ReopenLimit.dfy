/** How far a complaint can be reopened when every reopening goes through `reopen`. */
module ReopenLimit {
  import opened Base
  import opened ComplaintRuns
  import opened Complaints
  import opened Sets

  /** No status change to REOPENED but through `reopen`, and none of those with a higher limit. */
  predicate Gated(e: Event, limit: nat) {
    && (e.ReadChange? ==> e.next != REOPENED)
    && (e.ReadReopen? ==> e.limit <= limit)
  }

  ghost predicate AllGated(events: seq<Event>, limit: nat) {
    forall i :: 0 <= i < |events| ==> Gated(events[i], limit)
  }

  predicate Reopens(t: Ticket, id: Id) {
    (t.Asked? && t.id == id) || (t.Move? && t.next == REOPENED && t.id == id)
  }

  /** The workers that have passed the checks of `reopen` for a complaint and have its write still to do. */
  function InFlight(db: Db, id: Id): set<Worker> {
    set w | w in db.tickets && Reopens(db.tickets[w], id)
  }

  /** At no moment of the run are more than n reopenings of the complaint in flight. */
  ghost predicate AtMost(events: seq<Event>, id: Id, n: nat) {
    |InFlight(Run(EMPTY, events), id)| <= n && (events == [] || AtMost(events[..|events| - 1], id, n))
  }

  /** What n reopenings in flight at once can bring the count to under a limit. */
  function Bound(limit: nat, n: nat): nat {
    if limit == 0 || n == 0 then 0 else limit - 1 + n
  }

  ghost predicate Within(db: Db, id: Id, limit: nat, n: nat) {
    && (id < |db.rows| ==> db.rows[id].reopenCount + |InFlight(db, id)| <= Bound(limit, n))
    && (id >= |db.rows| ==> InFlight(db, id) == {})
  }

  /** Steps on rows alone. */
  lemma RowSteps(db: Db, e: Event, id: Id)
    requires e.Create? || e.Assign? || e.Attach? || e.Delete? || e.Restore?
    ensures Step(db, e).0.tickets == db.tickets
    ensures id < |db.rows| ==> id < |Step(db, e).0.rows| && Step(db, e).0.rows[id].reopenCount == db.rows[id].reopenCount
    ensures |db.rows| <= id < |Step(db, e).0.rows| ==> Step(db, e).0.rows[id].reopenCount == 0
  {
    match e
    case Create(_, _, _, _, _, _) =>
    case Assign(_, _, _, _, _, _) =>
    case Attach(_, _, _) =>
    case Delete(_, _) =>
    case Restore(_) =>
  }

  /** Steps that leave or take a ticket of another kind. */
  lemma TicketSteps(db: Db, e: Event, id: Id)
    requires e.ReadChange? || e.ReadFeedback? || e.ReadAutoClose?
    requires e.ReadChange? ==> e.next != REOPENED
    ensures Step(db, e).0.rows == db.rows && InFlight(Step(db, e).0, id) <= InFlight(db, id)
  {
    match e
    case ReadChange(_, _, _, _, _) =>
    case ReadFeedback(_, _, _) =>
    case ReadAutoClose(_, _, _) =>
  }

  /** A step that neither checks nor writes a reopening adds none in flight, and counts none. */
  lemma OtherSteps(db: Db, e: Event, id: Id)
    requires !e.ReadReopen? && !e.WriteMove? && !e.ReadAsked? && (e.ReadChange? ==> e.next != REOPENED)
    ensures InFlight(Step(db, e).0, id) <= InFlight(db, id)
    ensures id < |db.rows| ==> id < |Step(db, e).0.rows| && Step(db, e).0.rows[id].reopenCount == db.rows[id].reopenCount
    ensures |db.rows| <= id < |Step(db, e).0.rows| ==> Step(db, e).0.rows[id].reopenCount == 0
  {
    if e.Create? || e.Assign? || e.Attach? || e.Delete? || e.Restore? {
      RowSteps(db, e, id);
    } else if !e.WriteFeedback? {
      TicketSteps(db, e, id);
    }
  }

  lemma OtherWithin(db: Db, e: Event, id: Id, limit: nat, n: nat)
    requires Inv(db) && Within(db, id, limit, n)
    requires !e.ReadReopen? && !e.WriteMove? && !e.ReadAsked? && (e.ReadChange? ==> e.next != REOPENED)
    ensures Within(Step(db, e).0, id, limit, n)
  {
    OtherSteps(db, e, id);
    Fewer(InFlight(Step(db, e).0, id), InFlight(db, id));
  }

  /** The second read of `reopen` carries on or gives up. */
  lemma AskedWithin(db: Db, w: Worker, id: Id, limit: nat, n: nat)
    requires Within(db, id, limit, n)
    ensures Within(ReadAskedStep(db, w).0, id, limit, n)
  {
    var after := ReadAskedStep(db, w).0;
    assert after.rows == db.rows;
    assert InFlight(after, id) <= InFlight(db, id);
    Fewer(InFlight(after, id), InFlight(db, id));
  }

  /** A check that passes found the count below the limit. */
  lemma CheckWithin(db: Db, e: Event, id: Id, limit: nat, n: nat)
    requires Inv(db) && Within(db, id, limit, n) && e.ReadReopen? && e.limit <= limit
    requires |InFlight(ReadReopenStep(db, e).0, id)| <= n
    ensures Within(ReadReopenStep(db, e).0, id, limit, n)
  {
    var after := ReadReopenStep(db, e).0;
    assert after.rows == db.rows;
    if after == db || e.id != id {
      assert InFlight(after, id) <= InFlight(db, id);
      Fewer(InFlight(after, id), InFlight(db, id));
    } else {
      assert e.worker in InFlight(after, id);
    }
  }

  /** A write that reopens takes its own worker out of flight. */
  lemma WriteWithin(db: Db, w: Worker, now: Time, id: Id, limit: nat, n: nat)
    requires Inv(db) && Within(db, id, limit, n)
    ensures Within(WriteMoveStep(db, w, now).0, id, limit, n)
  {
    var after := WriteMoveStep(db, w, now).0;
    if w in db.tickets && db.tickets[w].Move? {
      assert InFlight(after, id) == InFlight(db, id) - {w};
    }
  }

  lemma StepWithin(db: Db, e: Event, id: Id, limit: nat, n: nat)
    requires Inv(db) && Within(db, id, limit, n) && Gated(e, limit)
    requires |InFlight(Step(db, e).0, id)| <= n
    ensures Within(Step(db, e).0, id, limit, n)
  {
    if e.ReadReopen? {
      CheckWithin(db, e, id, limit, n);
    } else if e.ReadAsked? {
      AskedWithin(db, e.worker, id, limit, n);
    } else if e.WriteMove? {
      WriteWithin(db, e.worker, e.now, id, limit, n);
    } else {
      OtherWithin(db, e, id, limit, n);
    }
  }

  lemma {:induction false} RunWithin(events: seq<Event>, id: Id, limit: nat, n: nat)
    requires AllGated(events, limit) && AtMost(events, id, n)
    ensures Within(Run(EMPTY, events), id, limit, n)
  {
    if events != [] {
      var prefix := events[..|events| - 1];
      RunWithin(prefix, id, limit, n);
      EveryRun(prefix);
      StepWithin(Run(EMPTY, prefix), events[|events| - 1], id, limit, n);
    }
  }

  /**
   The check of `reopen` and its write are apart.  With at most n reopenings of a
   complaint in flight at once, a limit of k lets it be reopened up to k - 1 + n
   times; only one at a time keep the limit itself.
   */
  lemma {:induction false} ReopensBounded(events: seq<Event>, id: Id, limit: nat, n: nat)
    requires AllGated(events, limit) && AtMost(events, id, n)
    ensures var db := Run(EMPTY, events);
      id < |db.rows| ==>
        && Reopenings(db.rows[id].history) <= Bound(limit, n)
        && |db.rows[id].history| <= 6 + 4 * Bound(limit, n)
  {
    RunWithin(events, id, limit, n);
    EveryRun(events);
    WithinBounds(Run(EMPTY, events), id, limit, n);
  }

  lemma WithinBounds(db: Db, id: Id, limit: nat, n: nat)
    requires Inv(db) && Within(db, id, limit, n)
    ensures id < |db.rows| ==>
      && Reopenings(db.rows[id].history) <= Bound(limit, n)
      && |db.rows[id].history| <= 6 + 4 * Bound(limit, n)
  {
    if id < |db.rows| {
      assert RowInv(db.rows[id]);
      assert db.rows[id].reopenCount <= Bound(limit, n);
    }
  }

  /** In particular: taken one at a time, reopenings respect the limit. */
  lemma {:induction false} OneAtATimeRespectsLimit(events: seq<Event>, id: Id, limit: nat)
    requires AllGated(events, limit) && AtMost(events, id, 1)
    ensures var db := Run(EMPTY, events);
      id < |db.rows| ==> Reopenings(db.rows[id].history) <= limit && |db.rows[id].history| <= 6 + 4 * limit
  {
    ReopensBounded(events, id, limit, 1);
  }

  // -- as many in flight as there are workers --------------------------------

  ghost predicate FewReopeners(events: seq<Event>, n: nat) {
    forall i :: 0 <= i < |events| && events[i].ReadReopen? ==> events[i].worker < n
  }

  lemma {:induction false} OnlyThese(events: seq<Event>, id: Id, limit: nat, n: nat)
    requires AllGated(events, limit) && FewReopeners(events, n)
    ensures InFlight(Run(EMPTY, events), id) <= Below(n)
  {
    if events != [] {
      var prefix, e := events[..|events| - 1], events[|events| - 1];
      OnlyThese(prefix, id, limit, n);
      EveryRun(prefix);
      OnlyTheseStep(Run(EMPTY, prefix), e, id, n);
    }
  }

  lemma OnlyTheseStep(db: Db, e: Event, id: Id, n: nat)
    requires Inv(db) && InFlight(db, id) <= Below(n)
    requires (e.ReadChange? ==> e.next != REOPENED) && (e.ReadReopen? ==> e.worker < n)
    ensures InFlight(Step(db, e).0, id) <= Below(n)
  {
    if e.ReadReopen? {
      assert InFlight(Step(db, e).0, id) <= InFlight(db, id) + {e.worker};
    } else if e.ReadAsked? {
      assert InFlight(ReadAskedStep(db, e.worker).0, id) <= InFlight(db, id);
    } else if e.WriteMove? {
      assert InFlight(WriteMoveStep(db, e.worker, e.now).0, id) <= InFlight(db, id);
    } else {
      OtherSteps(db, e, id);
    }
  }

  lemma {:induction false} FewReopenersAtMost(events: seq<Event>, id: Id, limit: nat, n: nat)
    requires AllGated(events, limit) && FewReopeners(events, n)
    ensures AtMost(events, id, n)
  {
    OnlyThese(events, id, limit, n);
    Fewer(InFlight(Run(EMPTY, events), id), Below(n));
    if events != [] { FewReopenersAtMost(events[..|events| - 1], id, limit, n); }
  }
}
