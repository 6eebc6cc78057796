/** Auto-assignment and the balance of the officers' open loads. */
module OfficerLoad {
  import opened Base
  import opened Complaints

  function Bit(b: bool): nat { if b then 1 else 0 }

  // -- the pick --------------------------------------------------------------

  ghost predicate FirstMinimumAt(rows: seq<Complaint>, us: seq<UserId>, k: nat) {
    && k < |us|
    && (forall j :: 0 <= j < |us| ==> Load(rows, us[k]) <= Load(rows, us[j]))
    && (forall j :: 0 <= j < k ==> Load(rows, us[k]) < Load(rows, us[j]))
  }

  /** The officer picked is the first of minimum open load. */
  lemma {:induction false} PickIsFirstMinimum(rows: seq<Complaint>, candidates: seq<UserId>) returns (k: nat)
    requires candidates != []
    ensures FirstMinimumAt(rows, candidates, k) && candidates[k] == PickOfficer(rows, candidates)
  {
    var n := |candidates| - 1;
    if n == 0 {
      k := 0;
    } else {
      k := PickIsFirstMinimum(rows, candidates[..n]);
      assert forall j :: 0 <= j < n ==> candidates[..n][j] == candidates[j];
      if Load(rows, candidates[n]) < Load(rows, candidates[k]) { k := n; }
    }
  }

  // -- deleted complaints ------------------------------------------------------

  /** The open complaints an officer really has. */
  function LiveLoad(rows: seq<Complaint>, officer: UserId): nat {
    if rows == [] then 0
    else
      var last := rows[|rows| - 1];
      LiveLoad(rows[..|rows| - 1], officer) + Bit(Burdens(last, officer) && last.deletedAt.None?)
  }

  /** The load that is compared is the real one if and only if none of the officer's open complaints is deleted. */
  lemma {:induction false} LoadIsLive(rows: seq<Complaint>, u: UserId)
    ensures LiveLoad(rows, u) <= Load(rows, u)
    ensures Load(rows, u) == LiveLoad(rows, u) <==>
      forall i :: 0 <= i < |rows| && Burdens(rows[i], u) ==> rows[i].deletedAt.None?
  {
    if rows != [] {
      var n := |rows| - 1;
      LoadIsLive(rows[..n], u);
      assert (forall i :: 0 <= i < |rows| && Burdens(rows[i], u) ==> rows[i].deletedAt.None?) <==>
        (forall i :: 0 <= i < n && Burdens(rows[..n][i], u) ==> rows[..n][i].deletedAt.None?)
        && (Burdens(rows[n], u) ==> rows[n].deletedAt.None?);
    }
  }

  /** Where that holds of every candidate, the pick is the first of least real load. */
  lemma {:induction false} PickIsLiveMinimum(rows: seq<Complaint>, candidates: seq<UserId>) returns (k: nat)
    requires candidates != []
    requires forall i, j :: 0 <= i < |rows| && 0 <= j < |candidates| && Burdens(rows[i], candidates[j]) ==>
      rows[i].deletedAt.None?
    ensures k < |candidates| && candidates[k] == PickOfficer(rows, candidates)
    ensures forall j :: 0 <= j < |candidates| ==> LiveLoad(rows, candidates[k]) <= LiveLoad(rows, candidates[j])
    ensures forall j :: 0 <= j < k ==> LiveLoad(rows, candidates[k]) < LiveLoad(rows, candidates[j])
  {
    k := PickIsFirstMinimum(rows, candidates);
    forall j | 0 <= j < |candidates| ensures LiveLoad(rows, candidates[j]) == Load(rows, candidates[j]) {
      LoadIsLive(rows, candidates[j]);
    }
  }

  // -- loads under an update ---------------------------------------------------

  lemma {:induction false} LoadUpdate(rows: seq<Complaint>, id: Id, c: Complaint, u: UserId)
    requires id < |rows|
    ensures Load(rows[id := c], u) + Bit(Burdens(rows[id], u)) == Load(rows, u) + Bit(Burdens(c, u))
  {
    var n := |rows| - 1;
    if id == n {
      assert rows[id := c][..n] == rows[..n];
    } else {
      assert rows[id := c][..n] == rows[..n][id := c];
      LoadUpdate(rows[..n], id, c, u);
    }
  }

  /** A complaint auto-assignment is meant for: live, under review, and nobody's. */
  predicate Waiting(db: Db, id: Id) {
    Live(db, id) && db.rows[id].status == UNDER_REVIEW && db.rows[id].officer.None?
  }

  function AutoAssign(db: Db, officers: seq<Officer>, department: nat, id: Id, admin: UserId, now: Time): Db {
    Step(db, Assign(id, officers, department, Auto, Actor(admin, ADMIN), now)).0
  }

  /** It adds one to the load of the officer picked and to no other. */
  lemma AutoAssignLoads(db: Db, officers: seq<Officer>, department: nat, id: Id, admin: UserId, now: Time, u: UserId)
    requires Waiting(db, id) && Candidates(officers, department) != []
    ensures var after := AutoAssign(db, officers, department, id, admin, now);
      var picked := PickOfficer(db.rows, Candidates(officers, department));
      Load(after.rows, u) == Load(db.rows, u) + Bit(u == picked)
      && |after.rows| == |db.rows| && after.rows[id].officer == Some(picked)
      && forall j :: 0 <= j < |db.rows| && j != id ==> after.rows[j] == db.rows[j]
  {
    var picked := PickOfficer(db.rows, Candidates(officers, department));
    var c := db.rows[id];
    LoadUpdate(db.rows, id, Assigned(c, c.status, picked, true, Actor(admin, ADMIN), now), u);
  }

  // -- spread ----------------------------------------------------------------

  ghost predicate SpreadAtMost(rows: seq<Complaint>, candidates: seq<UserId>, d: int) {
    forall i, j :: 0 <= i < |candidates| && 0 <= j < |candidates| ==>
      Load(rows, candidates[i]) - Load(rows, candidates[j]) <= d
  }

  /** Auto-assigning a waiting complaint never raises the load spread above the larger of its old value and one. */
  lemma AutoAssignSpread(db: Db, officers: seq<Officer>, department: nat, id: Id, admin: UserId, now: Time, d: int)
    requires Waiting(db, id) && Candidates(officers, department) != []
    requires SpreadAtMost(db.rows, Candidates(officers, department), d)
    ensures SpreadAtMost(AutoAssign(db, officers, department, id, admin, now).rows, Candidates(officers, department),
                         if d < 1 then 1 else d)
  {
    var all := Candidates(officers, department);
    var k := PickIsFirstMinimum(db.rows, all);
    var after := AutoAssign(db, officers, department, id, admin, now);
    forall i, j | 0 <= i < |all| && 0 <= j < |all|
      ensures Load(after.rows, all[i]) - Load(after.rows, all[j]) <= if d < 1 then 1 else d
    {
      AutoAssignLoads(db, officers, department, id, admin, now, all[i]);
      AutoAssignLoads(db, officers, department, id, admin, now, all[j]);
    }
  }

  // -- many assignments ------------------------------------------------------

  function AutoAssignAll(db: Db, officers: seq<Officer>, department: nat, ids: seq<Id>, admin: UserId, now: Time): Db {
    if ids == [] then db
    else
      var n := |ids| - 1;
      AutoAssign(AutoAssignAll(db, officers, department, ids[..n], admin, now), officers, department, ids[n], admin, now)
  }

  function Loads(rows: seq<Complaint>, us: seq<UserId>): (loads: seq<nat>)
    ensures |loads| == |us| && forall i :: 0 <= i < |us| ==> loads[i] == Load(rows, us[i])
  {
    seq(|us|, i requires 0 <= i < |us| => Load(rows, us[i]))
  }

  function Total(loads: seq<nat>): nat {
    if loads == [] then 0 else Total(loads[..|loads| - 1]) + loads[|loads| - 1]
  }

  ghost predicate Distinct<T>(s: seq<T>) {
    forall i, j :: 0 <= i < j < |s| ==> s[i] != s[j]
  }

  /** Adding one at a single position adds one to the total. */
  lemma {:induction false} TotalStep(a: seq<nat>, b: seq<nat>, k: nat)
    requires |a| == |b| && k < |a| && forall i :: 0 <= i < |a| ==> b[i] == a[i] + Bit(i == k)
    ensures Total(b) == Total(a) + 1
  {
    var n := |a| - 1;
    if k == n {
      assert a[..n] == b[..n];
    } else {
      TotalStep(a[..n], b[..n], k);
    }
  }

  lemma OneMore(db: Db, officers: seq<Officer>, department: nat, id: Id, admin: UserId, now: Time)
    requires Waiting(db, id)
    requires Candidates(officers, department) != [] && Distinct(Candidates(officers, department))
    requires SpreadAtMost(db.rows, Candidates(officers, department), 1)
    ensures var all := Candidates(officers, department);
      var after := AutoAssign(db, officers, department, id, admin, now);
      && SpreadAtMost(after.rows, all, 1) && Total(Loads(after.rows, all)) == Total(Loads(db.rows, all)) + 1
      && |after.rows| == |db.rows| && forall j :: 0 <= j < |db.rows| && j != id ==> after.rows[j] == db.rows[j]
  {
    var all := Candidates(officers, department);
    AutoAssignSpread(db, officers, department, id, admin, now, 1);
    var k := PickIsFirstMinimum(db.rows, all);
    var after := AutoAssign(db, officers, department, id, admin, now);
    forall i | 0 <= i < |all| ensures Load(after.rows, all[i]) == Load(db.rows, all[i]) + Bit(i == k) {
      AutoAssignLoads(db, officers, department, id, admin, now, all[i]);
    }
    AutoAssignLoads(db, officers, department, id, admin, now, all[k]);
    TotalStep(Loads(db.rows, all), Loads(after.rows, all), k);
  }

  /** One round after another, each over a table the earlier rounds left balanced. */
  lemma {:induction false} AutoAssignAllTotals(db: Db, officers: seq<Officer>, department: nat, ids: seq<Id>, admin: UserId, now: Time)
    requires Distinct(ids) && forall k :: 0 <= k < |ids| ==> Waiting(db, ids[k])
    requires Candidates(officers, department) != [] && Distinct(Candidates(officers, department))
    requires forall u :: u in Candidates(officers, department) ==> Load(db.rows, u) == 0
    ensures var all := Candidates(officers, department);
      var after := AutoAssignAll(db, officers, department, ids, admin, now);
      && |after.rows| == |db.rows|
      && (forall j :: 0 <= j < |db.rows| && j !in ids ==> after.rows[j] == db.rows[j])
      && SpreadAtMost(after.rows, all, 1) && Total(Loads(after.rows, all)) == |ids|
  {
    if ids == [] {
      ZeroTotal(Loads(db.rows, Candidates(officers, department)));
    } else {
      var n := |ids| - 1;
      var mid := AutoAssignAll(db, officers, department, ids[..n], admin, now);
      AutoAssignAllTotals(db, officers, department, ids[..n], admin, now);
      assert ids[n] !in ids[..n] && mid.rows[ids[n]] == db.rows[ids[n]];
      OneMore(mid, officers, department, ids[n], admin, now);
    }
  }

  lemma {:induction false} ZeroTotal(loads: seq<nat>)
    requires forall i :: 0 <= i < |loads| ==> loads[i] == 0
    ensures Total(loads) == 0
  {
    if loads != [] { ZeroTotal(loads[..|loads| - 1]); }
  }

  /** How many loads are not `low`. */
  function Above(loads: seq<nat>, low: nat): nat {
    if loads == [] then 0 else Above(loads[..|loads| - 1], low) + Bit(loads[|loads| - 1] != low)
  }

  lemma {:induction false} TotalIs(loads: seq<nat>, low: nat)
    requires forall i :: 0 <= i < |loads| ==> low <= loads[i] <= low + 1
    ensures Total(loads) == low * |loads| + Above(loads, low)
  {
    if loads != [] {
      var n := |loads| - 1;
      TotalIs(loads[..n], low);
      assert low * (n + 1) == low * n + low;
    }
  }

  /** Not all loads are above `low` if one is not, and some are if one is. */
  lemma {:induction false} AboveBounds(loads: seq<nat>, low: nat, i: nat)
    requires i < |loads|
    ensures Bit(loads[i] != low) <= Above(loads, low) < |loads| + Bit(loads[i] != low)
  {
    var n := |loads| - 1;
    if i < n {
      AboveBounds(loads[..n], low, i);
    } else {
      AboveAtMost(loads[..n], low);
    }
  }

  lemma {:induction false} AboveAtMost(loads: seq<nat>, low: nat)
    ensures Above(loads, low) <= |loads|
  {
    if loads != [] { AboveAtMost(loads[..|loads| - 1], low); }
  }

  lemma RoundedQuotient(share: nat, total: nat, k: nat, low: nat)
    requires k > 0 && low * k <= total < (low + 1) * k
    requires share == low || (share == low + 1 && low * k < total)
    ensures share == total / k || share == (total + k - 1) / k
  {
    if share == low {
      QuotientUnique(total, k, low);
    } else {
      QuotientUnique(total + k - 1, k, low + 1);
    }
  }

  lemma MultiplyMonotone(a: nat, b: nat, k: nat)
    requires a <= b
    ensures a * k <= b * k
  {
  }

  lemma QuotientUnique(a: nat, k: nat, q: nat)
    requires k > 0 && q * k <= a < (q + 1) * k
    ensures a / k == q
  {
    var p := a / k;
    assert p * k <= a < (p + 1) * k;
    if p < q {
      MultiplyMonotone(p + 1, q, k);
    } else if q < p {
      MultiplyMonotone(q + 1, p, k);
    }
  }

  /** Loads no more than one apart are each their total's quotient, rounded down or up. */
  lemma EvenShare(loads: seq<nat>, m: nat, i: nat)
    requires m < |loads| && i < |loads|
    requires forall j :: 0 <= j < |loads| ==> loads[m] <= loads[j] <= loads[m] + 1
    ensures loads[i] == Total(loads) / |loads| || loads[i] == (Total(loads) + |loads| - 1) / |loads|
  {
    TotalIs(loads, loads[m]);
    AboveBounds(loads, loads[m], m);
    AboveBounds(loads, loads[m], i);
    assert (loads[m] + 1) * |loads| == loads[m] * |loads| + |loads|;
    RoundedQuotient(loads[i], Total(loads), |loads|, loads[m]);
  }

  /** From zero loads, n auto-assignments over k officers leave every load at n/k rounded down or up. */
  lemma {:induction false} FairShare(db: Db, officers: seq<Officer>, department: nat, ids: seq<Id>, admin: UserId, now: Time, u: UserId)
    requires Distinct(ids) && forall i :: 0 <= i < |ids| ==> Waiting(db, ids[i])
    requires Distinct(Candidates(officers, department)) && u in Candidates(officers, department)
    requires forall v :: v in Candidates(officers, department) ==> Load(db.rows, v) == 0
    ensures var after := AutoAssignAll(db, officers, department, ids, admin, now);
      var k := |Candidates(officers, department)|;
      Load(after.rows, u) == |ids| / k || Load(after.rows, u) == (|ids| + k - 1) / k
  {
    var all := Candidates(officers, department);
    AutoAssignAllTotals(db, officers, department, ids, admin, now);
    BalancedShare(AutoAssignAll(db, officers, department, ids, admin, now).rows, all, |ids|, u);
  }

  lemma BalancedShare(rows: seq<Complaint>, all: seq<UserId>, n: nat, u: UserId)
    requires u in all && SpreadAtMost(rows, all, 1) && Total(Loads(rows, all)) == n
    ensures Load(rows, u) == n / |all| || Load(rows, u) == (n + |all| - 1) / |all|
  {
    var m := PickIsFirstMinimum(rows, all);
    var i :| 0 <= i < |all| && all[i] == u;
    assert forall j :: 0 <= j < |all| ==> Load(rows, all[j]) - Load(rows, all[m]) <= 1;
    EvenShare(Loads(rows, all), m, i);
  }
}
