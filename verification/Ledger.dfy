/**
 The books over the payment table: totals per status and the fold by service type.

 `books` are the payments inside the caller's filter.
 */
module Ledger {
  import opened Base
  import opened Payments
  import opened PaymentRuns
  import opened PaymentTrace

  datatype Total = Total(count: nat, amount: int)

  const ZERO := Total(0, 0)

  /** `whole` is `a` and `b` together, in count and in amount. */
  predicate AddsUp(whole: Total, a: Total, b: Total) {
    whole.count == a.count + b.count && whole.amount == a.amount + b.amount
  }

  /** What a query adds up: everything, one status, or the SUCCESS payments of some requests. */
  datatype Selector =
    | Everything
    | OfStatus(status: PaymentStatus)
    | OfRequest(request: RequestId)
    | OfType(serviceType: TypeId, typeOf: map<RequestId, TypeId>)
    | OfTypeIn(serviceType: TypeId, typeOf: map<RequestId, TypeId>, among: set<RequestId>)
    | ResolvedIn(typeOf: map<RequestId, TypeId>, among: set<RequestId>)
    | Resolved(typeOf: map<RequestId, TypeId>)

  predicate Selects(sel: Selector, p: Payment) {
    match sel
    case Everything => true
    case OfStatus(s) => p.status == s
    case OfRequest(r) => p.status == SUCCESS && p.request == r
    case OfType(ty, typeOf) => p.status == SUCCESS && p.request in typeOf && typeOf[p.request] == ty
    case OfTypeIn(ty, typeOf, among) =>
      p.status == SUCCESS && p.request in typeOf && typeOf[p.request] == ty && p.request in among
    case ResolvedIn(typeOf, among) => p.status == SUCCESS && p.request in typeOf && p.request in among
    case Resolved(typeOf) => p.status == SUCCESS && p.request in typeOf
  }

  function Tally(books: seq<Payment>, sel: Selector): nat {
    if books == [] then 0
    else Tally(books[..|books| - 1], sel) + (if Selects(sel, books[|books| - 1]) then 1 else 0)
  }

  function Amount(books: seq<Payment>, sel: Selector): int {
    if books == [] then 0
    else
      Amount(books[..|books| - 1], sel) + (if Selects(sel, books[|books| - 1]) then books[|books| - 1].amount else 0)
  }

  /** COUNT and SUM over the books a selector picks. */
  function TotalOf(books: seq<Payment>, sel: Selector): Total {
    Total(Tally(books, sel), Amount(books, sel))
  }

  // -- per status ------------------------------------------------------------

  /** The five per-status totals partition the filtered books, in count and in amount. */
  lemma {:induction false} StatusesPartition(books: seq<Payment>)
    ensures Tally(books, OfStatus(SUCCESS)) + Tally(books, OfStatus(PENDING)) + Tally(books, OfStatus(FAILED))
            + Tally(books, OfStatus(PaymentStatus.CANCELLED)) + Tally(books, OfStatus(REFUNDED)) == |books|
    ensures Amount(books, OfStatus(SUCCESS)) + Amount(books, OfStatus(PENDING)) + Amount(books, OfStatus(FAILED))
            + Amount(books, OfStatus(PaymentStatus.CANCELLED)) + Amount(books, OfStatus(REFUNDED))
         == Amount(books, Everything)
  {
    if books != [] { StatusesPartition(books[..|books| - 1]); }
  }

  lemma {:induction false} StatusTotalIsSum(books: seq<Payment>, s: PaymentStatus)
    ensures Amount(books, OfStatus(s)) == Sum(books, s)
  {
    if books != [] { StatusTotalIsSum(books[..|books| - 1], s); }
  }

  /**
   After any run of an honest gateway the all-time SUCCESS total is what the gateway
   said it took in less the refunds it accepted, and the REFUNDED total is the latter.
   */
  lemma {:induction false} SuccessTotalIsMoneyHeld(events: seq<Event>)
    requires HonestRun(EMPTY, events)
    ensures var books := Run(EMPTY, events).payments;
      TotalOf(books, OfStatus(SUCCESS)).amount == TakenIn(events) - GivenBack(events)
      && TotalOf(books, OfStatus(REFUNDED)).amount == GivenBack(events)
  {
    EveryRun(events);
    ReceivedIsTakenIn(events);
    ReturnedIsGivenBack(events);
    StatusTotalIsSum(Run(EMPTY, events).payments, SUCCESS);
    StatusTotalIsSum(Run(EMPTY, events).payments, REFUNDED);
  }

  /** The summary's `net`: the SUCCESS total less the REFUNDED one. */
  function Net(books: seq<Payment>): int {
    TotalOf(books, OfStatus(SUCCESS)).amount - TotalOf(books, OfStatus(REFUNDED)).amount
  }

  lemma {:induction false} NothingRefunded(books: seq<Payment>)
    requires forall i :: 0 <= i < |books| ==> books[i].amount > 0
    ensures Sum(books, REFUNDED) >= 0
    ensures Sum(books, REFUNDED) == 0 <==> forall i :: 0 <= i < |books| ==> books[i].status != REFUNDED
  {
    if books != [] {
      var n := |books| - 1;
      NothingRefunded(books[..n]);
      assert (forall i :: 0 <= i < |books| ==> books[i].status != REFUNDED) <==>
        (forall i :: 0 <= i < n ==> books[..n][i].status != REFUNDED) && books[n].status != REFUNDED;
    }
  }

  /**
   A refunded payment has left the SUCCESS total already, and `net` takes it off
   once more: it falls short of the money held by what was returned, and is that
   money if and only if no payment is refunded.
   */
  lemma {:induction false} NetIsMoneyHeld(events: seq<Event>)
    requires HonestRun(EMPTY, events)
    ensures var books, held := Run(EMPTY, events).payments, TakenIn(events) - GivenBack(events);
      && Net(books) == held - GivenBack(events)
      && (Net(books) == held <==> forall i :: 0 <= i < |books| ==> books[i].status != REFUNDED)
  {
    var db := Run(EMPTY, events);
    EveryRun(events);
    SuccessTotalIsMoneyHeld(events);
    ReturnedIsGivenBack(events);
    forall i | 0 <= i < |db.payments| ensures db.payments[i].amount > 0 {
      assert PaymentOk(db.payments[i], |db.requests|);
    }
    NothingRefunded(db.payments);
  }

  ghost predicate NothingHeld(events: seq<Event>) {
    HonestRun(EMPTY, events) && TakenIn(events) == GivenBack(events)
  }

  /** One payment taken and given back: nothing is held, and `net` is a debt. */
  lemma {:induction false} NetFails()
    ensures exists events :: NothingHeld(events) && Net(Run(EMPTY, events).payments) < 0
  {
    var paid := PaidRun();
    var rest := RefundRun(paid);
    var events := paid + rest;
    NetIsMoneyHeld(events);
    ReceivedIsTakenIn(events);
    ReturnedIsGivenBack(events);
    assert Refunded(Run(EMPTY, events));
    assert NothingHeld(events);
  }

  // -- per service type ------------------------------------------------------

  /** One row of the grouped query. */
  datatype Group = Group(request: RequestId, total: Total)

  /**
   One group for each request with a SUCCESS payment in the books, carrying that
   request's total; no group is empty.
   */
  ghost predicate IsGrouping(books: seq<Payment>, groups: seq<Group>) {
    && (forall i, j :: 0 <= i < j < |groups| ==> groups[i].request != groups[j].request)
    && (forall i :: 0 <= i < |groups| ==> groups[i].total == TotalOf(books, OfRequest(groups[i].request)))
    && (forall i :: 0 <= i < |groups| ==> groups[i].total.count > 0)
    && (forall k :: 0 <= k < |books| && books[k].status == SUCCESS ==> books[k].request in Requests(groups))
  }

  ghost function Requests(groups: seq<Group>): set<RequestId> {
    set i | 0 <= i < |groups| :: groups[i].request
  }

  lemma {:induction false} TotalCongruence(books: seq<Payment>, f: Selector, g: Selector)
    requires forall k :: 0 <= k < |books| ==> (Selects(f, books[k]) <==> Selects(g, books[k]))
    ensures TotalOf(books, f) == TotalOf(books, g)
  {
    if books != [] { TotalCongruence(books[..|books| - 1], f, g); }
  }

  /** A selector that is the disjoint union of two others adds up to the two together. */
  lemma {:induction false} TotalSplit(books: seq<Payment>, f: Selector, g: Selector, h: Selector)
    requires forall k :: 0 <= k < |books| ==> (Selects(f, books[k]) <==> Selects(g, books[k]) || Selects(h, books[k]))
    requires forall k :: 0 <= k < |books| ==> !(Selects(g, books[k]) && Selects(h, books[k]))
    ensures AddsUp(TotalOf(books, f), TotalOf(books, g), TotalOf(books, h))
  {
    if books != [] { TotalSplit(books[..|books| - 1], f, g, h); }
  }

  lemma {:induction false} TotalNone(books: seq<Payment>, f: Selector)
    requires forall k :: 0 <= k < |books| ==> !Selects(f, books[k])
    ensures TotalOf(books, f) == ZERO
  {
    if books != [] { TotalNone(books[..|books| - 1], f); }
  }

  /** The entry of one group for a service type. */
  function Entry(g: Group, typeOf: map<RequestId, TypeId>, ty: TypeId): Total {
    if g.request in typeOf && typeOf[g.request] == ty then g.total else ZERO
  }

  lemma RequestsStep(groups: seq<Group>, k: nat)
    requires k < |groups|
    requires forall i, j :: 0 <= i < j < |groups| ==> groups[i].request != groups[j].request
    ensures Requests(groups[..k + 1]) == Requests(groups[..k]) + {groups[k].request}
    ensures groups[k].request !in Requests(groups[..k])
  {
    var a, b := groups[..k + 1], groups[..k];
    forall r | r in Requests(a) ensures r in Requests(b) + {groups[k].request} {
      var i :| 0 <= i < |a| && a[i].request == r;
      if i < k { assert b[i].request == r; }
    }
    forall r | r in Requests(b) + {groups[k].request} ensures r in Requests(a) {
      if r in Requests(b) {
        var i :| 0 <= i < |b| && b[i].request == r;
        assert a[i].request == r;
      } else {
        assert a[k].request == r;
      }
    }
  }

  /** Taking in one more request's group adds its total to its own type, and to the resolved whole. */
  lemma GroupStep(books: seq<Payment>, seen: set<RequestId>, row: Group, typeOf: map<RequestId, TypeId>, ty: TypeId)
    requires row.request !in seen && row.total == TotalOf(books, OfRequest(row.request))
    ensures AddsUp(TotalOf(books, OfTypeIn(ty, typeOf, seen + {row.request})),
                   TotalOf(books, OfTypeIn(ty, typeOf, seen)), Entry(row, typeOf, ty))
    ensures AddsUp(TotalOf(books, ResolvedIn(typeOf, seen + {row.request})),
                   TotalOf(books, ResolvedIn(typeOf, seen)), if row.request in typeOf then row.total else ZERO)
  {
    var r := row.request;
    TotalSplit(books, OfTypeIn(ty, typeOf, seen + {r}), OfTypeIn(ty, typeOf, seen), OfTypeIn(ty, typeOf, {r}));
    TotalSplit(books, ResolvedIn(typeOf, seen + {r}), ResolvedIn(typeOf, seen), ResolvedIn(typeOf, {r}));
    if r in typeOf {
      TotalCongruence(books, ResolvedIn(typeOf, {r}), OfRequest(r));
      if typeOf[r] == ty {
        TotalCongruence(books, OfTypeIn(ty, typeOf, {r}), OfRequest(r));
      } else {
        TotalNone(books, OfTypeIn(ty, typeOf, {r}));
      }
    } else {
      TotalNone(books, ResolvedIn(typeOf, {r}));
      TotalNone(books, OfTypeIn(ty, typeOf, {r}));
    }
  }

  /** The entries of the insertion-ordered map, added up. */
  function SumEntries(order: seq<TypeId>, perType: map<TypeId, Total>): Total
    requires forall i :: 0 <= i < |order| ==> order[i] in perType
  {
    if order == [] then ZERO
    else
      var rest, last := SumEntries(order[..|order| - 1], perType), perType[order[|order| - 1]];
      Total(rest.count + last.count, rest.amount + last.amount)
  }

  lemma {:induction false} SumEntriesUpdate(order: seq<TypeId>, perType: map<TypeId, Total>, ty: TypeId, add: Total, entry: Total)
    requires forall i :: 0 <= i < |order| ==> order[i] in perType
    requires forall i, j :: 0 <= i < j < |order| ==> order[i] != order[j]
    requires AddsUp(entry, At(perType, ty), add)
    ensures AddsUp(SumEntries(order, perType[ty := entry]), SumEntries(order, perType), if ty in order then add else ZERO)
  {
    if order != [] {
      var n := |order| - 1;
      SumEntriesUpdate(order[..n], perType, ty, add, entry);
      assert order == order[..n] + [order[n]];
    }
  }

  /** The map after the groups of some requests: an exact entry for each type they touch, in insertion order. */
  ghost predicate Folded(books: seq<Payment>, typeOf: map<RequestId, TypeId>, among: set<RequestId>,
                         order: seq<TypeId>, perType: map<TypeId, Total>) {
    && (forall i, j :: 0 <= i < j < |order| ==> order[i] != order[j])
    && (forall i :: 0 <= i < |order| ==> order[i] in perType)
    && (forall ty :: ty in perType ==> ty in order)
    && (forall ty :: TotalOf(books, OfTypeIn(ty, typeOf, among)) == At(perType, ty))
    && SumEntries(order, perType) == TotalOf(books, ResolvedIn(typeOf, among))
  }

  lemma FoldStart(books: seq<Payment>, typeOf: map<RequestId, TypeId>)
    ensures Folded(books, typeOf, {}, [], map[])
  {
    TotalNone(books, ResolvedIn(typeOf, {}));
    forall ty ensures TotalOf(books, OfTypeIn(ty, typeOf, {})) == ZERO { TotalNone(books, OfTypeIn(ty, typeOf, {})); }
  }

  /** One entry has had a total added to it, starting from nothing if it was not there. */
  predicate IsUpdate(perType: map<TypeId, Total>, updated: map<TypeId, Total>, ty: TypeId, add: Total) {
    && ty in updated && updated == perType[ty := updated[ty]]
    && AddsUp(updated[ty], At(perType, ty), add)
  }

  function At(perType: map<TypeId, Total>, ty: TypeId): Total {
    if ty in perType then perType[ty] else ZERO
  }

  lemma SameSum(v: Total, w: Total, a: Total, b: Total)
    requires AddsUp(v, a, b) && AddsUp(w, a, b)
    ensures v == w
  {
  }

  /** A group whose request does not resolve changes no total. */
  lemma SkippedGroup(books: seq<Payment>, seen: set<RequestId>, row: Group, typeOf: map<RequestId, TypeId>, ty: TypeId)
    requires row.request !in seen && row.total == TotalOf(books, OfRequest(row.request)) && row.request !in typeOf
    ensures TotalOf(books, OfTypeIn(ty, typeOf, seen + {row.request})) == TotalOf(books, OfTypeIn(ty, typeOf, seen))
    ensures TotalOf(books, ResolvedIn(typeOf, seen + {row.request})) == TotalOf(books, ResolvedIn(typeOf, seen))
  {
    GroupStep(books, seen, row, typeOf, ty);

  }

  lemma FoldSkip(books: seq<Payment>, seen: set<RequestId>, row: Group, typeOf: map<RequestId, TypeId>,
                 order: seq<TypeId>, perType: map<TypeId, Total>)
    requires row.request !in seen && row.total == TotalOf(books, OfRequest(row.request)) && row.request !in typeOf
    requires Folded(books, typeOf, seen, order, perType)
    ensures Folded(books, typeOf, seen + {row.request}, order, perType)
  {
    forall ty ensures TotalOf(books, OfTypeIn(ty, typeOf, seen + {row.request}))
                   == At(perType, ty) {
      SkippedGroup(books, seen, row, typeOf, ty);
    }
    SkippedGroup(books, seen, row, typeOf, 0);
  }

  lemma GroupOfType(books: seq<Payment>, seen: set<RequestId>, row: Group, typeOf: map<RequestId, TypeId>, u: TypeId)
    requires row.request !in seen && row.total == TotalOf(books, OfRequest(row.request)) && row.request in typeOf
    ensures AddsUp(TotalOf(books, OfTypeIn(u, typeOf, seen + {row.request})),
                   TotalOf(books, OfTypeIn(u, typeOf, seen)), if u == typeOf[row.request] then row.total else ZERO)
    ensures AddsUp(TotalOf(books, ResolvedIn(typeOf, seen + {row.request})),
                   TotalOf(books, ResolvedIn(typeOf, seen)), row.total)
  {
    GroupStep(books, seen, row, typeOf, u);
  }

  lemma FoldEntry(books: seq<Payment>, seen: set<RequestId>, row: Group, typeOf: map<RequestId, TypeId>,
                  perType: map<TypeId, Total>, updated: map<TypeId, Total>, u: TypeId)
    requires row.request !in seen && row.total == TotalOf(books, OfRequest(row.request)) && row.request in typeOf
    requires TotalOf(books, OfTypeIn(u, typeOf, seen)) == At(perType, u)
    requires IsUpdate(perType, updated, typeOf[row.request], row.total)
    ensures TotalOf(books, OfTypeIn(u, typeOf, seen + {row.request})) == At(updated, u)
  {
    GroupOfType(books, seen, row, typeOf, u);
  }

  lemma FoldWhole(books: seq<Payment>, seen: set<RequestId>, row: Group, typeOf: map<RequestId, TypeId>,
                  before: Total, after: Total)
    requires row.request !in seen && row.total == TotalOf(books, OfRequest(row.request)) && row.request in typeOf
    requires before == TotalOf(books, ResolvedIn(typeOf, seen)) && AddsUp(after, before, row.total)
    ensures after == TotalOf(books, ResolvedIn(typeOf, seen + {row.request}))
  {
    GroupOfType(books, seen, row, typeOf, 0);
    SameSum(after, TotalOf(books, ResolvedIn(typeOf, seen + {row.request})), before, row.total);
  }

  lemma FoldAddEntries(books: seq<Payment>, seen: set<RequestId>, row: Group, typeOf: map<RequestId, TypeId>,
            order: seq<TypeId>, perType: map<TypeId, Total>, grown: seq<TypeId>, updated: map<TypeId, Total>)
    requires row.request !in seen && row.total == TotalOf(books, OfRequest(row.request)) && row.request in typeOf
    requires Folded(books, typeOf, seen, order, perType)
    requires IsUpdate(perType, updated, typeOf[row.request], row.total)
    requires grown == if typeOf[row.request] in perType then order else order + [typeOf[row.request]]
    ensures forall u :: TotalOf(books, OfTypeIn(u, typeOf, seen + {row.request})) == At(updated, u)
  {
    forall u ensures TotalOf(books, OfTypeIn(u, typeOf, seen + {row.request})) == At(updated, u) {
      FoldEntry(books, seen, row, typeOf, perType, updated, u);
    }
  }

  lemma FoldAddWhole(books: seq<Payment>, seen: set<RequestId>, row: Group, typeOf: map<RequestId, TypeId>,
            order: seq<TypeId>, perType: map<TypeId, Total>, grown: seq<TypeId>, updated: map<TypeId, Total>)
    requires row.request !in seen && row.total == TotalOf(books, OfRequest(row.request)) && row.request in typeOf
    requires Folded(books, typeOf, seen, order, perType)
    requires IsUpdate(perType, updated, typeOf[row.request], row.total)
    requires grown == if typeOf[row.request] in perType then order else order + [typeOf[row.request]]
    ensures forall i :: 0 <= i < |grown| ==> grown[i] in updated
    ensures SumEntries(grown, updated) == TotalOf(books, ResolvedIn(typeOf, seen + {row.request}))
  {
    SumGrows(order, perType, grown, updated, typeOf[row.request], row.total);
    FoldWhole(books, seen, row, typeOf, SumEntries(order, perType), SumEntries(grown, updated));
  }

  lemma FoldAddOrder(order: seq<TypeId>, perType: map<TypeId, Total>, grown: seq<TypeId>, updated: map<TypeId, Total>,
                     ty: TypeId, add: Total)
    requires forall i, j :: 0 <= i < j < |order| ==> order[i] != order[j]
    requires forall i :: 0 <= i < |order| ==> order[i] in perType
    requires forall u :: u in perType ==> u in order
    requires IsUpdate(perType, updated, ty, add) && grown == if ty in perType then order else order + [ty]
    ensures forall i, j :: 0 <= i < j < |grown| ==> grown[i] != grown[j]
    ensures forall u :: u in updated ==> u in grown
  {
    if ty !in perType { assert ty !in order; }
  }

  lemma FoldAdd(books: seq<Payment>, seen: set<RequestId>, row: Group, typeOf: map<RequestId, TypeId>,
            order: seq<TypeId>, perType: map<TypeId, Total>, grown: seq<TypeId>, updated: map<TypeId, Total>)
    requires row.request !in seen && row.total == TotalOf(books, OfRequest(row.request)) && row.request in typeOf
    requires Folded(books, typeOf, seen, order, perType)
    requires IsUpdate(perType, updated, typeOf[row.request], row.total)
    requires grown == if typeOf[row.request] in perType then order else order + [typeOf[row.request]]
    ensures Folded(books, typeOf, seen + {row.request}, grown, updated)
  {
    FoldAddOrder(order, perType, grown, updated, typeOf[row.request], row.total);
    FoldAddWhole(books, seen, row, typeOf, order, perType, grown, updated);
    FoldAddEntries(books, seen, row, typeOf, order, perType, grown, updated);
  }

  lemma SumGrows(order: seq<TypeId>, perType: map<TypeId, Total>, grown: seq<TypeId>, updated: map<TypeId, Total>,
                 ty: TypeId, add: Total)
    requires forall i :: 0 <= i < |order| ==> order[i] in perType
    requires forall i, j :: 0 <= i < j < |order| ==> order[i] != order[j]
    requires forall u :: u in perType ==> u in order
    requires IsUpdate(perType, updated, ty, add) && grown == if ty in perType then order else order + [ty]
    ensures forall i :: 0 <= i < |grown| ==> grown[i] in updated
    ensures AddsUp(SumEntries(grown, updated), SumEntries(order, perType), add)
  {
    SumEntriesUpdate(order, perType, ty, add, updated[ty]);
    if ty in perType {
      assert ty in order;
    } else {
      SumEntriesAppend(order, ty, updated);
      assert ty !in order;
    }
  }

  lemma SumEntriesAppend(order: seq<TypeId>, ty: TypeId, perType: map<TypeId, Total>)
    requires ty in perType && forall i :: 0 <= i < |order| ==> order[i] in perType
    ensures forall i :: 0 <= i < |order + [ty]| ==> (order + [ty])[i] in perType
    ensures AddsUp(SumEntries(order + [ty], perType), SumEntries(order, perType), perType[ty])
  {
    assert (order + [ty])[..|order|] == order;
  }

  lemma FoldEnd(books: seq<Payment>, groups: seq<Group>, typeOf: map<RequestId, TypeId>,
                order: seq<TypeId>, perType: map<TypeId, Total>)
    requires IsGrouping(books, groups) && Folded(books, typeOf, Requests(groups), order, perType)
    ensures forall ty :: TotalOf(books, OfType(ty, typeOf)) == At(perType, ty)
    ensures SumEntries(order, perType) == TotalOf(books, Resolved(typeOf))
  {
    TotalCongruence(books, ResolvedIn(typeOf, Requests(groups)), Resolved(typeOf));
    forall ty ensures TotalOf(books, OfType(ty, typeOf)) == TotalOf(books, OfTypeIn(ty, typeOf, Requests(groups))) {
      TotalCongruence(books, OfType(ty, typeOf), OfTypeIn(ty, typeOf, Requests(groups)));
    }
  }

  /**
   The loop of the summary: grouped rows folded into a map by service type.  The
   types with an entry are those with a SUCCESS payment, each entry is the direct
   count and sum over them, and the entries add up to the resolved payments.
   */
  method ByServiceType(ghost books: seq<Payment>, groups: seq<Group>, typeOf: map<RequestId, TypeId>)
    returns (order: seq<TypeId>, perType: map<TypeId, Total>)
    requires IsGrouping(books, groups)
    ensures forall i, j :: 0 <= i < j < |order| ==> order[i] != order[j]
    ensures forall i :: 0 <= i < |order| ==> order[i] in perType
    ensures forall ty :: ty in perType ==> ty in order
    ensures forall ty :: ty in perType <==> TotalOf(books, OfType(ty, typeOf)).count > 0
    ensures forall ty :: TotalOf(books, OfType(ty, typeOf)) == At(perType, ty)
    ensures SumEntries(order, perType) == TotalOf(books, Resolved(typeOf))
  {
    order, perType := [], map[];
    assert Requests(groups[..0]) == {};
    FoldStart(books, typeOf);
    for k := 0 to |groups|
      invariant Folded(books, typeOf, Requests(groups[..k]), order, perType)
      invariant forall ty :: ty in perType ==> perType[ty].count > 0
    {
      var row := groups[k];
      RequestsStep(groups, k);
      if row.request !in typeOf {
        FoldSkip(books, Requests(groups[..k]), row, typeOf, order, perType);
        continue;
      }
      var ty := typeOf[row.request];
      var entry := if ty in perType then perType[ty] else ZERO;
      entry := entry.(count := entry.count + row.total.count);
      entry := entry.(amount := entry.amount + row.total.amount);
      ghost var before, seen := perType, order;
      if ty !in perType { order := order + [ty]; }
      perType := perType[ty := entry];
      assert perType == before[ty := perType[ty]];
      FoldAdd(books, Requests(groups[..k]), row, typeOf, seen, before, order, perType);
    }
    assert groups[..|groups|] == groups;
    FoldEnd(books, groups, typeOf, order, perType);
  }

  /** The entries add up to `collected` exactly when every collected payment's request resolves to a type. */
  lemma {:induction false} EntriesAddUpToCollected(books: seq<Payment>, typeOf: map<RequestId, TypeId>)
    requires forall k :: 0 <= k < |books| ==> books[k].amount > 0
    ensures TotalOf(books, Resolved(typeOf)).amount <= TotalOf(books, OfStatus(SUCCESS)).amount
    ensures TotalOf(books, Resolved(typeOf)) == TotalOf(books, OfStatus(SUCCESS))
      <==> forall k :: 0 <= k < |books| && books[k].status == SUCCESS ==> books[k].request in typeOf
  {
    if books != [] {
      var n := |books| - 1;
      EntriesAddUpToCollected(books[..n], typeOf);
      var all := forall k :: 0 <= k < |books| && books[k].status == SUCCESS ==> books[k].request in typeOf;
      var init := forall k :: 0 <= k < n && books[..n][k].status == SUCCESS ==> books[..n][k].request in typeOf;
      assert all <==> init && (books[n].status == SUCCESS ==> books[n].request in typeOf);
    }
  }
}
