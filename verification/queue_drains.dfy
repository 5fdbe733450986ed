/**
 The two drain loops over the offline table, run without interleaving: the flush of
 the sync engine with its ceiling, and the unbounded drain of the lock bridge.
 Both take whatever the claim query gives and deliver it; how a delivery ends is left
 to a courier, which may keep any state.
 */
module QueueDrains {
  import opened Wrappers
  import opened OfflineStore

  const FLUSH_CEILING: nat := 500

  /** What an attempt reports, and the courier's state after it. */
  datatype Reply<C> = Reply(ok: bool, error: string, next: C)

  /** A way of delivering claimed rows: the time in a state, and the outcome of an attempt. */
  datatype Courier<!C> = Courier(clock: C -> int, attempt: (C, Action) -> Reply<C>)

  datatype Pass<C> = Pass(table: Table, courier: C, log: seq<ActionId>)

  function Then<C>(first: Pass<C>, second: Pass<C>): Pass<C> {
    second.(log := first.log + second.log)
  }

  /** Claim row `i`, attempt it, mark it. */
  function Turn<C>(t: Table, i: ActionId, c: C, k: Courier<C>): (p: Pass<C>)
    requires i < |t|
    ensures |p.table| == |t| && p.log == [i]
    ensures forall j :: 0 <= j < |t| ==> SameIdentity(p.table[j], t[j]) && (j != i ==> p.table[j] == t[j])
    ensures p.table[i].status == Completed || (p.table[i].status == Failed && p.table[i].retryCount == t[i].retryCount + 1)
  {
    var claimed := AfterClaim(t, i, k.clock(c));
    var reply := k.attempt(c, claimed[i]);
    var now := k.clock(reply.next);
    Pass(if reply.ok then AfterComplete(claimed, i, now) else AfterFailure(claimed, i, reply.error, now), reply.next, [i])
  }

  predicate InRange(ids: seq<ActionId>, n: nat) {
    forall p :: 0 <= p < |ids| ==> ids[p] < n
  }

  /** The turns of `ids`, one after the other. */
  function Perform<C>(t: Table, ids: seq<ActionId>, c: C, k: Courier<C>): (p: Pass<C>)
    requires InRange(ids, |t|)
    ensures |p.table| == |t| && p.log == ids
    ensures forall j :: 0 <= j < |t| ==> SameIdentity(p.table[j], t[j])
  {
    if ids == [] then Pass(t, c, [])
    else
      var before := Perform(t, ids[..|ids| - 1], c, k);
      Then(before, Turn(before.table, ids[|ids| - 1], before.courier, k))
  }

  lemma ThenAssociates<C>(a: Pass<C>, b: Pass<C>, d: Pass<C>)
    ensures Then(Then(a, b), d) == Then(a, Then(b, d))
  {
    assert a.log + b.log + d.log == a.log + (b.log + d.log);
  }

  lemma ThenUnit<C>(t: Table, c: C, p: Pass<C>)
    ensures Then(Pass(t, c, []), p) == p
  {
    assert [] + p.log == p.log;
  }

  /** Each turn takes a row the claim query may return at that point. */
  ghost predicate Fair<C>(t: Table, ids: seq<ActionId>, c: C, k: Courier<C>)
    decreases |ids|
  {
    && InRange(ids, |t|)
    && (ids == [] || (
          && Fair(t, ids[..|ids| - 1], c, k)
          && IsNext(Perform(t, ids[..|ids| - 1], c, k).table, ids[|ids| - 1])))
  }

  lemma {:induction false} FairExtends<C>(t: Table, ids: seq<ActionId>, c: C, k: Courier<C>, i: ActionId)
    requires Fair(t, ids, c, k) && IsNext(Perform(t, ids, c, k).table, i)
    ensures Fair(t, ids + [i], c, k)
    ensures var done := Perform(t, ids, c, k);
            Perform(t, ids + [i], c, k) == Then(done, Turn(done.table, i, done.courier, k))
  {
    var more := ids + [i];
    assert more[..|more| - 1] == ids && more[|more| - 1] == i;
    assert InRange(more, |t|);
  }

  // ---------- the budget ----------

  /** How many more times a row can be claimed before it completes or gives up. */
  function Cost(a: Action): nat {
    if a.status == Pending then (if a.retryCount < MAX_RETRY_COUNT then MAX_RETRY_COUNT - a.retryCount else 1)
    else if a.status == Failed && a.retryCount < MAX_RETRY_COUNT then MAX_RETRY_COUNT - a.retryCount
    else 0
  }

  function Budget(t: Table): nat {
    if t == [] then 0 else Budget(t[..|t| - 1]) + Cost(t[|t| - 1])
  }

  lemma {:induction false} BudgetOfUpdate(t: Table, i: nat, a: Action)
    requires i < |t|
    ensures Budget(t[i := a]) + Cost(t[i]) == Budget(t) + Cost(a)
  {
    var n := |t| - 1;
    if i < n {
      BudgetOfUpdate(t[..n], i, a);
      assert t[i := a][..n] == t[..n][i := a];
    } else {
      assert t[i := a][..n] == t[..n];
    }
  }

  lemma {:induction false} BudgetBound(t: Table)
    ensures Budget(t) <= MAX_RETRY_COUNT * |t|
  {
    if t != [] {
      BudgetBound(t[..|t| - 1]);
    }
  }

  /** Every turn spends budget. */
  lemma {:induction false} TurnSpends<C>(t: Table, i: ActionId, c: C, k: Courier<C>)
    requires i < |t| && Claimable(t[i])
    ensures Budget(Turn(t, i, c, k).table) < Budget(t)
  {
    var t' := Turn(t, i, c, k).table;
    BudgetOfUpdate(t, i, t'[i]);
    assert t' == t[i := t'[i]];
  }

  /** A pass makes no more deliveries than the budget it starts with, hence at most eight per row. */
  lemma {:induction false} PassWithinBudget<C>(t: Table, ids: seq<ActionId>, c: C, k: Courier<C>)
    requires Fair(t, ids, c, k)
    ensures |ids| + Budget(Perform(t, ids, c, k).table) <= Budget(t)
    ensures |ids| <= MAX_RETRY_COUNT * |t|
  {
    if ids != [] {
      var init := ids[..|ids| - 1];
      var before := Perform(t, init, c, k);
      PassWithinBudget(t, init, c, k);
      TurnSpends(before.table, ids[|ids| - 1], before.courier, k);
    }
    BudgetBound(t);
  }

  // ---------- what a pass leaves of a row ----------

  /** PENDING or FAILED: not in flight and not delivered. */
  predicate Waiting(a: Action) {
    a.status == Pending || a.status == Failed
  }

  /** The attempt of a turn on row `i` ends well. */
  predicate Succeeds<C>(t: Table, i: ActionId, c: C, k: Courier<C>)
    requires i < |t|
  {
    k.attempt(c, AfterClaim(t, i, k.clock(c))[i]).ok
  }

  /** Some turn of the pass delivers row `i`: the last one, or one before it. */
  predicate Delivers<C>(t: Table, ids: seq<ActionId>, i: ActionId, c: C, k: Courier<C>)
    requires InRange(ids, |t|)
  {
    ids != [] &&
    var init, last := ids[..|ids| - 1], ids[|ids| - 1];
    var before := Perform(t, init, c, k);
    Delivers(t, init, i, c, k) || (last == i && Succeeds(before.table, i, before.courier, k))
  }

  /** How many turns row `i` gets. */
  function Turns(ids: seq<ActionId>, i: ActionId): nat {
    if ids == [] then 0 else Turns(ids[..|ids| - 1], i) + if ids[|ids| - 1] == i then 1 else 0
  }

  /** COMPLETED if and only if delivered, and otherwise waiting with every turn paid out of the budget. */
  predicate EndsAs(row: Action, delivered: bool, turns: nat, budget: nat) {
    && (row.status == Completed <==> delivered)
    && (row.status != Completed ==> Waiting(row) && turns + Cost(row) == budget)
    && turns <= budget
  }

  lemma TurnEndsAs<C>(t: Table, last: ActionId, c: C, k: Courier<C>, i: ActionId, delivered: bool, turns: nat, budget: nat)
    requires i < |t| && last < |t| && Claimable(t[last]) && EndsAs(t[i], delivered, turns, budget)
    ensures EndsAs(Turn(t, last, c, k).table[i], delivered || (last == i && Succeeds(t, i, c, k)),
                   turns + (if last == i then 1 else 0), budget)
  {
  }

  /** In any pass a waiting row ends COMPLETED if and only if some turn of the pass delivered it. */
  lemma {:induction false} PassOutcome<C>(t: Table, ids: seq<ActionId>, i: ActionId, c: C, k: Courier<C>)
    requires Fair(t, ids, c, k) && i < |t| && Waiting(t[i])
    ensures EndsAs(Perform(t, ids, c, k).table[i], Delivers(t, ids, i, c, k), Turns(ids, i), Cost(t[i]))
  {
    if ids != [] {
      var init, last := ids[..|ids| - 1], ids[|ids| - 1];
      var before := Perform(t, init, c, k);
      PassOutcome(t, init, i, c, k);
      TurnEndsAs(before.table, last, before.courier, k, i, Delivers(t, init, i, c, k), Turns(init, i), Cost(t[i]));
    }
  }

  /**
   A pass that leaves nothing claimable leaves nothing for a later one: a waiting row
   ends COMPLETED if some turn delivered it, and otherwise given up, all the attempts
   of its budget having been made in this one pass.
   */
  lemma {:induction false} CompletePassSettles<C>(t: Table, ids: seq<ActionId>, i: ActionId, c: C, k: Courier<C>)
    requires Fair(t, ids, c, k) && Drained(Perform(t, ids, c, k).table) && i < |t| && Waiting(t[i])
    ensures var row := Perform(t, ids, c, k).table[i];
            && (row.status == Completed <==> Delivers(t, ids, i, c, k))
            && (GivenUp(row) <==> !Delivers(t, ids, i, c, k))
            && (GivenUp(row) ==> Turns(ids, i) == Cost(t[i]))
  {
    PassOutcome(t, ids, i, c, k);
    assert !Claimable(Perform(t, ids, c, k).table[i]);
  }

  /** No attempt ever ends well: the broker cannot be reached, or every encoder is silent. */
  ghost predicate NeverSucceeds<C(!new)>(k: Courier<C>) {
    forall c: C, a: Action :: !k.attempt(c, a).ok
  }

  /** With nobody answering, one complete pass gives up on every waiting row, however fresh. */
  lemma {:induction false} UnansweredPassGivesUp<C(!new)>(t: Table, ids: seq<ActionId>, c: C, k: Courier<C>)
    requires Fair(t, ids, c, k) && Drained(Perform(t, ids, c, k).table) && NeverSucceeds(k)
    ensures forall i :: 0 <= i < |t| && Waiting(t[i]) ==>
              GivenUp(Perform(t, ids, c, k).table[i]) && Turns(ids, i) == Cost(t[i])
    ensures forall i :: 0 <= i < |t| && t[i].status == Pending && t[i].retryCount == 0 ==> Turns(ids, i) == 8
  {
    forall i | 0 <= i < |t| && Waiting(t[i])
      ensures GivenUp(Perform(t, ids, c, k).table[i]) && Turns(ids, i) == Cost(t[i])
    {
      NothingDelivered(t, ids, i, c, k);
      CompletePassSettles(t, ids, i, c, k);
    }
  }

  lemma {:induction false} NothingDelivered<C(!new)>(t: Table, ids: seq<ActionId>, i: ActionId, c: C, k: Courier<C>)
    requires InRange(ids, |t|) && NeverSucceeds(k)
    ensures !Delivers(t, ids, i, c, k)
  {
    if ids != [] {
      var init := ids[..|ids| - 1];
      var before := Perform(t, init, c, k);
      NothingDelivered(t, init, i, c, k);
      assert i < |t| ==> !Succeeds(before.table, i, before.courier, k);
    }
  }

  /** All waiting rows of a complete pass at once. */
  ghost predicate Settled<C>(t: Table, ids: seq<ActionId>, c: C, k: Courier<C>, after: Table)
    requires InRange(ids, |t|) && |after| == |t|
  {
    forall i :: 0 <= i < |t| && Waiting(t[i]) ==>
      if Delivers(t, ids, i, c, k) then after[i].status == Completed else GivenUp(after[i])
  }

  lemma {:induction false} CompletePassSettlesAll<C>(t: Table, ids: seq<ActionId>, c: C, k: Courier<C>)
    requires Fair(t, ids, c, k) && Drained(Perform(t, ids, c, k).table)
    ensures Settled(t, ids, c, k, Perform(t, ids, c, k).table)
  {
    forall i | 0 <= i < |t| && Waiting(t[i])
      ensures var after := Perform(t, ids, c, k).table;
              if Delivers(t, ids, i, c, k) then after[i].status == Completed else GivenUp(after[i])
    {
      CompletePassSettles(t, ids, i, c, k);
    }
  }

  /** A pass that stops before a claimable row has not made all the deliveries its budget allows. */
  lemma {:induction false} CutPassLeavesBudget<C>(t: Table, ids: seq<ActionId>, i: ActionId, c: C, k: Courier<C>)
    requires Fair(t, ids, c, k) && IsNext(Perform(t, ids, c, k).table, i)
    ensures |ids| < Budget(t)
  {
    PassWithinBudget(t, ids, c, k);
    BudgetOfClaimable(Perform(t, ids, c, k).table, i);
  }

  lemma {:induction false} BudgetOfClaimable(t: Table, i: ActionId)
    requires i < |t| && Claimable(t[i])
    ensures Budget(t) > 0
  {
    if i < |t| - 1 {
      BudgetOfClaimable(t[..|t| - 1], i);
    }
  }

  // ---------- the schedule ----------

  /** Every PENDING row of `order` once. */
  function FirstPass<C>(t: Table, order: seq<ActionId>, c: C, k: Courier<C>): (p: Pass<C>)
    requires InRange(order, |t|)
    ensures |p.table| == |t|
    decreases |order|
  {
    if order == [] then Pass(t, c, [])
    else if t[order[0]].status == Pending then
      var turn := Turn(t, order[0], c, k);
      Then(turn, FirstPass(turn.table, order[1..], turn.courier, k))
    else FirstPass(t, order[1..], c, k)
  }

  /** One row again and again until it completes or its budget is spent. */
  function Persist<C>(t: Table, i: ActionId, c: C, k: Courier<C>): (p: Pass<C>)
    requires i < |t|
    ensures |p.table| == |t|
    decreases Cost(t[i])
  {
    if !Claimable(t[i]) then Pass(t, c, [])
    else
      var turn := Turn(t, i, c, k);
      Then(turn, Persist(turn.table, i, turn.courier, k))
  }

  /** Every row of `order` in turn, each to its end. */
  function SecondPass<C>(t: Table, order: seq<ActionId>, c: C, k: Courier<C>): (p: Pass<C>)
    requires InRange(order, |t|)
    ensures |p.table| == |t|
    decreases |order|
  {
    if order == [] then Pass(t, c, [])
    else
      var first := Persist(t, order[0], c, k);
      Then(first, SecondPass(first.table, order[1..], first.courier, k))
  }

  /** PENDING rows once each, then FAILED rows to the end of their budget, both in creation order. */
  function Schedule<C>(t: Table, order: seq<ActionId>, c: C, k: Courier<C>): Pass<C>
    requires InRange(order, |t|)
  {
    var first := FirstPass(t, order, c, k);
    Then(first, SecondPass(first.table, order, first.courier, k))
  }

  /** All rows, oldest first, no two created in the same millisecond. */
  predicate IsCreationOrder(t: Table, order: seq<ActionId>) {
    && InRange(order, |t|)
    && (forall i :: 0 <= i < |t| ==> i in order)
    && (forall p, q :: 0 <= p < q < |order| ==> t[order[p]].createdAt < t[order[q]].createdAt)
  }

  ghost predicate DistinctTimes(t: Table) {
    forall i, j :: 0 <= i < j < |t| ==> t[i].createdAt != t[j].createdAt
  }

  /** The place of a new row among rows already in order. */
  lemma PlaceFor(t: Table, o: seq<ActionId>, time: int) returns (p: nat)
    requires IsCreationOrder(t, o)
    requires forall i :: 0 <= i < |t| ==> t[i].createdAt != time
    ensures p <= |o|
    ensures forall q :: 0 <= q < p ==> t[o[q]].createdAt < time
    ensures forall q :: p <= q < |o| ==> time < t[o[q]].createdAt
  {
    p := 0;
    while p < |o| && t[o[p]].createdAt < time
      invariant 0 <= p <= |o|
      invariant forall q :: 0 <= q < p ==> t[o[q]].createdAt < time
    {
      p := p + 1;
    }
  }

  /** Distinct creation times put the rows in a creation order. */
  lemma {:induction false} CreationOrderExists(t: Table) returns (order: seq<ActionId>)
    requires DistinctTimes(t)
    ensures IsCreationOrder(t, order)
  {
    if t == [] {
      order := [];
    } else {
      var n := |t| - 1;
      var o := CreationOrderExists(t[..n]);
      var p := PlaceFor(t[..n], o, t[n].createdAt);
      order := o[..p] + [n] + o[p..];
      CreationOrderInserts(t, o, p);
    }
  }

  lemma InsertedElements(o: seq<ActionId>, p: nat, n: ActionId, q: nat)
    requires p <= |o| && q <= |o|
    ensures (o[..p] + [n] + o[p..])[q] == if q < p then o[q] else if q == p then n else o[q - 1]
  {
  }

  lemma {:induction false} CreationOrderInserts(t: Table, o: seq<ActionId>, p: nat)
    requires t != [] && IsCreationOrder(t[..|t| - 1], o) && p <= |o|
    requires forall q :: 0 <= q < p ==> t[o[q]].createdAt < t[|t| - 1].createdAt
    requires forall q :: p <= q < |o| ==> t[|t| - 1].createdAt < t[o[q]].createdAt
    ensures IsCreationOrder(t, o[..p] + [|t| - 1] + o[p..])
  {
    var n, order := |t| - 1, o[..p] + [|t| - 1] + o[p..];
    forall q | 0 <= q < |order|
      ensures order[q] == (if q < p then o[q] else if q == p then n else o[q - 1]) && order[q] < |t|
    {
      InsertedElements(o, p, n, q);
    }
    forall q, r | 0 <= q < r < |order|
      ensures t[order[q]].createdAt < t[order[r]].createdAt
    {
      InsertedElements(o, p, n, q);
      InsertedElements(o, p, n, r);
      if q != p && r != p {
        var q', r' := if q < p then q else q - 1, if r < p then r else r - 1;
        assert t[..n][o[q']].createdAt < t[..n][o[r']].createdAt;
      }
    }
    forall i | 0 <= i < |t|
      ensures i in order
    {
      if i < n {
        assert i in o;
        var q :| 0 <= q < |o| && o[q] == i;
        InsertedElements(o, p, n, if q < p then q else q + 1);
      } else {
        InsertedElements(o, p, n, p);
      }
    }
  }

  lemma {:induction false} FirstPassIdle<C>(t: Table, order: seq<ActionId>, c: C, k: Courier<C>)
    requires InRange(order, |t|)
    requires forall p :: 0 <= p < |order| ==> t[order[p]].status != Pending
    ensures FirstPass(t, order, c, k) == Pass(t, c, [])
    decreases |order|
  {
    if order != [] {
      FirstPassIdle(t, order[1..], c, k);
    }
  }

  lemma {:induction false} SecondPassIdle<C>(t: Table, order: seq<ActionId>, c: C, k: Courier<C>)
    requires InRange(order, |t|)
    requires forall p :: 0 <= p < |order| ==> !Claimable(t[order[p]])
    ensures SecondPass(t, order, c, k) == Pass(t, c, [])
    decreases |order|
  {
    if order != [] {
      SecondPassIdle(t, order[1..], c, k);
    }
  }

  predicate NoRepeats(order: seq<ActionId>) {
    forall p, q :: 0 <= p < q < |order| ==> order[p] != order[q]
  }

  /** The first pass begins with the first PENDING row of its order. */
  lemma {:induction false} FirstPassTakes<C>(t: Table, order: seq<ActionId>, p: nat, c: C, k: Courier<C>)
    requires InRange(order, |t|) && NoRepeats(order) && p < |order|
    requires t[order[p]].status == Pending
    requires forall q :: 0 <= q < p ==> t[order[q]].status != Pending
    ensures var turn := Turn(t, order[p], c, k);
            FirstPass(t, order, c, k) == Then(turn, FirstPass(turn.table, order, turn.courier, k))
    decreases |order|
  {
    var turn := Turn(t, order[p], c, k);
    if p > 0 {
      assert order[1..][p - 1] == order[p];
      FirstPassTakes(t, order[1..], p - 1, c, k);
      assert turn.table[order[0]] == t[order[0]];
    }
  }

  /** The second pass begins with the first claimable row of its order. */
  lemma {:induction false} SecondPassTakes<C>(t: Table, order: seq<ActionId>, p: nat, c: C, k: Courier<C>)
    requires InRange(order, |t|) && NoRepeats(order) && p < |order|
    requires Claimable(t[order[p]])
    requires forall q :: 0 <= q < p ==> !Claimable(t[order[q]])
    ensures var turn := Turn(t, order[p], c, k);
            SecondPass(t, order, c, k) == Then(turn, SecondPass(turn.table, order, turn.courier, k))
    decreases |order|
  {
    var turn := Turn(t, order[p], c, k);
    if p == 0 {
      var rest := Persist(turn.table, order[0], turn.courier, k);
      ThenAssociates(turn, rest, SecondPass(rest.table, order[1..], rest.courier, k));
    } else {
      assert order[1..][p - 1] == order[p];
      SecondPassTakes(t, order[1..], p - 1, c, k);
      assert turn.table[order[0]] == t[order[0]];
      var tail := SecondPass(turn.table, order[1..], turn.courier, k);
      ThenUnit(t, c, Then(turn, tail));
      ThenUnit(turn.table, turn.courier, tail);
    }
  }

  /** Whatever the claim query returns is what the schedule does next. */
  lemma {:induction false} ScheduleTakes<C>(t: Table, order: seq<ActionId>, i: ActionId, c: C, k: Courier<C>)
    requires IsCreationOrder(t, order) && IsNext(t, i)
    ensures var turn := Turn(t, i, c, k);
            IsCreationOrder(turn.table, order) && Schedule(t, order, c, k) == Then(turn, Schedule(turn.table, order, turn.courier, k))
  {
    var turn := Turn(t, i, c, k);
    assert i in order;
    var p :| 0 <= p < |order| && order[p] == i;
    forall q | 0 <= q < p
      ensures !(Claimable(t[order[q]]) && Rank(t[order[q]].status) == Rank(t[i].status))
    {
      assert t[order[q]].createdAt < t[order[p]].createdAt;
    }
    if t[i].status == Pending {
      FirstPassTakes(t, order, p, c, k);
      var first := FirstPass(turn.table, order, turn.courier, k);
      ThenAssociates(turn, first, SecondPass(first.table, order, first.courier, k));
    } else {
      assert forall q :: 0 <= q < |order| && Claimable(t[order[q]]) ==> !Before(t[order[q]], t[i]);
      FirstPassIdle(t, order, c, k);
      FirstPassIdle(turn.table, order, turn.courier, k);
      SecondPassTakes(t, order, p, c, k);
      var second := SecondPass(turn.table, order, turn.courier, k);
      ThenUnit(t, c, Then(turn, second));
      ThenUnit(turn.table, turn.courier, second);
    }
  }

  /** A fair pass is a prefix of the schedule, and the schedule from where it stopped is the rest. */
  lemma {:induction false} PassFollowsSchedule<C>(t: Table, ids: seq<ActionId>, order: seq<ActionId>, c: C, k: Courier<C>)
    requires Fair(t, ids, c, k) && IsCreationOrder(t, order)
    ensures var done := Perform(t, ids, c, k);
            IsCreationOrder(done.table, order) && Schedule(t, order, c, k) == Then(done, Schedule(done.table, order, done.courier, k))
  {
    if ids == [] {
      ThenUnit(t, c, Schedule(t, order, c, k));
    } else {
      var init, i := ids[..|ids| - 1], ids[|ids| - 1];
      PassFollowsSchedule(t, init, order, c, k);
      var before := Perform(t, init, c, k);
      ScheduleTakes(before.table, order, i, before.courier, k);
      var turn := Turn(before.table, i, before.courier, k);
      ThenAssociates(before, turn, Schedule(turn.table, order, turn.courier, k));
    }
  }

  /** A pass that leaves nothing claimable has delivered exactly the schedule. */
  lemma {:induction false} CompletePassIsSchedule<C>(t: Table, ids: seq<ActionId>, order: seq<ActionId>, c: C, k: Courier<C>)
    requires Fair(t, ids, c, k) && IsCreationOrder(t, order) && Drained(Perform(t, ids, c, k).table)
    ensures Schedule(t, order, c, k) == Perform(t, ids, c, k)
  {
    var done := Perform(t, ids, c, k);
    PassFollowsSchedule(t, ids, order, c, k);
    FirstPassIdle(done.table, order, done.courier, k);
    SecondPassIdle(done.table, order, done.courier, k);
    assert ids + [] == ids;
  }

  /** A pass cut off before row `i` has delivered the schedule's beginning, and `i` is what the schedule wanted next. */
  lemma {:induction false} CutPassIsPrefix<C>(t: Table, ids: seq<ActionId>, i: ActionId, order: seq<ActionId>, c: C, k: Courier<C>)
    requires Fair(t, ids, c, k) && IsCreationOrder(t, order) && IsNext(Perform(t, ids, c, k).table, i)
    ensures ids + [i] <= Schedule(t, order, c, k).log
  {
    FairExtends(t, ids, c, k, i);
    PassFollowsSchedule(t, ids + [i], order, c, k);
  }

  /** One more turn of a loop that has come to table `now` and courier `d`. */
  lemma {:induction false} TurnTaken<C>(t: Table, ids: seq<ActionId>, c: C, k: Courier<C>, now: Table, d: C, i: ActionId)
    requires Fair(t, ids, c, k) && Perform(t, ids, c, k) == Pass(now, d, ids) && IsNext(now, i)
    ensures var turn := Turn(now, i, d, k);
            && Fair(t, ids + [i], c, k)
            && Perform(t, ids + [i], c, k) == Pass(turn.table, turn.courier, ids + [i])
            && Budget(turn.table) < Budget(now)
  {
    FairExtends(t, ids, c, k, i);
    TurnSpends(now, i, d, k);
  }

  // ---------- the sync engine ----------

  datatype SyncStatus = SyncStatus(queued: nat, processing: nat, failed: nat, online: bool, oldest: Option<int>)

  class OfflineSyncEngine {
    const store: OfflineActionStore
    var online: bool

    constructor (store: OfflineActionStore)
      ensures this.store == store && !online
    {
      this.store := store;
      online := false;
    }

    /** Boot: rows stuck in PROCESSING for over 30 s become claimable again. The first flush follows. */
    method Start(now: int) returns (requeued: nat)
      modifies store
      ensures store.rows == AfterRequeue(old(store.rows), now - STALE_MS, now)
      ensures requeued == |StaleRows(old(store.rows), now - 30_000)|
    {
      requeued := store.RequeueStaleProcessing(STALE_MS, now);
    }

    /** Persists before anything is sent; the flush it triggers runs on its own. */
    method Enqueue(input: EnqueueInput, now: int) returns (id: ActionId)
      requires store.Valid()
      modifies store
      ensures store.Valid() && store.rows == AfterInsert(old(store.rows), input, now)
      ensures id < |store.rows| && store.rows[id].key == input.key
    {
      id := store.Insert(input, now);
    }

    /** `queued` leaves out the FAILED rows that will be retried; `failed` counts them with those that gave up. */
    method Status() returns (s: SyncStatus)
      ensures s.queued == |RowsOf(store.rows, Pending)| + |RowsOf(store.rows, Processing)|
      ensures s.processing == |RowsOf(store.rows, Processing)| && s.failed == |RowsOf(store.rows, Failed)|
      ensures s.online == online
      ensures s.queued + s.failed == 0 <==> s.oldest.None?
    {
      var pending, processing, failed, completed := store.CountByStatus();
      var oldest := store.OldestPendingTs();
      CountsPartition(store.rows);
      AllCompleted(store.rows);
      s := SyncStatus(pending + processing, processing, failed, online, oldest);
    }

    /**
     Drains the table, whatever the probe said. The claim comes before the ceiling test,
     so a pass that reaches the ceiling takes one row more than it delivers and leaves
     it PROCESSING; any other pass settles every waiting row for good.
     */
    method Flush<C>(probe: bool, start: C, k: Courier<C>) returns (end: C, log: seq<ActionId>, stuck: Option<ActionId>)
      modifies this, store
      ensures online == probe
      ensures Fair(old(store.rows), log, start, k) && end == Perform(old(store.rows), log, start, k).courier
      ensures |log| <= 500 && (stuck.Some? ==> |log| == 500)
      ensures var done := Perform(old(store.rows), log, start, k).table;
              match stuck
              case None => store.rows == done && Drained(done)
              case Some(i) => |log| == FLUSH_CEILING && IsNext(done, i) && store.rows == AfterClaim(done, i, k.clock(end))
      ensures Budget(old(store.rows)) <= FLUSH_CEILING ==> stuck.None?
      ensures stuck.None? ==> Settled(old(store.rows), log, start, k, store.rows)
    {
      online := probe;
      end, log, stuck := start, [], None;
      ghost var t0 := store.rows;
      while true
        invariant online == probe
        invariant Fair(t0, log, start, k) && |log| <= FLUSH_CEILING
        invariant Perform(t0, log, start, k) == Pass(store.rows, end, log)
        decreases Budget(store.rows)
      {
        ghost var t := store.rows;
        var claimed := store.ClaimNext(k.clock(end));
        if claimed.None? {
          break;
        }
        var id := claimed.value;
        if |log| >= FLUSH_CEILING {
          stuck := claimed;
          break;
        }
        TurnTaken(t0, log, start, k, t, end, id);
        var reply := k.attempt(end, store.rows[id]);
        end := reply.next;
        if reply.ok {
          store.MarkComplete(id, k.clock(end));
        } else {
          store.MarkFailed(id, reply.error, k.clock(end));
        }
        log := log + [id];
      }
      if stuck.Some? {
        CutPassLeavesBudget(t0, log, stuck.value, start, k);
      } else {
        CompletePassSettlesAll(t0, log, start, k);
      }
    }
  }

  lemma {:induction false} AllCompleted(t: Table)
    ensures CountStatus(t, Completed) == |t| <==> forall i :: 0 <= i < |t| ==> t[i].status == Completed
  {
    if t != [] {
      AllCompleted(t[..|t| - 1]);
      CountAtMost(t[..|t| - 1], Completed);
    }
  }

  lemma {:induction false} CountAtMost(t: Table, s: Status)
    ensures CountStatus(t, s) <= |t|
  {
    if t != [] {
      CountAtMost(t[..|t| - 1], s);
    }
  }
}
