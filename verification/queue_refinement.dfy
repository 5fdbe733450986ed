/**
 The drain loops and the protocol speak of the same thing: one turn of a loop is the
 protocol's claim, attempt and mark by a worker whom nobody interrupts, and so a whole
 pass is a run of the protocol.
 */
module QueueRefinement {
  import opened Wrappers
  import opened OfflineStore
  import opened QueueProtocol
  import QueueDrains
  import LockBridge
  import Broker

  // ---------- one turn ----------

  /** Worker `w` attempts the row it holds: a delivery to the broker or an encode. */
  predicate IsAttempt(s: System, w: WorkerId, step: Step) {
    (step.Deliver? || step.Encode?) && step.w == w && Enabled(s, step)
  }

  /** The attempt succeeds in the eyes of the worker. */
  predicate Succeeds(s: System, w: WorkerId, step: Step)
    requires IsAttempt(s, w, step)
  {
    if step.Encode? then step.acked
    else
      var row := s.table[s.workers[w].held.value.id];
      step.net == Answered
      && Broker.Decide(s.window, row.key, EventFor(row.actionType), s.now, step.allowed).status in Broker.HTTP_OK
  }

  /** A courier that behaves in state `c` as the attempt does in the protocol, and takes its time. */
  predicate Simulates<C>(k: QueueDrains.Courier<C>, c: C, s: System, w: WorkerId, step: Step)
    requires IsAttempt(s, w, step)
  {
    var reply := k.attempt(c, s.table[s.workers[w].held.value.id]);
    k.clock(c) == s.now <= k.clock(reply.next) && reply.ok == Succeeds(s, w, step)
  }

  /** Nothing keeps the worker from claiming. */
  predicate Idle(s: System, w: WorkerId) {
    w in s.workers && s.workers[w].held.None? && |s.table| == |s.tallies|
  }

  /** What the worker does for one turn of its loop. */
  function TurnSteps<C>(s: System, w: WorkerId, i: ActionId, attempt: Step, c: C, k: QueueDrains.Courier<C>): seq<Step>
    requires i < |s.table| && k.clock(k.attempt(c, AfterClaim(s.table, i, s.now)[i]).next) >= s.now
  {
    var reply := k.attempt(c, AfterClaim(s.table, i, s.now)[i]);
    [Claim(w, i), attempt, Tick(k.clock(reply.next) - s.now), Mark(w, reply.error)]
  }

  lemma {:induction false} FourSteps(s: System, a: Step, b: Step, c: Step, d: Step)
    requires Enabled(s, a) && Enabled(Apply(s, a), b) && Enabled(Apply(Apply(s, a), b), c)
    requires Enabled(Apply(Apply(Apply(s, a), b), c), d)
    ensures Leads(s, [a, b, c, d], Apply(Apply(Apply(Apply(s, a), b), c), d))
  {
    Extend(s, [], s, a);
    Extend(s, [a], Apply(s, a), b);
    Extend(s, [a, b], Apply(Apply(s, a), b), c);
    Extend(s, [a, b, c], Apply(Apply(Apply(s, a), b), c), d);
    assert [] + [a] == [a] && [a] + [b] == [a, b] && [a, b] + [c] == [a, b, c] && [a, b, c] + [d] == [a, b, c, d];
  }

  /** An attempt touches no row and leaves the worker with a verdict. */
  predicate Concludes(s: System, w: WorkerId, t: System, ok: bool) {
    && t.table == s.table && t.now == s.now && |t.tallies| == |s.tallies|
    && w in s.workers && s.workers[w].held.Some? && w in t.workers && t.workers[w].held.Some?
    && t.workers[w] == s.workers[w].(held := t.workers[w].held)
    && t.workers[w].held.value.id == s.workers[w].held.value.id
    && t.workers[w].held.value.verdict != Undecided
    && (t.workers[w].held.value.verdict.Accepted? <==> ok)
  }

  lemma DeliveryConcludes(s: System, w: WorkerId, net: Network, allowed: bool)
    requires IsAttempt(s, w, Deliver(w, net, allowed))
    ensures Concludes(s, w, AfterDeliver(s, w, net, allowed), Succeeds(s, w, Deliver(w, net, allowed)))
  {
  }

  lemma EncodeConcludes(s: System, w: WorkerId, acked: bool)
    requires IsAttempt(s, w, Encode(w, acked))
    ensures Concludes(s, w, AfterEncode(s, w, acked), acked)
  {
  }

  /** The verdict is the one the attempt earned. */
  lemma {:induction false} AttemptConcludes(s: System, w: WorkerId, step: Step)
    requires IsAttempt(s, w, step)
    ensures Concludes(s, w, Apply(s, step), Succeeds(s, w, step))
  {
    match step
    case Deliver(_, net, allowed) => DeliveryConcludes(s, w, net, allowed);
    case Encode(_, acked) => EncodeConcludes(s, w, acked);
  }

  /** The protocol can take this turn, with this attempt, as the courier would. */
  predicate CanTurn<C>(s: System, w: WorkerId, i: ActionId, attempt: Step, c: C, k: QueueDrains.Courier<C>) {
    && Idle(s, w) && IsNext(s.table, i)
    && IsAttempt(AfterClaimStep(s, w, i), w, attempt)
    && Simulates(k, c, AfterClaimStep(s, w, i), w, attempt)
  }

  function TurnEnd<C>(s: System, w: WorkerId, i: ActionId, attempt: Step, c: C, k: QueueDrains.Courier<C>): System
    requires CanTurn(s, w, i, attempt, c, k)
  {
    var claimed := AfterClaimStep(s, w, i);
    var reply := k.attempt(c, claimed.table[i]);
    AttemptConcludes(claimed, w, attempt);
    var tried := Apply(claimed, attempt);
    AfterMark(tried.(now := k.clock(reply.next)), w, reply.error)
  }

  lemma TurnLeads<C>(s: System, w: WorkerId, i: ActionId, attempt: Step, c: C, k: QueueDrains.Courier<C>)
    requires CanTurn(s, w, i, attempt, c, k)
    ensures Leads(s, TurnSteps(s, w, i, attempt, c, k), TurnEnd(s, w, i, attempt, c, k))
  {
    var claimed := Apply(s, Claim(w, i));
    var reply := k.attempt(c, claimed.table[i]);
    AttemptConcludes(claimed, w, attempt);
    FourSteps(s, Claim(w, i), attempt, Tick(k.clock(reply.next) - s.now), Mark(w, reply.error));
  }

  /** Claiming, attempting and marking without interruption changes the table exactly as one turn of a drain loop. */
  lemma {:induction false} TurnIsProtocolTurn<C>(s: System, w: WorkerId, i: ActionId, attempt: Step, c: C, k: QueueDrains.Courier<C>)
    requires CanTurn(s, w, i, attempt, c, k)
    ensures var t, turn := TurnEnd(s, w, i, attempt, c, k), QueueDrains.Turn(s.table, i, c, k);
            && Leads(s, TurnSteps(s, w, i, attempt, c, k), t)
            && t.table == turn.table && t.now == k.clock(turn.courier)
            && Idle(t, w) && t.workers[w] == s.workers[w].(delivered := s.workers[w].delivered + 1)
  {
    var claimed := AfterClaimStep(s, w, i);
    var reply := k.attempt(c, claimed.table[i]);
    TurnLeads(s, w, i, attempt, c, k);
    AttemptConcludes(claimed, w, attempt);
    MarkEndsTurn(Apply(claimed, attempt).(now := k.clock(reply.next)), w, reply.error);
  }

  lemma MarkEndsTurn(s: System, w: WorkerId, error: string)
    requires Enabled(s, Mark(w, error))
    ensures var t, hold := AfterMark(s, w, error), s.workers[w].held.value;
            && t.table == (if hold.verdict.Accepted? then AfterComplete(s.table, hold.id, s.now)
                           else AfterFailure(s.table, hold.id, error, s.now))
            && t.now == s.now && Idle(t, w)
            && t.workers[w] == s.workers[w].(held := None, delivered := s.workers[w].delivered + 1)
  {
  }

  // ---------- a whole pass ----------

  /** Where the protocol is after the turns `ids` with the attempts of `plan`, if it can take them as the courier does. */
  function PassEnd<C>(s: System, w: WorkerId, ids: seq<ActionId>, plan: seq<Step>, c: C, k: QueueDrains.Courier<C>): Option<System>
    requires |plan| == |ids| && QueueDrains.InRange(ids, |s.table|)
  {
    if ids == [] then Some(s)
    else
      var n := |ids| - 1;
      var courier := QueueDrains.Perform(s.table, ids[..n], c, k).courier;
      match PassEnd(s, w, ids[..n], plan[..n], c, k)
      case None => None
      case Some(u) => if CanTurn(u, w, ids[n], plan[n], courier, k) then Some(TurnEnd(u, w, ids[n], plan[n], courier, k)) else None
  }

  lemma {:induction false} LeadsOn(s: System, a: seq<Step>, t: System, b: seq<Step>, u: System)
    requires Leads(s, a, t) && Leads(t, b, u)
    ensures Leads(s, a + b, u)
    decreases |a|
  {
    if a == [] {
      assert a + b == b;
    } else {
      LeadsOn(Apply(s, a[0]), a[1..], t, b, u);
      assert (a + b)[1..] == a[1..] + b;
    }
  }

  /**
   A whole pass of a drain loop is a run of the protocol that ends with the same table,
   at the same time, and takes only rows the claim query could return: whatever holds in
   every run of the protocol holds of the loops.
   */
  lemma {:induction false} PassIsProtocolRun<C>(s: System, w: WorkerId, ids: seq<ActionId>, plan: seq<Step>, c: C, k: QueueDrains.Courier<C>)
    returns (steps: seq<Step>)
    requires Idle(s, w) && k.clock(c) == s.now
    requires |plan| == |ids| && QueueDrains.InRange(ids, |s.table|) && PassEnd(s, w, ids, plan, c, k).Some?
    ensures var t, done := PassEnd(s, w, ids, plan, c, k).value, QueueDrains.Perform(s.table, ids, c, k);
            && Leads(s, steps, t)
            && t.table == done.table && t.now == k.clock(done.courier)
            && QueueDrains.Fair(s.table, ids, c, k)
            && Idle(t, w) && t.workers[w] == s.workers[w].(delivered := s.workers[w].delivered + |ids|)
  {
    if ids == [] {
      steps := [];
    } else {
      var n := |ids| - 1;
      var before := QueueDrains.Perform(s.table, ids[..n], c, k);
      var u := PassEnd(s, w, ids[..n], plan[..n], c, k).value;
      steps := PassIsProtocolRun(s, w, ids[..n], plan[..n], c, k);
      var turn := TurnSteps(u, w, ids[n], plan[n], before.courier, k);
      TurnIsProtocolTurn(u, w, ids[n], plan[n], before.courier, k);
      LeadsOn(s, steps, u, turn, TurnEnd(u, w, ids[n], plan[n], before.courier, k));
      steps := steps + turn;
    }
  }

  lemma {:induction false} PassTakesTurn<C>(s: System, w: WorkerId, ids: seq<ActionId>, plan: seq<Step>, attempt: Step, c: C,
                                            k: QueueDrains.Courier<C>)
    requires QueueDrains.InRange(ids, |s.table|) && |ids| == |plan| + 1
    requires PassEnd(s, w, ids[..|plan|], plan, c, k).Some?
    requires CanTurn(PassEnd(s, w, ids[..|plan|], plan, c, k).value, w, ids[|plan|], attempt,
                     QueueDrains.Perform(s.table, ids[..|plan|], c, k).courier, k)
    ensures PassEnd(s, w, ids, plan + [attempt], c, k)
         == Some(TurnEnd(PassEnd(s, w, ids[..|plan|], plan, c, k).value, w, ids[|plan|], attempt,
                         QueueDrains.Perform(s.table, ids[..|plan|], c, k).courier, k))
  {
    assert (plan + [attempt])[..|plan|] == plan;
  }

  // ---------- the flush against the broker ----------

  /** One exchange with the broker: what the network does, whether the rate limit lets it through, how long it takes. */
  datatype Exchange = Exchange(net: Network, allowed: bool, ms: nat)

  /** The broker's window, the time, and the exchanges to come. */
  datatype Wire = Wire(window: Broker.Window, now: int, script: seq<Exchange>)

  function NextExchange(c: Wire): Exchange {
    if c.script == [] then Exchange(RequestLost, true, 0) else c.script[0]
  }

  /** A delivery as the sync engine sees it; after the script the broker is out of reach. */
  function Send(c: Wire, a: Action): QueueDrains.Reply<Wire> {
    var x := NextExchange(c);
    var answer := Broker.Decide(c.window, a.key, EventFor(a.actionType), c.now, x.allowed);
    var window := if x.net == RequestLost then c.window else answer.window;
    QueueDrains.Reply(x.net == Answered && answer.status in Broker.HTTP_OK, "delivery failed (timeout / non-2xx)",
      Wire(window, c.now + x.ms, if c.script == [] then [] else c.script[1..]))
  }

  function BrokerCourier(): QueueDrains.Courier<Wire> {
    QueueDrains.Courier((c: Wire) => c.now, (c: Wire, a: Action) => Send(c, a))
  }

  lemma {:induction false} DeliveryCanTurn(s: System, w: WorkerId, i: ActionId, c: Wire)
    requires Idle(s, w) && IsNext(s.table, i) && s.now == c.now && s.window == c.window
    requires s.workers[w].drainer == SyncFlush && s.workers[w].delivered < FLUSH_CEILING
    ensures CanTurn(s, w, i, Deliver(w, NextExchange(c).net, NextExchange(c).allowed), c, BrokerCourier())
  {
  }

  lemma {:induction false} DeliveryMovesWindow(s: System, w: WorkerId, i: ActionId, c: Wire)
    requires s.now == c.now && s.window == c.window
    requires CanTurn(s, w, i, Deliver(w, NextExchange(c).net, NextExchange(c).allowed), c, BrokerCourier())
    ensures TurnEnd(s, w, i, Deliver(w, NextExchange(c).net, NextExchange(c).allowed), c, BrokerCourier()).window
         == QueueDrains.Turn(s.table, i, c, BrokerCourier()).courier.window
  {
    var claimed, x := AfterClaimStep(s, w, i), NextExchange(c);
    assert AfterDeliver(claimed, w, x.net, x.allowed).window == Send(c, claimed.table[i]).next.window;
  }

  /** Up to its ceiling, every flush against the broker, whatever the network does, is a run of the protocol. */
  lemma {:induction false} FlushIsProtocolRun(s: System, w: WorkerId, ids: seq<ActionId>, c: Wire) returns (plan: seq<Step>)
    requires Idle(s, w) && s.now == c.now && s.window == c.window && QueueDrains.Fair(s.table, ids, c, BrokerCourier())
    requires s.workers[w].drainer == SyncFlush && s.workers[w].delivered + |ids| <= FLUSH_CEILING
    ensures |plan| == |ids| && PassEnd(s, w, ids, plan, c, BrokerCourier()).Some?
    ensures PassEnd(s, w, ids, plan, c, BrokerCourier()).value.window
         == QueueDrains.Perform(s.table, ids, c, BrokerCourier()).courier.window
  {
    if ids == [] {
      plan := [];
    } else {
      var n, k := |ids| - 1, BrokerCourier();
      plan := FlushIsProtocolRun(s, w, ids[..n], c);
      var _ := PassIsProtocolRun(s, w, ids[..n], plan, c, k);
      var u, courier := PassEnd(s, w, ids[..n], plan, c, k).value, QueueDrains.Perform(s.table, ids[..n], c, k).courier;
      DeliveryCanTurn(u, w, ids[n], courier);
      DeliveryMovesWindow(u, w, ids[n], courier);
      var deliver := Deliver(w, NextExchange(courier).net, NextExchange(courier).allowed);
      PassTakesTurn(s, w, ids, plan, deliver, c, k);
      plan := plan + [deliver];
    }
  }

  // ---------- the lock drain ----------

  lemma {:induction false} EncodeIsTurn(s: System, w: WorkerId, i: ActionId, b: LockBridge.Bridge, world: LockBridge.World)
    requires Idle(s, w) && IsNext(s.table, i) && s.now == world.clock(b.trips) && LockBridge.ClockForward(world)
    requires s.workers[w].drainer == LockDrain
    ensures var k := LockBridge.LockCourier(world);
            CanTurn(s, w, i, Encode(w, QueueDrains.Succeeds(s.table, i, b, k)), b, k)
  {
    LockBridge.AttemptMeans(world, b, AfterClaim(s.table, i, s.now)[i]);
  }

  /** Every drain of the lock bridge, whatever the encoders do, is a run of the protocol. */
  lemma {:induction false} LockDrainIsProtocolRun(s: System, w: WorkerId, ids: seq<ActionId>, b: LockBridge.Bridge, world: LockBridge.World)
    returns (plan: seq<Step>)
    requires Idle(s, w) && s.now == world.clock(b.trips) && LockBridge.ClockForward(world)
    requires s.workers[w].drainer == LockDrain && QueueDrains.Fair(s.table, ids, b, LockBridge.LockCourier(world))
    ensures |plan| == |ids| && PassEnd(s, w, ids, plan, b, LockBridge.LockCourier(world)).Some?
  {
    if ids == [] {
      plan := [];
    } else {
      var n, k := |ids| - 1, LockBridge.LockCourier(world);
      plan := LockDrainIsProtocolRun(s, w, ids[..n], b, world);
      var _ := PassIsProtocolRun(s, w, ids[..n], plan, b, k);
      var u, before := PassEnd(s, w, ids[..n], plan, b, k).value, QueueDrains.Perform(s.table, ids[..n], b, k);
      EncodeIsTurn(u, w, ids[n], before.courier, world);
      var encode := Encode(w, QueueDrains.Succeeds(before.table, ids[n], before.courier, k));
      PassTakesTurn(s, w, ids, plan, encode, b, k);
      plan := plan + [encode];
    }
  }

  /**
   A loop that ends with a row in hand, the flush at its ceiling and the drain whose
   encode throws, ends as the protocol's claim and abandon, which leave an orphan.
   */
  lemma {:induction false} CutLoopOrphans(s: System, w: WorkerId, i: ActionId) returns (t: System)
    requires Inv(s) && Idle(s, w) && IsNext(s.table, i)
    requires s.workers[w].drainer == SyncFlush ==> s.workers[w].delivered >= FLUSH_CEILING
    ensures Leads(s, [Claim(w, i), Abandon(w)], t)
    ensures t.table == AfterClaim(s.table, i, s.now) && Orphan(t, i)
  {
    var claimed := Apply(s, Claim(w, i));
    t := Apply(claimed, Abandon(w));
    Extend(s, [], s, Claim(w, i));
    Extend(s, [Claim(w, i)], claimed, Abandon(w));
    assert [] + [Claim(w, i)] == [Claim(w, i)] && [Claim(w, i)] + [Abandon(w)] == [Claim(w, i), Abandon(w)];
    ClaimKeepsInv(s, w, i);
    AbandonOrphans(claimed, w);
  }
}
