/**
 The offline queue as a protocol: any number of sync flushes and lock drains on one
 table, the broker they deliver to, crashes and reboots, in any interleaving.

 Besides the real state the system carries history that no code reads: how often
 each row was claimed and requeued, everything published and acknowledged, and the
 evidence on which a row was completed.
 */
module QueueProtocol {
  import opened Wrappers
  import opened OfflineStore
  import Broker

  const FLUSH_CEILING: nat := 500

  type WorkerId = nat

  /** One run of `flush` or of `drainRetryQueue`. */
  datatype Drainer = SyncFlush | LockDrain

  /** A bus entry comes from the delivery made under the n-th claim of a row, or from someone else. */
  datatype Origin = Delivery(id: ActionId, claim: nat) | Elsewhere

  datatype Published = Published(key: string, event: Broker.WireType, payload: string, origin: Origin, at: int, epoch: nat)

  datatype Ack = Ack(id: ActionId, claim: nat)

  /** Position of the bus entry or encoder acknowledgement on which a row was completed. */
  datatype Evidence = OnBus(at: nat) | ByEncoder(at: nat)

  datatype Verdict = Undecided | Accepted(evidence: Evidence) | Refused

  datatype Hold = Hold(id: ActionId, verdict: Verdict)

  datatype Worker = Worker(drainer: Drainer, delivered: nat, held: Option<Hold>)

  /** How often a row was claimed and requeued, and when it was claimed last. */
  datatype Tally = Tally(claims: nat, requeues: nat, claimedAt: int)

  datatype System = System(
    now: int,
    up: bool,
    boots: nat,
    table: Table,
    workers: map<WorkerId, Worker>,
    window: Broker.Window,
    epoch: nat,
    bus: seq<Published>,
    acks: seq<Ack>,
    tallies: seq<Tally>,
    proofs: map<ActionId, Evidence>)

  /** The wire type of an action: the mapped event, or the bare action name when there is no mapping. */
  function EventFor(a: ActionType): Broker.WireType {
    match a
    case Checkin => Broker.Registered(Broker.ReservationCheckedIn)
    case Checkout => Broker.Registered(Broker.ReservationCheckedOut)
    case PosOrder => Broker.Registered(Broker.OrderPlaced)
    case RoomKeyGenerate => Broker.Registered(Broker.RoomKeyGenerated)
    case FolioTransfer => Broker.Registered(Broker.FolioBalanceUpdated)
    case MaintenanceOrder => Broker.Registered(Broker.WorkOrderCreated)
    case EtimsInvoice => Broker.Unregistered("etimsInvoice")
  }

  /** The type string a flush sends for an action. */
  function TypeString(a: ActionType): string {
    match a
    case Checkin => Broker.NameOf(Broker.ReservationCheckedIn)
    case Checkout => Broker.NameOf(Broker.ReservationCheckedOut)
    case PosOrder => Broker.NameOf(Broker.OrderPlaced)
    case RoomKeyGenerate => Broker.NameOf(Broker.RoomKeyGenerated)
    case FolioTransfer => Broker.NameOf(Broker.FolioBalanceUpdated)
    case MaintenanceOrder => Broker.NameOf(Broker.WorkOrderCreated)
    case EtimsInvoice => "etimsInvoice"
  }

  /** It is what the broker takes it for. */
  lemma {:induction false} EventForIsWire(a: ActionType)
    ensures Broker.WireOf(TypeString(a)) == EventFor(a)
  {
    if a == EtimsInvoice {
      EtimsIsNoEvent();
    } else {
      Broker.WireOfName(EventFor(a).event);
    }
  }

  lemma EtimsIsNoEvent()
    ensures !Broker.IsRegistered("etimsInvoice")
  {
    assert forall e: Broker.EventType :: Broker.NameOf(e)[0] != 'e';
    assert "etimsInvoice"[0] == 'e';
  }

  // ---------- steps ----------

  /** What becomes of an HTTP exchange: the request is lost, only the reply is lost, or both arrive in time. */
  datatype Network = RequestLost | ReplyLost | Answered

  /** A worker abandons the row it holds when a flush is at its ceiling, or the encode of a lock drain throws. */
  datatype Step =
    | Tick(ms: nat)
    | Enqueue(input: EnqueueInput)
    | Spawn(w: WorkerId, drainer: Drainer)
    | Claim(w: WorkerId, id: ActionId)
    | Deliver(w: WorkerId, net: Network, allowed: bool)
    | Encode(w: WorkerId, acked: bool)
    | Mark(w: WorkerId, error: string)
    | Abandon(w: WorkerId)
    | Retire(w: WorkerId)
    | OtherPacket(key: string, event: Broker.WireType, payload: string, allowed: bool)
    | BrokerRestart
    | Crash
    | Boot

  predicate Holding(s: System, w: WorkerId) {
    w in s.workers && s.workers[w].held.Some? && s.workers[w].held.value.id < |s.table| == |s.tallies|
  }

  predicate Working(s: System, w: WorkerId, drainer: Drainer) {
    Holding(s, w) && s.workers[w].drainer == drainer && s.workers[w].held.value.verdict == Undecided
  }

  predicate Enabled(s: System, step: Step) {
    match step
    case Tick(_) => true
    case Enqueue(_) => s.up && |s.table| == |s.tallies|
    case Spawn(w, _) => s.up && w !in s.workers
    case Claim(w, id) => w in s.workers && s.workers[w].held.None? && IsNext(s.table, id) && |s.table| == |s.tallies|
    case Deliver(w, _, _) => Working(s, w, SyncFlush) && s.workers[w].delivered < FLUSH_CEILING
    case Encode(w, acked) =>
      Working(s, w, LockDrain) && (acked ==> s.table[s.workers[w].held.value.id].actionType == RoomKeyGenerate)
    case Mark(w, _) => Holding(s, w) && s.workers[w].held.value.verdict != Undecided
    case Abandon(w) => Working(s, w, LockDrain) || (Working(s, w, SyncFlush) && s.workers[w].delivered >= FLUSH_CEILING)
    case Retire(w) => w in s.workers && s.workers[w].held.None? && Drained(s.table)
    case OtherPacket(_, _, _, _) => s.up
    case BrokerRestart => true
    case Crash => s.up
    case Boot => !s.up && |s.table| == |s.tallies|
  }

  /** The broker handles a packet at the current time. */
  function Receive(s: System, key: string, event: Broker.WireType, payload: string, allowed: bool, origin: Origin): System {
    var reply := Broker.Decide(s.window, key, event, s.now, allowed);
    s.(window := reply.window,
       bus := if reply.publish then s.bus + [Published(key, event, payload, origin, s.now, s.epoch)] else s.bus)
  }

  function Decided(s: System, w: WorkerId, verdict: Verdict): System
    requires Holding(s, w)
  {
    var worker := s.workers[w];
    s.(workers := s.workers[w := worker.(held := Some(worker.held.value.(verdict := verdict)))])
  }

  function AfterClaimStep(s: System, w: WorkerId, id: ActionId): System
    requires w in s.workers && id < |s.table| == |s.tallies|
  {
    s.(table := AfterClaim(s.table, id, s.now),
       workers := s.workers[w := s.workers[w].(held := Some(Hold(id, Undecided)))],
       tallies := s.tallies[id := s.tallies[id].(claims := s.tallies[id].claims + 1, claimedAt := s.now)])
  }

  function AfterDeliver(s: System, w: WorkerId, net: Network, allowed: bool): System
    requires Holding(s, w)
  {
    var id := s.workers[w].held.value.id;
    var row := s.table[id];
    var event := EventFor(row.actionType);
    if net == RequestLost then Decided(s, w, Refused)
    else
      var status := Broker.Decide(s.window, row.key, event, s.now, allowed).status;
      var received := Receive(s, row.key, event, row.payload, allowed, Delivery(id, s.tallies[id].claims));
      Decided(received, w, if net == Answered && status in Broker.HTTP_OK then Accepted(OnBus(|s.bus|)) else Refused)
  }

  function AfterEncode(s: System, w: WorkerId, acked: bool): System
    requires Holding(s, w)
  {
    var id := s.workers[w].held.value.id;
    if acked then Decided(s.(acks := s.acks + [Ack(id, s.tallies[id].claims)]), w, Accepted(ByEncoder(|s.acks|)))
    else Decided(s, w, Refused)
  }

  function AfterMark(s: System, w: WorkerId, error: string): System
    requires Holding(s, w)
  {
    var worker := s.workers[w];
    var hold := worker.held.value;
    var free := s.(workers := s.workers[w := worker.(held := None, delivered := worker.delivered + 1)]);
    match hold.verdict
    case Accepted(evidence) =>
      free.(table := AfterComplete(s.table, hold.id, s.now), proofs := s.proofs[hold.id := evidence])
    case _ =>
      free.(table := AfterFailure(s.table, hold.id, error, s.now))
  }

  function AfterEnqueue(s: System, input: EnqueueInput): System {
    var table := AfterInsert(s.table, input, s.now);
    s.(table := table, tallies := if |table| > |s.table| then s.tallies + [Tally(0, 0, s.now)] else s.tallies)
  }

  function AfterBoot(s: System): System
    requires |s.table| == |s.tallies|
  {
    var cutoff := s.now - STALE_MS;
    s.(up := true,
       boots := s.boots + 1,
       table := AfterRequeue(s.table, cutoff, s.now),
       tallies := seq(|s.table|, i requires 0 <= i < |s.table| =>
         if Stale(s.table[i], cutoff) then s.tallies[i].(requeues := s.tallies[i].requeues + 1) else s.tallies[i]))
  }

  /** The broker lives in the console process, so a crash of the console also restarts it. */
  function AfterBrokerRestart(s: System): System {
    s.(window := map[], epoch := s.epoch + 1)
  }

  function Apply(s: System, step: Step): System
    requires Enabled(s, step)
  {
    match step
    case Tick(ms) => s.(now := s.now + ms)
    case Enqueue(input) => AfterEnqueue(s, input)
    case Spawn(w, drainer) => s.(workers := s.workers[w := Worker(drainer, 0, None)])
    case Claim(w, id) => AfterClaimStep(s, w, id)
    case Deliver(w, net, allowed) => AfterDeliver(s, w, net, allowed)
    case Encode(w, acked) => AfterEncode(s, w, acked)
    case Mark(w, error) => AfterMark(s, w, error)
    case Abandon(w) => s.(workers := s.workers - {w})
    case Retire(w) => s.(workers := s.workers - {w})
    case OtherPacket(key, event, payload, allowed) => Receive(s, key, event, payload, allowed, Elsewhere)
    case BrokerRestart => AfterBrokerRestart(s)
    case Crash => AfterBrokerRestart(s.(up := false, workers := map[]))
    case Boot => AfterBoot(s)
  }

  function Start(now: int): System {
    System(now, false, 0, [], map[], map[], 0, [], [], [], map[])
  }

  /** `t` is where the steps lead from `s`, every one of them being possible when taken. */
  predicate Leads(s: System, steps: seq<Step>, t: System)
    decreases |steps|
  {
    if steps == [] then s == t
    else Enabled(s, steps[0]) && Leads(Apply(s, steps[0]), steps[1..], t)
  }

  predicate Reachable(steps: seq<Step>, now: int, t: System) {
    Leads(Start(now), steps, t)
  }

  // ---------- invariant ----------

  /** The claim ledger of one row, the retry budget it implies, and what the row says of its last step. */
  predicate RowOk(a: Action, t: Tally, boots: nat) {
    && t.claims == a.retryCount + t.requeues + (if a.status == Processing || a.status == Completed then 1 else 0)
    && t.requeues <= boots
    && (if a.status == Failed then 1 <= a.retryCount <= MAX_RETRY_COUNT else a.retryCount < MAX_RETRY_COUNT)
    && (a.status == Processing ==> a.updatedAt == t.claimedAt)
    && (a.status == Failed ==> a.lastError.Some?)
    && (a.status == Completed ==> a.lastError == None)
  }

  predicate RowsOk(s: System) {
    && |s.tallies| == |s.table|
    && forall i :: 0 <= i < |s.table| ==> RowOk(s.table[i], s.tallies[i], s.boots)
  }

  /** The evidence names exactly this row's content and the claim under which it was delivered. */
  predicate EvidenceOk(s: System, i: ActionId, e: Evidence)
    requires i < |s.table| == |s.tallies|
  {
    match e
    case OnBus(k) =>
      && k < |s.bus|
      && s.bus[k].key == s.table[i].key && s.bus[k].payload == s.table[i].payload
      && s.bus[k].event == EventFor(s.table[i].actionType) && s.bus[k].event.Registered?
      && s.bus[k].origin == Delivery(i, s.tallies[i].claims)
    case ByEncoder(k) =>
      && k < |s.acks|
      && s.acks[k] == Ack(i, s.tallies[i].claims)
      && s.table[i].actionType == RoomKeyGenerate
  }

  predicate HoldOk(s: System, h: Hold) {
    && h.id < |s.table| == |s.tallies|
    && s.table[h.id].status == Processing
    && (h.verdict.Accepted? ==> EvidenceOk(s, h.id, h.verdict.evidence))
  }

  ghost predicate HoldsOk(s: System) {
    && (forall w :: w in s.workers && s.workers[w].held.Some? ==> HoldOk(s, s.workers[w].held.value))
    && (forall v, w :: v in s.workers && w in s.workers && v != w && s.workers[v].held.Some? && s.workers[w].held.Some? ==>
          s.workers[v].held.value.id != s.workers[w].held.value.id)
  }

  predicate ProofsOk(s: System) {
    && |s.tallies| == |s.table|
    && forall i :: 0 <= i < |s.table| && s.table[i].status == Completed ==> i in s.proofs && EvidenceOk(s, i, s.proofs[i])
  }

  predicate DownMeansIdle(s: System) {
    !s.up ==> s.workers == map[]
  }

  ghost predicate Inv(s: System) {
    KeysUnique(s.table) && RowsOk(s) && HoldsOk(s) && ProofsOk(s) && DownMeansIdle(s)
  }

  // ---------- the invariant is kept by every step ----------

  lemma EnqueueKeepsInv(s: System, input: EnqueueInput)
    requires Inv(s) && Enabled(s, Enqueue(input))
    ensures Inv(AfterEnqueue(s, input))
  {
  }

  lemma ClaimKeepsInv(s: System, w: WorkerId, id: ActionId)
    requires Inv(s) && Enabled(s, Claim(w, id))
    ensures Inv(AfterClaimStep(s, w, id))
  {
  }

  lemma ReceiveKeepsInv(s: System, key: string, event: Broker.WireType, payload: string, allowed: bool, origin: Origin)
    requires Inv(s)
    ensures Inv(Receive(s, key, event, payload, allowed, origin))
  {
  }

  lemma DecidedKeepsInv(s: System, w: WorkerId, verdict: Verdict)
    requires Inv(s) && Holding(s, w)
    requires verdict.Accepted? ==> EvidenceOk(s, s.workers[w].held.value.id, verdict.evidence)
    ensures Inv(Decided(s, w, verdict))
  {
  }

  lemma DeliverKeepsInv(s: System, w: WorkerId, net: Network, allowed: bool)
    requires Inv(s) && Enabled(s, Deliver(w, net, allowed))
    ensures Inv(AfterDeliver(s, w, net, allowed))
  {
    var id := s.workers[w].held.value.id;
    var row, origin := s.table[id], Delivery(id, s.tallies[id].claims);
    var event := EventFor(row.actionType);
    if net == RequestLost {
      DecidedKeepsInv(s, w, Refused);
    } else {
      var received := Receive(s, row.key, event, row.payload, allowed, origin);
      ReceiveKeepsInv(s, row.key, event, row.payload, allowed, origin);
      if net == Answered && Broker.Decide(s.window, row.key, event, s.now, allowed).status in Broker.HTTP_OK {
        Broker.SuccessMeansPublished(s.window, row.key, event, s.now, allowed);
        DecidedKeepsInv(received, w, Accepted(OnBus(|s.bus|)));
      } else {
        DecidedKeepsInv(received, w, Refused);
      }
    }
  }

  lemma EncodeKeepsInv(s: System, w: WorkerId, acked: bool)
    requires Inv(s) && Enabled(s, Encode(w, acked))
    ensures Inv(AfterEncode(s, w, acked))
  {
  }

  lemma MarkKeepsHolds(s: System, w: WorkerId, error: string)
    requires Inv(s) && Enabled(s, Mark(w, error))
    ensures HoldsOk(AfterMark(s, w, error))
  {
    var t, id := AfterMark(s, w, error), s.workers[w].held.value.id;
    forall v | v in t.workers && t.workers[v].held.Some?
      ensures HoldOk(t, t.workers[v].held.value)
    {
      var h := s.workers[v].held.value;
      assert v != w && h.id != id;
      assert HoldOk(s, h);
      assert t.table[h.id] == s.table[h.id];
    }
  }

  lemma MarkKeepsProofs(s: System, w: WorkerId, error: string)
    requires Inv(s) && Enabled(s, Mark(w, error))
    ensures ProofsOk(AfterMark(s, w, error))
  {
    var t, hold := AfterMark(s, w, error), s.workers[w].held.value;
    assert HoldOk(s, hold);
    forall i | 0 <= i < |t.table| && t.table[i].status == Completed
      ensures i in t.proofs && EvidenceOk(t, i, t.proofs[i])
    {
      if i != hold.id {
        assert t.table[i] == s.table[i] && t.proofs[i] == s.proofs[i];
      }
    }
  }

  lemma MarkKeepsInv(s: System, w: WorkerId, error: string)
    requires Inv(s) && Enabled(s, Mark(w, error))
    ensures Inv(AfterMark(s, w, error))
  {
    MarkKeepsHolds(s, w, error);
    MarkKeepsProofs(s, w, error);
    var t, hold := AfterMark(s, w, error), s.workers[w].held.value;
    assert HoldOk(s, hold) && RowOk(s.table[hold.id], s.tallies[hold.id], s.boots);
    forall i | 0 <= i < |t.table|
      ensures t.table[i].key == s.table[i].key && RowOk(t.table[i], t.tallies[i], t.boots)
    {
    }
  }

  lemma BootKeepsInv(s: System)
    requires Inv(s) && Enabled(s, Boot)
    ensures Inv(AfterBoot(s))
  {
  }

  lemma {:induction false} StepKeepsInv(s: System, step: Step)
    requires Inv(s) && Enabled(s, step)
    ensures Inv(Apply(s, step))
  {
    match step
    case Enqueue(input) => EnqueueKeepsInv(s, input);
    case Claim(w, id) => ClaimKeepsInv(s, w, id);
    case Deliver(w, net, allowed) => DeliverKeepsInv(s, w, net, allowed);
    case Encode(w, acked) => EncodeKeepsInv(s, w, acked);
    case Mark(w, error) => MarkKeepsInv(s, w, error);
    case Boot => BootKeepsInv(s);
    case OtherPacket(key, event, payload, allowed) => ReceiveKeepsInv(s, key, event, payload, allowed, Elsewhere);
    case _ =>
  }

  lemma {:induction false} RunKeepsInv(s: System, steps: seq<Step>, t: System)
    requires Inv(s) && Leads(s, steps, t)
    ensures Inv(t)
    decreases |steps|
  {
    if steps != [] {
      StepKeepsInv(s, steps[0]);
      RunKeepsInv(Apply(s, steps[0]), steps[1..], t);
    }
  }

  // ---------- what holds in every run ----------

  /** In every reachable state each row's claims are accounted for, and bounded by the retry budget plus the reboots. */
  lemma {:induction false} ClaimAccounting(steps: seq<Step>, now: int, t: System, i: ActionId)
    requires Reachable(steps, now, t) && i < |t.table|
    ensures |t.tallies| == |t.table|
    ensures var row, tally := t.table[i], t.tallies[i];
            && tally.claims == row.retryCount + tally.requeues + (if row.status == Processing || row.status == Completed then 1 else 0)
            && (row.status != Failed ==> row.retryCount < MAX_RETRY_COUNT)
            && (row.status == Failed ==> 1 <= row.retryCount <= MAX_RETRY_COUNT)
            && tally.claims <= MAX_RETRY_COUNT + tally.requeues <= MAX_RETRY_COUNT + t.boots
  {
    RunKeepsInv(Start(now), steps, t);
    assert RowOk(t.table[i], t.tallies[i], t.boots);
  }

  /** In every reachable state no row is held twice, and every held row is PROCESSING. */
  lemma {:induction false} ExclusiveOwnership(steps: seq<Step>, now: int, t: System, v: WorkerId, w: WorkerId)
    requires Reachable(steps, now, t)
    requires v in t.workers && w in t.workers && t.workers[v].held.Some? && t.workers[w].held.Some?
    ensures t.workers[v].held.value.id == t.workers[w].held.value.id <==> v == w
    ensures t.workers[v].held.value.id < |t.table| && t.table[t.workers[v].held.value.id].status == Processing
  {
    RunKeepsInv(Start(now), steps, t);
    assert HoldOk(t, t.workers[v].held.value);
  }

  /**
   A COMPLETED row was published under its own key, event and payload by the delivery
   made under the row's last claim, or acknowledged by the encoder under that claim.
   */
  lemma {:induction false} CompletionEvidence(steps: seq<Step>, now: int, t: System, i: ActionId)
    requires Reachable(steps, now, t) && i < |t.table| && t.table[i].status == Completed
    ensures |t.tallies| == |t.table|
    ensures var row, last := t.table[i], t.tallies[i].claims;
            || (exists k :: 0 <= k < |t.bus| && t.bus[k].key == row.key && t.bus[k].event == EventFor(row.actionType)
                  && t.bus[k].payload == row.payload && t.bus[k].origin == Delivery(i, last))
            || (row.actionType == RoomKeyGenerate && Ack(i, last) in t.acks)
  {
    RunKeepsInv(Start(now), steps, t);
    assert EvidenceOk(t, i, t.proofs[i]);
  }

  /** An action type without a registered event is never completed, in any run. */
  lemma {:induction false} EtimsNeverCompletes(steps: seq<Step>, now: int, t: System, i: ActionId)
    requires Reachable(steps, now, t) && i < |t.table| && t.table[i].actionType == EtimsInvoice
    ensures t.table[i].status != Completed
  {
    RunKeepsInv(Start(now), steps, t);
  }

  // ---------- what later states keep ----------

  /** Rows keep their place and identity, COMPLETED rows and rows given up are final, history only grows. */
  ghost predicate Evolves(s: System, t: System) {
    && |s.tallies| == |s.table| <= |t.table| == |t.tallies|
    && (forall i :: 0 <= i < |s.table| ==> SameIdentity(s.table[i], t.table[i]))
    && (forall i :: 0 <= i < |s.table| && s.table[i].status == Completed ==> t.table[i] == s.table[i] && t.tallies[i] == s.tallies[i])
    && (forall i :: 0 <= i < |s.table| && GivenUp(s.table[i]) ==> t.table[i] == s.table[i])
    && (forall i :: 0 <= i < |s.table| && s.table[i].status == Completed && i in s.proofs ==>
          i in t.proofs && t.proofs[i] == s.proofs[i])
    && s.bus <= t.bus && s.acks <= t.acks
    && s.now <= t.now && s.epoch <= t.epoch && s.boots <= t.boots
  }

  lemma MarkEvolves(s: System, w: WorkerId, error: string)
    requires Inv(s) && Enabled(s, Mark(w, error))
    ensures Evolves(s, AfterMark(s, w, error))
  {
    assert HoldOk(s, s.workers[w].held.value);
  }

  lemma DeliverEvolves(s: System, w: WorkerId, net: Network, allowed: bool)
    requires Inv(s) && Enabled(s, Deliver(w, net, allowed))
    ensures Evolves(s, AfterDeliver(s, w, net, allowed))
  {
  }

  lemma EncodeEvolves(s: System, w: WorkerId, acked: bool)
    requires Inv(s) && Enabled(s, Encode(w, acked))
    ensures Evolves(s, AfterEncode(s, w, acked))
  {
  }

  lemma EnqueueEvolves(s: System, input: EnqueueInput)
    requires Inv(s) && Enabled(s, Enqueue(input))
    ensures Evolves(s, AfterEnqueue(s, input))
  {
  }

  lemma BootEvolves(s: System)
    requires Inv(s) && Enabled(s, Boot)
    ensures Evolves(s, AfterBoot(s))
  {
  }

  lemma {:induction false} StepEvolves(s: System, step: Step)
    requires Inv(s) && Enabled(s, step)
    ensures Evolves(s, Apply(s, step))
  {
    match step
    case Mark(w, error) => MarkEvolves(s, w, error);
    case Deliver(w, net, allowed) => DeliverEvolves(s, w, net, allowed);
    case Encode(w, acked) => EncodeEvolves(s, w, acked);
    case Enqueue(input) => EnqueueEvolves(s, input);
    case Boot => BootEvolves(s);
    case Claim(w, id) => ClaimEvolves(s, w, id);
    case OtherPacket(key, event, payload, allowed) => ReceiveEvolves(s, key, event, payload, allowed, Elsewhere);
    case _ => IdleEvolves(s, Apply(s, step));
  }

  /** Steps that touch neither rows nor history. */
  lemma IdleEvolves(s: System, t: System)
    requires Inv(s)
    requires t.table == s.table && t.tallies == s.tallies && t.proofs == s.proofs && t.bus == s.bus && t.acks == s.acks
    requires s.now <= t.now && s.epoch <= t.epoch && s.boots <= t.boots
    ensures Evolves(s, t)
  {
  }

  lemma ClaimEvolves(s: System, w: WorkerId, id: ActionId)
    requires Inv(s) && Enabled(s, Claim(w, id))
    ensures Evolves(s, AfterClaimStep(s, w, id))
  {
  }

  lemma ReceiveEvolves(s: System, key: string, event: Broker.WireType, payload: string, allowed: bool, origin: Origin)
    requires Inv(s)
    ensures Evolves(s, Receive(s, key, event, payload, allowed, origin))
  {
  }

  lemma EvolvesTransitive(s: System, t: System, u: System)
    requires Evolves(s, t) && Evolves(t, u)
    ensures Evolves(s, u)
  {
    forall i | 0 <= i < |s.table|
      ensures SameIdentity(s.table[i], u.table[i])
    {
      assert SameIdentity(s.table[i], t.table[i]) && SameIdentity(t.table[i], u.table[i]);
    }
  }

  /** Across every run, crashes and replays included, identities are stable, and COMPLETED and given up are absorbing. */
  lemma {:induction false} RunEvolves(s: System, steps: seq<Step>, t: System)
    requires Inv(s) && Leads(s, steps, t)
    ensures Evolves(s, t)
    decreases |steps|
  {
    if steps != [] {
      StepKeepsInv(s, steps[0]);
      StepEvolves(s, steps[0]);
      RunEvolves(Apply(s, steps[0]), steps[1..], t);
      EvolvesTransitive(s, Apply(s, steps[0]), t);
    }
  }

  /** Enqueuing a key again anywhere later in a run adds no row: the key keeps its first row, with its first payload. */
  lemma {:induction false} ReplayedKeyKeepsFirstRow(s: System, steps: seq<Step>, t: System, i: ActionId, replay: EnqueueInput)
    requires Inv(s) && Leads(s, steps, t) && i < |s.table| && replay.key == s.table[i].key
    ensures AfterEnqueue(t, replay).table == t.table
    ensures i < |t.table| && SameIdentity(s.table[i], t.table[i])
    ensures forall j :: 0 <= j < |t.table| && t.table[j].key == replay.key ==> j == i
  {
    RunKeepsInv(s, steps, t);
    RunEvolves(s, steps, t);
    assert SameIdentity(s.table[i], t.table[i]);
  }

  // ---------- which completed cards an encoder has seen ----------

  /** An encoder has acknowledged the row under its latest claim. */
  predicate Acked(s: System, i: ActionId)
    requires i < |s.tallies|
  {
    Ack(i, s.tallies[i].claims) in s.acks
  }

  predicate AckKnown(s: System, a: Ack) {
    a.id < |s.tallies| && a.claim <= s.tallies[a.id].claims
  }

  predicate HoldAcked(s: System, worker: Worker) {
    worker.held.Some? && worker.held.value.id < |s.tallies| ==>
      && (Acked(s, worker.held.value.id) <==> worker.held.value.verdict.Accepted? && worker.drainer == LockDrain)
      && (worker.held.value.verdict.Accepted? ==> (worker.held.value.verdict.evidence.ByEncoder? <==> worker.drainer == LockDrain))
  }

  predicate ProofAcked(s: System, i: ActionId) {
    i < |s.table| == |s.tallies| && i in s.proofs && s.table[i].status == Completed ==>
      (Acked(s, i) <==> s.proofs[i].ByEncoder?)
  }

  /** Acknowledgements lie in the past, and belong exactly to the acceptances of lock drains. */
  ghost predicate AcksOk(s: System) {
    && (forall a :: a in s.acks ==> AckKnown(s, a))
    && (forall w :: w in s.workers ==> HoldAcked(s, s.workers[w]))
    && (forall i :: 0 <= i < |s.table| ==> ProofAcked(s, i))
  }

  lemma ClaimKeepsAcks(s: System, w: WorkerId, id: ActionId)
    requires Inv(s) && AcksOk(s) && Enabled(s, Claim(w, id))
    ensures AcksOk(AfterClaimStep(s, w, id))
  {
    var t := AfterClaimStep(s, w, id);
    assert !AckKnown(s, Ack(id, t.tallies[id].claims));
    forall v | v in t.workers
      ensures HoldAcked(t, t.workers[v])
    {
      if v != w {
        assert HoldAcked(s, s.workers[v]);
        assert s.workers[v].held.Some? ==> HoldOk(s, s.workers[v].held.value);
      }
    }
    forall i | 0 <= i < |t.table|
      ensures ProofAcked(t, i)
    {
      assert ProofAcked(s, i);
    }
  }

  lemma VerdictKeepsAcks(s: System, w: WorkerId, verdict: Verdict)
    requires Inv(s) && AcksOk(s) && Holding(s, w) && s.workers[w].held.value.verdict == Undecided
    requires verdict.Accepted? ==> s.workers[w].drainer == SyncFlush && verdict.evidence.OnBus?
    ensures AcksOk(Decided(s, w, verdict))
  {
    assert HoldAcked(s, s.workers[w]);
    forall i | 0 <= i < |s.table|
      ensures ProofAcked(Decided(s, w, verdict), i)
    {
      assert ProofAcked(s, i);
    }
  }

  lemma DeliverKeepsAcks(s: System, w: WorkerId, net: Network, allowed: bool)
    requires Inv(s) && AcksOk(s) && Enabled(s, Deliver(w, net, allowed))
    ensures AcksOk(AfterDeliver(s, w, net, allowed))
  {
    var t := AfterDeliver(s, w, net, allowed);
    var verdict := t.workers[w].held.value.verdict;
    VerdictKeepsAcks(s, w, verdict);
    IdleKeepsAcks(Decided(s, w, verdict), t);
  }

  /** Steps that touch no row, claim or acknowledgement keep it; workers may leave, or come with empty hands. */
  lemma IdleKeepsAcks(s: System, t: System)
    requires AcksOk(s)
    requires t.table == s.table && t.tallies == s.tallies && t.acks == s.acks && t.proofs == s.proofs
    requires forall w :: w in t.workers && t.workers[w].held.Some? ==> w in s.workers && t.workers[w] == s.workers[w]
    ensures AcksOk(t)
  {
    forall a | a in t.acks
      ensures AckKnown(t, a)
    {
      assert AckKnown(s, a);
    }
    forall w | w in t.workers
      ensures HoldAcked(t, t.workers[w])
    {
      assert t.workers[w].held.Some? ==> HoldAcked(s, s.workers[w]);
    }
    forall i | 0 <= i < |t.table|
      ensures ProofAcked(t, i)
    {
      assert ProofAcked(s, i);
    }
  }

  lemma EncodeKeepsAcks(s: System, w: WorkerId, acked: bool)
    requires Inv(s) && AcksOk(s) && Enabled(s, Encode(w, acked))
    ensures AcksOk(AfterEncode(s, w, acked))
  {
    if !acked {
      VerdictKeepsAcks(s, w, Refused);
      return;
    }
    var t, id := AfterEncode(s, w, acked), s.workers[w].held.value.id;
    assert HoldOk(s, s.workers[w].held.value);
    assert t.acks[|s.acks|] == Ack(id, t.tallies[id].claims);
    forall a | a in t.acks
      ensures AckKnown(t, a)
    {
      assert a in s.acks ==> AckKnown(s, a);
    }
    forall v | v in t.workers
      ensures HoldAcked(t, t.workers[v])
    {
      if v != w {
        assert HoldAcked(s, s.workers[v]);
      }
    }
    forall i | 0 <= i < |t.table|
      ensures ProofAcked(t, i)
    {
      assert ProofAcked(s, i);
    }
  }

  lemma MarkKeepsAcks(s: System, w: WorkerId, error: string)
    requires Inv(s) && AcksOk(s) && Enabled(s, Mark(w, error))
    ensures AcksOk(AfterMark(s, w, error))
  {
    var t := AfterMark(s, w, error);
    assert HoldAcked(s, s.workers[w]) && HoldOk(s, s.workers[w].held.value);
    forall v | v in t.workers
      ensures HoldAcked(t, t.workers[v])
    {
      assert HoldAcked(s, s.workers[v]);
    }
    forall i | 0 <= i < |t.table|
      ensures ProofAcked(t, i)
    {
      assert ProofAcked(s, i);
    }
  }

  lemma EnqueueKeepsAcks(s: System, input: EnqueueInput)
    requires Inv(s) && AcksOk(s) && Enabled(s, Enqueue(input))
    ensures AcksOk(AfterEnqueue(s, input))
  {
    var t := AfterEnqueue(s, input);
    forall a | a in t.acks
      ensures AckKnown(t, a)
    {
      assert AckKnown(s, a);
    }
    forall v | v in t.workers
      ensures HoldAcked(t, t.workers[v])
    {
      assert HoldAcked(s, s.workers[v]);
      assert s.workers[v].held.Some? ==> HoldOk(s, s.workers[v].held.value);
    }
    forall i | 0 <= i < |t.table|
      ensures ProofAcked(t, i)
    {
      if i < |s.table| {
        assert ProofAcked(s, i);
      }
    }
  }

  lemma BootKeepsAcks(s: System)
    requires Inv(s) && AcksOk(s) && Enabled(s, Boot)
    ensures AcksOk(AfterBoot(s))
  {
    var t := AfterBoot(s);
    forall i | 0 <= i < |t.table|
      ensures ProofAcked(t, i)
    {
      assert ProofAcked(s, i) && t.tallies[i].claims == s.tallies[i].claims;
    }
    forall a | a in t.acks
      ensures AckKnown(t, a)
    {
      assert AckKnown(s, a);
    }
  }

  lemma {:induction false} StepKeepsAcks(s: System, step: Step)
    requires Inv(s) && AcksOk(s) && Enabled(s, step)
    ensures AcksOk(Apply(s, step))
  {
    match step
    case Enqueue(input) => EnqueueKeepsAcks(s, input);
    case Claim(w, id) => ClaimKeepsAcks(s, w, id);
    case Deliver(w, net, allowed) => DeliverKeepsAcks(s, w, net, allowed);
    case Encode(w, acked) => EncodeKeepsAcks(s, w, acked);
    case Mark(w, error) => MarkKeepsAcks(s, w, error);
    case Boot => BootKeepsAcks(s);
    case _ => IdleKeepsAcks(s, Apply(s, step));
  }

  lemma {:induction false} RunKeepsAcks(s: System, steps: seq<Step>, t: System)
    requires Inv(s) && AcksOk(s) && Leads(s, steps, t)
    ensures AcksOk(t)
    decreases |steps|
  {
    if steps != [] {
      StepKeepsInv(s, steps[0]);
      StepKeepsAcks(s, steps[0]);
      RunKeepsAcks(Apply(s, steps[0]), steps[1..], t);
    }
  }

  /**
   Whoever completes a row decides for good whether an encoder has seen it: in every run,
   and in whatever follows it, a row is COMPLETED with an acknowledgement under its last
   claim if and only if the worker that marked it was a lock drain.
   */
  lemma {:induction false} EncodedExactlyByLockDrain(steps: seq<Step>, now: int, s: System, w: WorkerId, error: string,
                                                     after: seq<Step>, t: System)
    requires Reachable(steps, now, s) && Enabled(s, Mark(w, error)) && s.workers[w].held.value.verdict.Accepted?
    requires Leads(Apply(s, Mark(w, error)), after, t)
    ensures var i := s.workers[w].held.value.id;
            && i < |t.table| == |t.tallies| && t.table[i].status == Completed
            && (Ack(i, t.tallies[i].claims) in t.acks <==> s.workers[w].drainer == LockDrain)
  {
    var u, i := Apply(s, Mark(w, error)), s.workers[w].held.value.id;
    RunKeepsInv(Start(now), steps, s);
    RunKeepsAcks(Start(now), steps, s);
    StepKeepsInv(s, Mark(w, error));
    StepKeepsAcks(s, Mark(w, error));
    RunKeepsInv(u, after, t);
    RunKeepsAcks(u, after, t);
    RunEvolves(u, after, t);
    assert HoldAcked(s, s.workers[w]);
    assert u.table[i].status == Completed && ProofAcked(u, i) && ProofAcked(t, i);
  }

  // ---------- rows nobody will finish ----------

  /**
   PROCESSING without a holder: left by a crash, claimed by a flush that had reached its
   ceiling, or in a lock drain that ended because the encode threw.
   */
  ghost predicate Orphan(s: System, i: ActionId) {
    && i < |s.table|
    && s.table[i].status == Processing
    && forall w :: w in s.workers && s.workers[w].held.Some? ==> s.workers[w].held.value.id != i
  }

  /** Only a boot can free an orphan, and it does so exactly when the row was last touched more than 30 s before. */
  lemma {:induction false} OrphanWaitsForBoot(s: System, step: Step, i: ActionId)
    requires Inv(s) && Enabled(s, step) && Orphan(s, i)
    ensures Orphan(Apply(s, step), i) <==> !(step.Boot? && s.table[i].updatedAt < s.now - STALE_MS)
    ensures Orphan(Apply(s, step), i) ==> Apply(s, step).table[i] == s.table[i]
  {
    if step.Mark? {
      assert HoldOk(s, s.workers[step.w].held.value);
    }
  }

  /** In every reachable state, a boot takes a row out of PROCESSING if and only if its last claim is more than 30 s old. */
  lemma {:induction false} BootFreesOldClaims(steps: seq<Step>, now: int, t: System, i: ActionId)
    requires Reachable(steps, now, t) && Enabled(t, Boot) && i < |t.table| && t.table[i].status == Processing
    ensures |t.tallies| == |t.table|
    ensures AfterBoot(t).table[i].status == if t.now - t.tallies[i].claimedAt > 30_000 then Pending else Processing
  {
    RunKeepsInv(Start(now), steps, t);
    assert RowOk(t.table[i], t.tallies[i], t.boots);
  }

  /** A row claimed just before a crash is free after the next boot if and only if that comes more than 30 s later. */
  lemma {:induction false} CrashedClaimWaits(s: System, w: WorkerId, i: ActionId, ms: nat)
    requires Inv(s) && s.up && Enabled(s, Claim(w, i))
    ensures var crashed := Apply(Apply(s, Claim(w, i)), Crash);
            Apply(Apply(crashed, Tick(ms)), Boot).table[i].status == if ms > 30_000 then Pending else Processing
  {
    ClaimKeepsInv(s, w, i);
  }

  /** Without a boot an orphan stays one, unchanged, through any run. */
  lemma {:induction false} OrphanStays(s: System, steps: seq<Step>, t: System, i: ActionId)
    requires Inv(s) && Leads(s, steps, t) && Orphan(s, i)
    requires Boot !in steps
    ensures Orphan(t, i) && t.table[i] == s.table[i]
    decreases |steps|
  {
    if steps != [] {
      OrphanWaitsForBoot(s, steps[0], i);
      StepKeepsInv(s, steps[0]);
      OrphanStays(Apply(s, steps[0]), steps[1..], t, i);
    }
  }

  /** A flush that gives up at the ceiling, like a drain whose encode throws, leaves the row just claimed as an orphan. */
  lemma AbandonOrphans(s: System, w: WorkerId)
    requires Inv(s) && Enabled(s, Abandon(w))
    ensures Orphan(Apply(s, Abandon(w)), s.workers[w].held.value.id)
  {
    assert HoldOk(s, s.workers[w].held.value);
  }

  /** A crash orphans exactly the rows in flight. */
  lemma CrashOrphans(s: System, i: ActionId)
    requires Inv(s) && s.up && i < |s.table|
    ensures Orphan(Apply(s, Crash), i) <==> s.table[i].status == Processing
  {
  }

  // ---------- duplicates on the bus ----------

  /** Every publish of this broker lifetime is still remembered, superseded, or over a minute old. */
  predicate WindowCovers(s: System) {
    && (forall a :: 0 <= a < |s.bus| ==> s.bus[a].at <= s.now && s.bus[a].epoch <= s.epoch)
    && (forall a :: 0 <= a < |s.bus| && s.bus[a].epoch == s.epoch && s.bus[a].key != "" ==>
          (s.bus[a].key in s.window && s.window[s.bus[a].key].at >= s.bus[a].at) || s.now - s.bus[a].at > Broker.WINDOW_MS)
  }

  /** Publishes of one key within one broker lifetime are at least a minute apart. */
  predicate Spaced(bus: seq<Published>) {
    forall a, b :: 0 <= a < b < |bus| && bus[a].key == bus[b].key != "" && bus[a].epoch == bus[b].epoch ==>
      bus[b].at - bus[a].at >= Broker.WINDOW_MS
  }

  lemma ReceiveKeepsSpacing(s: System, key: string, event: Broker.WireType, payload: string, allowed: bool, origin: Origin)
    requires WindowCovers(s) && Spaced(s.bus)
    ensures WindowCovers(Receive(s, key, event, payload, allowed, origin))
    ensures Spaced(Receive(s, key, event, payload, allowed, origin).bus)
  {
    var t := Receive(s, key, event, payload, allowed, origin);
    if t.bus != s.bus {
      assert key != "" ==> !Broker.Remembered(s.window, key, s.now);
    }
  }

  lemma DeliverKeepsSpacing(s: System, w: WorkerId, net: Network, allowed: bool)
    requires Enabled(s, Deliver(w, net, allowed)) && WindowCovers(s) && Spaced(s.bus)
    ensures WindowCovers(AfterDeliver(s, w, net, allowed)) && Spaced(AfterDeliver(s, w, net, allowed).bus)
  {
    var id := s.workers[w].held.value.id;
    var row, origin := s.table[id], Delivery(id, s.tallies[id].claims);
    var received := Receive(s, row.key, EventFor(row.actionType), row.payload, allowed, origin);
    var t := AfterDeliver(s, w, net, allowed);
    ReceiveKeepsSpacing(s, row.key, EventFor(row.actionType), row.payload, allowed, origin);
    assert t.now == s.now && t.epoch == s.epoch;
    assert if net == RequestLost then t.bus == s.bus && t.window == s.window
      else t.bus == received.bus && t.window == received.window;
  }

  lemma {:induction false} StepKeepsSpacing(s: System, step: Step)
    requires Inv(s) && Enabled(s, step) && WindowCovers(s) && Spaced(s.bus)
    ensures WindowCovers(Apply(s, step)) && Spaced(Apply(s, step).bus)
  {
    match step
    case Deliver(w, net, allowed) =>
      DeliverKeepsSpacing(s, w, net, allowed);
    case OtherPacket(key, event, payload, allowed) =>
      ReceiveKeepsSpacing(s, key, event, payload, allowed, Elsewhere);
    case _ =>
  }

  lemma {:induction false} RunKeepsSpacing(s: System, steps: seq<Step>, t: System)
    requires Inv(s) && Leads(s, steps, t) && WindowCovers(s) && Spaced(s.bus)
    ensures Spaced(t.bus)
    decreases |steps|
  {
    if steps != [] {
      StepKeepsInv(s, steps[0]);
      StepKeepsSpacing(s, steps[0]);
      RunKeepsSpacing(Apply(s, steps[0]), steps[1..], t);
    }
  }

  /** Over the whole system, one key is not published twice within a minute of one broker lifetime. */
  lemma {:induction false} PublishesAreSpaced(steps: seq<Step>, now: int, t: System)
    requires Reachable(steps, now, t)
    ensures Spaced(t.bus)
  {
    RunKeepsSpacing(Start(now), steps, t);
  }

  // ---------- exactly when the bus hears of it again ----------

  /** The remembered time of a key is that of a publish in this broker lifetime. */
  ghost predicate Backed(s: System, key: string) {
    key in s.window ==>
      exists a :: 0 <= a < |s.bus| && s.bus[a].key == key && s.bus[a].epoch == s.epoch && s.bus[a].at == s.window[key].at
  }

  ghost predicate WindowBacked(s: System) {
    forall key :: Backed(s, key)
  }

  lemma ReceiveKeepsBacked(s: System, key: string, event: Broker.WireType, payload: string, allowed: bool, origin: Origin)
    requires WindowBacked(s)
    ensures WindowBacked(Receive(s, key, event, payload, allowed, origin))
  {
    var t := Receive(s, key, event, payload, allowed, origin);
    forall k
      ensures Backed(t, k)
    {
      assert Backed(s, k);
      if k in t.window {
        if k in s.window && t.window[k] == s.window[k] {
          var a :| 0 <= a < |s.bus| && s.bus[a].key == k && s.bus[a].epoch == s.epoch && s.bus[a].at == s.window[k].at;
          assert t.bus[a] == s.bus[a];
        } else {
          assert t.bus[|s.bus|].key == k;
        }
      }
    }
  }

  lemma SameBusKeepsBacked(s: System, t: System)
    requires WindowBacked(s) && t.bus == s.bus && t.epoch == s.epoch && t.window == s.window
    ensures WindowBacked(t)
  {
    forall key
      ensures Backed(t, key)
    {
      assert Backed(s, key);
    }
  }

  lemma {:induction false} StepKeepsBacked(s: System, step: Step)
    requires Inv(s) && Enabled(s, step) && WindowBacked(s)
    ensures WindowBacked(Apply(s, step))
  {
    match step
    case Deliver(w, net, allowed) =>
      var id := s.workers[w].held.value.id;
      var row, origin := s.table[id], Delivery(id, s.tallies[id].claims);
      ReceiveKeepsBacked(s, row.key, EventFor(row.actionType), row.payload, allowed, origin);
      var received := Receive(s, row.key, EventFor(row.actionType), row.payload, allowed, origin);
      SameBusKeepsBacked(if net == RequestLost then s else received, Apply(s, step));
    case OtherPacket(key, event, payload, allowed) =>
      ReceiveKeepsBacked(s, key, event, payload, allowed, Elsewhere);
    case BrokerRestart =>
    case Crash =>
    case _ => SameBusKeepsBacked(s, Apply(s, step));
  }

  lemma {:induction false} RunKeepsWindow(s: System, steps: seq<Step>, t: System)
    requires Inv(s) && Leads(s, steps, t) && WindowCovers(s) && Spaced(s.bus) && WindowBacked(s)
    ensures WindowCovers(t) && WindowBacked(t)
    decreases |steps|
  {
    if steps != [] {
      StepKeepsInv(s, steps[0]);
      StepKeepsSpacing(s, steps[0]);
      StepKeepsBacked(s, steps[0]);
      RunKeepsWindow(Apply(s, steps[0]), steps[1..], t);
    }
  }

  /** The running broker has published this key less than a minute ago. */
  predicate PublishedLately(s: System, key: string) {
    exists a :: 0 <= a < |s.bus| && s.bus[a].key == key && s.bus[a].epoch == s.epoch && s.now - s.bus[a].at < Broker.WINDOW_MS
  }

  /**
   In every run, a packet reaches the bus if and only if it is let through, its event is
   registered, and the same key was not published by this very broker process within the
   last minute. So an action is published again by every retry that comes a minute later
   or after a restart.
   */
  lemma {:induction false} PublishedExactlyWhenQuiet(steps: seq<Step>, now: int, s: System, key: string,
                                                     event: Broker.WireType, payload: string, allowed: bool, origin: Origin)
    requires Reachable(steps, now, s)
    ensures Receive(s, key, event, payload, allowed, origin).bus ==
            if allowed && event.Registered? && (key == "" || !PublishedLately(s, key))
            then s.bus + [Published(key, event, payload, origin, s.now, s.epoch)] else s.bus
  {
    RunKeepsWindow(Start(now), steps, s);
    assert Backed(s, key);
  }

  // ---------- runs that fall short of the store's documentation ----------

  lemma {:induction false} Extend(s: System, steps: seq<Step>, t: System, step: Step)
    requires Leads(s, steps, t) && Enabled(t, step)
    ensures Leads(s, steps + [step], Apply(t, step))
    decreases |steps|
  {
    if steps == [] {
      assert [step][1..] == [];
    } else {
      Extend(Apply(s, steps[0]), steps[1..], t, step);
      assert (steps + [step])[1..] == steps[1..] + [step];
    }
  }

  /** Boot, enqueue one action, start a flush and claim the row. */
  function Opening(input: EnqueueInput): seq<Step> {
    [Boot, Enqueue(input), Spawn(0, SyncFlush), Claim(0, 0)]
  }

  lemma {:induction false} OpeningRuns(input: EnqueueInput) returns (s: System)
    ensures Reachable(Opening(input), 0, s)
    ensures s.now == 0 && s.up && s.table == [NewAction(input, 0).(status := Processing)]
    ensures s.workers == map[0 := Worker(SyncFlush, 0, Some(Hold(0, Undecided)))]
    ensures s.window == map[] && s.bus == [] && s.acks == [] && s.tallies == [Tally(1, 0, 0)]
  {
    var s0 := Start(0);
    var s1 := Apply(s0, Boot);
    Extend(s0, [], s0, Boot);
    var s2 := Apply(s1, Enqueue(input));
    Extend(s0, [Boot], s1, Enqueue(input));
    var s3 := Apply(s2, Spawn(0, SyncFlush));
    Extend(s0, [Boot, Enqueue(input)], s2, Spawn(0, SyncFlush));
    s := Apply(s3, Claim(0, 0));
    Extend(s0, [Boot, Enqueue(input), Spawn(0, SyncFlush)], s3, Claim(0, 0));
    assert [] + [Boot] == [Boot];
    assert [Boot, Enqueue(input), Spawn(0, SyncFlush)] + [Claim(0, 0)] == Opening(input);
  }

  /** A key-card row can be COMPLETED by the sync engine with no encoder ever involved. */
  lemma {:induction false} KeycardCompletedWithoutEncoder(payload: string) returns (steps: seq<Step>, t: System)
    ensures Reachable(steps, 0, t)
    ensures |t.table| == 1 && t.table[0].actionType == RoomKeyGenerate && t.table[0].status == Completed
    ensures t.acks == []
  {
    var input := EnqueueInput(RoomKeyGenerate, payload, "lock:1:101");
    var s := OpeningRuns(input);
    var s' := Apply(s, Deliver(0, Answered, true));
    Extend(Start(0), Opening(input), s, Deliver(0, Answered, true));
    t := Apply(s', Mark(0, ""));
    steps := Opening(input) + [Deliver(0, Answered, true)] + [Mark(0, "")];
    Extend(Start(0), Opening(input) + [Deliver(0, Answered, true)], s', Mark(0, ""));
  }

  /** The first delivery is published but its reply is lost, so the worker takes it as refused. */
  lemma {:induction false} FirstReplyLost(input: EnqueueInput) returns (steps: seq<Step>, s: System)
    requires EventFor(input.actionType).Registered?
    ensures Reachable(steps, 0, s)
    ensures s.now == 0 && s.table == [NewAction(input, 0).(status := Processing)] && s.tallies == [Tally(1, 0, 0)]
    ensures s.workers == map[0 := Worker(SyncFlush, 0, Some(Hold(0, Refused)))]
    ensures |s.bus| == 1 && s.bus[0].origin == Delivery(0, 1) && s.bus[0].epoch == s.epoch
    ensures input.key in s.window ==> s.window[input.key].at == 0
  {
    var s0 := OpeningRuns(input);
    s := Apply(s0, Deliver(0, ReplyLost, true));
    Extend(Start(0), Opening(input), s0, Deliver(0, ReplyLost, true));
    steps := Opening(input) + [Deliver(0, ReplyLost, true)];
  }

  /** So the row fails; then a minute passes. */
  lemma {:induction false} MinuteAfterLostReply(input: EnqueueInput) returns (steps: seq<Step>, s: System)
    requires EventFor(input.actionType).Registered?
    ensures Reachable(steps, 0, s)
    ensures s.now == 60_000 && s.workers == map[0 := Worker(SyncFlush, 1, None)]
    ensures s.table == [NewAction(input, 0).(status := Failed, retryCount := 1, lastError := Some(""))]
    ensures s.tallies == [Tally(1, 0, 0)]
    ensures |s.bus| == 1 && s.bus[0].origin == Delivery(0, 1) && s.bus[0].epoch == s.epoch
    ensures !Broker.Remembered(s.window, input.key, s.now)
  {
    var before: System;
    steps, before := FirstReplyLost(input);
    var marked := Apply(before, Mark(0, ""));
    Extend(Start(0), steps, before, Mark(0, ""));
    steps := steps + [Mark(0, "")];
    s := Apply(marked, Tick(60_000));
    Extend(Start(0), steps, marked, Tick(60_000));
    steps := steps + [Tick(60_000)];
  }

  /** Delivery is at least once: with the first reply lost and a minute gone, one action is published twice. */
  lemma {:induction false} LostReplyPublishesTwice(input: EnqueueInput) returns (steps: seq<Step>, t: System)
    requires EventFor(input.actionType).Registered?
    ensures Reachable(steps, 0, t)
    ensures |t.table| == 1 && |t.bus| == 2
    ensures t.bus[0].origin == Delivery(0, 1) && t.bus[1].origin == Delivery(0, 2) && t.bus[0].epoch == t.bus[1].epoch
  {
    var s: System;
    steps, s := MinuteAfterLostReply(input);
    assert IsNext(s.table, 0);
    var s' := Apply(s, Claim(0, 0));
    Extend(Start(0), steps, s, Claim(0, 0));
    steps := steps + [Claim(0, 0)];
    t := Apply(s', Deliver(0, Answered, true));
    Extend(Start(0), steps, s', Deliver(0, Answered, true));
    steps := steps + [Deliver(0, Answered, true)];
  }
  /** So the row fails; then the broker restarts. */
  lemma {:induction false} RestartAfterLostReply(input: EnqueueInput) returns (steps: seq<Step>, s: System)
    requires EventFor(input.actionType).Registered?
    ensures Reachable(steps, 0, s)
    ensures s.now == 0 && s.workers == map[0 := Worker(SyncFlush, 1, None)]
    ensures s.table == [NewAction(input, 0).(status := Failed, retryCount := 1, lastError := Some(""))]
    ensures s.tallies == [Tally(1, 0, 0)] && s.window == map[]
    ensures |s.bus| == 1 && s.bus[0].origin == Delivery(0, 1) && s.bus[0].epoch < s.epoch
  {
    var before: System;
    steps, before := FirstReplyLost(input);
    var marked := Apply(before, Mark(0, ""));
    Extend(Start(0), steps, before, Mark(0, ""));
    steps := steps + [Mark(0, "")];
    s := Apply(marked, BrokerRestart);
    Extend(Start(0), steps, marked, BrokerRestart);
    steps := steps + [BrokerRestart];
  }

  /** The same row delivered before and after a restart of the broker is published twice with no time passing. */
  lemma {:induction false} RestartPublishesTwice(input: EnqueueInput) returns (steps: seq<Step>, t: System)
    requires EventFor(input.actionType).Registered?
    ensures Reachable(steps, 0, t) && t.now == 0
    ensures |t.table| == 1 && |t.bus| == 2
    ensures t.bus[0].origin == Delivery(0, 1) && t.bus[1].origin == Delivery(0, 2) && t.bus[0].epoch != t.bus[1].epoch
  {
    var s: System;
    steps, s := RestartAfterLostReply(input);
    assert IsNext(s.table, 0);
    var s' := Apply(s, Claim(0, 0));
    Extend(Start(0), steps, s, Claim(0, 0));
    steps := steps + [Claim(0, 0)];
    t := Apply(s', Deliver(0, Answered, true));
    Extend(Start(0), steps, s', Deliver(0, Answered, true));
    steps := steps + [Deliver(0, Answered, true)];
  }
}
