/**
 The door-lock bridge: live encodes guarded by a circuit breaker per encoder, the
 fall-back into the offline queue, and the background drain of that queue.
 */
module LockBridge {
  import opened Wrappers
  import opened OfflineStore
  import opened QueueDrains
  import CircuitBreakers

  datatype Channel = Tcp | Serial

  datatype Device = Device(channel: Channel, online: bool)

  datatype EncodeRequest = EncodeRequest(deviceId: string, roomNumber: string, credential: string)

  /** Everything the bridge keeps, and how many times it has been outside: to the clock or to an encoder. */
  datatype Bridge = Bridge(
    devices: map<string, Device>,
    channels: set<Channel>,
    breakers: map<string, CircuitBreakers.Breaker>,
    trips: nat)

  /** An encode is acknowledged, refused or left without answer, or throws, as it does for an endpoint with a malformed port. */
  datatype Answer = Acknowledged | Failing | Thrown

  /**
   The outside: the time and the encoder's answer at each trip, and the JSON of a
   request with its decoding.
   */
  datatype World = World(
    clock: nat -> int,
    answer: nat -> Answer,
    render: EncodeRequest -> string,
    parse: string -> EncodeRequest)

  const POLICY := CircuitBreakers.DEFAULT_POLICY

  const NOT_OURS := "non-lock action removed from lock drain"
  const NO_DEVICE := "encoder device no longer registered"
  const NOT_ALLOWED := "breaker open / no adapter \U{2014} will retry on next pass"
  const STILL_OFFLINE := "encoder still offline"

  function BreakerOf(b: Bridge, deviceId: string): CircuitBreakers.Breaker {
    if deviceId in b.breakers then b.breakers[deviceId] else CircuitBreakers.FRESH
  }

  /** The encode reaches the wire: the device's channel has an adapter and its breaker allows it. */
  predicate CanTry(w: World, b: Bridge, deviceId: string)
    requires deviceId in b.devices
  {
    b.devices[deviceId].channel in b.channels
    && CircuitBreakers.Allows(BreakerOf(b, deviceId), POLICY, w.clock(b.trips))
  }

  /** The bridge after asking the breaker; a missing adapter is noticed before the breaker is asked. */
  function AfterAsking(w: World, b: Bridge, deviceId: string): Bridge
    requires deviceId in b.devices
  {
    var breaker := BreakerOf(b, deviceId);
    var asked := if b.devices[deviceId].channel in b.channels
      then CircuitBreakers.AfterAsk(breaker, POLICY, w.clock(b.trips)) else breaker;
    b.(breakers := b.breakers[deviceId := asked], trips := b.trips + 1)
  }

  /** The bridge after an attempt on the wire. One that throws reports to nobody. */
  function AfterWire(w: World, b: Bridge, deviceId: string): Bridge
    requires deviceId in b.devices && deviceId in b.breakers
  {
    var gone := b.(trips := b.trips + 1);
    match w.answer(b.trips)
    case Acknowledged =>
      gone.(breakers := b.breakers[deviceId := CircuitBreakers.AfterSuccess(b.breakers[deviceId])],
            devices := b.devices[deviceId := b.devices[deviceId].(online := true)])
    case Failing =>
      gone.(breakers := b.breakers[deviceId := CircuitBreakers.AfterFailure(b.breakers[deviceId], POLICY, w.clock(b.trips))],
            devices := b.devices[deviceId := b.devices[deviceId].(online := false)])
    case Thrown => gone
  }

  /** The same devices on the same channels. */
  predicate SameWiring(b: Bridge, b': Bridge) {
    && b'.channels == b.channels && b'.devices.Keys == b.devices.Keys
    && forall d :: d in b.devices ==> b'.devices[d].channel == b.devices[d].channel
  }

  /** One encode for a known device, live or from the queue: ask the breaker, and attempt if it allows. */
  function AfterTry(w: World, b: Bridge, deviceId: string): (b': Bridge)
    requires deviceId in b.devices
    ensures SameWiring(b, b') && b'.trips == b.trips + if CanTry(w, b, deviceId) then 2 else 1
    ensures forall d :: d != deviceId ==> BreakerOf(b', d) == BreakerOf(b, d)
  {
    var asked := AfterAsking(w, b, deviceId);
    if CanTry(w, b, deviceId) then AfterWire(w, asked, deviceId) else asked
  }

  function DeviceOf(w: World, a: Action): string { w.parse(a.payload).deviceId }

  /** The row gets as far as the encoder of its device. */
  predicate ReachesEncoder(w: World, b: Bridge, a: Action) {
    a.actionType == RoomKeyGenerate && DeviceOf(w, a) in b.devices && CanTry(w, b, DeviceOf(w, a))
  }

  /** What the drain does with one claimed row, and what it tells the table if it lives to do so. */
  function Attempt(w: World, b: Bridge, a: Action): Reply<Bridge> {
    var deviceId := DeviceOf(w, a);
    if a.actionType != RoomKeyGenerate then Reply(false, NOT_OURS, b)
    else if deviceId !in b.devices then Reply(false, NO_DEVICE, b)
    else if !CanTry(w, b, deviceId) then Reply(false, NOT_ALLOWED, AfterTry(w, b, deviceId))
    else
      var ok := w.answer(b.trips + 1) == Acknowledged;
      Reply(ok, if ok then "" else STILL_OFFLINE, AfterTry(w, b, deviceId))
  }

  /** The encode of a claimed row throws. */
  predicate Throws(w: World, b: Bridge, a: Action) {
    ReachesEncoder(w, b, a) && w.answer(b.trips + 1) == Thrown
  }

  ghost predicate SameElsewhere(b: Bridge, b': Bridge, deviceId: string) {
    && b'.channels == b.channels && b'.devices.Keys == b.devices.Keys
    && (forall d :: d in b.devices && d != deviceId ==> b'.devices[d] == b.devices[d])
    && (forall d :: d != deviceId ==> BreakerOf(b', d) == BreakerOf(b, d))
  }

  /**
   A row is delivered if and only if it is a lock row whose device is known and may be
   tried, and the encoder acknowledges. Nothing about any other device changes, and the
   row's own device changes only when its breaker is asked.
   */
  lemma {:induction false} AttemptMeans(w: World, b: Bridge, a: Action)
    ensures var reply := Attempt(w, b, a);
            && (reply.ok <==> ReachesEncoder(w, b, a) && w.answer(b.trips + 1) == Acknowledged)
            && SameElsewhere(b, reply.next, DeviceOf(w, a))
            && (a.actionType != RoomKeyGenerate || DeviceOf(w, a) !in b.devices ==> reply.next == b)
            && (reply.ok ==> reply.next.devices[DeviceOf(w, a)].online && BreakerOf(reply.next, DeviceOf(w, a)) == CircuitBreakers.Breaker(
                  CircuitBreakers.Closed, 0, BreakerOf(b, DeviceOf(w, a)).openedAt))
            && (ReachesEncoder(w, b, a) && w.answer(b.trips + 1) == Failing ==> !reply.next.devices[DeviceOf(w, a)].online)
            && (!ReachesEncoder(w, b, a) || Throws(w, b, a) ==> reply.next.devices == b.devices)
  {
  }

  // ---------- an encoder that never answers ----------

  ghost predicate ClockForward(w: World) {
    forall m, n :: 0 <= m <= n ==> w.clock(m) <= w.clock(n)
  }

  predicate AllKnown(b: Bridge, ids: seq<string>) {
    forall n :: 0 <= n < |ids| ==> ids[n] in b.devices
  }

  /** The bridge after encodes for the devices `ids`, one after the other. */
  function AfterTries(w: World, b: Bridge, ids: seq<string>): (b': Bridge)
    requires AllKnown(b, ids)
    ensures SameWiring(b, b') && b'.trips >= b.trips
  {
    if ids == [] then b else AfterTry(w, AfterTries(w, b, ids[..|ids| - 1]), ids[|ids| - 1])
  }

  /** How many of the encodes reach the encoder of `d`. */
  function WireTries(w: World, b: Bridge, ids: seq<string>, d: string): nat
    requires AllKnown(b, ids)
  {
    if ids == [] then 0
    else
      var init, last := ids[..|ids| - 1], ids[|ids| - 1];
      WireTries(w, b, init, d) + if last == d && CanTry(w, AfterTries(w, b, init), d) then 1 else 0
  }

  /** Every encode that reaches the encoder of `d` gets this answer. */
  predicate AlwaysAnswers(w: World, b: Bridge, ids: seq<string>, d: string, answer: Answer)
    requires AllKnown(b, ids)
  {
    ids == [] ||
    var init, last := ids[..|ids| - 1], ids[|ids| - 1];
    var before := AfterTries(w, b, init);
    AlwaysAnswers(w, b, init, d, answer) && (last == d && CanTry(w, before, d) ==> w.answer(before.trips + 1) == answer)
  }

  /** The encodes for `d` as polls of its breaker. */
  function PollsOf(w: World, b: Bridge, ids: seq<string>, d: string): seq<CircuitBreakers.Poll>
    requires AllKnown(b, ids)
  {
    if ids == [] then []
    else
      var init, last := ids[..|ids| - 1], ids[|ids| - 1];
      var t := AfterTries(w, b, init).trips;
      PollsOf(w, b, init, d) + if last == d then [CircuitBreakers.Poll(w.clock(t), w.clock(t + 1))] else []
  }

  lemma TryIsPoll(w: World, b: Bridge, d: string)
    requires d in b.devices && b.devices[d].channel in b.channels
    requires CanTry(w, b, d) ==> w.answer(b.trips + 1) == Failing
    ensures var poll := CircuitBreakers.Poll(w.clock(b.trips), w.clock(b.trips + 1));
            && BreakerOf(AfterTry(w, b, d), d) == CircuitBreakers.AfterPoll(BreakerOf(b, d), POLICY, poll)
            && (CanTry(w, b, d) <==> CircuitBreakers.Allows(BreakerOf(b, d), POLICY, poll.asked))
  {
  }

  /** From the breaker `first` on, these polls lead to `now` with so many attempts on the wire. */
  predicate Leads(first: CircuitBreakers.Breaker, polls: seq<CircuitBreakers.Poll>, now: CircuitBreakers.Breaker, tries: nat) {
    && now == CircuitBreakers.AfterPolls(first, POLICY, polls, |polls|)
    && tries == CircuitBreakers.Attempts(first, POLICY, polls, 0, |polls|)
  }

  lemma OneMoreTry(w: World, b: Bridge, d: string, first: CircuitBreakers.Breaker, polls: seq<CircuitBreakers.Poll>, tries: nat)
    requires d in b.devices && b.devices[d].channel in b.channels
    requires CanTry(w, b, d) ==> w.answer(b.trips + 1) == Failing
    requires Leads(first, polls, BreakerOf(b, d), tries)
    ensures Leads(first, polls + [CircuitBreakers.Poll(w.clock(b.trips), w.clock(b.trips + 1))],
                  BreakerOf(AfterTry(w, b, d), d), tries + if CanTry(w, b, d) then 1 else 0)
  {
    TryIsPoll(w, b, d);
    CircuitBreakers.OneMorePoll(first, POLICY, polls, CircuitBreakers.Poll(w.clock(b.trips), w.clock(b.trips + 1)));
  }

  /** The breaker of `d` sees just those polls, as long as its encoder fails. */
  lemma {:induction false} TriesArePolls(w: World, b: Bridge, ids: seq<string>, d: string)
    requires AllKnown(b, ids) && d in b.devices && b.devices[d].channel in b.channels && AlwaysAnswers(w, b, ids, d, Failing)
    ensures Leads(BreakerOf(b, d), PollsOf(w, b, ids, d), BreakerOf(AfterTries(w, b, ids), d), WireTries(w, b, ids, d))
  {
    if ids != [] {
      var init, last := ids[..|ids| - 1], ids[|ids| - 1];
      var before, polls, tries := AfterTries(w, b, init), PollsOf(w, b, init, d), WireTries(w, b, init, d);
      TriesArePolls(w, b, init, d);
      if last == d {
        OneMoreTry(w, before, d, BreakerOf(b, d), polls, tries);
      } else {
        assert PollsOf(w, b, ids, d) == polls && WireTries(w, b, ids, d) == tries;
      }
    }
  }

  /** One poll after the other, all of them between two times. */
  predicate Within(polls: seq<CircuitBreakers.Poll>, start: int, end: int) {
    start <= end && CircuitBreakers.Sequential(polls) && forall poll :: poll in polls ==> start <= poll.asked <= poll.failed <= end
  }

  lemma WithinGrows(polls: seq<CircuitBreakers.Poll>, poll: CircuitBreakers.Poll, start: int, end: int, later: int)
    requires Within(polls, start, end) && end <= poll.asked <= poll.failed <= later
    ensures Within(polls + [poll], start, later) && Within(polls, start, later)
  {
  }

  lemma {:induction false} PollsAreWithin(w: World, b: Bridge, ids: seq<string>, d: string)
    requires AllKnown(b, ids) && ClockForward(w)
    ensures Within(PollsOf(w, b, ids, d), w.clock(b.trips), w.clock(AfterTries(w, b, ids).trips))
  {
    if ids != [] {
      var init := ids[..|ids| - 1];
      var before, polls := AfterTries(w, b, init), PollsOf(w, b, init, d);
      var t, end := before.trips, AfterTries(w, b, ids).trips;
      PollsAreWithin(w, b, init, d);
      assert end >= t + 1;
      var poll := CircuitBreakers.Poll(w.clock(t), w.clock(t + 1));
      WithinGrows(polls, poll, w.clock(b.trips), w.clock(t), w.clock(end));
      assert PollsOf(w, b, ids, d) == polls + if ids[|ids| - 1] == d then [poll] else [];
    }
  }

  /**
   The breaker bounds what a dead encoder costs the bridge: over any encodes, live and
   queued, for any devices, that span T ms, a device whose encoder fails every time is
   attempted on the wire at most 3 * (T / 30 000 + 1) times.
   */
  lemma {:induction false} DeadEncoderBound(w: World, b: Bridge, ids: seq<string>, d: string)
    requires AllKnown(b, ids) && d in b.devices && ClockForward(w) && AlwaysAnswers(w, b, ids, d, Failing)
    requires CircuitBreakers.Consistent(BreakerOf(b, d), POLICY) && BreakerOf(b, d).state != CircuitBreakers.Paused
    ensures w.clock(b.trips) <= w.clock(AfterTries(w, b, ids).trips)
    ensures WireTries(w, b, ids, d) <= 3 * ((w.clock(AfterTries(w, b, ids).trips) - w.clock(b.trips)) / 30_000 + 1)
  {
    if b.devices[d].channel !in b.channels {
      NoChannelNoTries(w, b, ids, d);
      return;
    }
    var polls := PollsOf(w, b, ids, d);
    TriesArePolls(w, b, ids, d);
    PollsAreWithin(w, b, ids, d);
    BoundOverSpan(BreakerOf(b, d), polls, w.clock(b.trips), w.clock(AfterTries(w, b, ids).trips));
  }

  lemma BoundOverSpan(first: CircuitBreakers.Breaker, polls: seq<CircuitBreakers.Poll>, start: int, end: int)
    requires Within(polls, start, end)
    requires CircuitBreakers.Consistent(first, POLICY) && first.state != CircuitBreakers.Paused
    ensures CircuitBreakers.Attempts(first, POLICY, polls, 0, |polls|) <= 3 * ((end - start) / 30_000 + 1)
  {
    if polls != [] {
      var n := |polls|;
      assert polls[0] in polls && polls[n - 1] in polls;
      CircuitBreakers.AttemptBound(first, POLICY, polls, 0, n);
      SpanBound(polls[n - 1].asked - polls[0].asked, end - start);
    }
  }

  lemma SpanBound(t: nat, span: nat)
    requires t <= span
    ensures 3 * (t / 30_000 + 1) <= 3 * (span / 30_000 + 1)
  {
  }

  lemma {:induction false} NoChannelNoTries(w: World, b: Bridge, ids: seq<string>, d: string)
    requires AllKnown(b, ids) && d in b.devices && b.devices[d].channel !in b.channels
    ensures WireTries(w, b, ids, d) == 0
  {
    if ids != [] {
      NoChannelNoTries(w, b, ids[..|ids| - 1], d);
    }
  }

  /** The third failure in a row shuts the device off for 30 s. */
  lemma {:induction false} ThirdFailureShuts(w: World, b: Bridge, d: string)
    requires d in b.devices && CanTry(w, b, d) && w.answer(b.trips + 1) == Failing
    requires BreakerOf(b, d).state == CircuitBreakers.Closed && BreakerOf(b, d).failures == 2
    ensures var after := AfterTry(w, b, d);
            CanTry(w, after, d) <==> w.clock(after.trips) - w.clock(b.trips + 1) >= 30_000
  {
  }

  /** An encode that throws is not counted: an encoder that always throws is attempted every single time. */
  lemma {:induction false} ThrowingNeverShuts(w: World, b: Bridge, ids: seq<string>, d: string)
    requires AllKnown(b, ids) && d in b.devices && b.devices[d].channel in b.channels
    requires BreakerOf(b, d).state == CircuitBreakers.Closed && AlwaysAnswers(w, b, ids, d, Thrown)
    ensures BreakerOf(AfterTries(w, b, ids), d) == BreakerOf(b, d)
    ensures WireTries(w, b, ids, d) == |PollsOf(w, b, ids, d)|
  {
    if ids != [] {
      var init, last := ids[..|ids| - 1], ids[|ids| - 1];
      var before := AfterTries(w, b, init);
      ThrowingNeverShuts(w, b, init, d);
      if last == d {
        ThrowingTry(w, before, d);
      }
    }
  }

  lemma ThrowingTry(w: World, b: Bridge, d: string)
    requires d in b.devices && b.devices[d].channel in b.channels && BreakerOf(b, d).state == CircuitBreakers.Closed
    requires w.answer(b.trips + 1) == Thrown
    ensures CanTry(w, b, d) && BreakerOf(AfterTry(w, b, d), d) == BreakerOf(b, d)
  {
  }

  function LockCourier(w: World): Courier<Bridge> {
    Courier((b: Bridge) => w.clock(b.trips), (b: Bridge, a: Action) => Attempt(w, b, a))
  }

  function LockKey(deviceId: string, roomNumber: string): string {
    "lock:" + deviceId + ":" + roomNumber
  }

  predicate Plain(deviceId: string) { ':' !in deviceId }

  lemma {:induction false} PlainPrefix(d: string, e: string, r: string, q: string)
    requires Plain(d) && Plain(e) && d + ":" + r == e + ":" + q
    ensures d == e && r == q
  {
    var a, b := d + ":" + r, e + ":" + q;
    assert a[|d|] == ':' && b[|e|] == ':';
    assert forall i :: 0 <= i < |d| ==> a[i] == d[i];
    assert forall i :: 0 <= i < |e| ==> b[i] == e[i];
    assert |d| == |e|;
    assert d == a[..|d|] && e == b[..|e|];
    assert r == a[|d| + 1..] && q == b[|e| + 1..];
  }

  /** Two requests share a key if and only if they are for one device and room, provided device ids have no colon. */
  lemma {:induction false} KeysTellRoomsApart(d: string, e: string, r: string, q: string)
    requires Plain(d) && Plain(e)
    ensures LockKey(d, r) == LockKey(e, q) <==> d == e && r == q
  {
    if LockKey(d, r) == LockKey(e, q) {
      assert LockKey(d, r)[5..] == d + ":" + r && LockKey(e, q)[5..] == e + ":" + q;
      PlainPrefix(d, e, r, q);
    }
  }

  /** With a colon they can collide, and one of the two requests is lost. */
  lemma {:induction false} ColonKeysCollide()
    ensures LockKey("a:b", "1") == LockKey("a", "b:1")
  {
    assert "lock:" + "a:b" + ":" + "1" == "lock:a:b:1" == "lock:" + "a" + ":" + "b:1";
  }

  function OfflineInput(w: World, req: EncodeRequest): EnqueueInput {
    EnqueueInput(RoomKeyGenerate, w.render(req), LockKey(req.deviceId, req.roomNumber))
  }

  datatype EncodeStatus = Encoded | QueuedOffline(id: ActionId) | Error | Threw

  class LockBridgeController {
    var devices: map<string, Device>
    var channels: set<Channel>
    var breakers: map<string, CircuitBreakers.Breaker>
    var trips: nat

    function Model(): Bridge reads this {
      Bridge(devices, channels, breakers, trips)
    }

    /** A serial channel exists from the start. */
    constructor ()
      ensures Model() == Bridge(map[], {Serial}, map[], 0)
    {
      devices, channels, breakers, trips := map[], {Serial}, map[], 0;
    }

    method Attach(channel: Channel)
      modifies this
      ensures Model() == old(Model()).(channels := old(channels) + {channel})
    {
      channels := channels + {channel};
    }

    method RegisterDevice(id: string, channel: Channel)
      modifies this
      ensures Model() == old(Model()).(devices := old(devices)[id := Device(channel, false)])
    {
      devices := devices[id := Device(channel, false)];
    }

    method Ask(w: World, deviceId: string) returns (allowed: bool)
      requires deviceId in devices
      modifies this
      ensures allowed == CanTry(w, old(Model()), deviceId)
      ensures Model() == AfterAsking(w, old(Model()), deviceId)
    {
      var breaker := if deviceId in breakers then breakers[deviceId] else CircuitBreakers.FRESH;
      allowed := false;
      if devices[deviceId].channel in channels {
        allowed := CircuitBreakers.Allows(breaker, POLICY, w.clock(trips));
        breaker := CircuitBreakers.AfterAsk(breaker, POLICY, w.clock(trips));
      }
      breakers := breakers[deviceId := breaker];
      trips := trips + 1;
    }

    method TryWire(w: World, deviceId: string) returns (answer: Answer)
      requires deviceId in devices && deviceId in breakers
      modifies this
      ensures answer == w.answer(old(trips))
      ensures Model() == AfterWire(w, old(Model()), deviceId)
    {
      answer := w.answer(trips);
      trips := trips + 1;
      match answer
      case Acknowledged =>
        breakers := breakers[deviceId := CircuitBreakers.AfterSuccess(breakers[deviceId])];
        devices := devices[deviceId := devices[deviceId].(online := true)];
      case Failing =>
        breakers := breakers[deviceId := CircuitBreakers.AfterFailure(breakers[deviceId], POLICY, w.clock(trips - 1))];
        devices := devices[deviceId := devices[deviceId].(online := false)];
      case Thrown => // neither the breaker nor the device hears of it
    }

    /** The live path: acknowledged by the encoder, handed to the offline queue, or lost with the exception. */
    method Encode(w: World, store: OfflineActionStore, req: EncodeRequest) returns (status: EncodeStatus)
      requires store.Valid()
      modifies this, store
      ensures store.Valid()
      ensures status.Error? <==> req.deviceId !in old(devices) || old(devices)[req.deviceId].channel !in old(channels)
      ensures status.Error? ==> Model() == old(Model())
      ensures !status.QueuedOffline? ==> store.rows == old(store.rows)
      ensures status.Encoded? <==>
              !status.Error? && CanTry(w, old(Model()), req.deviceId) && w.answer(old(trips) + 1) == Acknowledged
      ensures status.Threw? <==>
              !status.Error? && CanTry(w, old(Model()), req.deviceId) && w.answer(old(trips) + 1) == Thrown
      ensures status.QueuedOffline? ==>
              && store.rows == AfterInsert(old(store.rows), OfflineInput(w, req), w.clock(trips))
              && status.id < |store.rows| && store.rows[status.id].key == LockKey(req.deviceId, req.roomNumber)
      ensures !status.Error? ==>
              Model() == AfterTry(w, old(Model()), req.deviceId)
    {
      if req.deviceId !in devices || devices[req.deviceId].channel !in channels {
        return Error;
      }
      var allowed := Ask(w, req.deviceId);
      if allowed {
        var answer := TryWire(w, req.deviceId);
        if answer == Acknowledged {
          return Encoded;
        }
        if answer == Thrown {
          return Threw;
        }
      }
      var id := store.Insert(OfflineInput(w, req), w.clock(trips));
      return QueuedOffline(id);
    }

    /** The checks the drain makes on a claimed row, and the encode when they all pass. */
    method TryRow(w: World, record: Action) returns (thrown: bool, ok: bool, error: string)
      modifies this
      ensures thrown <==> Throws(w, old(Model()), record)
      ensures Reply(ok, error, Model()) == Attempt(w, old(Model()), record)
      ensures ok <==> ReachesEncoder(w, old(Model()), record) && w.answer(old(trips) + 1) == Acknowledged
      ensures SameElsewhere(old(Model()), Model(), DeviceOf(w, record))
    {
      AttemptMeans(w, Model(), record);
      thrown, ok, error := false, false, NOT_OURS;
      if record.actionType != RoomKeyGenerate {
        return;
      }
      var req := w.parse(record.payload);
      if req.deviceId !in devices {
        error := NO_DEVICE;
        return;
      }
      var allowed := Ask(w, req.deviceId);
      if !allowed {
        error := NOT_ALLOWED;
        return;
      }
      var answer := TryWire(w, req.deviceId);
      thrown, ok := answer == Thrown, answer == Acknowledged;
      error := if ok then "" else STILL_OFFLINE;
    }

    /**
     The background drain: no ceiling, and failed rows are claimed again within the same
     pass. An encode that throws ends it and leaves its row PROCESSING.
     */
    method DrainRetryQueue(w: World, store: OfflineActionStore) returns (log: seq<ActionId>, thrown: Option<ActionId>)
      modifies this, store
      ensures Fair(old(store.rows), log, old(Model()), LockCourier(w)) && Unthrown(w, old(store.rows), log, old(Model()))
      ensures var done := Perform(old(store.rows), log, old(Model()), LockCourier(w));
              match thrown
              case None =>
                && Pass(store.rows, Model(), log) == done && Drained(store.rows)
                && Settled(old(store.rows), log, old(Model()), LockCourier(w), store.rows)
              case Some(i) =>
                && IsNext(done.table, i) && store.rows == AfterClaim(done.table, i, w.clock(done.courier.trips))
                && Throws(w, done.courier, store.rows[i])
                && Model() == Attempt(w, done.courier, store.rows[i]).next
    {
      log, thrown := [], None;
      ghost var t0, b0, k := store.rows, Model(), LockCourier(w);
      while true
        invariant Fair(t0, log, b0, k) && Unthrown(w, t0, log, b0)
        invariant Perform(t0, log, b0, k) == Pass(store.rows, Model(), log)
        decreases Budget(store.rows)
      {
        ghost var t, b := store.rows, Model();
        var claimed := store.ClaimNext(w.clock(trips));
        if claimed.None? {
          break;
        }
        var id := claimed.value;
        TurnTaken(t0, log, b0, k, t, b, id);
        var threw, ok, error := TryRow(w, store.rows[id]);
        if threw {
          return log, claimed;
        }
        UnthrownExtends(w, t0, log, b0, id);
        log := log + [id];
        if ok {
          store.MarkComplete(id, w.clock(trips));
        } else {
          store.MarkFailed(id, error, w.clock(trips));
        }
      }
      CompletePassSettlesAll(t0, log, b0, k);
    }
  }

  /** No turn of the pass throws. */
  predicate Unthrown(w: World, t: Table, ids: seq<ActionId>, b: Bridge)
    requires InRange(ids, |t|)
  {
    ids == [] ||
    var init, last := ids[..|ids| - 1], ids[|ids| - 1];
    var before := Perform(t, init, b, LockCourier(w));
    Unthrown(w, t, init, b) && !Throws(w, before.courier, AfterClaim(before.table, last, w.clock(before.courier.trips))[last])
  }

  lemma UnthrownExtends(w: World, t: Table, ids: seq<ActionId>, b: Bridge, i: ActionId)
    requires InRange(ids, |t|) && i < |t| && Unthrown(w, t, ids, b)
    requires var before := Perform(t, ids, b, LockCourier(w));
             !Throws(w, before.courier, AfterClaim(before.table, i, w.clock(before.courier.trips))[i])
    ensures InRange(ids + [i], |t|) && Unthrown(w, t, ids + [i], b)
  {
    assert (ids + [i])[..|ids|] == ids;
  }

  // ---------- what a lock drain does to everybody else ----------

  /** Waiting for the sync engine: not a lock action, and not finished or in flight. */
  predicate Foreign(a: Action) {
    a.actionType != RoomKeyGenerate && Waiting(a)
  }

  lemma {:induction false} DrainKeepsForeignUndelivered(w: World, t: Table, ids: seq<ActionId>, b: Bridge, i: ActionId)
    requires Fair(t, ids, b, LockCourier(w)) && i < |t| && Foreign(t[i])
    ensures Foreign(Perform(t, ids, b, LockCourier(w)).table[i])
  {
    if ids != [] {
      DrainKeepsForeignUndelivered(w, t, ids[..|ids| - 1], b, i);
    }
  }

  /**
   One lock drain spends the whole retry budget of every waiting non-lock action without
   a single delivery: nothing will ever claim those rows again.
   */
  lemma {:induction false} DrainStarvesForeignActions(w: World, t: Table, ids: seq<ActionId>, b: Bridge, i: ActionId)
    requires Fair(t, ids, b, LockCourier(w)) && Drained(Perform(t, ids, b, LockCourier(w)).table)
    requires i < |t| && Foreign(t[i])
    ensures var row := Perform(t, ids, b, LockCourier(w)).table[i];
            GivenUp(row)
  {
    DrainKeepsForeignUndelivered(w, t, ids, b, i);
    assert !Claimable(Perform(t, ids, b, LockCourier(w)).table[i]);
  }

  // ---------- what the fall-back queue remembers ----------

  /** Some row that a drainer may still deliver carries exactly this request. */
  predicate WillBeRetried(w: World, t: Table, req: EncodeRequest) {
    exists i :: 0 <= i < |t| && Carries(w, t[i], req) && (Claimable(t[i]) || t[i].status == Processing)
  }

  predicate Carries(w: World, a: Action, req: EncodeRequest) {
    a.key == LockKey(req.deviceId, req.roomNumber) && a.actionType == RoomKeyGenerate && a.payload == w.render(req)
  }

  /**
   Right after it is queued, a failed encode is going to be retried if and only if its
   device and room had no row yet, or a live row for the very same request: an older
   row under the key, finished or with another credential, swallows the new one.
   */
  lemma {:induction false} QueuedRequestSurvives(w: World, t: Table, req: EncodeRequest, now: int)
    requires KeysUnique(t)
    ensures WillBeRetried(w, AfterInsert(t, OfflineInput(w, req), now), req) <==>
            (forall i :: 0 <= i < |t| ==> t[i].key != LockKey(req.deviceId, req.roomNumber)) || WillBeRetried(w, t, req)
  {
    var input := OfflineInput(w, req);
    var t' := AfterInsert(t, input, now);
    if forall i :: 0 <= i < |t| ==> t[i].key != input.key {
      assert t'[|t|] == NewAction(input, now);
    }
  }

  lemma RetriedMeans(w: World, t: Table, req: EncodeRequest, i: ActionId)
    requires KeysUnique(t) && i < |t| && Carries(w, t[i], req)
    ensures WillBeRetried(w, t, req) <==> Claimable(t[i]) || t[i].status == Processing
  {
  }

  /**
   And it is going to be retried only until the next complete drain: whatever request is
   waiting when a drain begins, nothing retries it afterwards. It has been delivered if
   some attempt of that one drain was acknowledged, and is given up otherwise.
   */
  lemma {:induction false} DrainEndsRetrying(w: World, t: Table, ids: seq<ActionId>, b: Bridge, req: EncodeRequest, i: ActionId)
    requires KeysUnique(t) && Fair(t, ids, b, LockCourier(w)) && Drained(Perform(t, ids, b, LockCourier(w)).table)
    requires i < |t| && Carries(w, t[i], req) && Waiting(t[i])
    ensures var after := Perform(t, ids, b, LockCourier(w)).table;
            && !WillBeRetried(w, after, req)
            && (if Delivers(t, ids, i, b, LockCourier(w)) then after[i].status == Completed else GivenUp(after[i]))
  {
    var after := Perform(t, ids, b, LockCourier(w)).table;
    CompletePassSettles(t, ids, i, b, LockCourier(w));
    assert forall j :: 0 <= j < |t| ==> SameIdentity(after[j], t[j]);
    RetriedMeans(w, after, req, i);
  }

  /** No encoder acknowledges anything. */
  ghost predicate AllSilent(w: World) {
    forall n :: w.answer(n) != Acknowledged
  }

  /** One complete drain while no encoder acknowledges gives up every card waiting, the newest included. */
  lemma {:induction false} SilentDrainGivesUp(w: World, t: Table, ids: seq<ActionId>, b: Bridge)
    requires Fair(t, ids, b, LockCourier(w)) && Drained(Perform(t, ids, b, LockCourier(w)).table) && AllSilent(w)
    ensures forall i :: 0 <= i < |t| && Waiting(t[i]) ==> GivenUp(Perform(t, ids, b, LockCourier(w)).table[i])
  {
    forall b': Bridge, a: Action
      ensures !LockCourier(w).attempt(b', a).ok
    {
      AttemptMeans(w, b', a);
    }
    UnansweredPassGivesUp(t, ids, b, LockCourier(w));
  }

  /** A second card for a room, after the first one was delivered from the queue, is never written. */
  lemma {:induction false} ReissuedCardIsLost(w: World, req: EncodeRequest, again: EncodeRequest,
                                              delivered: Action, now: int)
    requires again.deviceId == req.deviceId && again.roomNumber == req.roomNumber
    requires delivered.key == LockKey(req.deviceId, req.roomNumber) && delivered.status == Completed
    ensures !WillBeRetried(w, AfterInsert([delivered], OfflineInput(w, again), now), again)
  {
    assert [delivered][0].key == OfflineInput(w, again).key;
  }
}
