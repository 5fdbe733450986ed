/**
 The local event broker's admission control: the idempotency window, the
 token-bucket rate limiter and the decision taken for POST /packet.
 Times are integer milliseconds, tokens are exact reals.
 */
module Broker {

  // ---------- event registry ----------

  datatype EventType =
    | ReservationCreated | ReservationConfirmed | ReservationCheckedIn | ReservationCheckedOut | ReservationCancelled
    | RoomStatusChanged | RoomKeyGenerated
    | FolioBalanceUpdated
    | OrderPlaced | OrderConfirmed | OrderPreparing | OrderReady | OrderDelivered | OrderCompleted
    | PaymentAuthorized | PaymentCaptured | PaymentRefunded
    | WorkOrderCreated | WorkOrderAssigned | WorkOrderCompleted
    | DailyRateChanged
    | GuestMessageReceived

  function NameOf(e: EventType): string {
    match e
    case ReservationCreated => "reservation.created"
    case ReservationConfirmed => "reservation.confirmed"
    case ReservationCheckedIn => "reservation.checked_in"
    case ReservationCheckedOut => "reservation.checked_out"
    case ReservationCancelled => "reservation.cancelled"
    case RoomStatusChanged => "room.status_changed"
    case RoomKeyGenerated => "room.key_generated"
    case FolioBalanceUpdated => "folio.balance_updated"
    case OrderPlaced => "order.placed"
    case OrderConfirmed => "order.confirmed"
    case OrderPreparing => "order.preparing"
    case OrderReady => "order.ready"
    case OrderDelivered => "order.delivered"
    case OrderCompleted => "order.completed"
    case PaymentAuthorized => "payment.authorized"
    case PaymentCaptured => "payment.captured"
    case PaymentRefunded => "payment.refunded"
    case WorkOrderCreated => "work_order.created"
    case WorkOrderAssigned => "work_order.assigned"
    case WorkOrderCompleted => "work_order.completed"
    case DailyRateChanged => "daily_rate.changed"
    case GuestMessageReceived => "guest.message_received"
  }

  predicate IsRegistered(name: string) {
    exists e: EventType :: NameOf(e) == name
  }

  /** The `type` string of a packet: a registered event name, or any other text. */
  datatype WireType = Registered(event: EventType) | Unregistered(name: string)

  /** How the broker takes a `type` string. */
  ghost function WireOf(name: string): (w: WireType)
    ensures w.Registered? ==> NameOf(w.event) == name
    ensures w.Registered? <==> IsRegistered(name)
    ensures w.Unregistered? ==> w.name == name
  {
    if e :| NameOf(e) == name then Registered(e) else Unregistered(name)
  }

  /** No two events share a name, so a registered name is taken as its own event. */
  lemma {:induction false} NamesDistinct(a: EventType, b: EventType)
    requires NameOf(a) == NameOf(b)
    ensures a == b
  {
    assert |NameOf(a)| == |NameOf(b)|;
  }

  lemma {:induction false} WireOfName(e: EventType)
    ensures WireOf(NameOf(e)) == Registered(e)
  {
    var w := WireOf(NameOf(e));
    assert IsRegistered(NameOf(e));
    NamesDistinct(w.event, e);
  }

  // ---------- idempotency window ----------

  const WINDOW_MS: nat := 60_000
  const PRUNE_ABOVE: nat := 500

  datatype Acceptance = Acceptance(at: int, event: WireType)

  type Window = map<string, Acceptance>

  predicate Remembered(w: Window, key: string, now: int) {
    key in w && now - w[key].at < WINDOW_MS
  }

  predicate Expired(a: Acceptance, now: int) {
    now - a.at > WINDOW_MS
  }

  function Record(w: Window, key: string, event: WireType, now: int): Window {
    var grown := w[key := Acceptance(now, event)];
    if |grown| > PRUNE_ABOVE then map k | k in grown && !Expired(grown[k], now) :: grown[k] else grown
  }

  function AfterDedupe(w: Window, key: string, event: WireType, now: int): Window {
    if Remembered(w, key, now) then w else Record(w, key, event, now)
  }

  class IdempotencyWindow {
    var entries: Window

    constructor ()
      ensures entries == map[]
    {
      entries := map[];
    }

    method Dedupe(key: string, event: WireType, now: int) returns (deduped: bool, echoed: WireType)
      modifies this
      ensures entries == AfterDedupe(old(entries), key, event, now)
      ensures deduped == Remembered(old(entries), key, now)
      ensures echoed == if deduped then old(entries)[key].event else event
    {
      if key in entries && now - entries[key].at < WINDOW_MS {
        return true, entries[key].event;
      }
      entries := entries[key := Acceptance(now, event)];
      if |entries| > PRUNE_ABOVE {
        Prune(now);
      }
      return false, event;
    }

    /** The deletion loop over the keys, in whatever order they come. */
    method Prune(now: int)
      modifies this
      ensures entries == map k | k in old(entries) && !Expired(old(entries)[k], now) :: old(entries)[k]
    {
      var todo := entries.Keys;
      while todo != {}
        invariant todo <= old(entries).Keys
        invariant entries.Keys <= old(entries).Keys
        invariant forall k :: k in entries ==> entries[k] == old(entries)[k]
        invariant forall k :: k in todo ==> k in entries
        invariant forall k :: k in old(entries) && k !in todo ==> (k in entries <==> !Expired(old(entries)[k], now))
        decreases todo
      {
        var k :| k in todo;
        if now - entries[k].at > WINDOW_MS {
          entries := entries - {k};
        }
        todo := todo - {k};
      }
    }
  }

  // ---------- the window over a whole broker lifetime ----------

  datatype Packet = Packet(key: string, event: WireType, now: int)

  predicate ClockNeverGoesBack(calls: seq<Packet>) {
    forall i, j :: 0 <= i <= j < |calls| ==> calls[i].now <= calls[j].now
  }

  function WindowAfter(calls: seq<Packet>, n: nat): Window
    requires n <= |calls|
  {
    if n == 0 then map[]
    else AfterDedupe(WindowAfter(calls, n - 1), calls[n - 1].key, calls[n - 1].event, calls[n - 1].now)
  }

  /** Call `i` of the lifetime is published rather than answered as a duplicate. */
  predicate Publishes(calls: seq<Packet>, i: nat)
    requires i < |calls|
  {
    !Remembered(WindowAfter(calls, i), calls[i].key, calls[i].now)
  }

  /** `a` records a publish of key `k` among the first `n` calls. */
  ghost predicate Backed(calls: seq<Packet>, n: nat, k: string, a: Acceptance)
    requires n <= |calls|
  {
    exists j :: 0 <= j < n && calls[j].key == k && Publishes(calls, j) && a == Acceptance(calls[j].now, calls[j].event)
  }

  ghost predicate EntriesAreReal(calls: seq<Packet>, n: nat, w: Window)
    requires n <= |calls|
  {
    forall k :: k in w ==> Backed(calls, n, k, w[k])
  }

  /** A publish of `key` at `at` is remembered, superseded by a later one, or too old to matter. */
  predicate Kept(w: Window, key: string, at: int, now: int) {
    (key in w && w[key].at >= at) || now - at > WINDOW_MS
  }

  lemma DedupeKeeps(w: Window, call: Packet, key: string, at: int, before: int)
    requires Kept(w, key, at, before) && at <= before <= call.now
    ensures Kept(AfterDedupe(w, call.key, call.event, call.now), key, at, call.now)
  {
  }

  lemma DedupeKeepsOwn(w: Window, call: Packet)
    requires !Remembered(w, call.key, call.now)
    ensures Kept(AfterDedupe(w, call.key, call.event, call.now), call.key, call.now, call.now)
  {
  }

  ghost predicate PublishesAreKept(calls: seq<Packet>, n: nat, w: Window)
    requires n <= |calls|
  {
    forall j :: 0 <= j < n && Publishes(calls, j) ==> Kept(w, calls[j].key, calls[j].now, calls[n - 1].now)
  }

  lemma {:induction false} EntriesStayReal(calls: seq<Packet>, n: nat)
    requires n <= |calls|
    ensures EntriesAreReal(calls, n, WindowAfter(calls, n))
  {
    if n > 0 {
      EntriesStayReal(calls, n - 1);
      var w, w', call := WindowAfter(calls, n - 1), WindowAfter(calls, n), calls[n - 1];
      forall k | k in w'
        ensures Backed(calls, n, k, w'[k])
      {
        if k == call.key && Publishes(calls, n - 1) {
          assert w'[k] == Acceptance(call.now, call.event);
        } else {
          assert Backed(calls, n - 1, k, w[k]);
        }
      }
    }
  }

  lemma {:induction false} PublishesStayKept(calls: seq<Packet>, n: nat)
    requires ClockNeverGoesBack(calls) && n <= |calls|
    ensures PublishesAreKept(calls, n, WindowAfter(calls, n))
  {
    if n > 0 {
      PublishesStayKept(calls, n - 1);
      var w, call := WindowAfter(calls, n - 1), calls[n - 1];
      forall j | 0 <= j < n && Publishes(calls, j)
        ensures Kept(WindowAfter(calls, n), calls[j].key, calls[j].now, call.now)
      {
        if j < n - 1 {
          DedupeKeeps(w, call, calls[j].key, calls[j].now, calls[n - 2].now);
        } else {
          DedupeKeepsOwn(w, call);
        }
      }
    }
  }

  /**
   The pruned map decides exactly as the full history would: a call is a duplicate
   if and only if the same key was published less than a minute before.
   */
  lemma {:induction false} DedupeMatchesHistory(calls: seq<Packet>, i: nat)
    requires ClockNeverGoesBack(calls) && i < |calls|
    ensures !Publishes(calls, i) <==>
            exists j :: 0 <= j < i && calls[j].key == calls[i].key && Publishes(calls, j) && calls[i].now - calls[j].now < WINDOW_MS
  {
    EntriesStayReal(calls, i);
    PublishesStayKept(calls, i);
    if i > 0 {
      assert calls[i - 1].now <= calls[i].now;
    }
  }

  /** Two publishes of one key are at least a minute apart. */
  lemma {:induction false} PublishesAreSpaced(calls: seq<Packet>, j: nat, i: nat)
    requires ClockNeverGoesBack(calls) && j < i < |calls|
    requires calls[j].key == calls[i].key && Publishes(calls, j) && Publishes(calls, i)
    ensures calls[i].now - calls[j].now >= WINDOW_MS
  {
    DedupeMatchesHistory(calls, i);
  }

  // ---------- POST /packet ----------

  datatype Reply = Reply(status: nat, publish: bool, window: Window)

  /** The decision chain of the handler once the bearer token is accepted and the body is well formed. */
  function Decide(w: Window, key: string, event: WireType, now: int, allowed: bool): Reply {
    if !allowed then Reply(429, false, w)
    else if event.Unregistered? then Reply(400, false, w)
    else if key == "" then Reply(202, true, w)
    else if Remembered(w, key, now) then Reply(208, false, w)
    else Reply(202, true, Record(w, key, event, now))
  }

  /** The statuses the sync engine counts as delivered. */
  const HTTP_OK: set<nat> := {200, 201, 202, 204}

  /** The sync engine's notion of success coincides with "this very request was published". */
  lemma SuccessMeansPublished(w: Window, key: string, event: WireType, now: int, allowed: bool)
    ensures Decide(w, key, event, now, allowed).status in HTTP_OK <==> Decide(w, key, event, now, allowed).publish
  {
  }

  /**
   What each answer tells the sender: over the rate limit, unknown to the registry,
   published within the last minute, or published now. Only the last counts as success
   with the sync engine, and only it, under a key, is remembered.
   */
  lemma {:induction false} AnswersMean(w: Window, key: string, event: WireType, now: int, allowed: bool)
    ensures var r := Decide(w, key, event, now, allowed);
            var repeated := key != "" && key in w && now - w[key].at < 60_000;
            && (r.status == 429 <==> !allowed)
            && (r.status == 400 <==> allowed && event.Unregistered?)
            && (r.status == 208 <==> allowed && event.Registered? && repeated)
            && (r.status == 202 <==> allowed && event.Registered? && !repeated)
            && r.status in {202, 208, 400, 429}
            && (r.publish <==> r.status == 202)
            && (r.publish && key != "" ==> key in r.window && r.window[key] == Acceptance(now, event))
            && (!r.publish || key == "" ==> r.window == w)
    ensures 200 in HTTP_OK && 201 in HTTP_OK && 202 in HTTP_OK && 204 in HTTP_OK && |HTTP_OK| == 4
  {
  }

  /** Past 500 keys the window remembers nothing from more than a minute ago. */
  lemma {:induction false} WindowStaysSmall(w: Window, key: string, event: WireType, now: int)
    requires !Remembered(w, key, now) && |AfterDedupe(w, key, event, now)| > 500
    ensures forall k :: k in AfterDedupe(w, key, event, now) ==> now - AfterDedupe(w, key, event, now)[k].at <= 60_000
  {
    var grown := w[key := Acceptance(now, event)];
    var pruned := map k | k in grown && !Expired(grown[k], now) :: grown[k];
    assert AfterDedupe(w, key, event, now) == if |grown| > PRUNE_ABOVE then pruned else grown;
  }

  // ---------- token bucket ----------

  datatype Bucket = Bucket(tokens: real, lastRefill: int)

  type Buckets = map<string, Bucket>

  /** Bucket size, and tokens earned per second. */
  const RPS: real := 8.0
  const MAX_BUCKETS: nat := 2000

  function Min(a: real, b: real): real { if a <= b then a else b }

  /** Refill earned over `ms` milliseconds. */
  function Earned(ms: int): real { ms as real / 1000.0 * RPS }

  /** Tokens an address has at `now`; an address without a bucket has a full one. */
  function Level(b: Buckets, ip: string, now: int): real {
    if ip in b then Min(RPS, b[ip].tokens + Earned(now - b[ip].lastRefill)) else RPS
  }

  predicate Admits(b: Buckets, ip: string, now: int) {
    Level(b, ip, now) >= 1.0
  }

  predicate Clears(b: Buckets, ip: string, now: int) {
    Admits(b, ip, now) && |b.Keys + {ip}| > MAX_BUCKETS
  }

  function AfterRequest(b: Buckets, ip: string, now: int): Buckets {
    if !Admits(b, ip, now) then b[ip := Bucket(Level(b, ip, now), now)]
    else if Clears(b, ip, now) then map[]
    else b[ip := Bucket(Level(b, ip, now) - 1.0, now)]
  }

  class RateLimiter {
    var buckets: Buckets

    constructor ()
      ensures buckets == map[]
    {
      buckets := map[];
    }

    method Allows(ip: string, now: int) returns (allowed: bool)
      modifies this
      ensures allowed == Admits(old(buckets), ip, now)
      ensures buckets == AfterRequest(old(buckets), ip, now)
    {
      var b := if ip in buckets then buckets[ip] else Bucket(RPS, now);
      var tokens := Min(RPS, b.tokens + Earned(now - b.lastRefill));
      if tokens < 1.0 {
        buckets := buckets[ip := Bucket(tokens, now)];
        return false;
      }
      buckets := buckets[ip := Bucket(tokens - 1.0, now)];
      assert buckets.Keys == old(buckets).Keys + {ip};
      if |buckets| > MAX_BUCKETS {
        buckets := map[];
      }
      return true;
    }
  }

  datatype Request = Request(ip: string, now: int)

  predicate Ordered(rs: seq<Request>) {
    forall i, j :: 0 <= i <= j < |rs| ==> rs[i].now <= rs[j].now
  }

  /** `b` are the bucket maps before, between and after the requests `rs`, from an empty one on. */
  ghost predicate IsRun(rs: seq<Request>, b: seq<Buckets>) {
    && |b| == |rs| + 1
    && b[0] == map[]
    && forall n :: 0 <= n < |rs| ==> Handles(rs, b, n)
  }

  /** The limiter handles request `n`. */
  ghost predicate Handles(rs: seq<Request>, b: seq<Buckets>, n: nat)
    requires n < |rs| < |b|
  {
    b[n + 1] == AfterRequest(b[n], rs[n].ip, rs[n].now)
  }

  function Tally(flags: seq<bool>): nat {
    if flags == [] then 0 else Tally(flags[..|flags| - 1]) + if flags[|flags| - 1] then 1 else 0
  }

  /** For each request of rs[from..to], whether it is one of `ip` and accepted. */
  function Hits(rs: seq<Request>, b: seq<Buckets>, ip: string, from: nat, to: nat): seq<bool>
    requires from <= to <= |rs| < |b|
  {
    seq(to - from, i requires 0 <= i < to - from => rs[from + i].ip == ip && Admits(b[from + i], ip, rs[from + i].now))
  }

  /** For each request of rs[from..to], whether it makes the whole map be cleared. */
  function MapClears(rs: seq<Request>, b: seq<Buckets>, from: nat, to: nat): seq<bool>
    requires from <= to <= |rs| < |b|
  {
    seq(to - from, i requires 0 <= i < to - from => Clears(b[from + i], rs[from + i].ip, rs[from + i].now))
  }

  /** Tokens stay within [0, RPS] and no bucket was refilled in the future. */
  ghost predicate BucketsSane(b: Buckets, now: int) {
    forall ip :: ip in b ==> 0.0 <= b[ip].tokens <= RPS && b[ip].lastRefill <= now
  }

  /** Waiting raises a level by no more than what is earned meanwhile. */
  lemma LevelRise(b: Buckets, ip: string, t0: int, t1: int)
    requires t0 <= t1 && BucketsSane(b, t0)
    ensures 0.0 <= Level(b, ip, t0) <= RPS
    ensures Level(b, ip, t1) <= Level(b, ip, t0) + Earned(t1 - t0)
  {
  }

  /** An address that has been quiet for a second is admitted. */
  lemma QuietSecondRefills(b: Buckets, ip: string, now: int)
    requires BucketsSane(b, now)
    requires ip in b ==> now - b[ip].lastRefill >= 1000
    ensures Level(b, ip, now) == RPS && Admits(b, ip, now)
  {
    if ip in b {
      assert Earned(now - b[ip].lastRefill) >= RPS;
    }
  }

  /** A request costs its own address a token; only a clearing of the map can refill an address at once. */
  lemma {:induction false} RequestCost(b: Buckets, ip: string, r: Request)
    requires BucketsSane(b, r.now)
    ensures BucketsSane(AfterRequest(b, r.ip, r.now), r.now)
    ensures (if r.ip == ip && Admits(b, ip, r.now) then 1.0 else 0.0) + Level(AfterRequest(b, r.ip, r.now), ip, r.now)
         <= Level(b, ip, r.now) + (if Clears(b, r.ip, r.now) then RPS else 0.0)
  {
  }

  lemma {:induction false} BucketsStaySane(rs: seq<Request>, b: seq<Buckets>, n: nat, now: int)
    requires Ordered(rs) && IsRun(rs, b) && n <= |rs|
    requires n > 0 ==> rs[n - 1].now <= now
    ensures BucketsSane(b[n], now)
  {
    if n > 0 {
      BucketsStaySane(rs, b, n - 1, rs[n - 1].now);
      assert Handles(rs, b, n - 1);
      RequestCost(b[n - 1], rs[n - 1].ip, rs[n - 1]);
    }
  }

  /**
   The potential argument: a level that pays one token per hit, rises by what is
   earned between requests, and is reset only by clears.
   */
  lemma {:induction false} PotentialBound(times: seq<int>, hits: seq<bool>, clears: seq<bool>, before: seq<real>, after: seq<real>)
    requires 0 < |times| == |hits| == |clears| == |before| == |after|
    requires before[0] <= RPS
    requires forall n :: 0 <= n < |times| ==>
      (if hits[n] then 1.0 else 0.0) + after[n] <= before[n] + (if clears[n] then RPS else 0.0)
    requires forall n :: 0 < n < |times| ==> before[n] <= after[n - 1] + Earned(times[n] - times[n - 1])
    ensures Tally(hits) as real + after[|after| - 1]
         <= RPS + RPS * Tally(clears) as real + Earned(times[|times| - 1] - times[0])
  {
    var n := |times| - 1;
    if n == 0 {
      assert Tally(hits[..0]) == 0 && Tally(clears[..0]) == 0;
    } else {
      PotentialBound(times[..n], hits[..n], clears[..n], before[..n], after[..n]);
    }
  }

  function Times(rs: seq<Request>, from: nat, to: nat): seq<int>
    requires from <= to <= |rs|
  {
    seq(to - from, i requires 0 <= i < to - from => rs[from + i].now)
  }

  /** Levels of `ip` at the times of rs[from..to], in the bucket maps `b` of those positions. */
  function Levels(rs: seq<Request>, b: seq<Buckets>, ip: string, from: nat, to: nat): seq<real>
    requires from <= to <= |rs| && to - from <= |b|
  {
    seq(to - from, i requires 0 <= i < to - from => Level(b[i], ip, rs[from + i].now))
  }

  /** `RequestCost` for request `n` of a run. */
  lemma {:induction false} RunCost(rs: seq<Request>, b: seq<Buckets>, ip: string, n: nat)
    requires Ordered(rs) && IsRun(rs, b) && n < |rs|
    ensures (if rs[n].ip == ip && Admits(b[n], ip, rs[n].now) then 1.0 else 0.0) + Level(b[n + 1], ip, rs[n].now)
         <= Level(b[n], ip, rs[n].now) + (if Clears(b[n], rs[n].ip, rs[n].now) then RPS else 0.0)
  {
    BucketsStaySane(rs, b, n, rs[n].now);
    assert Handles(rs, b, n);
    RequestCost(b[n], ip, rs[n]);
  }

  lemma RunLevels(rs: seq<Request>, b: seq<Buckets>, ip: string, n: nat)
    requires Ordered(rs) && IsRun(rs, b) && n < |rs|
    ensures Level(b[n], ip, rs[n].now) <= RPS && Level(b[n + 1], ip, rs[n].now) >= 0.0
  {
    BucketsStaySane(rs, b, n + 1, rs[n].now);
    LevelRise(b[n + 1], ip, rs[n].now, rs[n].now);
  }

  lemma {:induction false} StretchCost(rs: seq<Request>, b: seq<Buckets>, ip: string, from: nat, to: nat, i: nat)
    requires Ordered(rs) && IsRun(rs, b) && from <= to <= |rs| && i < to - from
    ensures (if Hits(rs, b, ip, from, to)[i] then 1.0 else 0.0) + Levels(rs, b[from + 1..], ip, from, to)[i]
         <= Levels(rs, b[from..], ip, from, to)[i] + (if MapClears(rs, b, from, to)[i] then RPS else 0.0)
    ensures Levels(rs, b[from..], ip, from, to)[i] <= RPS && Levels(rs, b[from + 1..], ip, from, to)[i] >= 0.0
  {
    RunCost(rs, b, ip, from + i);
    RunLevels(rs, b, ip, from + i);
    assert b[from..][i] == b[from + i] && b[from + 1..][i] == b[from + i + 1];
  }

  lemma {:induction false} StretchRise(rs: seq<Request>, b: seq<Buckets>, ip: string, from: nat, to: nat, i: nat)
    requires Ordered(rs) && IsRun(rs, b) && from <= to <= |rs| && 0 < i < to - from
    ensures Levels(rs, b[from..], ip, from, to)[i]
         <= Levels(rs, b[from + 1..], ip, from, to)[i - 1] + Earned(Times(rs, from, to)[i] - Times(rs, from, to)[i - 1])
  {
    var t0, t1 := rs[from + i - 1].now, rs[from + i].now;
    BucketsStaySane(rs, b, from + i, t0);
    LevelRise(b[from + i], ip, t0, t1);
    assert b[from..][i] == b[from + i] == b[from + 1..][i - 1];
  }

  /**
   In any stretch of requests spanning T ms, one address gets at most
   RPS * (1 + clears of the map) + RPS * T / 1000 requests accepted.
   */
  lemma {:induction false} TokenBucketBound(rs: seq<Request>, b: seq<Buckets>, ip: string, from: nat, to: nat)
    requires Ordered(rs) && IsRun(rs, b) && from < to <= |rs|
    ensures Tally(Hits(rs, b, ip, from, to)) as real
         <= RPS * (1 + Tally(MapClears(rs, b, from, to))) as real + RPS * ((rs[to - 1].now - rs[from].now) as real / 1000.0)
  {
    var times, hits, clears := Times(rs, from, to), Hits(rs, b, ip, from, to), MapClears(rs, b, from, to);
    var before, after := Levels(rs, b[from..], ip, from, to), Levels(rs, b[from + 1..], ip, from, to);
    forall i | 0 <= i < |times|
      ensures (if hits[i] then 1.0 else 0.0) + after[i] <= before[i] + (if clears[i] then RPS else 0.0)
      ensures before[i] <= RPS && after[i] >= 0.0
    {
      StretchCost(rs, b, ip, from, to, i);
    }
    forall i | 0 < i < |times|
      ensures before[i] <= after[i - 1] + Earned(times[i] - times[i - 1])
    {
      StretchRise(rs, b, ip, from, to, i);
    }
    PotentialBound(times, hits, clears, before, after);
  }

  /** There are never more than 2000 buckets: the map is cleared exactly when an accepted request would add one more. */
  lemma {:induction false} BucketsStayFew(b: Buckets, ip: string, now: int)
    requires |b| <= 2000
    ensures |AfterRequest(b, ip, now)| <= 2000
    ensures AfterRequest(b, ip, now) == map[] <==> Admits(b, ip, now) && ip !in b && |b| == 2000
  {
    KeysWith(b, ip);
    if !Clears(b, ip, now) {
      KeysAfter(b, ip, now);
    }
  }

  lemma KeysWith(b: Buckets, ip: string)
    ensures |b.Keys + {ip}| == |b| + if ip in b then 0 else 1
  {
    assert |b.Keys| == |b|;
    if ip in b {
      assert b.Keys + {ip} == b.Keys;
    }
  }

  lemma KeysAfter(b: Buckets, ip: string, now: int)
    requires !Clears(b, ip, now)
    ensures var after := AfterRequest(b, ip, now);
            ip in after && |after| == |b.Keys + {ip}|
  {
    var after := AfterRequest(b, ip, now);
    assert after.Keys == b.Keys + {ip};
    assert |after.Keys| == |after|;
  }

  // ---------- a refusal is earned ----------

  /** Waiting raises a level by exactly what is earned meanwhile, up to a full bucket. */
  lemma LevelRiseExact(b: Buckets, ip: string, t0: int, t1: int)
    requires t0 <= t1 && BucketsSane(b, t0)
    ensures Level(b, ip, t1) == Min(RPS, Level(b, ip, t0) + Earned(t1 - t0))
  {
  }

  /** An accepted request costs its own address one token and nobody else anything; a clearing fills every bucket. */
  lemma {:induction false} RequestCostExact(b: Buckets, ip: string, r: Request)
    requires BucketsSane(b, r.now)
    ensures Level(AfterRequest(b, r.ip, r.now), ip, r.now) ==
            if Clears(b, r.ip, r.now) then RPS
            else Level(b, ip, r.now) - if r.ip == ip && Admits(b, ip, r.now) then 1.0 else 0.0
  {
  }

  /** A full bucket less the requests accepted since `from`, plus what was earned since. */
  function Balance(rs: seq<Request>, b: seq<Buckets>, ip: string, from: nat, n: nat, now: int): real
    requires from <= n <= |rs| < |b|
  {
    RPS - Tally(Hits(rs, b, ip, from, n)) as real + if from < n then Earned(now - rs[from].now) else 0.0
  }

  lemma HitsGrow(rs: seq<Request>, b: seq<Buckets>, ip: string, from: nat, n: nat)
    requires from <= n < |rs| < |b|
    ensures Tally(Hits(rs, b, ip, from, n + 1))
         == Tally(Hits(rs, b, ip, from, n)) + if rs[n].ip == ip && Admits(b[n], ip, rs[n].now) then 1 else 0
  {
    assert Hits(rs, b, ip, from, n + 1)[..n - from] == Hits(rs, b, ip, from, n);
  }

  lemma EarnedAdds(a: int, b: int)
    ensures Earned(a) + Earned(b) == Earned(a + b)
  {
  }

  /** The level some time after request `n`. */
  lemma {:induction false} LevelAfterRequest(rs: seq<Request>, b: seq<Buckets>, ip: string, n: nat, now: int)
    requires Ordered(rs) && IsRun(rs, b) && n < |rs| && rs[n].now <= now
    ensures var r := rs[n];
            var left := if Clears(b[n], r.ip, r.now) then RPS
                        else Level(b[n], ip, r.now) - if r.ip == ip && Admits(b[n], ip, r.now) then 1.0 else 0.0;
            Level(b[n + 1], ip, now) == Min(RPS, left + Earned(now - r.now))
  {
    BucketsStaySane(rs, b, n, rs[n].now);
    BucketsStaySane(rs, b, n + 1, rs[n].now);
    assert Handles(rs, b, n);
    RequestCostExact(b[n], ip, rs[n]);
    LevelRiseExact(b[n + 1], ip, rs[n].now, now);
  }

  /** Unless the bucket is full, the balance goes on. */
  lemma {:induction false} BalanceGoesOn(rs: seq<Request>, b: seq<Buckets>, ip: string, from: nat, n: nat, now: int)
    requires Ordered(rs) && IsRun(rs, b) && from <= n < |rs| && rs[n].now <= now
    requires Level(b[n], ip, rs[n].now) >= Balance(rs, b, ip, from, n, rs[n].now)
    ensures Level(b[n + 1], ip, now) >= RPS || Level(b[n + 1], ip, now) >= Balance(rs, b, ip, from, n + 1, now)
  {
    LevelAfterRequest(rs, b, ip, n, now);
    HitsGrow(rs, b, ip, from, n);
    EarnedAdds(rs[n].now - rs[from].now, now - rs[n].now);
    assert Earned(now - rs[n].now) >= 0.0;
  }

  lemma BalanceAtOnce(rs: seq<Request>, b: seq<Buckets>, ip: string, n: nat, now: int)
    requires n <= |rs| < |b|
    ensures Balance(rs, b, ip, n, n, now) == RPS
  {
    assert Hits(rs, b, ip, n, n) == [];
  }

  /** A level is never below the balance since some request. */
  lemma {:induction false} LevelIsEarned(rs: seq<Request>, b: seq<Buckets>, ip: string, n: nat, now: int) returns (from: nat)
    requires Ordered(rs) && IsRun(rs, b) && n <= |rs|
    requires n > 0 ==> rs[n - 1].now <= now
    ensures from <= n && Level(b[n], ip, now) >= Balance(rs, b, ip, from, n, now)
  {
    BalanceAtOnce(rs, b, ip, n, now);
    if n == 0 {
      from := 0;
    } else {
      from := LevelIsEarned(rs, b, ip, n - 1, rs[n - 1].now);
      BalanceGoesOn(rs, b, ip, from, n - 1, now);
      if Level(b[n], ip, now) >= RPS {
        from := n;
      }
    }
  }

  /**
   The partner of the bound: an address is refused only when, over some stretch of T ms
   up to now, it has had more than 7 + 8 * T / 1000 requests accepted.
   */
  lemma {:induction false} RefusalIsEarned(rs: seq<Request>, b: seq<Buckets>, ip: string, n: nat) returns (from: nat)
    requires Ordered(rs) && IsRun(rs, b) && n < |rs| && !Admits(b[n], ip, rs[n].now)
    ensures from < n
    ensures Tally(Hits(rs, b, ip, from, n)) as real > 7.0 + 8.0 * ((rs[n].now - rs[from].now) as real / 1000.0)
  {
    from := LevelIsEarned(rs, b, ip, n, rs[n].now);
    BalanceAtOnce(rs, b, ip, n, rs[n].now);
  }
}
