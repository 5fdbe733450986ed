/**
 The circuit breaker guarding each door-lock encoder: the class as written, its
 steps as functions, and what they guarantee over whole runs.
 Times are integer milliseconds.
 */
module CircuitBreakers {

  datatype State = Closed | Open | Paused

  datatype Breaker = Breaker(state: State, failures: nat, openedAt: int)

  /** Constructor arguments of a breaker; the bridge uses the defaults. */
  datatype Policy = Policy(threshold: nat, cooldown: nat)

  const DEFAULT_POLICY := Policy(3, 30_000)
  const FRESH := Breaker(Closed, 0, 0)

  predicate Allows(b: Breaker, p: Policy, now: int) {
    b.state == Closed || (b.state == Open && now - b.openedAt >= p.cooldown)
  }

  /** Asking an Open breaker after its cooldown closes it again. */
  function AfterAsk(b: Breaker, p: Policy, now: int): Breaker {
    if b.state == Open && now - b.openedAt >= p.cooldown then b.(state := Closed, failures := 0) else b
  }

  function AfterSuccess(b: Breaker): Breaker {
    b.(state := Closed, failures := 0)
  }

  function AfterFailure(b: Breaker, p: Policy, now: int): Breaker {
    if b.failures + 1 >= p.threshold then Breaker(Open, b.failures + 1, now) else b.(failures := b.failures + 1)
  }

  class CircuitBreaker {
    const policy: Policy
    var state: State
    var failures: nat
    var openedAt: int

    function Model(): Breaker reads this {
      Breaker(state, failures, openedAt)
    }

    constructor (policy: Policy := DEFAULT_POLICY)
      ensures Model() == FRESH && this.policy == policy
    {
      this.policy := policy;
      state, failures, openedAt := Closed, 0, 0;
    }

    method Allow(now: int) returns (allowed: bool)
      modifies this
      ensures allowed == Allows(old(Model()), policy, now)
      ensures Model() == AfterAsk(old(Model()), policy, now)
    {
      if state == Paused {
        return false;
      }
      if state == Open {
        if now - openedAt >= policy.cooldown {
          state := Closed;
          failures := 0;
          return true;
        }
        return false;
      }
      return true;
    }

    method OnSuccess()
      modifies this
      ensures Model() == AfterSuccess(old(Model()))
    {
      failures := 0;
      state := Closed;
    }

    method OnFailure(now: int)
      modifies this
      ensures Model() == AfterFailure(old(Model()), policy, now)
    {
      failures := failures + 1;
      if failures >= policy.threshold {
        state := Open;
        openedAt := now;
      }
    }

    method Pause()
      modifies this
      ensures Model() == old(Model()).(state := Paused)
    {
      state := Paused;
    }

    method Resume()
      modifies this
      ensures Model() == AfterSuccess(old(Model()))
    {
      state := Closed;
      failures := 0;
    }
  }

  // ---------- any interleaving of calls ----------

  datatype Call = Ask(now: int) | Success | Failure(now: int) | Pause | Resume

  function After(b: Breaker, p: Policy, c: Call): Breaker {
    match c
    case Ask(now) => AfterAsk(b, p, now)
    case Success => AfterSuccess(b)
    case Failure(now) => AfterFailure(b, p, now)
    case Pause => b.(state := Paused)
    case Resume => AfterSuccess(b)
  }

  function AfterAll(b: Breaker, p: Policy, calls: seq<Call>): Breaker {
    if calls == [] then b else After(AfterAll(b, p, calls[..|calls| - 1]), p, calls[|calls| - 1])
  }

  /** A Closed breaker is below its threshold, an Open one has reached it. */
  predicate Consistent(b: Breaker, p: Policy) {
    && (b.state == Closed ==> b.failures < p.threshold)
    && (b.state == Open ==> b.failures >= p.threshold)
  }

  lemma {:induction false} AlwaysConsistent(p: Policy, calls: seq<Call>)
    requires p.threshold >= 1
    ensures Consistent(AfterAll(FRESH, p, calls), p)
  {
    if calls != [] {
      AlwaysConsistent(p, calls[..|calls| - 1]);
    }
  }

  /**
   A manual pause does not outlive an encode already in flight: with no resume, the
   breaker is still paused after any calls exactly if none of them was a success
   and the failures did not add up to the threshold.
   */
  lemma {:induction false} PauseSurvives(b: Breaker, p: Policy, calls: seq<Call>)
    requires b.state == Paused
    requires Resume !in calls && Pause !in calls
    ensures AfterAll(b, p, calls).state == Paused <==>
            Success !in calls && (Failures(calls) == 0 || b.failures + Failures(calls) < p.threshold)
    ensures AfterAll(b, p, calls).state == Paused ==> AfterAll(b, p, calls).failures == b.failures + Failures(calls)
  {
    if calls != [] {
      var init, last := calls[..|calls| - 1], calls[|calls| - 1];
      assert calls == init + [last];
      PauseSurvives(b, p, init);
    }
  }

  function Failures(calls: seq<Call>): nat {
    if calls == [] then 0 else Failures(calls[..|calls| - 1]) + if calls[|calls| - 1].Failure? then 1 else 0
  }

  /** Failures since the last success. */
  function Streak(calls: seq<Call>): nat {
    if calls == [] then 0
    else match calls[|calls| - 1]
      case Success => 0
      case Failure(_) => Streak(calls[..|calls| - 1]) + 1
      case _ => Streak(calls[..|calls| - 1])
  }

  /** After any outcomes a breaker is Open exactly if the last `threshold` of them were failures: one success starts the count again. */
  lemma {:induction false} OpensExactlyOnStreak(p: Policy, calls: seq<Call>)
    requires p.threshold >= 1
    requires forall i :: 0 <= i < |calls| ==> calls[i].Success? || calls[i].Failure?
    ensures var b := AfterAll(FRESH, p, calls);
            b.failures == Streak(calls) && b.state == if Streak(calls) >= p.threshold then Open else Closed
  {
    if calls != [] {
      OpensExactlyOnStreak(p, calls[..|calls| - 1]);
    }
  }

  // ---------- a dead encoder, one encode in flight at a time ----------

  /** The breaker is asked at `asked`; if it allows the encode, the failure is reported at `failed`. */
  datatype Poll = Poll(asked: int, failed: int)

  predicate Sequential(polls: seq<Poll>) {
    && (forall i :: 0 <= i < |polls| ==> polls[i].asked <= polls[i].failed)
    && (forall i, j :: 0 <= i < j < |polls| ==> polls[i].failed <= polls[j].asked)
  }

  function AfterPoll(b: Breaker, p: Policy, poll: Poll): Breaker {
    if Allows(b, p, poll.asked) then AfterFailure(AfterAsk(b, p, poll.asked), p, poll.failed) else b
  }

  function AfterPolls(b: Breaker, p: Policy, polls: seq<Poll>, n: nat): Breaker
    requires n <= |polls|
  {
    if n == 0 then b else AfterPoll(AfterPolls(b, p, polls, n - 1), p, polls[n - 1])
  }

  /** Poll `i` reaches the wire. */
  predicate OnWire(b: Breaker, p: Policy, polls: seq<Poll>, i: nat)
    requires i < |polls|
  {
    Allows(AfterPolls(b, p, polls, i), p, polls[i].asked)
  }

  function Attempts(b: Breaker, p: Policy, polls: seq<Poll>, lo: nat, hi: nat): nat
    requires lo <= hi <= |polls|
  {
    if lo == hi then 0 else Attempts(b, p, polls, lo, hi - 1) + if OnWire(b, p, polls, hi - 1) then 1 else 0
  }

  lemma {:induction false} PollsPrefix(b: Breaker, p: Policy, polls: seq<Poll>, poll: Poll, n: nat)
    requires n <= |polls|
    ensures AfterPolls(b, p, polls + [poll], n) == AfterPolls(b, p, polls, n)
    ensures Attempts(b, p, polls + [poll], 0, n) == Attempts(b, p, polls, 0, n)
  {
    if n > 0 {
      PollsPrefix(b, p, polls, poll, n - 1);
    }
  }

  lemma OneMorePoll(b: Breaker, p: Policy, polls: seq<Poll>, poll: Poll)
    ensures var n, before := |polls|, AfterPolls(b, p, polls, |polls|);
            && AfterPolls(b, p, polls + [poll], n + 1) == AfterPoll(before, p, poll)
            && Attempts(b, p, polls + [poll], 0, n + 1) == Attempts(b, p, polls, 0, n) + if Allows(before, p, poll.asked) then 1 else 0
  {
    PollsPrefix(b, p, polls, poll, |polls|);
  }

  lemma {:induction false} PollsKeepConsistent(b: Breaker, p: Policy, polls: seq<Poll>, n: nat)
    requires n <= |polls| && Consistent(b, p) && b.state != Paused && p.threshold >= 1
    ensures Consistent(AfterPolls(b, p, polls, n), p) && AfterPolls(b, p, polls, n).state != Paused
  {
    if n > 0 {
      PollsKeepConsistent(b, p, polls, n - 1);
    }
  }

  /** From an attempt on, either its failures are still being counted, or the breaker tripped, or a cooldown has passed. */
  lemma {:induction false} CountingOrTripped(b: Breaker, p: Policy, polls: seq<Poll>, i: nat, n: nat)
    requires i < n <= |polls| && Sequential(polls) && OnWire(b, p, polls, i)
    requires Consistent(b, p) && b.state != Paused && p.threshold >= 1
    ensures var after := AfterPolls(b, p, polls, n);
            || (after.state == Closed && after.failures >= Attempts(b, p, polls, i, n))
            || (after.state == Open && after.openedAt >= polls[i].asked)
            || polls[n - 1].asked >= polls[i].asked + p.cooldown
  {
    PollsKeepConsistent(b, p, polls, n - 1);
    if n == i + 1 {
      assert Attempts(b, p, polls, i, i) == 0;
    } else {
      CountingOrTripped(b, p, polls, i, n - 1);
      assert polls[n - 2].asked <= polls[n - 2].failed <= polls[n - 1].asked;
      assert polls[i].failed <= polls[n - 1].asked <= polls[n - 1].failed;
    }
  }

  /** After `threshold` attempts the next one waits out a cooldown from the first of them. */
  lemma {:induction false} BurstThenCooldown(b: Breaker, p: Policy, polls: seq<Poll>, i: nat, j: nat)
    requires i < j < |polls| && Sequential(polls) && OnWire(b, p, polls, i) && OnWire(b, p, polls, j)
    requires Consistent(b, p) && b.state != Paused && p.threshold >= 1
    requires Attempts(b, p, polls, i, j) >= p.threshold
    ensures polls[j].asked >= polls[i].asked + p.cooldown
  {
    CountingOrTripped(b, p, polls, i, j);
    PollsKeepConsistent(b, p, polls, j);
    assert polls[j - 1].asked <= polls[j - 1].failed <= polls[j].asked;
  }

  lemma {:induction false} AttemptsSplit(b: Breaker, p: Policy, polls: seq<Poll>, lo: nat, mid: nat, hi: nat)
    requires lo <= mid <= hi <= |polls|
    ensures Attempts(b, p, polls, lo, hi) == Attempts(b, p, polls, lo, mid) + Attempts(b, p, polls, mid, hi)
  {
    if mid < hi {
      AttemptsSplit(b, p, polls, lo, mid, hi - 1);
    }
  }

  /** The first poll of a stretch that reaches the wire, or its end. */
  lemma {:induction false} FirstAttempt(b: Breaker, p: Policy, polls: seq<Poll>, lo: nat, hi: nat) returns (i: nat)
    requires lo <= hi <= |polls|
    ensures lo <= i <= hi && Attempts(b, p, polls, lo, i) == 0
    ensures i < hi ==> OnWire(b, p, polls, i)
  {
    i := lo;
    while i < hi && !OnWire(b, p, polls, i)
      invariant lo <= i <= hi && Attempts(b, p, polls, lo, i) == 0
    {
      i := i + 1;
    }
  }

  /** The end of the first `count` attempts of a stretch that has more. */
  lemma {:induction false} EndOfBurst(b: Breaker, p: Policy, polls: seq<Poll>, lo: nat, hi: nat, count: nat) returns (j: nat)
    requires lo <= hi <= |polls| && Attempts(b, p, polls, lo, hi) > count
    ensures lo <= j < hi && Attempts(b, p, polls, lo, j) == count
  {
    j := lo;
    while Attempts(b, p, polls, lo, j) < count
      invariant lo <= j <= hi && Attempts(b, p, polls, lo, j) <= count
      decreases hi - j
    {
      j := j + 1;
    }
  }

  lemma QuotientDrops(t: nat, t': nat, c: nat)
    requires c > 0 && t' + c <= t
    ensures t' / c + 1 <= t / c
  {
    var q, q' := t / c, t' / c;
    assert t == c * q + t % c && t' == c * q' + t' % c;
    if q <= q' {
      MulMonotone(c, q, q');
      assert false;
    }
  }

  lemma MulMonotone(c: nat, q: nat, q': nat)
    requires q <= q'
    ensures c * q <= c * q'
  {
  }

  lemma {:induction false} BoundDrops(n: nat, t: nat, t': nat, c: nat)
    requires c > 0 && t' + c <= t
    ensures n + n * (t' / c + 1) <= n * (t / c + 1)
  {
    var q, q' := t / c, t' / c;
    QuotientDrops(t, t', c);
    MulMonotone(n, q' + 2, q + 1);
    assert n + n * (q' + 1) == n * (q' + 2);
  }

  lemma AskedMonotone(polls: seq<Poll>, i: nat, j: nat)
    requires i <= j < |polls| && Sequential(polls)
    ensures polls[i].asked <= polls[j].asked
  {
  }

  /** A stretch with more than `threshold` attempts starts with a burst of that many, and resumes a cooldown later. */
  lemma PeelBurst(b: Breaker, p: Policy, polls: seq<Poll>, lo: nat, hi: nat) returns (k: nat)
    requires lo < hi <= |polls| && Sequential(polls)
    requires Consistent(b, p) && b.state != Paused && p.threshold >= 1
    requires Attempts(b, p, polls, lo, hi) > p.threshold
    ensures lo < k < hi
    ensures Attempts(b, p, polls, lo, hi) == p.threshold + Attempts(b, p, polls, k, hi)
    ensures polls[k].asked >= polls[lo].asked + p.cooldown
  {
    var i := FirstAttempt(b, p, polls, lo, hi);
    AttemptsSplit(b, p, polls, lo, i, hi);
    var j := EndOfBurst(b, p, polls, i, hi, p.threshold);
    AttemptsSplit(b, p, polls, i, j, hi);
    k := FirstAttempt(b, p, polls, j, hi);
    AttemptsSplit(b, p, polls, j, k, hi);
    AttemptsSplit(b, p, polls, i, j, k);
    assert Attempts(b, p, polls, i, i) == 0 && Attempts(b, p, polls, hi, hi) == 0;
    BurstThenCooldown(b, p, polls, i, k);
    AskedMonotone(polls, lo, i);
  }

  /** Against a dead encoder, polls spanning T ms make at most threshold * (T / cooldown + 1) attempts on the wire. */
  lemma {:induction false} AttemptBound(b: Breaker, p: Policy, polls: seq<Poll>, lo: nat, hi: nat)
    requires lo < hi <= |polls| && Sequential(polls)
    requires Consistent(b, p) && b.state != Paused && p.threshold >= 1 && p.cooldown >= 1
    ensures polls[lo].asked <= polls[hi - 1].asked
    ensures Attempts(b, p, polls, lo, hi) <= p.threshold * ((polls[hi - 1].asked - polls[lo].asked) / p.cooldown + 1)
    decreases hi - lo
  {
    AskedMonotone(polls, lo, hi - 1);
    var t := polls[hi - 1].asked - polls[lo].asked;
    if Attempts(b, p, polls, lo, hi) <= p.threshold {
      MulMonotone(p.threshold, 1, t / p.cooldown + 1);
    } else {
      var k := PeelBurst(b, p, polls, lo, hi);
      AttemptBound(b, p, polls, k, hi);
      BoundDrops(p.threshold, t, polls[hi - 1].asked - polls[k].asked, p.cooldown);
    }
  }

  // ---------- exactly when a poll is refused ----------

  /** Poll `i` reaches the wire and its failure trips the breaker. */
  predicate Trips(b: Breaker, p: Policy, polls: seq<Poll>, i: nat)
    requires i < |polls|
  {
    OnWire(b, p, polls, i) && AfterPolls(b, p, polls, i + 1).state == Open
  }

  /** An Open breaker remembers the attempt that tripped it. */
  lemma {:induction false} OpenSinceTrip(b: Breaker, p: Policy, polls: seq<Poll>, n: nat) returns (i: nat)
    requires n <= |polls| && b.state == Closed && Consistent(b, p) && p.threshold >= 1
    requires AfterPolls(b, p, polls, n).state == Open
    ensures i < n && Trips(b, p, polls, i) && AfterPolls(b, p, polls, n).openedAt == polls[i].failed
  {
    PollsKeepConsistent(b, p, polls, n - 1);
    if OnWire(b, p, polls, n - 1) {
      i := n - 1;
    } else {
      i := OpenSinceTrip(b, p, polls, n - 1);
    }
  }

  /** Until its cooldown is over, a tripped breaker stays as it is. */
  lemma {:induction false} TripLasts(b: Breaker, p: Policy, polls: seq<Poll>, i: nat, n: nat)
    requires i < n <= |polls| && Sequential(polls) && Trips(b, p, polls, i)
    requires n == i + 1 || polls[n - 1].asked - polls[i].failed < p.cooldown
    ensures AfterPolls(b, p, polls, n).state == Open && AfterPolls(b, p, polls, n).openedAt == polls[i].failed
  {
    if n > i + 1 {
      assert polls[n - 2].asked <= polls[n - 2].failed <= polls[n - 1].asked;
      TripLasts(b, p, polls, i, n - 1);
    }
  }

  /** Against a dead encoder, a poll is refused if and only if an attempt tripped the breaker less than a cooldown before. */
  lemma {:induction false} RefusedExactlyDuringCooldown(b: Breaker, p: Policy, polls: seq<Poll>, n: nat)
    requires n < |polls| && Sequential(polls) && b.state == Closed && Consistent(b, p) && p.threshold >= 1
    ensures !OnWire(b, p, polls, n) <==>
            exists i :: 0 <= i < n && Trips(b, p, polls, i) && polls[n].asked - polls[i].failed < p.cooldown
  {
    PollsKeepConsistent(b, p, polls, n);
    if !OnWire(b, p, polls, n) {
      var i := OpenSinceTrip(b, p, polls, n);
      assert Trips(b, p, polls, i) && polls[n].asked - polls[i].failed < p.cooldown;
    }
    if i :| 0 <= i < n && Trips(b, p, polls, i) && polls[n].asked - polls[i].failed < p.cooldown {
      assert polls[n - 1].asked <= polls[n - 1].failed <= polls[n].asked;
      TripLasts(b, p, polls, i, n);
    }
  }

  lemma RemainderStep(a: nat, p: nat)
    requires p >= 1
    ensures (a + 1) % p == if a % p + 1 == p then 0 else a % p + 1
  {
    var q, r := a / p, a % p;
    assert a == p * q + r;
    if r + 1 == p {
      assert a + 1 == p * (q + 1);
      MultipleHasNoRemainder(p, q + 1, 0);
    } else {
      MultipleHasNoRemainder(p, q, r + 1);
    }
  }

  lemma {:induction false} MultipleHasNoRemainder(p: nat, q: nat, r: nat)
    requires r < p
    ensures (p * q + r) % p == r
  {
    var n := p * q + r;
    var q', r' := n / p, n % p;
    assert n == p * q' + r';
    assert p * (q - q') == r' - r;
    if q > q' {
      MulMonotone(p, 1, q - q');
      assert false;
    } else if q < q' {
      MulMonotone(p, 1, q' - q);
      assert false;
    }
  }

  /** The failures counted are those since the last trip. */
  lemma {:induction false} CountSinceTrip(b: Breaker, p: Policy, polls: seq<Poll>, n: nat)
    requires n <= |polls| && b.state == Closed && b.failures == 0 && p.threshold >= 1
    ensures var after, made := AfterPolls(b, p, polls, n), Attempts(b, p, polls, 0, n);
            && (after.state == Closed ==> after.failures == made % p.threshold)
            && (after.state == Open ==> made % p.threshold == 0)
            && after.state != Paused
  {
    if n == 0 {
      assert 0 % p.threshold == 0;
    } else {
      CountSinceTrip(b, p, polls, n - 1);
      RemainderStep(Attempts(b, p, polls, 0, n - 1), p.threshold);
    }
  }

  /** Against a dead encoder, exactly every `threshold`-th attempt trips the breaker, first time and after each cooldown. */
  lemma {:induction false} TripsExactlyEveryThreshold(b: Breaker, p: Policy, polls: seq<Poll>, i: nat)
    requires i < |polls| && b.state == Closed && b.failures == 0 && p.threshold >= 1
    ensures Trips(b, p, polls, i) <==> OnWire(b, p, polls, i) && Attempts(b, p, polls, 0, i + 1) % p.threshold == 0
  {
    CountSinceTrip(b, p, polls, i);
    CountSinceTrip(b, p, polls, i + 1);
    RemainderStep(Attempts(b, p, polls, 0, i), p.threshold);
  }
}
