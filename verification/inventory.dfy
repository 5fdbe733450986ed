/**
 Row-locked reservations: any number of transactions on one row, each locking and
 reading it, deciding, writing, and committing or aborting, in any interleaving. The
 lock is held from the read to the end of the transaction.
 */
module Inventory {
  import opened Wrappers

  type Caller = nat

  /** Where a transaction stands; `Written` is not yet visible to others. */
  datatype Phase<V> = Locked(seen: V) | Written(after: V)

  /** What a finished transaction did to the row, or what somebody else did under the same lock. */
  datatype Event<V> = Committed(caller: Caller, after: V) | Rejected(caller: Caller) | Overwritten(value: V)

  datatype Row<V> = Row(value: V, running: map<Caller, Phase<V>>, history: seq<Event<V>>)

  /** The decision a transaction takes on the value it reads: refuse, or write a new one. */
  type Rule<!V> = V -> Option<V>

  datatype Step<V> =
    | Lock(c: Caller)
    | Write(c: Caller)
    | Reject(c: Caller)
    | Commit(c: Caller)
    | Abort(c: Caller)
    | Overwrite(value: V)

  predicate Enabled<V>(s: Row<V>, rule: Rule<V>, step: Step<V>) {
    match step
    case Lock(_) => s.running == map[]
    case Write(c) => c in s.running && s.running[c].Locked? && rule(s.running[c].seen).Some?
    case Reject(c) => c in s.running && s.running[c].Locked? && rule(s.running[c].seen).None?
    case Commit(c) => c in s.running && s.running[c].Written?
    case Abort(c) => c in s.running
    case Overwrite(_) => s.running == map[]
  }

  function Apply<V>(s: Row<V>, rule: Rule<V>, step: Step<V>): Row<V>
    requires Enabled(s, rule, step)
  {
    match step
    case Lock(c) => s.(running := s.running[c := Locked(s.value)])
    case Write(c) => s.(running := s.running[c := Written(rule(s.running[c].seen).value)])
    case Reject(c) => s.(running := s.running - {c}, history := s.history + [Rejected(c)])
    case Commit(c) =>
      Row(s.running[c].after, s.running - {c}, s.history + [Committed(c, s.running[c].after)])
    case Abort(c) => s.(running := s.running - {c})
    case Overwrite(value) => s.(value := value, history := s.history + [Overwritten(value)])
  }

  predicate Leads<V(==)>(s: Row<V>, rule: Rule<V>, steps: seq<Step<V>>, t: Row<V>)
    decreases |steps|
  {
    if steps == [] then s == t
    else Enabled(s, rule, steps[0]) && Leads(Apply(s, rule, steps[0]), rule, steps[1..], t)
  }

  // ---------- serial execution ----------

  /** The row after its history is executed one event at a time. */
  function Replay<V>(initial: V, history: seq<Event<V>>): V {
    if history == [] then initial
    else match history[|history| - 1]
      case Committed(_, after) => after
      case Overwritten(value) => value
      case Rejected(_) => Replay(initial, history[..|history| - 1])
  }

  /** Every outcome is the one the rule gives on the value left by the events before it. */
  predicate Serial<V(==)>(initial: V, rule: Rule<V>, history: seq<Event<V>>) {
    history == [] || (
      var before := history[..|history| - 1];
      && Serial(initial, rule, before)
      && match history[|history| - 1]
         case Committed(_, after) => rule(Replay(initial, before)) == Some(after)
         case Rejected(_) => rule(Replay(initial, before)) == None
         case Overwritten(_) => true)
  }

  /** At most one transaction is running, it saw the current value, and what it wrote follows the rule. */
  predicate Locking<V(==)>(s: Row<V>, rule: Rule<V>) {
    && (forall c, d :: c in s.running && d in s.running ==> c == d)
    && (forall c :: c in s.running ==>
          match s.running[c]
          case Locked(seen) => seen == s.value
          case Written(after) => rule(s.value) == Some(after))
  }

  predicate Sound<V(==)>(initial: V, s: Row<V>, rule: Rule<V>) {
    Locking(s, rule) && Serial(initial, rule, s.history) && s.value == Replay(initial, s.history)
  }

  lemma StepKeepsLocking<V>(s: Row<V>, rule: Rule<V>, step: Step<V>)
    requires Locking(s, rule) && Enabled(s, rule, step)
    ensures Locking(Apply(s, rule, step), rule)
  {
  }

  lemma {:induction false} EventKeepsSerial<V>(initial: V, rule: Rule<V>, history: seq<Event<V>>, e: Event<V>)
    requires Serial(initial, rule, history)
    requires e.Committed? ==> rule(Replay(initial, history)) == Some(e.after)
    requires e.Rejected? ==> rule(Replay(initial, history)) == None
    ensures Serial(initial, rule, history + [e])
    ensures Replay(initial, history + [e]) ==
            if e.Committed? then e.after else if e.Overwritten? then e.value else Replay(initial, history)
  {
    assert (history + [e])[..|history|] == history;
  }

  lemma {:induction false} StepKeepsSound<V>(initial: V, s: Row<V>, rule: Rule<V>, step: Step<V>)
    requires Sound(initial, s, rule) && Enabled(s, rule, step)
    ensures Sound(initial, Apply(s, rule, step), rule)
  {
    StepKeepsLocking(s, rule, step);
    match step
    case Reject(c) => EventKeepsSerial(initial, rule, s.history, Rejected(c));
    case Commit(c) => EventKeepsSerial(initial, rule, s.history, Committed(c, s.running[c].after));
    case Overwrite(value) => EventKeepsSerial(initial, rule, s.history, Overwritten(value));
    case _ =>
  }

  lemma {:induction false} RunKeepsSound<V>(initial: V, s: Row<V>, rule: Rule<V>, steps: seq<Step<V>>, t: Row<V>)
    requires Sound(initial, s, rule) && Leads(s, rule, steps, t)
    ensures Sound(initial, t, rule)
    decreases |steps|
  {
    if steps != [] {
      StepKeepsSound(initial, s, rule, steps[0]);
      RunKeepsSound(initial, Apply(s, rule, steps[0]), rule, steps[1..], t);
    }
  }

  function Fresh<V>(initial: V): Row<V> { Row(initial, map[], []) }

  /** Every interleaving is equivalent to running its transactions one after the other, in the order they ended. */
  lemma {:induction false} Serializable<V>(initial: V, rule: Rule<V>, steps: seq<Step<V>>, t: Row<V>)
    requires Leads(Fresh(initial), rule, steps, t)
    ensures Serial(initial, rule, t.history) && t.value == Replay(initial, t.history)
  {
    RunKeepsSound(initial, Fresh(initial), rule, steps, t);
  }

  // ---------- channel inventory ----------

  /** Sell one room if any is left. */
  const DECREMENT: Rule<int> := (available: int) => if available <= 0 then None else Some(available - 1)

  predicate NobodyElse<V>(history: seq<Event<V>>) {
    forall n :: 0 <= n < |history| ==> !history[n].Overwritten?
  }

  /** Counts returned to successful callers, in commit order. */
  function Returned(history: seq<Event<int>>): seq<int> {
    if history == [] then []
    else
      var last := history[|history| - 1];
      Returned(history[..|history| - 1]) + if last.Committed? then [last.after] else []
  }

  lemma {:induction false} SerialSales(initial: int, history: seq<Event<int>>)
    requires Serial(initial, DECREMENT, history) && NobodyElse(history)
    ensures Replay(initial, history) + |Returned(history)| == initial
    ensures initial >= 0 ==> Replay(initial, history) >= 0
    ensures forall k :: 0 <= k < |Returned(history)| ==> Returned(history)[k] == initial - k - 1
  {
    if history != [] {
      SerialSales(initial, history[..|history| - 1]);
    }
  }

  /**
   However callers interleave, no room is sold twice: what is left plus what was sold is
   what there was, the count never goes negative, and no two callers are given the same count.
   */
  lemma {:induction false} NoOverselling(initial: int, steps: seq<Step<int>>, t: Row<int>)
    requires Leads(Fresh(initial), DECREMENT, steps, t) && NobodyElse(t.history)
    ensures t.value + |Returned(t.history)| == initial
    ensures initial >= 0 ==> t.value >= 0
    ensures forall j, k :: 0 <= j < k < |Returned(t.history)| ==> Returned(t.history)[j] != Returned(t.history)[k]
  {
    Serializable(initial, DECREMENT, steps, t);
    SerialSales(initial, t.history);
  }

  lemma {:induction false} SerialPrefix<V>(initial: V, rule: Rule<V>, history: seq<Event<V>>, n: nat)
    requires Serial(initial, rule, history) && n <= |history|
    ensures Serial(initial, rule, history[..n])
  {
    if n < |history| {
      SerialPrefix(initial, rule, history[..|history| - 1], n);
      assert history[..|history| - 1][..n] == history[..n];
    } else {
      assert history[..n] == history;
    }
  }

  lemma {:induction false} SerialOutcome<V>(initial: V, rule: Rule<V>, history: seq<Event<V>>, n: nat)
    requires Serial(initial, rule, history) && n < |history| && !history[n].Overwritten?
    ensures history[n].Rejected? <==> rule(Replay(initial, history[..n])).None?
    ensures history[n].Committed? ==> rule(Replay(initial, history[..n])) == Some(history[n].after)
  {
    SerialPrefix(initial, rule, history, n + 1);
    assert history[..n + 1][..n] == history[..n];
  }

  /** However callers interleave, a caller is refused if and only if all there was has been sold before. */
  lemma {:induction false} RefusedExactlyWhenSoldOut(initial: nat, steps: seq<Step<int>>, t: Row<int>, n: nat)
    requires Leads(Fresh(initial), DECREMENT, steps, t) && NobodyElse(t.history) && n < |t.history|
    ensures t.history[n].Rejected? <==> |Returned(t.history[..n])| == initial
    ensures |Returned(t.history[..n])| <= initial
    ensures t.history[n].Committed? ==> t.history[n].after == initial - |Returned(t.history[..n])| - 1
  {
    Serializable(initial, DECREMENT, steps, t);
    SerialPrefix(initial, DECREMENT, t.history, n);
    SerialOutcome(initial, DECREMENT, t.history, n);
    SerialSales(initial, t.history[..n]);
  }

  // ---------- rooms ----------

  datatype RoomStatus =
    | VacantDirty | VacantClean | VacantInspected
    | OccupiedDirty | OccupiedClean
    | OutOfOrder | OutOfService

  predicate Occupied(status: RoomStatus) {
    status == OccupiedDirty || status == OccupiedClean
  }

  /** Reserve a room unless it is occupied. */
  const RESERVE: Rule<RoomStatus> := (status: RoomStatus) => if Occupied(status) then None else Some(OccupiedDirty)

  /** Unless somebody vacates it in between, a reserved room stays occupied. */
  lemma {:induction false} StaysOccupied(initial: RoomStatus, history: seq<Event<RoomStatus>>, i: nat)
    requires Serial(initial, RESERVE, history) && i < |history| && history[i].Committed?
    requires forall n :: i < n < |history| && history[n].Overwritten? ==> Occupied(history[n].value)
    ensures Occupied(Replay(initial, history))
  {
    var init := history[..|history| - 1];
    if i < |init| {
      assert init[i].Committed?;
      forall n | i < n < |init| && init[n].Overwritten?
        ensures Occupied(init[n].value)
      {
        assert init[n] == history[n];
      }
      StaysOccupied(initial, init, i);
    }
  }

  /** Between two committed reservations of one room somebody made it vacant. */
  lemma {:induction false} OneReservationPerVacancy(initial: RoomStatus, steps: seq<Step<RoomStatus>>, t: Row<RoomStatus>,
                                                    i: nat, j: nat)
    requires Leads(Fresh(initial), RESERVE, steps, t)
    requires i < j < |t.history| && t.history[i].Committed? && t.history[j].Committed?
    ensures exists n :: i < n < j && t.history[n].Overwritten? && !Occupied(t.history[n].value)
  {
    Serializable(initial, RESERVE, steps, t);
    SerialPrefix(initial, RESERVE, t.history, j + 1);
    SerialPrefix(initial, RESERVE, t.history, j);
    var before := t.history[..j];
    assert t.history[..j + 1][..j] == before;
    assert RESERVE(Replay(initial, before)).Some?;
    if forall n :: i < n < j && t.history[n].Overwritten? ==> Occupied(t.history[n].value) {
      StaysOccupied(initial, before, i);
      assert false;
    }
  }

  /** A reservation is refused if and only if the room is occupied at its turn, and otherwise leaves it occupied. */
  lemma {:induction false} RefusedExactlyWhenOccupied(initial: RoomStatus, steps: seq<Step<RoomStatus>>, t: Row<RoomStatus>, n: nat)
    requires Leads(Fresh(initial), RESERVE, steps, t) && n < |t.history| && !t.history[n].Overwritten?
    ensures var before := Replay(initial, t.history[..n]);
            && (t.history[n].Rejected? <==> before == OccupiedDirty || before == OccupiedClean)
            && (t.history[n].Committed? ==> t.history[n].after == OccupiedDirty)
  {
    Serializable(initial, RESERVE, steps, t);
    SerialOutcome(initial, RESERVE, t.history, n);
  }
}
