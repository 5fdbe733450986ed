/**
 The local payment reconciliation ledger: intents are payments expected, confirmations
 are payments that landed, and matching pairs them. Rows are identified by their
 position; amounts are minor units; times are milliseconds.
 */
module PaymentLedger {
  import opened Wrappers
  import TaxEngine

  type RowId = nat

  datatype Method = Cash | MpesaTill | MpesaPaybill | Card

  datatype Kind = Intent | Confirmation

  datatype Status = Pending | Matched | Unmatched | Reversed

  datatype Row = Row(
    kind: Kind,
    status: Status,
    payBy: Method,
    amount: int,
    currency: string,
    receipt: Option<string>,
    key: string,
    recordedAt: int,
    matchedAt: Option<int>,
    partner: Option<RowId>)

  type Rows = seq<Row>

  const DAY_MS: nat := 86_400_000

  function DayOf(time: int): int { time / DAY_MS }

  function ToMinor(amount: real): int { TaxEngine.Round(amount * 100.0) }

  datatype IntentInput = IntentInput(payBy: Method, amount: real, currency: string, key: string)

  datatype ConfirmationInput = ConfirmationInput(receipt: string, payBy: Method, amount: real, currency: string, key: string)

  // ---------- constraints of the table ----------

  ghost predicate KeysUnique(rows: Rows) {
    forall i, j :: 0 <= i < j < |rows| ==> rows[i].key != rows[j].key
  }

  /** One confirmation per receipt. */
  ghost predicate ReceiptsUnique(rows: Rows) {
    forall i, j :: 0 <= i < j < |rows| && rows[i].kind == rows[j].kind == Confirmation && rows[i].receipt.Some? ==>
      rows[i].receipt != rows[j].receipt
  }

  predicate HasKey(rows: Rows, key: string) {
    exists i :: 0 <= i < |rows| && rows[i].key == key
  }

  predicate HasReceipt(rows: Rows, receipt: string) {
    exists i :: 0 <= i < |rows| && rows[i].kind == Confirmation && rows[i].receipt == Some(receipt)
  }

  // ---------- what each operation does to the table ----------

  function NewIntent(input: IntentInput, now: int): Row {
    Row(Intent, Pending, input.payBy, ToMinor(input.amount), input.currency, None, input.key, now, None, None)
  }

  function NewConfirmation(input: ConfirmationInput, now: int): Row {
    Row(Confirmation, Unmatched, input.payBy, ToMinor(input.amount), input.currency, Some(input.receipt), input.key, now, None, None)
  }

  function AfterIntent(rows: Rows, input: IntentInput, now: int): Rows {
    if HasKey(rows, input.key) then rows else rows + [NewIntent(input, now)]
  }

  /** Insert or ignore, on the key as on the receipt. */
  function AfterInsert(rows: Rows, input: ConfirmationInput, now: int): Rows {
    if HasKey(rows, input.key) || HasReceipt(rows, input.receipt) then rows else rows + [NewConfirmation(input, now)]
  }

  predicate IsCandidate(rows: Rows, i: RowId, payBy: Method, amount: int) {
    i < |rows| && rows[i].kind == Intent && rows[i].status == Pending && rows[i].payBy == payBy && rows[i].amount == amount
  }

  predicate OnlyCandidate(rows: Rows, i: RowId, payBy: Method, amount: int) {
    IsCandidate(rows, i, payBy, amount) && forall j :: 0 <= j < |rows| && IsCandidate(rows, j, payBy, amount) ==> j == i
  }

  function Join(rows: Rows, i: RowId, partner: RowId, now: int): Rows {
    if i < |rows| then rows[i := rows[i].(status := Matched, matchedAt := Some(now), partner := Some(partner))] else rows
  }

  /** The two updates of a match, in the order they are made. */
  function Link(rows: Rows, confirmation: RowId, intent: RowId, now: int): Rows {
    Join(Join(rows, confirmation, intent, now), intent, confirmation, now)
  }

  /** Where the row of a key is. */
  function Find(rows: Rows, key: string, n: nat): (found: Option<RowId>)
    requires n <= |rows|
    ensures found.Some? ==> found.value < |rows| && rows[found.value].key == key
    ensures found.None? <==> forall i :: n <= i < |rows| ==> rows[i].key != key
    decreases |rows| - n
  {
    if n == |rows| then None else if rows[n].key == key then Some(n) else Find(rows, key, n + 1)
  }

  /** The lone pending intent of this method and amount, if there is exactly one. */
  function LoneCandidate(rows: Rows, payBy: Method, amount: int): (c: Option<RowId>)
    ensures c.Some? ==> OnlyCandidate(rows, c.value, payBy, amount)
    ensures c.None? ==> forall i :: !OnlyCandidate(rows, i, payBy, amount)
  {
    if i: RowId :| i < |rows| && OnlyCandidate(rows, i, payBy, amount) then Some(i) else None
  }

  /** A confirmation whose key is new but whose receipt is taken has no row to select, and the transaction throws. */
  function AfterConfirmation(rows: Rows, input: ConfirmationInput, now: int): Result<Rows, ()> {
    var inserted := AfterInsert(rows, input, now);
    match Find(inserted, input.key, 0)
    case None => Err(())
    case Some(row) =>
      match LoneCandidate(inserted, input.payBy, ToMinor(input.amount))
      case None => Ok(inserted)
      case Some(intent) => Ok(Link(inserted, row, intent, now))
  }

  function AfterMatch(rows: Rows, confirmation: RowId, intent: RowId, now: int): Rows {
    if confirmation < |rows| && rows[confirmation].kind == Confirmation then Link(rows, confirmation, intent, now) else rows
  }

  // ---------- the summary ----------

  function PendingIntents(rows: Rows): set<RowId> {
    set i | 0 <= i < |rows| && rows[i].kind == Intent && rows[i].status == Pending
  }

  function WaitingConfirmations(rows: Rows): set<RowId> {
    set i | 0 <= i < |rows| && rows[i].kind == Confirmation && rows[i].status == Unmatched
  }

  function MatchedRows(rows: Rows): set<RowId> {
    set i | 0 <= i < |rows| && rows[i].status == Matched
  }

  function ReversedRows(rows: Rows): set<RowId> {
    set i | 0 <= i < |rows| && rows[i].status == Reversed
  }

  predicate CountsOn(row: Row, m: Method, day: int) {
    row.status == Matched && row.payBy == m && DayOf(row.recordedAt) == day
  }

  /** Rows added into a method's total for a day: intents and confirmations alike. */
  function CountedOn(rows: Rows, m: Method, day: int): set<RowId> {
    set i | 0 <= i < |rows| && CountsOn(rows[i], m, day)
  }

  /** The rows of a method matched and recorded on the UTC day of `now`. */
  function MatchedToday(rows: Rows, m: Method, now: int): set<RowId> {
    set i | 0 <= i < |rows| && rows[i].status == Matched && rows[i].payBy == m && rows[i].recordedAt / 86_400_000 == now / 86_400_000
  }

  function Confirmations(rows: Rows, ids: set<RowId>): set<RowId> {
    set i | i in ids && i < |rows| && rows[i].kind == Confirmation
  }

  /** Minor units of the rows of `ids` among the first `n`. */
  function SumUpTo(rows: Rows, ids: set<RowId>, n: nat): int
    requires n <= |rows|
  {
    if n == 0 then 0 else SumUpTo(rows, ids, n - 1) + if n - 1 in ids then rows[n - 1].amount else 0
  }

  function Money(rows: Rows, ids: set<RowId>): int {
    SumUpTo(rows, ids, |rows|)
  }

  function CountUpTo(ids: set<RowId>, n: nat): nat {
    if n == 0 then 0 else CountUpTo(ids, n - 1) + if n - 1 in ids then 1 else 0
  }

  lemma {:induction false} CountIsSize(ids: set<RowId>, n: nat)
    requires forall i :: i in ids ==> i < n
    ensures CountUpTo(ids, n) == |ids|
  {
    if n > 0 {
      CountIsSize(ids - {n - 1}, n - 1);
      CountIgnores(ids, n - 1, n - 1);
    } else {
      assert ids == {};
    }
  }

  lemma {:induction false} CountIgnores(ids: set<RowId>, x: RowId, n: nat)
    requires n <= x
    ensures CountUpTo(ids - {x}, n) == CountUpTo(ids, n)
  {
    if n > 0 {
      CountIgnores(ids, x, n - 1);
    }
  }

  datatype Summary = Summary(pendingIntents: nat, unmatchedConfirmations: nat, matched: nat, reversed: nat, today: map<Method, int>)

  // ---------- the ledger as it is updated in place ----------

  /** A row as an operation hands it back. */
  datatype Returned = Returned(id: RowId, row: Row)

  class PaymentStore {
    var rows: Rows

    constructor ()
      ensures rows == []
    {
      rows := [];
    }

    method FindByKey(key: string) returns (found: Option<RowId>)
      ensures found == Find(rows, key, 0)
    {
      var n := |rows|;
      found := None;
      while n > 0
        invariant 0 <= n <= |rows| && found == Find(rows, key, n)
      {
        n := n - 1;
        if rows[n].key == key {
          found := Some(n);
        }
      }
    }

    method RecordIntent(input: IntentInput, now: int) returns (r: Returned)
      modifies this
      ensures rows == AfterIntent(old(rows), input, now)
      ensures r.id < |rows| && r.row == rows[r.id] && r.row.key == input.key
    {
      var found := FindByKey(input.key);
      if found.Some? {
        return Returned(found.value, rows[found.value]);
      }
      rows := rows + [NewIntent(input, now)];
      return Returned(|rows| - 1, rows[|rows| - 1]);
    }

    /** The row handed back for an automatic match names itself as its partner; the stored row names the intent. */
    method RecordConfirmation(input: ConfirmationInput, now: int) returns (r: Result<Returned, ()>)
      modifies this
      ensures match AfterConfirmation(old(rows), input, now)
              case Ok(after) => r.Ok? && rows == after
              case Err(_) => r.Err? && rows == old(rows)
      ensures r.Err? <==> !HasKey(old(rows), input.key) && HasReceipt(old(rows), input.receipt)
      ensures r.Ok? ==> r.value.id < |rows| && r.value.row.key == input.key
      ensures r.Ok? ==>
              if LoneCandidate(old(rows), input.payBy, ToMinor(input.amount)).None?
              then r.value.row == rows[r.value.id]
              else r.value.row.partner == Some(r.value.id) && r.value.row.status == Matched
    {
      var found := FindByKey(input.key);
      if found.None? {
        if HasReceipt(rows, input.receipt) {
          return Err(());
        }
        ghost var before := rows;
        rows := rows + [NewConfirmation(input, now)];
        FindAppended(before, NewConfirmation(input, now));
        LoneCandidateSurvivesInsert(before, NewConfirmation(input, now), input.payBy, ToMinor(input.amount));
        found := Some(|rows| - 1);
      }
      var row := found.value;
      var candidate := LoneCandidate(rows, input.payBy, ToMinor(input.amount));
      if candidate.None? {
        return Ok(Returned(row, rows[row]));
      }
      var handed := rows[row].(status := Matched, matchedAt := Some(now), partner := Some(row));
      rows := Join(rows, row, candidate.value, now);
      rows := Join(rows, candidate.value, row, now);
      return Ok(Returned(row, handed));
    }

    /** The row handed back is the confirmation as it was before the match. */
    method MatchConfirmation(confirmation: RowId, intent: RowId, now: int) returns (r: Option<Row>)
      modifies this
      ensures rows == AfterMatch(old(rows), confirmation, intent, now)
      ensures r.Some? <==> confirmation < |old(rows)| && old(rows)[confirmation].kind == Confirmation
      ensures r.Some? ==> r.value == old(rows)[confirmation]
    {
      if confirmation >= |rows| || rows[confirmation].kind != Confirmation {
        return None;
      }
      r := Some(rows[confirmation]);
      rows := rows[confirmation := rows[confirmation].(status := Matched, matchedAt := Some(now), partner := Some(intent))];
      if intent < |rows| {
        rows := rows[intent := rows[intent].(status := Matched, matchedAt := Some(now), partner := Some(confirmation))];
      }
    }

    method LedgerSummary(now: int) returns (s: Summary)
      ensures s.pendingIntents == |set i | 0 <= i < |rows| && rows[i].kind == Intent && rows[i].status == Pending|
      ensures s.unmatchedConfirmations == |set i | 0 <= i < |rows| && rows[i].kind == Confirmation && rows[i].status == Unmatched|
      ensures s.matched == |set i | 0 <= i < |rows| && rows[i].status == Matched|
      ensures s.reversed == |set i | 0 <= i < |rows| && rows[i].status == Reversed|
      ensures forall m :: m in s.today <==> MatchedToday(rows, m, now) != {}
      ensures forall m :: m in s.today ==> s.today[m] == Money(rows, MatchedToday(rows, m, now))
    {
      var pending, waiting, matched, reversed := CountRows(rows);
      var today := TotalsOn(rows, DayOf(now));
      assert forall m :: MatchedToday(rows, m, now) == CountedOn(rows, m, DayOf(now));
      s := Summary(pending, waiting, matched, reversed, today);
    }
  }

  method CountRows(rows: Rows) returns (pending: nat, waiting: nat, matched: nat, reversed: nat)
    ensures pending == |PendingIntents(rows)| && waiting == |WaitingConfirmations(rows)|
    ensures matched == |MatchedRows(rows)| && reversed == |ReversedRows(rows)|
  {
    pending, waiting, matched, reversed := 0, 0, 0, 0;
    for n := 0 to |rows|
      invariant pending == CountUpTo(PendingIntents(rows), n)
      invariant waiting == CountUpTo(WaitingConfirmations(rows), n)
      invariant matched == CountUpTo(MatchedRows(rows), n)
      invariant reversed == CountUpTo(ReversedRows(rows), n)
    {
      if rows[n].kind == Intent && rows[n].status == Pending {
        pending := pending + 1;
      }
      if rows[n].kind == Confirmation && rows[n].status == Unmatched {
        waiting := waiting + 1;
      }
      if rows[n].status == Matched {
        matched := matched + 1;
      }
      if rows[n].status == Reversed {
        reversed := reversed + 1;
      }
    }
    CountIsSize(PendingIntents(rows), |rows|);
    CountIsSize(WaitingConfirmations(rows), |rows|);
    CountIsSize(MatchedRows(rows), |rows|);
    CountIsSize(ReversedRows(rows), |rows|);
  }

  method TotalsOn(rows: Rows, day: int) returns (today: map<Method, int>)
    ensures forall m :: m in today <==> CountedOn(rows, m, day) != {}
    ensures forall m :: m in today ==> today[m] == Money(rows, CountedOn(rows, m, day))
  {
    today := map[];
    for n := 0 to |rows|
      invariant forall m :: m in today <==> exists i :: 0 <= i < n && CountsOn(rows[i], m, day)
      invariant forall m :: SumUpTo(rows, CountedOn(rows, m, day), n) == if m in today then today[m] else 0
    {
      var row := rows[n];
      if row.status == Matched && DayOf(row.recordedAt) == day {
        var sofar := if row.payBy in today then today[row.payBy] else 0;
        today := today[row.payBy := sofar + row.amount];
        assert CountsOn(rows[n], row.payBy, day);
      }
    }
    forall m
      ensures m in today <==> CountedOn(rows, m, day) != {}
    {
      if m in today {
        var i :| 0 <= i < |rows| && CountsOn(rows[i], m, day);
        assert i in CountedOn(rows, m, day);
      }
    }
  }

  lemma {:induction false} FindFrom(rows: Rows, row: Row, n: nat)
    requires n <= |rows| && forall i :: n <= i < |rows| ==> rows[i].key != row.key
    ensures Find(rows + [row], row.key, n) == Some(|rows|)
    decreases |rows| - n
  {
    if n < |rows| {
      FindFrom(rows, row, n + 1);
    }
  }

  lemma {:induction false} FindAppended(rows: Rows, row: Row)
    requires !HasKey(rows, row.key)
    ensures Find(rows + [row], row.key, 0) == Some(|rows|)
  {
    FindFrom(rows, row, 0);
  }

  // ---------- pairing ----------

  /** Row `i` is unmatched, or paired with a row of the other kind that is paired with it. */
  predicate RowPaired(rows: Rows, i: RowId)
    requires i < |rows|
  {
    var row := rows[i];
    match row.partner
    case None => row.matchedAt == None && row.status == if row.kind == Intent then Pending else Unmatched
    case Some(j) =>
      && row.status == Matched && row.matchedAt.Some?
      && j < |rows|
      && rows[j].status == Matched
      && rows[j].partner == Some(i)
      && rows[j].kind != row.kind
      && rows[j].matchedAt == row.matchedAt
  }

  /** The partner column is a one-to-one pairing of MATCHED intents with MATCHED confirmations. */
  predicate Paired(rows: Rows) {
    forall i :: 0 <= i < |rows| ==> RowPaired(rows, i)
  }

  lemma AppendKeepsPaired(rows: Rows, row: Row)
    requires Paired(rows)
    requires row.partner.None? && row.matchedAt.None? && row.status == if row.kind == Intent then Pending else Unmatched
    ensures Paired(rows + [row])
  {
    var rows' := rows + [row];
    forall i | 0 <= i < |rows'|
      ensures RowPaired(rows', i)
    {
      if i < |rows| {
        assert RowPaired(rows, i);
      }
    }
  }

  /** What a manual match may link: two rows waiting for each other, or a pair that is already linked. */
  predicate Linkable(rows: Rows, confirmation: RowId, intent: RowId)
    requires confirmation < |rows|
  {
    || (rows[confirmation].status == Unmatched && intent < |rows| && rows[intent].kind == Intent && rows[intent].status == Pending)
    || rows[confirmation].partner == Some(intent)
  }

  /** Linking a confirmation keeps the pairing exactly when the two rows are linkable. */
  lemma {:induction false} LinkKeepsPaired(rows: Rows, confirmation: RowId, intent: RowId, now: int)
    requires Paired(rows) && confirmation < |rows| && rows[confirmation].kind == Confirmation
    ensures Paired(Link(rows, confirmation, intent, now)) <==> Linkable(rows, confirmation, intent)
  {
    var rows' := Link(rows, confirmation, intent, now);
    assert RowPaired(rows, confirmation);
    if Linkable(rows, confirmation, intent) {
      assert RowPaired(rows, intent);
      forall i | 0 <= i < |rows'|
        ensures RowPaired(rows', i)
      {
        assert RowPaired(rows, i);
      }
    } else {
      LinkBreaksPairing(rows, confirmation, intent, now);
    }
  }

  lemma {:induction false} LinkBreaksPairing(rows: Rows, confirmation: RowId, intent: RowId, now: int)
    requires Paired(rows) && confirmation < |rows| && rows[confirmation].kind == Confirmation
    requires !Linkable(rows, confirmation, intent)
    ensures !Paired(Link(rows, confirmation, intent, now))
  {
    var rows' := Link(rows, confirmation, intent, now);
    assert RowPaired(rows, confirmation);
    if intent >= |rows| || rows[intent].kind == Confirmation {
      assert !RowPaired(rows', confirmation);
    } else if rows[intent].partner.Some? {
      var other := rows[intent].partner.value;
      assert RowPaired(rows, intent);
      assert !RowPaired(rows', other);
    } else {
      assert RowPaired(rows, intent);
      var other := rows[confirmation].partner.value;
      assert !RowPaired(rows', other);
    }
  }

  /** A manual match keeps the pairing exactly when it changes nothing or its two rows are linkable. */
  lemma {:induction false} ManualMatchKeepsPaired(rows: Rows, confirmation: RowId, intent: RowId, now: int)
    requires Paired(rows)
    ensures Paired(AfterMatch(rows, confirmation, intent, now)) <==>
            confirmation >= |rows| || rows[confirmation].kind != Confirmation || Linkable(rows, confirmation, intent)
  {
    if confirmation < |rows| && rows[confirmation].kind == Confirmation {
      LinkKeepsPaired(rows, confirmation, intent, now);
    }
  }

  /** An intent linked as if it were a confirmation breaks the pairing. */
  lemma LinkingIntentBreaks(rows: Rows, row: RowId, intent: RowId, now: int)
    requires Paired(rows) && row < |rows| && rows[row].kind == Intent && intent < |rows| && rows[intent].kind == Intent
    ensures !Paired(Link(rows, row, intent, now))
  {
    assert !RowPaired(Link(rows, row, intent, now), row);
  }

  /** The row a confirmation's key already selects, if any, must itself still be waiting. */
  predicate KeyIsFreeOrWaiting(rows: Rows, key: string) {
    forall i :: 0 <= i < |rows| && rows[i].key == key ==> rows[i].kind == Confirmation && rows[i].status == Unmatched
  }

  lemma LoneCandidateSurvivesInsert(rows: Rows, row: Row, payBy: Method, amount: int)
    requires row.kind == Confirmation
    ensures LoneCandidate(rows + [row], payBy, amount) == LoneCandidate(rows, payBy, amount)
  {
    var rows' := rows + [row];
    assert forall i :: IsCandidate(rows', i, payBy, amount) <==> IsCandidate(rows, i, payBy, amount);
    assert forall i :: OnlyCandidate(rows', i, payBy, amount) <==> OnlyCandidate(rows, i, payBy, amount);
  }

  /**
   Recording a confirmation keeps the pairing exactly when no lone candidate turns up,
   or its key is new or belongs to a confirmation still waiting. A replay of a
   confirmation already matched takes a second intent.
   */
  lemma {:induction false} ConfirmationKeepsPaired(rows: Rows, input: ConfirmationInput, now: int)
    requires Paired(rows) && KeysUnique(rows) && AfterConfirmation(rows, input, now).Ok?
    ensures Paired(AfterConfirmation(rows, input, now).value) <==>
            LoneCandidate(rows, input.payBy, ToMinor(input.amount)).None? || KeyIsFreeOrWaiting(rows, input.key)
  {
    var inserted := AfterInsert(rows, input, now);
    if inserted != rows {
      AppendKeepsPaired(rows, NewConfirmation(input, now));
      LoneCandidateSurvivesInsert(rows, NewConfirmation(input, now), input.payBy, ToMinor(input.amount));
      FindAppended(rows, NewConfirmation(input, now));
    }
    var row := Find(inserted, input.key, 0).value;
    var lone := LoneCandidate(inserted, input.payBy, ToMinor(input.amount));
    if lone.Some? {
      assert RowPaired(inserted, row);
      if inserted[row].kind == Confirmation {
        LinkKeepsPaired(inserted, row, lone.value, now);
        assert RowPaired(inserted, lone.value);
      } else {
        LinkingIntentBreaks(inserted, row, lone.value, now);
      }
      KeyOwner(rows, inserted, input.key, row);
    }
  }

  /** With unique keys the selected row decides whether the key is free or waiting. */
  lemma KeyOwner(rows: Rows, inserted: Rows, key: string, row: RowId)
    requires KeysUnique(rows) && rows <= inserted && row < |inserted| && inserted[row].key == key
    requires row >= |rows| ==> !HasKey(rows, key) && inserted[row].kind == Confirmation && inserted[row].status == Unmatched
    ensures KeyIsFreeOrWaiting(rows, key) <==> inserted[row].kind == Confirmation && inserted[row].status == Unmatched
  {
  }

  // ---------- runs ----------

  datatype Step =
    | IntentStep(intent: IntentInput, now: int)
    | ConfirmationStep(confirmation: ConfirmationInput, now: int)
    | MatchStep(confirmationId: RowId, intentId: RowId, now: int)

  function Next(rows: Rows, step: Step): Rows {
    match step
    case IntentStep(input, now) => AfterIntent(rows, input, now)
    case ConfirmationStep(input, now) =>
      (match AfterConfirmation(rows, input, now) case Ok(after) => after case Err(_) => rows)
    case MatchStep(c, i, now) => AfterMatch(rows, c, i, now)
  }

  function Run(steps: seq<Step>): Rows {
    if steps == [] then [] else Next(Run(steps[..|steps| - 1]), steps[|steps| - 1])
  }

  /** Confirmations use keys not yet taken by a settled row, manual matches join rows that are linkable. */
  predicate Disciplined(rows: Rows, step: Step) {
    match step
    case IntentStep(_, _) => true
    case ConfirmationStep(input, _) =>
      KeyIsFreeOrWaiting(rows, input.key) || LoneCandidate(rows, input.payBy, ToMinor(input.amount)).None?
    case MatchStep(c, i, _) => c < |rows| && rows[c].kind == Confirmation ==> Linkable(rows, c, i)
  }

  predicate DisciplinedRun(steps: seq<Step>) {
    steps == [] || (DisciplinedRun(steps[..|steps| - 1]) && Disciplined(Run(steps[..|steps| - 1]), steps[|steps| - 1]))
  }

  predicate SameFacts(a: Row, b: Row) {
    && a.kind == b.kind && a.payBy == b.payBy && a.amount == b.amount && a.currency == b.currency
    && a.receipt == b.receipt && a.key == b.key && a.recordedAt == b.recordedAt
  }

  /** Matching changes no fact about a payment, and marks just the two rows, with the time. */
  lemma LinkKeepsFacts(rows: Rows, c: RowId, i: RowId, now: int)
    ensures |Link(rows, c, i, now)| == |rows|
    ensures forall n :: 0 <= n < |rows| ==>
              var row := Link(rows, c, i, now)[n];
              if n == c || n == i then row.status == Matched && row.matchedAt == Some(now) else row == rows[n]
    ensures forall n :: 0 <= n < |rows| ==> SameFacts(Link(rows, c, i, now)[n], rows[n])
  {
  }

  /** In every run, disciplined or not, no key occurs twice and no receipt is confirmed twice. */
  lemma {:induction false} TableConstraintsHold(steps: seq<Step>)
    ensures KeysUnique(Run(steps)) && ReceiptsUnique(Run(steps))
  {
    if steps != [] {
      TableConstraintsHold(steps[..|steps| - 1]);
      StepKeepsConstraints(Run(steps[..|steps| - 1]), steps[|steps| - 1]);
    }
  }

  lemma FactsKeepConstraints(rows: Rows, rows': Rows)
    requires KeysUnique(rows) && ReceiptsUnique(rows) && |rows'| == |rows|
    requires forall n :: 0 <= n < |rows| ==> SameFacts(rows'[n], rows[n])
    ensures KeysUnique(rows') && ReceiptsUnique(rows')
  {
    forall i, j | 0 <= i < j < |rows|
      ensures rows'[i].key != rows'[j].key
      ensures rows'[i].kind == rows'[j].kind == Confirmation && rows'[i].receipt.Some? ==> rows'[i].receipt != rows'[j].receipt
    {
      assert SameFacts(rows'[i], rows[i]) && SameFacts(rows'[j], rows[j]);
    }
  }

  lemma {:induction false} StepKeepsConstraints(rows: Rows, step: Step)
    requires KeysUnique(rows) && ReceiptsUnique(rows)
    ensures KeysUnique(Next(rows, step)) && ReceiptsUnique(Next(rows, step))
  {
    match step
    case IntentStep(_, _) =>
    case ConfirmationStep(input, now) =>
      var inserted := AfterInsert(rows, input, now);
      assert KeysUnique(inserted) && ReceiptsUnique(inserted);
      var found, lone := Find(inserted, input.key, 0), LoneCandidate(inserted, input.payBy, ToMinor(input.amount));
      if found.Some? && lone.Some? {
        LinkKeepsFacts(inserted, found.value, lone.value, now);
        FactsKeepConstraints(inserted, Link(inserted, found.value, lone.value, now));
      }
    case MatchStep(c, i, now) =>
      LinkKeepsFacts(rows, c, i, now);
      FactsKeepConstraints(rows, Link(rows, c, i, now));
  }

  /** No operation reverses a payment: that count of the summary is zero in every run. */
  lemma {:induction false} NothingIsReversed(steps: seq<Step>)
    ensures ReversedRows(Run(steps)) == {}
  {
    if steps != [] {
      NothingIsReversed(steps[..|steps| - 1]);
      StepReversesNothing(Run(steps[..|steps| - 1]), steps[|steps| - 1]);
    }
  }

  lemma LinkReversesNothing(rows: Rows, c: RowId, i: RowId, now: int)
    requires ReversedRows(rows) == {}
    ensures ReversedRows(Link(rows, c, i, now)) == {}
  {
    assert forall n :: 0 <= n < |rows| ==> n !in ReversedRows(rows);
  }

  lemma {:induction false} StepReversesNothing(rows: Rows, step: Step)
    requires ReversedRows(rows) == {}
    ensures ReversedRows(Next(rows, step)) == {}
  {
    assert forall n :: 0 <= n < |rows| ==> n !in ReversedRows(rows);
    match step
    case IntentStep(_, _) =>
    case ConfirmationStep(input, now) =>
      var inserted := AfterInsert(rows, input, now);
      var found, lone := Find(inserted, input.key, 0), LoneCandidate(inserted, input.payBy, ToMinor(input.amount));
      if found.Some? && lone.Some? {
        LinkReversesNothing(inserted, found.value, lone.value, now);
      }
    case MatchStep(c, i, now) => LinkReversesNothing(rows, c, i, now);
  }

  /** In every disciplined run the partner column is a one-to-one pairing of intents with confirmations. */
  lemma {:induction false} DisciplinedRunsStayPaired(steps: seq<Step>)
    requires DisciplinedRun(steps)
    ensures Paired(Run(steps))
  {
    if steps != [] {
      var init := steps[..|steps| - 1];
      var rows := Run(init);
      DisciplinedRunsStayPaired(init);
      TableConstraintsHold(init);
      match steps[|steps| - 1]
      case IntentStep(input, now) =>
        if !HasKey(rows, input.key) {
          AppendKeepsPaired(rows, NewIntent(input, now));
        }
      case ConfirmationStep(input, now) =>
        if AfterConfirmation(rows, input, now).Ok? {
          ConfirmationKeepsPaired(rows, input, now);
        }
      case MatchStep(c, i, now) => ManualMatchKeepsPaired(rows, c, i, now);
    }
  }

  /** One undisciplined step ends the pairing, whatever came before. */
  lemma {:induction false} UndisciplinedStepBreaksPairing(steps: seq<Step>, step: Step)
    requires DisciplinedRun(steps) && !Disciplined(Run(steps), step)
    ensures !Paired(Next(Run(steps), step))
  {
    DisciplinedRunsStayPaired(steps);
    TableConstraintsHold(steps);
    match step
    case IntentStep(_, _) =>
    case ConfirmationStep(input, now) =>
      TakenKeySelects(Run(steps), input, now);
      ConfirmationKeepsPaired(Run(steps), input, now);
    case MatchStep(c, i, now) => ManualMatchKeepsPaired(Run(steps), c, i, now);
  }

  lemma TakenKeySelects(rows: Rows, input: ConfirmationInput, now: int)
    requires !KeyIsFreeOrWaiting(rows, input.key)
    ensures AfterConfirmation(rows, input, now).Ok?
  {
    assert HasKey(rows, input.key);
  }

  /** A payment of one unit by a given key, and a replay of it after a second intent of the same amount. */
  function ReplaySteps(): seq<Step> {
    var paid := ConfirmationInput("QK1", Cash, 1.0, "KES", "confirm-1");
    [IntentStep(IntentInput(Cash, 1.0, "KES", "intent-1"), 0), ConfirmationStep(paid, 1),
     IntentStep(IntentInput(Cash, 1.0, "KES", "intent-2"), 2), ConfirmationStep(paid, 3)]
  }

  /** The replay of a confirmation already matched takes the second intent: two intents, one payment. */
  lemma {:induction false} ReplayTakesSecondIntent()
    ensures var rows := Run(ReplaySteps());
            && |rows| == 3
            && rows[0].kind == Intent && rows[2].kind == Intent && rows[1].kind == Confirmation
            && rows[0].partner == Some(1) && rows[2].partner == Some(1) && rows[1].partner == Some(2)
            && !Paired(rows)
  {
    var steps := ReplaySteps();
    var i1, c1, i2 := steps[0].intent, steps[1].confirmation, steps[2].intent;
    assert i1.key[0] == 'i' && c1.key[0] == 'c' && i1.key[7] == '1' && i2.key[7] == '2';
    var r1 := [NewIntent(i1, 0)];
    assert steps[..3][..2] == steps[..2] && steps[..2][..1] == steps[..1] && steps[..1][..0] == [];
    assert Run(steps[..1]) == r1;
    assert LoneCandidate(r1, Cash, ToMinor(1.0)) == Some(0) by { assert OnlyCandidate(r1, 0, Cash, ToMinor(1.0)); }
    LoneCandidateSurvivesInsert(r1, NewConfirmation(c1, 1), Cash, ToMinor(1.0));
    FindAppended(r1, NewConfirmation(c1, 1));
    var r2 := Link(r1 + [NewConfirmation(c1, 1)], 1, 0, 1);
    assert !HasReceipt(r1, c1.receipt);
    assert Run(steps[..2]) == r2;
    assert !HasKey(r2, i2.key);
    var r3 := r2 + [NewIntent(i2, 2)];
    assert Run(steps[..3]) == r3;
    assert r3[1].key == c1.key;
    assert LoneCandidate(r3, Cash, ToMinor(1.0)) == Some(2) by { assert OnlyCandidate(r3, 2, Cash, ToMinor(1.0)); }
    assert Find(r3, c1.key, 0) == Some(1);
    assert Run(steps) == Link(r3, 1, 2, 3);
    assert !RowPaired(Run(steps), 0);
  }

  // ---------- agreement of pairs ----------

  /** What a pair may agree on: what the automatic match looks at, and what it does not. */
  datatype Term = MethodAndAmount | Currency

  predicate Alike(a: Row, b: Row, term: Term) {
    match term
    case MethodAndAmount => a.payBy == b.payBy && a.amount == b.amount
    case Currency => a.currency == b.currency
  }

  predicate Agrees(rows: Rows, term: Term, i: RowId)
    requires i < |rows|
  {
    rows[i].partner.Some? && rows[i].partner.value < |rows| ==> Alike(rows[i], rows[rows[i].partner.value], term)
  }

  /** Matched rows agree with their partners. */
  predicate Agreeing(rows: Rows, term: Term) {
    forall i :: 0 <= i < |rows| ==> Agrees(rows, term, i)
  }

  /** The row a confirmation's key selects: the one that has it already, or the new one. */
  function SelectedRow(rows: Rows, input: ConfirmationInput, now: int): Row {
    match Find(rows, input.key, 0)
    case Some(i) => rows[i]
    case None => NewConfirmation(input, now)
  }

  /** What is matched agrees: the selected row with the lone candidate, or the two rows named by hand. */
  predicate Faithful(rows: Rows, step: Step, term: Term) {
    match step
    case IntentStep(_, _) => true
    case ConfirmationStep(input, now) =>
      if AfterConfirmation(rows, input, now).Err? then true
      else (match LoneCandidate(rows, input.payBy, ToMinor(input.amount))
            case None => true
            case Some(i) => Alike(SelectedRow(rows, input, now), rows[i], term))
    case MatchStep(c, i, _) => c < |rows| && i < |rows| && rows[c].kind == Confirmation ==> Alike(rows[c], rows[i], term)
  }

  /** A new key needs no care about method and amount, and about the currency only that of the intent it meets. */
  lemma {:induction false} NewKeyIsFaithful(rows: Rows, input: ConfirmationInput, now: int)
    requires !HasKey(rows, input.key) && !HasReceipt(rows, input.receipt)
    ensures Faithful(rows, ConfirmationStep(input, now), MethodAndAmount)
    ensures var lone := LoneCandidate(rows, input.payBy, ToMinor(input.amount));
            Faithful(rows, ConfirmationStep(input, now), Currency) <==> lone.None? || rows[lone.value].currency == input.currency
  {
    FindAppended(rows, NewConfirmation(input, now));
    LoneCandidateSurvivesInsert(rows, NewConfirmation(input, now), input.payBy, ToMinor(input.amount));
  }

  /** Linking two linkable rows keeps the agreement exactly when they agree. */
  lemma LinkKeepsAgreeing(rows: Rows, c: RowId, i: RowId, now: int, term: Term)
    requires Agreeing(rows, term) && Paired(rows)
    requires c < |rows| && i < |rows| && rows[c].kind == Confirmation && Linkable(rows, c, i)
    ensures Agreeing(Link(rows, c, i, now), term) <==> Alike(rows[c], rows[i], term)
  {
    var rows' := Link(rows, c, i, now);
    LinkKeepsFacts(rows, c, i, now);
    assert RowPaired(rows, c) && RowPaired(rows, i);
    if Alike(rows[c], rows[i], term) {
      forall n | 0 <= n < |rows'|
        ensures Agrees(rows', term, n)
      {
        assert SameFacts(rows'[n], rows[n]) && Agrees(rows, term, n);
        if rows'[n].partner.Some? && rows'[n].partner.value < |rows'| {
          assert SameFacts(rows'[rows'[n].partner.value], rows[rows'[n].partner.value]);
        }
      }
    } else {
      assert !Agrees(rows', term, c);
    }
  }

  lemma AppendKeepsAgreeing(rows: Rows, row: Row, term: Term)
    requires Paired(rows) && Agreeing(rows, term) && row.partner.None?
    ensures Agreeing(rows + [row], term)
  {
    forall i | 0 <= i < |rows + [row]|
      ensures Agrees(rows + [row], term, i)
    {
      if i < |rows| {
        assert RowPaired(rows, i) && Agrees(rows, term, i);
      }
    }
  }

  /** A confirmation that keeps the pairing keeps the agreement of pairs exactly when it is faithful. */
  lemma {:induction false} ConfirmationKeepsAgreeing(rows: Rows, input: ConfirmationInput, now: int, term: Term)
    requires Paired(rows) && Agreeing(rows, term) && KeysUnique(rows) && Disciplined(rows, ConfirmationStep(input, now))
    ensures Agreeing(Next(rows, ConfirmationStep(input, now)), term) <==> Faithful(rows, ConfirmationStep(input, now), term)
  {
    var row := NewConfirmation(input, now);
    var inserted := AfterInsert(rows, input, now);
    var found := Find(inserted, input.key, 0);
    AppendKeepsAgreeing(rows, row, term);
    AppendKeepsPaired(rows, row);
    LoneCandidateSurvivesInsert(rows, row, input.payBy, ToMinor(input.amount));
    var lone := LoneCandidate(inserted, input.payBy, ToMinor(input.amount));
    if found.Some? && lone.Some? {
      if inserted != rows {
        FindAppended(rows, row);
      }
      KeyOwner(rows, inserted, input.key, found.value);
      LinkKeepsAgreeing(inserted, found.value, lone.value, now, term);
    }
  }

  /** A manual match that keeps the pairing keeps the agreement exactly when it is faithful. */
  lemma {:induction false} ManualMatchKeepsAgreeing(rows: Rows, c: RowId, i: RowId, now: int, term: Term)
    requires Paired(rows) && Agreeing(rows, term) && Disciplined(rows, MatchStep(c, i, now))
    ensures Agreeing(AfterMatch(rows, c, i, now), term) <==> Faithful(rows, MatchStep(c, i, now), term)
  {
    if c < |rows| && rows[c].kind == Confirmation {
      assert RowPaired(rows, c);
      LinkKeepsAgreeing(rows, c, i, now, term);
    }
  }

  predicate FaithfulRun(steps: seq<Step>, term: Term) {
    steps == [] || (FaithfulRun(steps[..|steps| - 1], term) && Faithful(Run(steps[..|steps| - 1]), steps[|steps| - 1], term))
  }

  /** In every disciplined, faithful run all pairs agree: on method and minor amount, or on the currency. */
  lemma {:induction false} PairsAgree(steps: seq<Step>, term: Term)
    requires DisciplinedRun(steps) && FaithfulRun(steps, term)
    ensures Agreeing(Run(steps), term) && Paired(Run(steps))
  {
    DisciplinedRunsStayPaired(steps);
    if steps != [] {
      var init := steps[..|steps| - 1];
      var rows := Run(init);
      PairsAgree(init, term);
      TableConstraintsHold(init);
      match steps[|steps| - 1]
      case IntentStep(input, now) => AppendKeepsAgreeing(rows, NewIntent(input, now), term);
      case ConfirmationStep(input, now) => ConfirmationKeepsAgreeing(rows, input, now, term);
      case MatchStep(c, i, now) => ManualMatchKeepsAgreeing(rows, c, i, now, term);
    }
  }

  /** One dollar expected, one shilling paid. */
  function CurrencySteps(): seq<Step> {
    [IntentStep(IntentInput(Cash, 1.0, "USD", "intent-1"), 0), ConfirmationStep(ConfirmationInput("QK1", Cash, 1.0, "KES", "confirm-1"), 1)]
  }

  /** The automatic match ignores the currency: a payment in one settles an intent in another. */
  lemma {:induction false} ShillingSettlesDollar()
    ensures var rows := Run(CurrencySteps());
            && DisciplinedRun(CurrencySteps()) && Paired(rows) && |rows| == 2
            && rows[0].kind == Intent && rows[0].currency == "USD" && rows[0].partner == Some(1)
            && rows[1].kind == Confirmation && rows[1].currency == "KES" && rows[1].partner == Some(0)
  {
    var steps := CurrencySteps();
    var intent, paid := steps[0].intent, steps[1].confirmation;
    assert intent.key[0] == 'i' && paid.key[0] == 'c';
    assert steps[..1][..0] == [];
    var rows := [NewIntent(intent, 0)];
    assert Run(steps[..1]) == rows && DisciplinedRun(steps[..1]);
    assert LoneCandidate(rows, Cash, ToMinor(1.0)) == Some(0) by { assert OnlyCandidate(rows, 0, Cash, ToMinor(1.0)); }
    LoneCandidateSurvivesInsert(rows, NewConfirmation(paid, 1), Cash, ToMinor(1.0));
    FindAppended(rows, NewConfirmation(paid, 1));
    assert !HasReceipt(rows, paid.receipt);
    DisciplinedRunsStayPaired(steps);
  }

  // ---------- what an input becomes ----------

  /** Minor units are cents: whole cents are kept as they are, so two such amounts meet exactly when they are equal. */
  lemma {:induction false} MinorUnitsAreCents(a: int, b: int)
    ensures ToMinor(a as real / 100.0) == a
    ensures ToMinor(a as real / 100.0) == ToMinor(b as real / 100.0) <==> a == b
  {
    CentsKept(a);
    CentsKept(b);
  }

  lemma CentsKept(a: int)
    ensures ToMinor(a as real / 100.0) == a
  {
    assert a as real / 100.0 * 100.0 == a as real;
    TaxEngine.WholeCentsUnchanged(a);
  }

  lemma {:induction false} DaysAreUtcDays(t: int)
    ensures DayOf(t) * 86_400_000 <= t < (DayOf(t) + 1) * 86_400_000
  {
  }

  /** The row says what the input said, amounts in whole cents, and when. */
  predicate Records(row: Row, step: Step) {
    match step
    case IntentStep(input, now) =>
      && row.kind == Intent && row.payBy == input.payBy && row.currency == input.currency && row.key == input.key
      && row.receipt == None && row.recordedAt == now && -0.5 < row.amount as real - input.amount * 100.0 <= 0.5
    case ConfirmationStep(input, now) =>
      && row.kind == Confirmation && row.payBy == input.payBy && row.currency == input.currency && row.key == input.key
      && row.receipt == Some(input.receipt) && row.recordedAt == now && -0.5 < row.amount as real - input.amount * 100.0 <= 0.5
    case MatchStep(_, _, _) => false
  }

  /** One of the steps recorded the row. */
  ghost predicate Recorded(row: Row, steps: seq<Step>) {
    exists n :: 0 <= n < |steps| && Records(row, steps[n])
  }

  lemma RecordedBefore(a: Row, b: Row, steps: seq<Step>)
    requires steps != [] && Recorded(b, steps[..|steps| - 1]) && SameFacts(a, b)
    ensures Recorded(a, steps)
  {
    var n :| 0 <= n < |steps| - 1 && Records(b, steps[..|steps| - 1][n]);
    assert Records(a, steps[n]);
  }

  /** Rows keep their facts over a step, and a new row records it. */
  lemma {:induction false} StepRecords(rows: Rows, step: Step)
    ensures |rows| <= |Next(rows, step)|
    ensures forall i :: 0 <= i < |rows| ==> SameFacts(Next(rows, step)[i], rows[i])
    ensures forall i :: |rows| <= i < |Next(rows, step)| ==> Records(Next(rows, step)[i], step)
  {
    match step
    case IntentStep(_, _) =>
    case ConfirmationStep(input, now) =>
      var inserted := AfterInsert(rows, input, now);
      var found, lone := Find(inserted, input.key, 0), LoneCandidate(inserted, input.payBy, ToMinor(input.amount));
      if found.Some? && lone.Some? {
        LinkKeepsFacts(inserted, found.value, lone.value, now);
      }
    case MatchStep(c, i, now) => LinkKeepsFacts(rows, c, i, now);
  }

  /** In every run every row records one of its steps: no operation invents a payment or changes what was said of it. */
  lemma {:induction false} EveryRowIsRecorded(steps: seq<Step>, i: RowId)
    requires i < |Run(steps)|
    ensures Recorded(Run(steps)[i], steps)
  {
    if steps != [] {
      var init, last := steps[..|steps| - 1], steps[|steps| - 1];
      StepRecords(Run(init), last);
      if i < |Run(init)| {
        EveryRowIsRecorded(init, i);
        RecordedBefore(Run(steps)[i], Run(init)[i], steps);
      } else {
        assert Records(Run(steps)[i], steps[|steps| - 1]);
      }
    }
  }

  /** The intent was announced with just this method and this amount of whole cents. */
  predicate Announces(step: Step, payBy: Method, cents: int) {
    step.IntentStep? && step.intent.payBy == payBy && -0.5 < cents as real - step.intent.amount * 100.0 <= 0.5
  }

  ghost predicate Announced(steps: seq<Step>, payBy: Method, cents: int) {
    exists n :: 0 <= n < |steps| && Announces(steps[n], payBy, cents)
  }

  /**
   After any run, a confirmation of so many whole cents under a new key is matched only
   with an intent that was announced with that method and exactly that many cents.
   */
  lemma {:induction false} MatchesWhatWasAnnounced(steps: seq<Step>, input: ConfirmationInput, now: int, cents: int)
    requires input.amount == cents as real / 100.0
    requires !HasKey(Run(steps), input.key) && !HasReceipt(Run(steps), input.receipt)
    ensures var rows := Next(Run(steps), ConfirmationStep(input, now));
            && |rows| == |Run(steps)| + 1 && rows[|rows| - 1].amount == cents
            && (rows[|rows| - 1].status == Matched ==> Announced(steps, input.payBy, cents))
            && (rows[|rows| - 1].status == Matched <==> LoneCandidate(Run(steps), input.payBy, cents).Some?)
  {
    var before, row := Run(steps), NewConfirmation(input, now);
    CentsKept(cents);
    FindAppended(before, row);
    LoneCandidateSurvivesInsert(before, row, input.payBy, cents);
    var lone := LoneCandidate(before, input.payBy, cents);
    if lone.Some? {
      EveryRowIsRecorded(steps, lone.value);
      var n :| 0 <= n < |steps| && Records(before[lone.value], steps[n]);
      assert Announces(steps[n], input.payBy, cents);
    }
  }

  lemma {:induction false} ReceiptsStay(rows: Rows, step: Step, receipt: string)
    requires HasReceipt(rows, receipt)
    ensures HasReceipt(Next(rows, step), receipt)
  {
    var i :| 0 <= i < |rows| && rows[i].kind == Confirmation && rows[i].receipt == Some(receipt);
    StepRecords(rows, step);
    assert SameFacts(Next(rows, step)[i], rows[i]);
  }

  lemma {:induction false} ReceiptIsRemembered(steps: seq<Step>, more: seq<Step>, receipt: string)
    requires HasReceipt(Run(steps), receipt)
    ensures HasReceipt(Run(steps + more), receipt)
  {
    if more == [] {
      assert steps + more == steps;
    } else {
      var n := |more| - 1;
      ReceiptIsRemembered(steps, more[..n], receipt);
      assert (steps + more)[..|steps + more| - 1] == steps + more[..n];
      ReceiptsStay(Run(steps + more[..n]), more[n], receipt);
    }
  }

  /** Once a receipt is confirmed, at any later time the same receipt under another key throws and changes nothing. */
  lemma {:induction false} ReceiptConfirmedOnce(steps: seq<Step>, first: ConfirmationInput, now: int, more: seq<Step>, again: ConfirmationInput, later: int)
    requires !HasKey(Run(steps), first.key) && again.receipt == first.receipt
    requires !HasKey(Run(steps + [ConfirmationStep(first, now)] + more), again.key)
    ensures AfterConfirmation(Run(steps + [ConfirmationStep(first, now)] + more), again, later).Err?
  {
    var so := steps + [ConfirmationStep(first, now)];
    assert so[..|so| - 1] == steps;
    ReceiptTaken(Run(steps), first, now);
    ReceiptIsRemembered(so, more, first.receipt);
    var rows := Run(so + more);
    assert Find(rows, again.key, 0).None?;
  }

  lemma ReceiptTaken(rows: Rows, input: ConfirmationInput, now: int)
    requires !HasKey(rows, input.key)
    ensures HasReceipt(Next(rows, ConfirmationStep(input, now)), input.receipt)
  {
    if HasReceipt(rows, input.receipt) {
      ReceiptsStay(rows, ConfirmationStep(input, now), input.receipt);
    } else {
      var row := NewConfirmation(input, now);
      FindAppended(rows, row);
      var rows' := Next(rows, ConfirmationStep(input, now));
      LoneCandidateSurvivesInsert(rows, row, input.payBy, ToMinor(input.amount));
      assert rows'[|rows|].kind == Confirmation && rows'[|rows|].receipt == Some(input.receipt);
    }
  }

  // ---------- what the summary shows ----------

  predicate PartnerIn(rows: Rows, ids: set<RowId>, i: RowId) {
    i < |rows| && rows[i].partner.Some? && rows[i].partner.value in ids
  }

  /** Closed under partners. */
  predicate WholePairs(rows: Rows, ids: set<RowId>) {
    forall i :: i in ids ==> PartnerIn(rows, ids, i)
  }

  lemma {:induction false} SumWithout(rows: Rows, ids: set<RowId>, x: RowId, n: nat)
    requires n <= |rows| && x in ids && x < |rows|
    ensures SumUpTo(rows, ids - {x}, n) == SumUpTo(rows, ids, n) - if x < n then rows[x].amount else 0
  {
    if n > 0 {
      SumWithout(rows, ids, x, n - 1);
    }
  }

  lemma {:induction false} SumOfNone(rows: Rows, n: nat)
    requires n <= |rows|
    ensures SumUpTo(rows, {}, n) == 0
  {
    if n > 0 {
      SumOfNone(rows, n - 1);
    }
  }

  /** Takes one pair out of whole pairs: `i` is the confirmation, `j` the intent. */
  lemma PeelPair(rows: Rows, ids: set<RowId>) returns (i: RowId, j: RowId)
    requires Paired(rows) && WholePairs(rows, ids) && ids != {}
    ensures i in ids && j in ids && i != j && rows[i].partner == Some(j)
    ensures rows[i].kind == Confirmation && rows[j].kind == Intent
    ensures WholePairs(rows, ids - {i} - {j})
    ensures Confirmations(rows, ids - {i} - {j}) == Confirmations(rows, ids) - {i}
  {
    var k :| k in ids;
    assert PartnerIn(rows, ids, k) && RowPaired(rows, k);
    i := if rows[k].kind == Confirmation then k else rows[k].partner.value;
    assert PartnerIn(rows, ids, i) && RowPaired(rows, i);
    j := rows[i].partner.value;
    forall n | n in ids - {i} - {j}
      ensures PartnerIn(rows, ids - {i} - {j}, n)
    {
      assert PartnerIn(rows, ids, n) && RowPaired(rows, n);
    }
  }

  lemma RemoveTwo(ids: set<RowId>, i: RowId, j: RowId)
    requires i in ids && j in ids && i != j
    ensures |ids - {i} - {j}| == |ids| - 2
  {
    assert |ids - {i}| == |ids| - 1;
  }

  /** Over whole pairs, half the rows are confirmations. */
  lemma {:induction false} HalfAreConfirmations(rows: Rows, ids: set<RowId>)
    requires Paired(rows) && WholePairs(rows, ids)
    ensures |ids| == 2 * |Confirmations(rows, ids)|
    decreases |ids|
  {
    if ids == {} {
      assert Confirmations(rows, ids) == {};
    } else {
      var i, j := PeelPair(rows, ids);
      RemoveTwo(ids, i, j);
      HalfAreConfirmations(rows, ids - {i} - {j});
      assert i in Confirmations(rows, ids);
    }
  }

  lemma MoneyOfPair(rows: Rows, ids: set<RowId>, i: RowId, j: RowId)
    requires Agreeing(rows, MethodAndAmount) && i in ids && j in ids && i != j && i < |rows| && j < |rows|
    requires rows[i].kind == Confirmation && rows[i].partner == Some(j)
    ensures Money(rows, ids) == Money(rows, ids - {i} - {j}) + 2 * rows[i].amount
    ensures Money(rows, Confirmations(rows, ids)) == Money(rows, Confirmations(rows, ids) - {i}) + rows[i].amount
  {
    assert Agrees(rows, MethodAndAmount, i);
    SumWithout(rows, ids, i, |rows|);
    SumWithout(rows, ids - {i}, j, |rows|);
    SumWithout(rows, Confirmations(rows, ids), i, |rows|);
  }

  /** Over whole agreeing pairs, half the money is confirmed money. */
  lemma {:induction false} HalfTheMoneyIsConfirmed(rows: Rows, ids: set<RowId>)
    requires Paired(rows) && Agreeing(rows, MethodAndAmount) && WholePairs(rows, ids)
    ensures Money(rows, ids) == 2 * Money(rows, Confirmations(rows, ids))
    decreases |ids|
  {
    if ids == {} {
      assert Confirmations(rows, ids) == {};
      SumOfNone(rows, |rows|);
    } else {
      var i, j := PeelPair(rows, ids);
      RemoveTwo(ids, i, j);
      HalfTheMoneyIsConfirmed(rows, ids - {i} - {j});
      MoneyOfPair(rows, ids, i, j);
    }
  }

  /** The matched count of the summary is even in every disciplined run: one confirmation for each intent. */
  lemma {:induction false} MatchedCountIsEven(steps: seq<Step>)
    requires DisciplinedRun(steps)
    ensures |MatchedRows(Run(steps))| == 2 * |Confirmations(Run(steps), MatchedRows(Run(steps)))|
  {
    DisciplinedRunsStayPaired(steps);
    MatchedRowsAreWholePairs(Run(steps));
    HalfAreConfirmations(Run(steps), MatchedRows(Run(steps)));
  }

  lemma MatchedRowsAreWholePairs(rows: Rows)
    requires Paired(rows)
    ensures WholePairs(rows, MatchedRows(rows))
  {
    forall i | i in MatchedRows(rows)
      ensures PartnerIn(rows, MatchedRows(rows), i)
    {
      assert RowPaired(rows, i);
    }
  }

  predicate SameDayAsPartner(rows: Rows, i: RowId)
    requires i < |rows|
  {
    rows[i].partner.Some? && rows[i].partner.value < |rows| ==>
      DayOf(rows[i].recordedAt) == DayOf(rows[rows[i].partner.value].recordedAt)
  }

  /** Partners were recorded on the same day. */
  predicate SameDay(rows: Rows) {
    forall i :: 0 <= i < |rows| ==> SameDayAsPartner(rows, i)
  }

  /**
   When pairs agree and are recorded on one day, the total shown for a method is exactly
   twice the money that landed, because both sides of every pair are summed.
   */
  lemma {:induction false} TodayTotalIsDoubled(steps: seq<Step>, m: Method, day: int)
    requires DisciplinedRun(steps) && FaithfulRun(steps, MethodAndAmount) && SameDay(Run(steps))
    ensures var rows := Run(steps);
            var counted := CountedOn(rows, m, day);
            Money(rows, counted) == 2 * Money(rows, Confirmations(rows, counted))
  {
    PairsAgree(steps, MethodAndAmount);
    var rows := Run(steps);
    var counted := CountedOn(rows, m, day);
    forall i | i in counted
      ensures PartnerIn(rows, counted, i)
    {
      assert RowPaired(rows, i) && Agrees(rows, MethodAndAmount, i) && SameDayAsPartner(rows, i);
    }
    HalfTheMoneyIsConfirmed(rows, counted);
  }
}
