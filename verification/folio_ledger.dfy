/**
 The folio ledger: charges, reversals, transfers and the night audit, with every
 database transaction as one step. Money is in whole cents, dates are day numbers.
 Rows are identified by their position in their table; no row is ever deleted.
 */
module FolioLedger {
  import opened Wrappers
  import opened Calendar
  import TaxEngine

  type PropertyId = nat
  type ReservationId = nat
  type FolioId = nat
  type ItemId = nat

  datatype FolioType = Master | Company | Personal | Split

  datatype FolioStatus = Open | Closed | Disputed | WrittenOff

  datatype Folio = Folio(
    property: PropertyId,
    reservation: ReservationId,
    folioType: FolioType,
    status: FolioStatus,
    balance: int)

  datatype Source = RoomSource | PosFood | PosBeverage | OtherSource

  datatype Kind = Charge | Reversal(of: ItemId)

  datatype Item = Item(
    folio: FolioId,
    kind: Kind,
    source: Source,
    quantity: real,
    unitPrice: real,
    taxRate: real,
    tax: int,
    discount: int,
    total: int,
    date: Date)

  datatype Transfer = Transfer(from: FolioId, into: FolioId, item: ItemId, amount: int)

  /** What the night audit stores for a day. */
  datatype Snapshot = Snapshot(net: int, tax: int, room: int, count: nat, charges: nat, reversals: nat)

  datatype Day = OpenDay | ClosedDay(snapshot: Snapshot)

  datatype Ledger = Ledger(
    folios: seq<Folio>,
    items: seq<Item>,
    transfers: seq<Transfer>,
    days: map<(PropertyId, Date), Day>)

  datatype LedgerError =
    | BusinessDayClosed
    | FolioNotOpen
    | ItemNotFound
    | ItemAlreadyReversed
    | FolioMismatch
    | NoActiveStay
    | LastNameMismatch

  type Outcome = Result<Ledger, LedgerError>

  // ---------- shared checks and updates ----------

  predicate DayClosed(l: Ledger, p: PropertyId, date: Date) {
    (p, date) in l.days && l.days[(p, date)].ClosedDay?
  }

  predicate FolioIn(l: Ledger, f: FolioId, p: PropertyId) {
    f < |l.folios| && l.folios[f].property == p
  }

  predicate IsReversed(items: seq<Item>, i: ItemId) {
    exists j :: 0 <= j < |items| && items[j].kind == Reversal(i)
  }

  function Increment(folios: seq<Folio>, f: FolioId, amount: int): seq<Folio>
    requires f < |folios|
  {
    folios[f := folios[f].(balance := folios[f].balance + amount)]
  }

  /** Create a line item and put its total on its folio's balance. */
  function PostItem(l: Ledger, item: Item): Ledger
    requires item.folio < |l.folios|
  {
    l.(items := l.items + [item], folios := Increment(l.folios, item.folio, item.total))
  }

  // ---------- the operations ----------

  /** The business date a caller names, or the clock's day when it names none. */
  datatype PostDate = On(date: Date) | Default(today: Date)

  datatype PostInput = PostInput(
    folio: FolioId,
    property: PropertyId,
    source: Source,
    quantity: real,
    unitPrice: real,
    taxRate: real,
    discount: int,
    when: PostDate)

  function OpenDates(l: Ledger, p: PropertyId): set<Date> {
    set k | k in l.days.Keys && k.0 == p && l.days[k].OpenDay? :: k.1
  }

  /** The active business day: the latest one of the property that is OPEN. */
  function ActiveDay(l: Ledger, p: PropertyId): (active: Option<Date>)
    ensures active.Some? ==> IsLatest(OpenDates(l, p), active.value)
    ensures active.None? ==> OpenDates(l, p) == {}
  {
    var open := OpenDates(l, p);
    if open == {} then None
    else
      LatestExists(open);
      var d :| d in open && IsLatest(open, d);
      Some(d)
  }

  /** The date a charge is stamped with. Only the day of the month is taken from the active day, as `setDate` does. */
  function StampFor(l: Ledger, p: PropertyId, when: PostDate): Date {
    match when
    case On(date) => date
    case Default(today) =>
      match ActiveDay(l, p)
      case None => today
      case Some(active) => if active != today then BeforeMonth(today) + DayOfMonth(active) else today
  }

  /** The date whose status is checked. */
  function CheckedDate(when: PostDate): Date {
    match when
    case On(date) => date
    case Default(today) => today
  }

  function GrossFor(unitPrice: real, quantity: real): int {
    TaxEngine.Round(unitPrice * quantity)
  }

  function TaxFor(taxable: int, rate: real): int {
    TaxEngine.Round(taxable as real * rate)
  }

  /** Gross and tax are each rounded to the cent. */
  function ChargeFor(input: PostInput, date: Date): Item {
    var gross := GrossFor(input.unitPrice, input.quantity);
    var tax := TaxFor(gross - input.discount, input.taxRate);
    Item(input.folio, Charge, input.source, input.quantity, input.unitPrice, input.taxRate, tax, input.discount,
      gross - input.discount + tax, date)
  }

  function Post(l: Ledger, input: PostInput): Outcome {
    if !FolioIn(l, input.folio, input.property) then Err(FolioMismatch)
    else if l.folios[input.folio].status != Open then Err(FolioNotOpen)
    else if DayClosed(l, input.property, CheckedDate(input.when)) then Err(BusinessDayClosed)
    else Ok(PostItem(l, ChargeFor(input, StampFor(l, input.property, input.when))))
  }

  function ReversalOf(items: seq<Item>, i: ItemId, today: Date): Item
    requires i < |items|
  {
    var o := items[i];
    Item(o.folio, Reversal(i), o.source, o.quantity, o.unitPrice, o.taxRate, -o.tax, -o.discount, -o.total, today)
  }

  /** Reversals are stamped with the clock's day, whatever its status. The last check is the foreign key, which always holds. */
  function Reverse(l: Ledger, i: ItemId, today: Date): Outcome {
    if i >= |l.items| then Err(ItemNotFound)
    else if l.items[i].kind.Reversal? then Err(ItemAlreadyReversed)
    else if IsReversed(l.items, i) then Err(ItemAlreadyReversed)
    else if l.items[i].folio >= |l.folios| then Err(FolioMismatch)
    else Ok(PostItem(l, ReversalOf(l.items, i, today)))
  }

  /** Moves an item's total between balances and logs it; the item itself keeps its folio. */
  function Move(l: Ledger, p: PropertyId, i: ItemId, from: FolioId, into: FolioId): Outcome {
    if i >= |l.items| then Err(ItemNotFound)
    else if l.items[i].folio == into then Err(FolioMismatch)
    else if !FolioIn(l, from, p) || !FolioIn(l, into, p) then Err(FolioMismatch)
    else if DayClosed(l, p, l.items[i].date) then Err(BusinessDayClosed)
    else
      var total := l.items[i].total;
      Ok(l.(transfers := l.transfers + [Transfer(from, into, i, total)],
            folios := Increment(Increment(l.folios, from, -total), into, total)))
  }

  predicate IsOpenFor(l: Ledger, r: ReservationId, f: FolioId)
    requires f < |l.folios|
  {
    l.folios[f].reservation == r && l.folios[f].status == Open
  }

  predicate OpenFor(l: Ledger, r: ReservationId, types: set<FolioType>, f: FolioId)
    requires f < |l.folios|
  {
    IsOpenFor(l, r, f) && l.folios[f].folioType in types
  }

  /** Personal before master before any, each the first one found. */
  function FirstOpen(l: Ledger, r: ReservationId, types: set<FolioType>, n: nat): (f: Option<FolioId>)
    requires n <= |l.folios|
    ensures f.Some? ==> n <= f.value < |l.folios| && OpenFor(l, r, types, f.value)
    ensures f.Some? ==> forall g :: n <= g < f.value ==> !OpenFor(l, r, types, g)
    ensures f.None? ==> forall g :: n <= g < |l.folios| ==> !OpenFor(l, r, types, g)
    decreases |l.folios| - n
  {
    if n == |l.folios| then None
    else if OpenFor(l, r, types, n) then Some(n)
    else FirstOpen(l, r, types, n + 1)
  }

  function PickOpenFolio(l: Ledger, r: ReservationId): Option<FolioId> {
    var personal, master := FirstOpen(l, r, {Personal}, 0), FirstOpen(l, r, {Master}, 0);
    if personal.Some? then personal
    else if master.Some? then master
    else FirstOpen(l, r, {Master, Company, Personal, Split}, 0)
  }

  /** The property's configured rate, 18 per cent by default, forced into [0, 1]. */
  function LowestRate(configured: Option<real>): real {
    var rate := if configured.Some? then configured.value else 0.18;
    if rate < 0.0 then 0.0 else if rate > 1.0 then 1.0 else rate
  }

  /** `stay` is the checked-in reservation of the room, if any, and whether the last name given matches its guest. */
  datatype PosInput = PosInput(
    property: PropertyId,
    stay: Option<ReservationId>,
    nameMatches: bool,
    source: Source,
    amount: real,
    configuredRate: Option<real>,
    today: Date)

  function PosCharge(input: PosInput, folio: FolioId): Item {
    var amount := TaxEngine.Round(input.amount);
    var rate := LowestRate(input.configuredRate);
    var tax := TaxFor(amount, rate);
    Item(folio, Charge, input.source, 1.0, amount as real, rate, tax, 0, amount + tax, input.today)
  }

  /** A point-of-sale charge goes to the stay's open folio, or a new master folio, on the clock's day. */
  function PosPost(l: Ledger, input: PosInput): Outcome {
    match input.stay
    case None => Err(NoActiveStay)
    case Some(r) =>
      if !input.nameMatches then Err(LastNameMismatch)
      else match PickOpenFolio(l, r)
        case Some(f) => Ok(PostItem(l, PosCharge(input, f)))
        case None =>
          var grown := l.(folios := l.folios + [Folio(input.property, r, Master, Open, 0)]);
          Ok(PostItem(grown, PosCharge(input, |l.folios|)))
  }

  function ItemsOn(items: seq<Item>, date: Date): seq<Item> {
    if items == [] then []
    else
      var last := items[|items| - 1];
      ItemsOn(items[..|items| - 1], date) + if last.date == date then [last] else []
  }

  function Bit(b: bool): nat { if b then 1 else 0 }

  function Include(s: Snapshot, item: Item): Snapshot {
    Snapshot(
      s.net + item.total - item.tax,
      s.tax + item.tax,
      s.room + (if item.source == RoomSource then item.total else 0),
      s.count + 1,
      s.charges + Bit(item.total > 0),
      s.reversals + Bit(item.kind.Reversal?))
  }

  function Audit(items: seq<Item>): Snapshot {
    if items == [] then Snapshot(0, 0, 0, 0, 0, 0)
    else Include(Audit(items[..|items| - 1]), items[|items| - 1])
  }

  /** The audit of a date over the first `n` items, one item at a time. */
  function AuditUpTo(items: seq<Item>, n: nat, date: Date): Snapshot
    requires n <= |items|
  {
    if n == 0 then Audit([])
    else if items[n - 1].date == date then Include(AuditUpTo(items, n - 1, date), items[n - 1])
    else AuditUpTo(items, n - 1, date)
  }

  lemma {:induction false} AuditUpToIsAudit(items: seq<Item>, n: nat, date: Date)
    requires n <= |items|
    ensures AuditUpTo(items, n, date) == Audit(ItemsOn(items[..n], date))
  {
    if n > 0 {
      AuditUpToIsAudit(items, n - 1, date);
      var day := ItemsOn(items[..n - 1], date);
      assert items[..n][..n - 1] == items[..n - 1];
      assert day + [] == day;
      assert (day + [items[n - 1]])[..|day|] == day;
    }
  }

  /** The audit adds up every item of the date, of any property. */
  function CloseDay(l: Ledger, p: PropertyId, date: Date): Outcome {
    if DayClosed(l, p, date) then Err(BusinessDayClosed)
    else Ok(l.(days := l.days[(p, date) := ClosedDay(Audit(ItemsOn(l.items, date)))]))
  }

  /** The night audit's totals, item by item. */
  method AuditDay(items: seq<Item>, date: Date) returns (s: Snapshot)
    ensures s == Audit(ItemsOn(items, date))
  {
    var net, tax, room, count, charges, reversals := 0, 0, 0, 0, 0, 0;
    var n := 0;
    while n < |items|
      invariant 0 <= n <= |items|
      invariant AuditUpTo(items, n, date) == Snapshot(net, tax, room, count, charges, reversals)
    {
      var item := items[n];
      if item.date == date {
        net := net + item.total - item.tax;
        tax := tax + item.tax;
        room := if item.source == RoomSource then room + item.total else room;
        count := count + 1;
        charges := if item.total > 0 then charges + 1 else charges;
        reversals := if item.kind.Reversal? then reversals + 1 else reversals;
      }
      n := n + 1;
    }
    AuditUpToIsAudit(items, n, date);
    assert items[..n] == items;
    s := Snapshot(net, tax, room, count, charges, reversals);
  }

  // ---------- the ledger as it is updated in place ----------

  /** A transaction took place as `outcome` says: committed, or rolled back with its error. */
  predicate Committed<T(==)>(before: Ledger, outcome: Outcome, after: Ledger, r: Result<T, LedgerError>) {
    match outcome
    case Ok(l) => r.Ok? && after == l
    case Err(e) => r == Err(e) && after == before
  }

  class LedgerService {
    var folios: seq<Folio>
    var items: seq<Item>
    var transfers: seq<Transfer>
    var days: map<(PropertyId, Date), Day>

    function Model(): Ledger reads this {
      Ledger(folios, items, transfers, days)
    }

    constructor ()
      ensures Model() == Ledger([], [], [], map[])
    {
      folios, items, transfers, days := [], [], [], map[];
    }

    /** The date of the item, once the post is allowed. */
    method StampDate(p: PropertyId, when: PostDate) returns (date: Date)
      ensures date == StampFor(Model(), p, when)
    {
      date := CheckedDate(when);
      if when.Default? {
        var active := ActiveDay(Model(), p);
        if active.Some? && active.value != date {
          date := BeforeMonth(date) + DayOfMonth(active.value);
        }
      }
    }

    method PostLineItem(input: PostInput) returns (r: Result<ItemId, LedgerError>)
      modifies this
      ensures Committed(old(Model()), Post(old(Model()), input), Model(), r)
      ensures r.Ok? ==> r.value < |items| && items[r.value] == ChargeFor(input, StampFor(old(Model()), input.property, input.when))
    {
      if input.folio >= |folios| || folios[input.folio].property != input.property {
        return Err(FolioMismatch);
      }
      if folios[input.folio].status != Open {
        return Err(FolioNotOpen);
      }
      var date := CheckedDate(input.when);
      if (input.property, date) in days && days[(input.property, date)].ClosedDay? {
        return Err(BusinessDayClosed);
      }
      date := StampDate(input.property, input.when);
      var gross := GrossFor(input.unitPrice, input.quantity);
      var tax := TaxFor(gross - input.discount, input.taxRate);
      var total := gross - input.discount + tax;
      var item := Item(input.folio, Charge, input.source, input.quantity, input.unitPrice, input.taxRate,
        tax, input.discount, total, date);
      items := items + [item];
      folios := folios[input.folio := folios[input.folio].(balance := folios[input.folio].balance + total)];
      return Ok(|items| - 1);
    }

    method ReverseLineItem(i: ItemId, today: Date) returns (r: Result<ItemId, LedgerError>)
      modifies this
      ensures Committed(old(Model()), Reverse(old(Model()), i, today), Model(), r)
    {
      if i >= |items| {
        return Err(ItemNotFound);
      }
      var original := items[i];
      if original.kind.Reversal? {
        return Err(ItemAlreadyReversed);
      }
      var j := 0;
      while j < |items| && items[j].kind != Reversal(i)
        invariant 0 <= j <= |items|
        invariant forall m :: 0 <= m < j ==> items[m].kind != Reversal(i)
      {
        j := j + 1;
      }
      if j < |items| {
        return Err(ItemAlreadyReversed);
      }
      if original.folio >= |folios| {
        return Err(FolioMismatch);
      }
      items := items + [ReversalOf(items, i, today)];
      folios := folios[original.folio := folios[original.folio].(balance := folios[original.folio].balance + -original.total)];
      return Ok(|items| - 1);
    }

    method TransferFolioItem(p: PropertyId, i: ItemId, from: FolioId, into: FolioId) returns (r: Result<ItemId, LedgerError>)
      modifies this
      ensures Committed(old(Model()), Move(old(Model()), p, i, from, into), Model(), r)
    {
      if i >= |items| {
        return Err(ItemNotFound);
      }
      if items[i].folio == into {
        return Err(FolioMismatch);
      }
      if from >= |folios| || folios[from].property != p || into >= |folios| || folios[into].property != p {
        return Err(FolioMismatch);
      }
      if (p, items[i].date) in days && days[(p, items[i].date)].ClosedDay? {
        return Err(BusinessDayClosed);
      }
      var total := items[i].total;
      transfers := transfers + [Transfer(from, into, i, total)];
      folios := folios[from := folios[from].(balance := folios[from].balance + -total)];
      folios := folios[into := folios[into].(balance := folios[into].balance + total)];
      return Ok(i);
    }

    method PosPostCharge(input: PosInput) returns (r: Result<ItemId, LedgerError>)
      modifies this
      ensures Committed(old(Model()), PosPost(old(Model()), input), Model(), r)
    {
      if input.stay.None? {
        return Err(NoActiveStay);
      }
      if !input.nameMatches {
        return Err(LastNameMismatch);
      }
      var picked := PickOpenFolio(Model(), input.stay.value);
      var f: FolioId := |folios|;
      if picked.Some? {
        f := picked.value;
      } else {
        folios := folios + [Folio(input.property, input.stay.value, Master, Open, 0)];
      }
      var item := PosCharge(input, f);
      items := items + [item];
      folios := folios[f := folios[f].(balance := folios[f].balance + item.total)];
      return Ok(|items| - 1);
    }

    method CloseBusinessDay(p: PropertyId, date: Date) returns (r: Result<Snapshot, LedgerError>)
      modifies this
      ensures Committed(old(Model()), CloseDay(old(Model()), p, date), Model(), r)
      ensures r.Ok? ==>
              && r.value == Audit(ItemsOn(old(items), date))
              && r.value.net == SumOn(old(items), date, NetAmount)
              && r.value.tax == SumOn(old(items), date, TaxAmount)
              && r.value.room == SumOn(old(items), date, RoomAmount)
    {
      if (p, date) in days && days[(p, date)].ClosedDay? {
        return Err(BusinessDayClosed);
      }
      var snapshot := AuditDay(items, date);
      AuditFigures(items, date);
      days := days[(p, date) := ClosedDay(snapshot)];
      return Ok(snapshot);
    }
  }

  // ---------- runs ----------

  datatype Step =
    | PostStep(post: PostInput)
    | ReverseStep(item: ItemId, today: Date)
    | MoveStep(property: PropertyId, item: ItemId, from: FolioId, into: FolioId)
    | PosStep(pos: PosInput)
    | CloseStep(property: PropertyId, date: Date)
    | NewFolio(folio: Folio)
    | NewDay(property: PropertyId, date: Date)

  /** The ledger's own operations, and what other services do to it: open folios with nothing on them, open days. */
  function Try(l: Ledger, step: Step): Outcome {
    match step
    case PostStep(post) => Post(l, post)
    case ReverseStep(i, today) => Reverse(l, i, today)
    case MoveStep(p, i, from, into) => Move(l, p, i, from, into)
    case PosStep(pos) => PosPost(l, pos)
    case CloseStep(p, date) => CloseDay(l, p, date)
    case NewFolio(folio) => Ok(l.(folios := l.folios + [folio.(balance := 0)]))
    case NewDay(p, date) => Ok(if (p, date) in l.days then l else l.(days := l.days[(p, date) := OpenDay]))
  }

  /** A refused step leaves no trace. */
  function Next(l: Ledger, step: Step): Ledger {
    match Try(l, step)
    case Ok(l') => l'
    case Err(_) => l
  }

  function Run(l: Ledger, steps: seq<Step>): Ledger {
    if steps == [] then l else Next(Run(l, steps[..|steps| - 1]), steps[|steps| - 1])
  }

  const EMPTY := Ledger([], [], [], map[])

  // ---------- well-formedness ----------

  predicate ItemOk(l: Ledger, i: ItemId)
    requires i < |l.items|
  {
    var item := l.items[i];
    && item.folio < |l.folios|
    && match item.kind
       case Charge => true
       case Reversal(of) =>
         && of < i
         && l.items[of].kind == Charge
         && item.total == -l.items[of].total && item.tax == -l.items[of].tax
         && item.discount == -l.items[of].discount
         && item.quantity == l.items[of].quantity && item.unitPrice == l.items[of].unitPrice && item.taxRate == l.items[of].taxRate
         && item.folio == l.items[of].folio && item.source == l.items[of].source
  }

  predicate TransferOk(l: Ledger, t: Transfer) {
    && t.from < |l.folios| && t.into < |l.folios|
    && t.item < |l.items| && t.amount == l.items[t.item].total && t.into != l.items[t.item].folio
  }

  /** References are sound, a reversal mirrors an earlier charge, and no charge is reversed twice. */
  ghost predicate WellFormed(l: Ledger) {
    && (forall i :: 0 <= i < |l.items| ==> ItemOk(l, i))
    && (forall t :: 0 <= t < |l.transfers| ==> TransferOk(l, l.transfers[t]))
    && (forall i, j :: 0 <= i < j < |l.items| && l.items[i].kind.Reversal? ==> l.items[i].kind != l.items[j].kind)
  }

  lemma {:induction false} StepKeepsItemsOk(l: Ledger, step: Step, i: ItemId)
    requires WellFormed(l) && i < |Next(l, step).items|
    ensures ItemOk(Next(l, step), i)
  {
    if i < |l.items| {
      assert ItemOk(l, i);
    }
  }

  lemma {:induction false} StepKeepsWellFormed(l: Ledger, step: Step)
    requires WellFormed(l)
    ensures WellFormed(Next(l, step))
  {
    var l' := Next(l, step);
    forall i | 0 <= i < |l'.items|
      ensures ItemOk(l', i)
    {
      StepKeepsItemsOk(l, step, i);
    }
    forall t | 0 <= t < |l'.transfers|
      ensures TransferOk(l', l'.transfers[t])
    {
      if t < |l.transfers| {
        assert TransferOk(l, l.transfers[t]);
      }
    }
  }

  lemma {:induction false} RunKeepsWellFormed(l: Ledger, steps: seq<Step>)
    requires WellFormed(l)
    ensures WellFormed(Run(l, steps))
  {
    if steps != [] {
      RunKeepsWellFormed(l, steps[..|steps| - 1]);
      StepKeepsWellFormed(Run(l, steps[..|steps| - 1]), steps[|steps| - 1]);
    }
  }

  /** Line items and transfers are only ever appended: a posted row never changes. */
  lemma {:induction false} RowsAreImmutable(l: Ledger, steps: seq<Step>)
    ensures l.items <= Run(l, steps).items && l.transfers <= Run(l, steps).transfers
  {
    if steps != [] {
      RowsAreImmutable(l, steps[..|steps| - 1]);
    }
  }

  // ---------- sums ----------

  function Sum(xs: seq<int>): int {
    if xs == [] then 0 else Sum(xs[..|xs| - 1]) + xs[|xs| - 1]
  }

  lemma SumAppend(xs: seq<int>, x: int)
    ensures Sum(xs + [x]) == Sum(xs) + x
  {
    assert (xs + [x])[..|xs|] == xs;
  }

  lemma {:induction false} SumUpdate(xs: seq<int>, i: nat, x: int)
    requires i < |xs|
    ensures Sum(xs[i := x]) == Sum(xs) - xs[i] + x
  {
    var n := |xs| - 1;
    if i < n {
      SumUpdate(xs[..n], i, x);
      assert xs[i := x][..n] == xs[..n][i := x];
    } else {
      assert xs[i := x][..n] == xs[..n];
    }
  }

  function If(b: bool, x: int): int { if b then x else 0 }

  /** Totals of the items posted on folio `f`. */
  function OwnTotals(items: seq<Item>, f: FolioId): seq<int> {
    seq(|items|, i requires 0 <= i < |items| => If(items[i].folio == f, items[i].total))
  }

  /** What each transfer brings into folio `f`, less what it takes out. */
  function Moves(transfers: seq<Transfer>, f: FolioId): seq<int> {
    seq(|transfers|, t requires 0 <= t < |transfers| =>
      If(transfers[t].into == f, transfers[t].amount) - If(transfers[t].from == f, transfers[t].amount))
  }

  // ---------- every balance is explained ----------

  /** The stored balance is the items of the folio, plus transfers in, minus transfers out. */
  predicate Explained(l: Ledger, f: FolioId)
    requires f < |l.folios|
  {
    l.folios[f].balance == Sum(OwnTotals(l.items, f)) + Sum(Moves(l.transfers, f))
  }

  lemma PostingExplains(l: Ledger, item: Item, f: FolioId)
    requires item.folio < |l.folios| && f < |l.folios| && Explained(l, f)
    ensures Explained(PostItem(l, item), f)
  {
    var own := OwnTotals(l.items, f);
    SumAppend(own, If(item.folio == f, item.total));
    assert OwnTotals(l.items + [item], f) == own + [If(item.folio == f, item.total)];
  }

  lemma IncrementBalance(folios: seq<Folio>, f: FolioId, amount: int, g: FolioId)
    requires f < |folios| && g < |folios|
    ensures Increment(folios, f, amount)[g].balance == folios[g].balance + If(f == g, amount)
  {
  }

  lemma MovesAppend(transfers: seq<Transfer>, t: Transfer, f: FolioId)
    ensures Sum(Moves(transfers + [t], f)) == Sum(Moves(transfers, f)) + If(t.into == f, t.amount) - If(t.from == f, t.amount)
  {
    var change := If(t.into == f, t.amount) - If(t.from == f, t.amount);
    SumAppend(Moves(transfers, f), change);
    assert Moves(transfers + [t], f) == Moves(transfers, f) + [change];
  }

  lemma MovingExplains(l: Ledger, p: PropertyId, i: ItemId, from: FolioId, into: FolioId, f: FolioId)
    requires Move(l, p, i, from, into).Ok? && f < |l.folios| && Explained(l, f)
    ensures Explained(Move(l, p, i, from, into).value, f)
  {
    var total := l.items[i].total;
    IncrementBalance(l.folios, from, -total, f);
    IncrementBalance(Increment(l.folios, from, -total), into, total, f);
    MovesAppend(l.transfers, Transfer(from, into, i, total), f);
  }

  /** A folio nothing refers to has a zero sum. */
  lemma {:induction false} UnreferencedIsZero(items: seq<Item>, transfers: seq<Transfer>, f: FolioId)
    requires forall i :: 0 <= i < |items| ==> items[i].folio != f
    requires forall t :: 0 <= t < |transfers| ==> transfers[t].from != f && transfers[t].into != f
    ensures Sum(OwnTotals(items, f)) == 0 && Sum(Moves(transfers, f)) == 0
    decreases |items| + |transfers|
  {
    if items != [] {
      UnreferencedIsZero(items[..|items| - 1], transfers, f);
      assert OwnTotals(items, f)[..|items| - 1] == OwnTotals(items[..|items| - 1], f);
    } else if transfers != [] {
      UnreferencedIsZero(items, transfers[..|transfers| - 1], f);
      assert Moves(transfers, f)[..|transfers| - 1] == Moves(transfers[..|transfers| - 1], f);
    }
  }

  lemma NewFolioExplained(l: Ledger, folio: Folio)
    requires WellFormed(l) && folio.balance == 0
    ensures Explained(l.(folios := l.folios + [folio]), |l.folios|)
  {
    forall i | 0 <= i < |l.items|
      ensures l.items[i].folio != |l.folios|
    {
      assert ItemOk(l, i);
    }
    forall t | 0 <= t < |l.transfers|
      ensures l.transfers[t].from != |l.folios| && l.transfers[t].into != |l.folios|
    {
      assert TransferOk(l, l.transfers[t]);
    }
    UnreferencedIsZero(l.items, l.transfers, |l.folios|);
  }

  ghost predicate AllExplained(l: Ledger) {
    forall f :: 0 <= f < |l.folios| ==> Explained(l, f)
  }

  lemma PostingExplainsAll(l: Ledger, item: Item)
    requires item.folio < |l.folios| && AllExplained(l)
    ensures AllExplained(PostItem(l, item))
  {
    forall f | 0 <= f < |l.folios|
      ensures Explained(PostItem(l, item), f)
    {
      PostingExplains(l, item, f);
    }
  }

  lemma NewFolioExplainsAll(l: Ledger, folio: Folio)
    requires WellFormed(l) && AllExplained(l) && folio.balance == 0
    ensures AllExplained(l.(folios := l.folios + [folio]))
  {
    var l' := l.(folios := l.folios + [folio]);
    NewFolioExplained(l, folio);
    forall f | 0 <= f < |l'.folios|
      ensures Explained(l', f)
    {
      if f < |l.folios| {
        assert Explained(l, f);
      }
    }
  }

  lemma {:induction false} StepKeepsExplained(l: Ledger, step: Step)
    requires WellFormed(l) && AllExplained(l)
    ensures AllExplained(Next(l, step))
  {
    if Try(l, step).Err? {
      return;
    }
    match step
    case PostStep(post) => PostingExplainsAll(l, ChargeFor(post, StampFor(l, post.property, post.when)));
    case ReverseStep(i, today) => PostingExplainsAll(l, ReversalOf(l.items, i, today));
    case MoveStep(p, i, from, into) =>
      forall f | 0 <= f < |l.folios|
        ensures Explained(Next(l, step), f)
      {
        MovingExplains(l, p, i, from, into, f);
      }
    case PosStep(pos) =>
      var picked := PickOpenFolio(l, pos.stay.value);
      if picked.Some? {
        PostingExplainsAll(l, PosCharge(pos, picked.value));
      } else {
        var folio := Folio(pos.property, pos.stay.value, Master, Open, 0);
        NewFolioExplainsAll(l, folio);
        PostingExplainsAll(l.(folios := l.folios + [folio]), PosCharge(pos, |l.folios|));
      }
    case NewFolio(folio) => NewFolioExplainsAll(l, folio.(balance := 0));
    case _ =>
      forall f | 0 <= f < |l.folios|
        ensures Explained(Next(l, step), f)
      {
        assert Explained(l, f);
      }
  }

  /** In every reachable ledger every stored balance is explained by its items and transfers. */
  lemma {:induction false} BalancesExplained(steps: seq<Step>)
    ensures AllExplained(Run(EMPTY, steps))
  {
    if steps != [] {
      var init := steps[..|steps| - 1];
      BalancesExplained(init);
      RunKeepsWellFormed(EMPTY, init);
      StepKeepsExplained(Run(EMPTY, init), steps[|steps| - 1]);
    }
  }

  // ---------- conservation ----------

  function Balances(folios: seq<Folio>): seq<int> {
    seq(|folios|, f requires 0 <= f < |folios| => folios[f].balance)
  }

  function Totals(items: seq<Item>): seq<int> {
    seq(|items|, i requires 0 <= i < |items| => items[i].total)
  }

  /** Totals of the charges that have not been reversed. */
  function StandingCharges(items: seq<Item>): seq<int> {
    seq(|items|, i requires 0 <= i < |items| => If(items[i].kind == Charge && !IsReversed(items, i), items[i].total))
  }

  lemma IncrementSums(folios: seq<Folio>, f: FolioId, amount: int)
    requires f < |folios|
    ensures Sum(Balances(Increment(folios, f, amount))) == Sum(Balances(folios)) + amount
  {
    SumUpdate(Balances(folios), f, folios[f].balance + amount);
    assert Balances(Increment(folios, f, amount)) == Balances(folios)[f := folios[f].balance + amount];
  }

  /** A new charge stands; nothing else changes. */
  lemma ChargeStands(l: Ledger, item: Item)
    requires WellFormed(l) && item.kind == Charge
    ensures Sum(StandingCharges(l.items + [item])) == Sum(StandingCharges(l.items)) + item.total
  {
    var items, items' := l.items, l.items + [item];
    forall i | 0 <= i < |items'|
      ensures IsReversed(items', i) <==> i < |items| && IsReversed(items, i)
    {
      if j :| 0 <= j < |items'| && items'[j].kind == Reversal(i) {
        assert items[j].kind == Reversal(i) && ItemOk(l, j);
      }
      if i < |items| && IsReversed(items, i) {
        var j :| 0 <= j < |items| && items[j].kind == Reversal(i);
        assert items'[j].kind == Reversal(i);
      }
    }
    SumAppend(StandingCharges(items), item.total);
    assert StandingCharges(items') == StandingCharges(items) + [item.total];
  }

  /** A reversal takes exactly its charge out of the standing ones. */
  lemma ReversalUnstands(l: Ledger, i: ItemId, today: Date)
    requires WellFormed(l) && Reverse(l, i, today).Ok?
    ensures Sum(StandingCharges(l.items + [ReversalOf(l.items, i, today)])) == Sum(StandingCharges(l.items)) - l.items[i].total
  {
    var items, items' := l.items, l.items + [ReversalOf(l.items, i, today)];
    assert items'[|items|].kind == Reversal(i);
    forall m | 0 <= m < |items|
      ensures IsReversed(items', m) <==> m == i || IsReversed(items, m)
    {
      if m != i && IsReversed(items', m) {
        var j :| 0 <= j < |items'| && items'[j].kind == Reversal(m);
        assert items[j].kind == Reversal(m);
      }
      if IsReversed(items, m) {
        var j :| 0 <= j < |items| && items[j].kind == Reversal(m);
        assert items'[j].kind == Reversal(m);
      }
    }
    SumUpdate(StandingCharges(items), i, 0);
    SumAppend(StandingCharges(items)[i := 0], 0);
    assert StandingCharges(items') == StandingCharges(items)[i := 0] + [0];
  }

  /** All balances together are the charges that stand. */
  predicate Conserved(l: Ledger) {
    Sum(Balances(l.folios)) == Sum(StandingCharges(l.items))
  }

  lemma PostingConserves(l: Ledger, item: Item)
    requires WellFormed(l) && Conserved(l) && item.kind == Charge && item.folio < |l.folios|
    ensures Conserved(PostItem(l, item))
  {
    IncrementSums(l.folios, item.folio, item.total);
    ChargeStands(l, item);
  }

  lemma NewFolioConserves(l: Ledger, folio: Folio)
    requires Conserved(l) && folio.balance == 0
    ensures Conserved(l.(folios := l.folios + [folio]))
  {
    SumAppend(Balances(l.folios), 0);
    assert Balances(l.folios + [folio]) == Balances(l.folios) + [0];
  }

  lemma PosConserves(l: Ledger, pos: PosInput)
    requires WellFormed(l) && Conserved(l) && PosPost(l, pos).Ok?
    ensures Conserved(PosPost(l, pos).value)
  {
    var picked := PickOpenFolio(l, pos.stay.value);
    if picked.Some? {
      PostingConserves(l, PosCharge(pos, picked.value));
    } else {
      var folio := Folio(pos.property, pos.stay.value, Master, Open, 0);
      NewFolioConserves(l, folio);
      StepKeepsWellFormed(l, NewFolio(folio));
      PostingConserves(l.(folios := l.folios + [folio]), PosCharge(pos, |l.folios|));
    }
  }

  lemma ReversalConserves(l: Ledger, i: ItemId, today: Date)
    requires WellFormed(l) && Conserved(l) && Reverse(l, i, today).Ok?
    ensures Conserved(Reverse(l, i, today).value)
  {
    IncrementSums(l.folios, l.items[i].folio, -l.items[i].total);
    ReversalUnstands(l, i, today);
  }

  lemma MoveConserves(l: Ledger, p: PropertyId, i: ItemId, from: FolioId, into: FolioId)
    requires Conserved(l) && Move(l, p, i, from, into).Ok?
    ensures Conserved(Move(l, p, i, from, into).value)
  {
    var total, l' := l.items[i].total, Move(l, p, i, from, into).value;
    var without := Increment(l.folios, from, -total);
    IncrementSums(l.folios, from, -total);
    IncrementSums(without, into, total);
    assert l'.folios == Increment(without, into, total) && l'.items == l.items;
  }

  lemma {:induction false} StepConserves(l: Ledger, step: Step)
    requires WellFormed(l) && Conserved(l)
    ensures Conserved(Next(l, step))
  {
    if Try(l, step).Err? {
      return;
    }
    match step
    case PostStep(post) => PostingConserves(l, ChargeFor(post, StampFor(l, post.property, post.when)));
    case ReverseStep(i, today) => ReversalConserves(l, i, today);
    case MoveStep(p, i, from, into) => MoveConserves(l, p, i, from, into);
    case PosStep(pos) => PosConserves(l, pos);
    case NewFolio(folio) => NewFolioConserves(l, folio.(balance := 0));
    case _ =>
  }

  /** In every reachable ledger no money appears or disappears: the balances add up to the standing charges. */
  lemma {:induction false} MoneyConserved(steps: seq<Step>)
    ensures Conserved(Run(EMPTY, steps))
  {
    if steps != [] {
      var init := steps[..|steps| - 1];
      MoneyConserved(init);
      RunKeepsWellFormed(EMPTY, init);
      StepConserves(Run(EMPTY, init), steps[|steps| - 1]);
    }
  }

  // ---------- whose item is it ----------

  /** The folio an item is on after its transfers: where the last one put it, or where it was posted. */
  function Holder(l: Ledger, i: ItemId): FolioId
    requires i < |l.items|
  {
    match LastMove(l.transfers, i)
    case Some(f) => f
    case None => l.items[i].folio
  }

  function LastMove(transfers: seq<Transfer>, i: ItemId): Option<FolioId> {
    if transfers == [] then None
    else
      var last := transfers[|transfers| - 1];
      if last.item == i then Some(last.into) else LastMove(transfers[..|transfers| - 1], i)
  }

  function HeldTotals(l: Ledger, f: FolioId): seq<int> {
    seq(|l.items|, i requires 0 <= i < |l.items| => If(Holder(l, i) == f, l.items[i].total))
  }

  /** Each balance is the sum of the items its folio holds. */
  ghost predicate BalancesMatchHoldings(l: Ledger) {
    forall f :: 0 <= f < |l.folios| ==> l.folios[f].balance == Sum(HeldTotals(l, f))
  }

  lemma HoldingsAfterMove(l: Ledger, p: PropertyId, i: ItemId, from: FolioId, into: FolioId, f: FolioId)
    requires Move(l, p, i, from, into).Ok?
    ensures var l' := Move(l, p, i, from, into).value;
            Sum(HeldTotals(l', f)) == Sum(HeldTotals(l, f)) - If(Holder(l, i) == f, l.items[i].total) + If(into == f, l.items[i].total)
  {
    var l', total := Move(l, p, i, from, into).value, l.items[i].total;
    assert l'.transfers[..|l.transfers|] == l.transfers;
    SumUpdate(HeldTotals(l, f), i, If(into == f, total));
    assert HeldTotals(l', f) == HeldTotals(l, f)[i := If(into == f, total)];
  }

  /**
   A transfer keeps the balances equal to what the folios hold exactly when the folio
   it names as the source really holds the item, or there is nothing to move.
   */
  lemma {:induction false} TransferKeepsHoldings(l: Ledger, p: PropertyId, i: ItemId, from: FolioId, into: FolioId)
    requires WellFormed(l) && BalancesMatchHoldings(l) && Move(l, p, i, from, into).Ok?
    ensures BalancesMatchHoldings(Move(l, p, i, from, into).value) <==> Holder(l, i) == from || l.items[i].total == 0
  {
    var l', total := Move(l, p, i, from, into).value, l.items[i].total;
    HolderExists(l, i);
    forall f | 0 <= f < |l.folios|
      ensures l'.folios[f].balance - Sum(HeldTotals(l', f)) == If(Holder(l, i) == f, total) - If(from == f, total)
    {
      HoldingsAfterMove(l, p, i, from, into, f);
    }
    if Holder(l, i) != from && total != 0 {
      assert l'.folios[from].balance != Sum(HeldTotals(l', from));
    }
  }

  lemma {:induction false} LastMoveIsLogged(transfers: seq<Transfer>, i: ItemId)
    ensures match LastMove(transfers, i)
            case Some(f) => exists t :: t in transfers && t.item == i && t.into == f
            case None => forall t :: t in transfers ==> t.item != i
  {
    if transfers != [] {
      LastMoveIsLogged(transfers[..|transfers| - 1], i);
      assert transfers == transfers[..|transfers| - 1] + [transfers[|transfers| - 1]];
    }
  }

  lemma HolderExists(l: Ledger, i: ItemId)
    requires WellFormed(l) && i < |l.items|
    ensures Holder(l, i) < |l.folios|
  {
    LastMoveIsLogged(l.transfers, i);
    assert ItemOk(l, i);
    forall t | t in l.transfers
      ensures TransferOk(l, t)
    {
      var n :| 0 <= n < |l.transfers| && l.transfers[n] == t;
    }
  }

  /** A new item is held by the folio it is posted on, and the others stay where they are. */
  lemma PostingKeepsHoldings(l: Ledger, item: Item)
    requires WellFormed(l) && BalancesMatchHoldings(l) && item.folio < |l.folios|
    ensures BalancesMatchHoldings(PostItem(l, item))
  {
    var l' := PostItem(l, item);
    LastMoveIsLogged(l.transfers, |l.items|);
    forall t | t in l.transfers
      ensures t.item != |l.items|
    {
      var n :| 0 <= n < |l.transfers| && l.transfers[n] == t;
      assert TransferOk(l, l.transfers[n]);
    }
    forall f | 0 <= f < |l.folios|
      ensures l'.folios[f].balance == Sum(HeldTotals(l', f))
    {
      IncrementBalance(l.folios, item.folio, item.total, f);
      SumAppend(HeldTotals(l, f), If(item.folio == f, item.total));
      assert HeldTotals(l', f) == HeldTotals(l, f) + [If(item.folio == f, item.total)];
    }
  }

  lemma {:induction false} SumOfZeros(xs: seq<int>)
    requires forall i :: 0 <= i < |xs| ==> xs[i] == 0
    ensures Sum(xs) == 0
  {
    if xs != [] {
      SumOfZeros(xs[..|xs| - 1]);
    }
  }

  lemma NewFolioKeepsHoldings(l: Ledger, folio: Folio)
    requires WellFormed(l) && BalancesMatchHoldings(l) && folio.balance == 0
    ensures BalancesMatchHoldings(l.(folios := l.folios + [folio]))
  {
    var l' := l.(folios := l.folios + [folio]);
    forall f | 0 <= f < |l'.folios|
      ensures l'.folios[f].balance == Sum(HeldTotals(l', f))
    {
      assert HeldTotals(l', f) == HeldTotals(l, f);
      if f == |l.folios| {
        forall i | 0 <= i < |l.items|
          ensures HeldTotals(l, f)[i] == 0
        {
          HolderExists(l, i);
        }
        SumOfZeros(HeldTotals(l, f));
      }
    }
  }

  /** A transfer that names the item's holder as its source. */
  predicate Honest(l: Ledger, step: Step) {
    step.MoveStep? && step.item < |l.items| ==> step.from == Holder(l, step.item)
  }

  predicate HonestRun(l: Ledger, steps: seq<Step>) {
    steps == [] || (HonestRun(l, steps[..|steps| - 1]) && Honest(Run(l, steps[..|steps| - 1]), steps[|steps| - 1]))
  }

  lemma {:induction false} StepKeepsHoldings(l: Ledger, step: Step)
    requires WellFormed(l) && BalancesMatchHoldings(l) && Honest(l, step)
    ensures BalancesMatchHoldings(Next(l, step))
  {
    if Try(l, step).Err? {
      return;
    }
    match step
    case PostStep(post) => PostingKeepsHoldings(l, ChargeFor(post, StampFor(l, post.property, post.when)));
    case ReverseStep(i, today) => PostingKeepsHoldings(l, ReversalOf(l.items, i, today));
    case MoveStep(p, i, from, into) => TransferKeepsHoldings(l, p, i, from, into);
    case PosStep(pos) => PosKeepsHoldings(l, pos);
    case NewFolio(folio) => NewFolioKeepsHoldings(l, folio.(balance := 0));
    case _ =>
      assert forall f :: HeldTotals(Next(l, step), f) == HeldTotals(l, f);
  }

  lemma PosKeepsHoldings(l: Ledger, pos: PosInput)
    requires WellFormed(l) && BalancesMatchHoldings(l) && PosPost(l, pos).Ok?
    ensures BalancesMatchHoldings(PosPost(l, pos).value)
  {
    var picked := PickOpenFolio(l, pos.stay.value);
    if picked.Some? {
      PostingKeepsHoldings(l, PosCharge(pos, picked.value));
    } else {
      var folio := Folio(pos.property, pos.stay.value, Master, Open, 0);
      NewFolioKeepsHoldings(l, folio);
      StepKeepsWellFormed(l, NewFolio(folio));
      PostingKeepsHoldings(l.(folios := l.folios + [folio]), PosCharge(pos, |l.folios|));
    }
  }

  /** When every transfer names the item's holder as its source, every balance is what its folio holds. */
  lemma {:induction false} HonestRunsMatchHoldings(steps: seq<Step>)
    requires HonestRun(EMPTY, steps)
    ensures BalancesMatchHoldings(Run(EMPTY, steps))
  {
    if steps != [] {
      var init := steps[..|steps| - 1];
      HonestRunsMatchHoldings(init);
      RunKeepsWellFormed(EMPTY, init);
      StepKeepsHoldings(Run(EMPTY, init), steps[|steps| - 1]);
    }
  }

  // ---------- the frozen day ----------

  /** The line item a step commits, if it does. */
  function NewItem(l: Ledger, step: Step): Option<Item> {
    match step
    case PostStep(post) => if Post(l, post).Ok? then Some(ChargeFor(post, StampFor(l, post.property, post.when))) else None
    case ReverseStep(i, today) => if Reverse(l, i, today).Ok? then Some(ReversalOf(l.items, i, today)) else None
    case PosStep(pos) =>
      if PosPost(l, pos).Err? then None
      else
        var picked := PickOpenFolio(l, pos.stay.value);
        Some(PosCharge(pos, if picked.Some? then picked.value else |l.folios|))
    case _ => None
  }

  lemma NextItems(l: Ledger, step: Step)
    ensures Next(l, step).items == match NewItem(l, step) case Some(item) => l.items + [item] case None => l.items
  {
  }

  /** The step commits and adds a line item dated `d`. */
  predicate WritesOn(l: Ledger, step: Step, d: Date) {
    NewItem(l, step).Some? && NewItem(l, step).value.date == d
  }

  lemma ItemsOnAppend(items: seq<Item>, item: Item, d: Date)
    ensures ItemsOn(items + [item], d) == if item.date == d then ItemsOn(items, d) + [item] else ItemsOn(items, d)
  {
    assert (items + [item])[..|items|] == items;
  }

  lemma {:induction false} AuditCounts(items: seq<Item>)
    ensures Audit(items).count == |items|
  {
    if items != [] {
      AuditCounts(items[..|items| - 1]);
    }
  }

  /** Exactly the committed writes dated `d` change that day's items, and its audit with them. */
  lemma {:induction false} DayChangesExactlyOnWrites(l: Ledger, step: Step, d: Date)
    ensures ItemsOn(Next(l, step).items, d) != ItemsOn(l.items, d) <==> WritesOn(l, step, d)
    ensures Audit(ItemsOn(Next(l, step).items, d)) != Audit(ItemsOn(l.items, d)) <==> WritesOn(l, step, d)
  {
    NextItems(l, step);
    AuditCounts(ItemsOn(l.items, d));
    AuditCounts(ItemsOn(Next(l, step).items, d));
    if NewItem(l, step).Some? {
      ItemsOnAppend(l.items, NewItem(l, step).value, d);
    }
  }

  /** The checks a step passes on its way around the closed day `d`. */
  predicate Bypasses(l: Ledger, step: Step, d: Date) {
    match step
    case PostStep(post) =>
      && (match post.when
          case On(date) => date == d && !DayClosed(l, post.property, d)
          case Default(today) => StampFor(l, post.property, post.when) == d && !DayClosed(l, post.property, today))
      && FolioIn(l, post.folio, post.property) && l.folios[post.folio].status == Open
    case ReverseStep(i, today) =>
      && today == d
      && i < |l.items| && l.items[i].kind == Charge && l.items[i].folio < |l.folios|
      && !IsReversed(l.items, i)
    case PosStep(pos) => pos.today == d && pos.stay.Some? && pos.nameMatches
    case _ => false
  }

  lemma WritesBypass(l: Ledger, step: Step, d: Date)
    ensures Bypasses(l, step, d) <==> WritesOn(l, step, d)
  {
  }

  lemma ClosedDayStays(l: Ledger, step: Step, p: PropertyId, d: Date)
    requires DayClosed(l, p, d)
    ensures (p, d) in Next(l, step).days && Next(l, step).days[(p, d)] == l.days[(p, d)]
  {
  }

  /**
   For a day its property has closed: no step reopens it or touches its snapshot, and
   what can still change its items is exactly a reversal or a point-of-sale charge while
   the clock shows that day, a post naming it through a property that has not closed it,
   or a post naming no date that is stamped with it.
   */
  lemma {:induction false} ClosedDayStep(l: Ledger, step: Step, p: PropertyId, d: Date)
    requires DayClosed(l, p, d)
    ensures (p, d) in Next(l, step).days && Next(l, step).days[(p, d)] == l.days[(p, d)]
    ensures ItemsOn(Next(l, step).items, d) != ItemsOn(l.items, d) <==> Bypasses(l, step, d)
    ensures Audit(ItemsOn(Next(l, step).items, d)) != Audit(ItemsOn(l.items, d)) <==> Bypasses(l, step, d)
  {
    DayChangesExactlyOnWrites(l, step, d);
    WritesBypass(l, step, d);
    ClosedDayStays(l, step, p, d);
  }

  /** Posts that name their date and come through the property that closed `d` never change that day. */
  lemma {:induction false} NamedPostsRespectClose(l: Ledger, post: PostInput, d: Date)
    requires DayClosed(l, post.property, d) && post.when.On?
    ensures ItemsOn(Next(l, PostStep(post)).items, d) == ItemsOn(l.items, d)
  {
    ClosedDayStep(l, PostStep(post), post.property, d);
  }

  /** No step of the run gets around the closed day `d`. */
  predicate Untouched(l: Ledger, steps: seq<Step>, d: Date) {
    steps == [] ||
    (Untouched(l, steps[..|steps| - 1], d) && !Bypasses(Run(l, steps[..|steps| - 1]), steps[|steps| - 1], d))
  }

  lemma {:induction false} ClosedRun(l: Ledger, p: PropertyId, d: Date, steps: seq<Step>)
    requires DayClosed(l, p, d)
    ensures var later := Run(l, steps);
            && DayClosed(later, p, d) && later.days[(p, d)] == l.days[(p, d)]
            && |ItemsOn(later.items, d)| >= |ItemsOn(l.items, d)|
            && (if Untouched(l, steps, d) then ItemsOn(later.items, d) == ItemsOn(l.items, d)
                else |ItemsOn(later.items, d)| > |ItemsOn(l.items, d)|)
  {
    if steps != [] {
      var init, last := steps[..|steps| - 1], steps[|steps| - 1];
      var before := Run(l, init);
      ClosedRun(l, p, d, init);
      ClosedDayStep(before, last, p, d);
      NextItems(before, last);
      if NewItem(before, last).Some? {
        ItemsOnAppend(before.items, NewItem(before, last).value, d);
      }
    }
  }

  /**
   From the close on, over any run, auditing the day again gives the snapshot stored at
   the close if and only if no step of the run got around the close.
   */
  lemma {:induction false} FrozenDay(l: Ledger, p: PropertyId, d: Date, steps: seq<Step>)
    requires CloseDay(l, p, d).Ok?
    ensures var closed := CloseDay(l, p, d).value;
            var later := Run(closed, steps);
            && DayClosed(later, p, d)
            && later.days[(p, d)].snapshot == Audit(ItemsOn(l.items, d))
            && (Untouched(closed, steps, d) <==> later.days[(p, d)].snapshot == Audit(ItemsOn(later.items, d)))
  {
    var closed := CloseDay(l, p, d).value;
    ClosedRun(closed, p, d, steps);
    AuditCounts(ItemsOn(l.items, d));
    AuditCounts(ItemsOn(Run(closed, steps).items, d));
  }

  /** So the freeze can fail: close a day, then reverse any of its charges while the clock still shows it. */
  lemma {:induction false} ReversalOnClosedDay(l: Ledger, p: PropertyId, d: Date, i: ItemId)
    requires CloseDay(l, p, d).Ok? && Reverse(l, i, d).Ok?
    ensures var later := Run(l, [CloseStep(p, d), ReverseStep(i, d)]);
            DayClosed(later, p, d) && later.days[(p, d)].snapshot != Audit(ItemsOn(later.items, d))
  {
    var closed := Next(l, CloseStep(p, d));
    var steps := [CloseStep(p, d), ReverseStep(i, d)];
    assert steps[..1] == [CloseStep(p, d)] && steps[..1][..0] == [];
    assert Run(l, steps[..1]) == closed;
    ClosedDayStep(closed, ReverseStep(i, d), p, d);
  }

  /**
   A charge posted without a date goes to the active business day if and only if that
   day is in the month the clock shows.
   */
  lemma {:induction false} DefaultPostOnActiveDay(l: Ledger, input: PostInput)
    requires Post(l, input).Ok? && input.when.Default? && ActiveDay(l, input.property).Some?
    ensures var active, items := ActiveDay(l, input.property).value, Post(l, input).value.items;
            && (items[|items| - 1].date == active <==> BeforeMonth(active) == BeforeMonth(input.when.today))
            && items[|items| - 1].date - BeforeMonth(input.when.today) == active - BeforeMonth(active)
  {
  }

  /** The active business day is the latest day that the property itself has open. */
  lemma {:induction false} ActiveDayIsLatestOpen(l: Ledger, p: PropertyId, d: Date)
    ensures ActiveDay(l, p) == Some(d) <==>
            && (p, d) in l.days && l.days[(p, d)].OpenDay?
            && forall e :: (p, e) in l.days && l.days[(p, e)].OpenDay? ==> e <= d
  {
    forall e
      ensures e in OpenDates(l, p) <==> (p, e) in l.days && l.days[(p, e)].OpenDay?
    {
      assert (p, e) in l.days.Keys <==> (p, e) in l.days;
    }
  }

  lemma {:induction false} OpenDatesOf(l: Ledger, p: PropertyId, d: Date)
    requires (p, d) in l.days && l.days[(p, d)].OpenDay?
    requires forall k :: k in l.days && k != (p, d) ==> l.days[k].ClosedDay?
    ensures ActiveDay(l, p) == Some(d)
  {
    assert (p, d) in l.days.Keys;
    assert OpenDates(l, p) == {d};
  }

  /** With 15 January still open on 20 February, the charge is dated 15 February, a closed day. */
  lemma {:induction false} DefaultPostOnClosedDay(l: Ledger, input: PostInput)
    requires l.days == map[(input.property, 14) := OpenDay, (input.property, 45) := ClosedDay(Audit([]))]
    requires Post(l, input).Ok? && input.when == Default(50)
    ensures var items := Post(l, input).value.items;
            items[|items| - 1].date == 45 && DayClosed(l, input.property, 45)
  {
    TwoDaysOfMonth();
    assert l.days[(input.property, 45)].ClosedDay?;
    OpenDatesOf(l, input.property, 14);
  }

  // ---------- exactly what is refused ----------

  /**
   A post that names its date is refused for a closed day exactly when the property has
   closed that very day, and otherwise commits an item of that date.
   */
  lemma {:induction false} NamedDateDecides(l: Ledger, input: PostInput, d: Date)
    requires FolioIn(l, input.folio, input.property) && l.folios[input.folio].status == Open && input.when == On(d)
    ensures Post(l, input) == Err(BusinessDayClosed) <==> DayClosed(l, input.property, d)
    ensures Post(l, input).Ok? <==> !DayClosed(l, input.property, d)
    ensures Post(l, input).Ok? ==> Post(l, input).value.items == l.items + [ChargeFor(input, d)] && ChargeFor(input, d).date == d
  {
  }

  /** A post is refused for its folio exactly when the property has no such folio, or has it but not open. */
  lemma {:induction false} FolioDecides(l: Ledger, input: PostInput)
    ensures Post(l, input) == Err(FolioMismatch) <==>
            input.folio >= |l.folios| || l.folios[input.folio].property != input.property
    ensures Post(l, input) == Err(FolioNotOpen) <==>
            input.folio < |l.folios| && l.folios[input.folio].property == input.property && l.folios[input.folio].status != Open
  {
  }

  /** A post that names no date is refused exactly when the property has closed the day the clock shows. */
  lemma {:induction false} ClockDateDecides(l: Ledger, input: PostInput, today: Date)
    requires FolioIn(l, input.folio, input.property) && l.folios[input.folio].status == Open && input.when == Default(today)
    ensures Post(l, input) == Err(BusinessDayClosed) <==> DayClosed(l, input.property, today)
    ensures Post(l, input).Ok? <==> !DayClosed(l, input.property, today)
  {
  }

  /** A charge can be reversed exactly once, on whatever day, closed or not. */
  lemma {:induction false} ReversibleExactlyOnce(l: Ledger, i: ItemId, today: Date)
    requires WellFormed(l)
    ensures Reverse(l, i, today).Ok? <==> i < |l.items| && l.items[i].kind == Charge && !IsReversed(l.items, i)
    ensures Reverse(l, i, today).Ok? ==>
              var items := Reverse(l, i, today).value.items;
              IsReversed(items, i) && |items| == |l.items| + 1 && items[|l.items|].date == today
  {
    if i < |l.items| {
      assert ItemOk(l, i);
    }
    if Reverse(l, i, today).Ok? {
      assert Reverse(l, i, today).value.items[|l.items|].kind == Reversal(i);
    }
  }

  /** An item can be moved exactly between two folios of the property, to another than it was posted on, while its day is not closed. */
  lemma {:induction false} MovableExactly(l: Ledger, p: PropertyId, i: ItemId, from: FolioId, into: FolioId)
    ensures Move(l, p, i, from, into).Ok? <==>
            && i < |l.items| && into != l.items[i].folio && !DayClosed(l, p, l.items[i].date)
            && from < |l.folios| && l.folios[from].property == p
            && into < |l.folios| && l.folios[into].property == p
    ensures i < |l.items| && into != l.items[i].folio && FolioIn(l, from, p) && FolioIn(l, into, p) ==>
              (Move(l, p, i, from, into) == Err(BusinessDayClosed) <==> DayClosed(l, p, l.items[i].date))
  {
  }

  /** The transfer moves an item dated `d` out of a folio of property `p`. */
  predicate MovesDay(l: Ledger, t: Transfer, p: PropertyId, d: Date) {
    t.item < |l.items| && t.from < |l.folios| && l.items[t.item].date == d && l.folios[t.from].property == p
  }

  lemma {:induction false} StepMovesNothingClosed(l: Ledger, step: Step, p: PropertyId, d: Date)
    requires DayClosed(l, p, d)
    ensures DayClosed(Next(l, step), p, d)
    ensures l.transfers <= Next(l, step).transfers && l.items <= Next(l, step).items && |l.folios| <= |Next(l, step).folios|
    ensures forall f :: 0 <= f < |l.folios| ==> Next(l, step).folios[f].property == l.folios[f].property
    ensures forall t :: |l.transfers| <= t < |Next(l, step).transfers| ==> !MovesDay(Next(l, step), Next(l, step).transfers[t], p, d)
  {
  }

  /** Once a property has closed a day, no run ever moves an item of that day off its folios. */
  lemma {:induction false} ClosedDayItemsStay(l: Ledger, steps: seq<Step>, p: PropertyId, d: Date)
    requires WellFormed(l) && DayClosed(l, p, d)
    ensures var later := Run(l, steps);
            && DayClosed(later, p, d) && l.transfers <= later.transfers
            && forall t :: |l.transfers| <= t < |later.transfers| ==> !MovesDay(later, later.transfers[t], p, d)
  {
    if steps != [] {
      var init, last := steps[..|steps| - 1], steps[|steps| - 1];
      var before := Run(l, init);
      ClosedDayItemsStay(l, init, p, d);
      RunKeepsWellFormed(l, init);
      StepMovesNothingClosed(before, last, p, d);
      forall t | |l.transfers| <= t < |before.transfers|
        ensures !MovesDay(Next(before, last), before.transfers[t], p, d)
      {
        assert TransferOk(before, before.transfers[t]);
      }
    }
  }

  /** A day is closed by the night audit of that property and date, and by nothing else. */
  lemma {:induction false} ClosesOnlyThatDay(l: Ledger, step: Step, p: PropertyId, d: Date)
    ensures DayClosed(Next(l, step), p, d) <==> DayClosed(l, p, d) || step == CloseStep(p, d)
  {
  }

  // ---------- what undoes what ----------

  /** What the transfers of item `i` have brought to folio `f`, less what they have taken away. */
  function Carried(transfers: seq<Transfer>, i: ItemId, f: FolioId): int {
    if transfers == [] then 0
    else
      var last := transfers[|transfers| - 1];
      Carried(transfers[..|transfers| - 1], i, f)
      + If(last.item == i, If(last.into == f, last.amount) - If(last.from == f, last.amount))
  }

  /** What folio `f` carries on account of item `i`. */
  function OnAccount(l: Ledger, i: ItemId, f: FolioId): int
    requires i < |l.items|
  {
    If(l.items[i].folio == f, l.items[i].total) + Carried(l.transfers, i, f)
  }

  function Accounts(l: Ledger, f: FolioId): seq<int> {
    seq(|l.items|, i requires 0 <= i < |l.items| => OnAccount(l, i, f))
  }

  /** Regrouping transfers by item. */
  lemma {:induction false} AccountsAddUp(l: Ledger, f: FolioId)
    requires forall t :: 0 <= t < |l.transfers| ==> l.transfers[t].item < |l.items|
    ensures Sum(Accounts(l, f)) == Sum(OwnTotals(l.items, f)) + Sum(Moves(l.transfers, f))
    decreases |l.transfers|
  {
    if l.transfers == [] {
      assert Accounts(l, f) == OwnTotals(l.items, f);
    } else {
      var n := |l.transfers| - 1;
      var before, last := l.(transfers := l.transfers[..n]), l.transfers[n];
      AccountsAddUp(before, f);
      var change := If(last.into == f, last.amount) - If(last.from == f, last.amount);
      SumUpdate(Accounts(before, f), last.item, OnAccount(before, last.item, f) + change);
      MovesAppend(l.transfers[..n], last, f);
      assert l.transfers == l.transfers[..n] + [last];
      AccountsAfterMove(l, f);
    }
  }

  lemma AccountsAfterMove(l: Ledger, f: FolioId)
    requires l.transfers != [] && l.transfers[|l.transfers| - 1].item < |l.items|
    ensures var n := |l.transfers| - 1;
            var before, last := l.(transfers := l.transfers[..n]), l.transfers[n];
            Accounts(l, f) == Accounts(before, f)[last.item := OnAccount(before, last.item, f)
              + If(last.into == f, last.amount) - If(last.from == f, last.amount)]
  {
  }

  /** Every balance is what it would be if item `i` had never been posted or moved. */
  ghost predicate AsIfNever(l: Ledger, i: ItemId, folios: seq<Folio>)
    requires i < |l.items| && |folios| == |l.folios|
  {
    forall f :: 0 <= f < |folios| ==> folios[f].balance == Sum(Accounts(l, f)[i := 0])
  }

  /** Item `i` is, in sum, on the folio it was posted on and nowhere else. */
  ghost predicate NeverCarried(l: Ledger, i: ItemId) {
    forall f :: 0 <= f < |l.folios| ==> Carried(l.transfers, i, f) == 0
  }

  /** A reversal leaves on each folio what transfers carried there. */
  lemma {:induction false} ReversalLeaves(l: Ledger, i: ItemId, today: Date, f: FolioId)
    requires WellFormed(l) && Reverse(l, i, today).Ok? && f < |l.folios| && Explained(l, f)
    ensures Reverse(l, i, today).value.folios[f].balance == Sum(Accounts(l, f)[i := 0]) + Carried(l.transfers, i, f)
  {
    forall t | 0 <= t < |l.transfers|
      ensures l.transfers[t].item < |l.items|
    {
      assert TransferOk(l, l.transfers[t]);
    }
    AccountsAddUp(l, f);
    SumUpdate(Accounts(l, f), i, 0);
    IncrementBalance(l.folios, l.items[i].folio, -l.items[i].total, f);
  }

  /**
   A reversal leaves every balance as if the charge had never been if and only if the
   transfers of the charge cancel out on every folio: it always goes to the folio the
   charge was posted on.
   */
  lemma {:induction false} ReversalUndoesCharge(l: Ledger, i: ItemId, today: Date)
    requires WellFormed(l) && AllExplained(l) && Reverse(l, i, today).Ok?
    ensures AsIfNever(l, i, Reverse(l, i, today).value.folios) <==> NeverCarried(l, i)
  {
    var after := Reverse(l, i, today).value.folios;
    forall f | 0 <= f < |l.folios|
      ensures after[f].balance == Sum(Accounts(l, f)[i := 0]) + Carried(l.transfers, i, f)
    {
      assert Explained(l, f);
      ReversalLeaves(l, i, today, f);
    }
  }

  /** Folio `f` carries item `i` to the cent if it holds it, and nothing of it otherwise. */
  predicate TrailOn(l: Ledger, i: ItemId, f: FolioId)
    requires i < |l.items|
  {
    OnAccount(l, i, f) == If(Holder(l, i) == f, l.items[i].total)
  }

  ghost predicate TrailsOk(l: Ledger) {
    forall i, f :: 0 <= i < |l.items| && 0 <= f < |l.folios| ==> TrailOn(l, i, f)
  }

  lemma {:induction false} CarriedOfOthers(transfers: seq<Transfer>, i: ItemId, f: FolioId)
    requires forall t :: 0 <= t < |transfers| ==> transfers[t].item != i
    ensures Carried(transfers, i, f) == 0 && LastMove(transfers, i) == None
  {
    if transfers != [] {
      CarriedOfOthers(transfers[..|transfers| - 1], i, f);
    }
  }

  lemma CarriedOutside(l: Ledger, i: ItemId, f: FolioId)
    requires WellFormed(l) && i < |l.items| && f >= |l.folios|
    ensures OnAccount(l, i, f) == 0 && Holder(l, i) != f
  {
    assert ItemOk(l, i);
    HolderExists(l, i);
    forall t | 0 <= t < |l.transfers|
      ensures l.transfers[t].from != f && l.transfers[t].into != f
    {
      assert TransferOk(l, l.transfers[t]);
    }
    CarriedNowhere(l.transfers, i, f);
  }

  lemma {:induction false} CarriedNowhere(transfers: seq<Transfer>, i: ItemId, f: FolioId)
    requires forall t :: 0 <= t < |transfers| ==> transfers[t].from != f && transfers[t].into != f
    ensures Carried(transfers, i, f) == 0
  {
    if transfers != [] {
      CarriedNowhere(transfers[..|transfers| - 1], i, f);
    }
  }

  lemma MoveKeepsTrails(l: Ledger, p: PropertyId, i: ItemId, from: FolioId, into: FolioId)
    requires WellFormed(l) && TrailsOk(l) && Move(l, p, i, from, into).Ok? && from == Holder(l, i)
    ensures TrailsOk(Move(l, p, i, from, into).value)
  {
    var l' := Move(l, p, i, from, into).value;
    assert l'.transfers[..|l.transfers|] == l.transfers;
    forall m, f | 0 <= m < |l'.items| && 0 <= f < |l'.folios|
      ensures TrailOn(l', m, f)
    {
      assert TrailOn(l, m, f);
    }
  }

  /** Steps that only add rows, folios or days keep every trail. */
  lemma GrowthKeepsTrails(l: Ledger, l': Ledger)
    requires WellFormed(l) && WellFormed(l') && TrailsOk(l)
    requires l.items <= l'.items && l'.transfers == l.transfers && |l.folios| <= |l'.folios|
    ensures TrailsOk(l')
  {
    forall i, f | 0 <= i < |l'.items| && 0 <= f < |l'.folios|
      ensures TrailOn(l', i, f)
    {
      if i >= |l.items| {
        forall t | 0 <= t < |l.transfers|
          ensures l.transfers[t].item != i
        {
          assert TransferOk(l, l.transfers[t]);
        }
        CarriedOfOthers(l.transfers, i, f);
      } else if f < |l.folios| {
        assert TrailOn(l, i, f) && l'.items[i] == l.items[i];
      } else {
        assert l'.items[i] == l.items[i];
        CarriedOutside(l, i, f);
      }
    }
  }

  lemma {:induction false} HonestRunsKeepTrails(steps: seq<Step>)
    requires HonestRun(EMPTY, steps)
    ensures TrailsOk(Run(EMPTY, steps))
  {
    if steps != [] {
      var init, last := steps[..|steps| - 1], steps[|steps| - 1];
      HonestRunsKeepTrails(init);
      var l := Run(EMPTY, init);
      RunKeepsWellFormed(EMPTY, init);
      StepKeepsWellFormed(l, last);
      if last.MoveStep? && Try(l, last).Ok? {
        MoveKeepsTrails(l, last.property, last.item, last.from, last.into);
      } else {
        GrowthKeepsTrails(l, Next(l, last));
      }
    }
  }

  lemma {:induction false} MovedIsElsewhere(l: Ledger, i: ItemId)
    requires WellFormed(l) && i < |l.items|
    ensures Holder(l, i) == l.items[i].folio <==> forall t :: t in l.transfers ==> t.item != i
  {
    LastMoveIsLogged(l.transfers, i);
    forall t | t in l.transfers
      ensures TransferOk(l, t)
    {
      var n :| 0 <= n < |l.transfers| && l.transfers[n] == t;
    }
  }

  /**
   When every transfer names the holder, a reversal undoes its charge if and only if the
   charge has never been transferred, or is over nothing.
   */
  lemma {:induction false} HonestReversalUndoesCharge(steps: seq<Step>, i: ItemId, today: Date)
    requires HonestRun(EMPTY, steps) && Reverse(Run(EMPTY, steps), i, today).Ok?
    ensures var l := Run(EMPTY, steps);
            AsIfNever(l, i, Reverse(l, i, today).value.folios) <==> (forall t :: t in l.transfers ==> t.item != i) || l.items[i].total == 0
  {
    var l := Run(EMPTY, steps);
    RunKeepsWellFormed(EMPTY, steps);
    BalancesExplained(steps);
    HonestRunsKeepTrails(steps);
    ReversalUndoesCharge(l, i, today);
    MovedIsElsewhere(l, i);
    assert ItemOk(l, i);
    HolderExists(l, i);
    forall f | 0 <= f < |l.folios|
      ensures Carried(l.transfers, i, f) == If(Holder(l, i) == f, l.items[i].total) - If(l.items[i].folio == f, l.items[i].total)
    {
      assert TrailOn(l, i, f);
    }
    if Holder(l, i) != l.items[i].folio && l.items[i].total != 0 {
      assert Carried(l.transfers, i, Holder(l, i)) != 0;
    }
  }

  /**
   Moved off its folio and then reversed, a charge is still owed by the folio it was
   moved to, and the folio it was posted on is credited for it a second time.
   */
  lemma {:induction false} ReversalAfterMove(l: Ledger, p: PropertyId, i: ItemId, into: FolioId, today: Date)
    requires WellFormed(l) && Reverse(l, i, today).Ok? && Move(l, p, i, l.items[i].folio, into).Ok?
    ensures var moved := Move(l, p, i, l.items[i].folio, into).value;
            && Reverse(moved, i, today).Ok?
            && var after := Reverse(moved, i, today).value.folios;
               && after[into].balance == l.folios[into].balance + l.items[i].total
               && after[l.items[i].folio].balance == l.folios[l.items[i].folio].balance - 2 * l.items[i].total
  {
  }

  /** Reversing a charge just posted restores every balance. */
  lemma {:induction false} ReversalUndoesPost(l: Ledger, input: PostInput, today: Date)
    requires WellFormed(l) && Post(l, input).Ok?
    ensures var posted := Post(l, input).value;
            && Reverse(posted, |l.items|, today).Ok?
            && Reverse(posted, |l.items|, today).value.folios == l.folios
  {
    var posted := Post(l, input).value;
    forall j | 0 <= j < |posted.items|
      ensures posted.items[j].kind != Reversal(|l.items|)
    {
      if j < |l.items| {
        assert ItemOk(l, j);
      }
    }
    var undone := Reverse(posted, |l.items|, today).value;
    assert undone.folios[input.folio] == l.folios[input.folio];
  }

  lemma AuditAppend(items: seq<Item>, item: Item)
    ensures Audit(items + [item]) == Include(Audit(items), item)
  {
    assert (items + [item])[..|items|] == items;
  }

  /** What an audit of `d` makes of one more row. */
  function IncludeOn(s: Snapshot, item: Item, d: Date): Snapshot {
    if item.date == d then Include(s, item) else s
  }

  lemma IncludingCommutes(s: Snapshot, a: Item, b: Item, d: Date)
    ensures IncludeOn(IncludeOn(s, a, d), b, d) == IncludeOn(IncludeOn(s, b, d), a, d)
  {
  }

  /** The audits of `d` over two tables differ by `row`. */
  predicate AuditsDiffer(with: seq<Item>, without: seq<Item>, row: Item, d: Date) {
    Audit(ItemsOn(with, d)) == IncludeOn(Audit(ItemsOn(without, d)), row, d)
  }

  lemma DifferenceStays(with: seq<Item>, without: seq<Item>, row: Item, next: Item, d: Date)
    requires AuditsDiffer(with, without, row, d)
    ensures AuditsDiffer(with + [next], without + [next], row, d)
  {
    calc {
      Audit(ItemsOn(with + [next], d));
    == { AuditAppends(with, next, d); }
      IncludeOn(Audit(ItemsOn(with, d)), next, d);
    == { IncludingCommutes(Audit(ItemsOn(without, d)), row, next, d); }
      IncludeOn(IncludeOn(Audit(ItemsOn(without, d)), next, d), row, d);
    == { AuditAppends(without, next, d); }
      IncludeOn(Audit(ItemsOn(without + [next], d)), row, d);
    }
  }

  /** A row anywhere in the table counts in the audit of its own day, and in no other. */
  lemma {:induction false} AuditWithRow(before: seq<Item>, row: Item, after: seq<Item>, d: Date)
    ensures AuditsDiffer(before + [row] + after, before + after, row, d)
  {
    if after == [] {
      assert before + [row] + after == before + [row] && before + after == before;
      AuditAppends(before, row, d);
    } else {
      var n := |after| - 1;
      AuditWithRow(before, row, after[..n], d);
      Reassociate(before, row, after);
      DifferenceStays(before + [row] + after[..n], before + after[..n], row, after[n], d);
    }
  }

  lemma Reassociate(before: seq<Item>, row: Item, after: seq<Item>)
    requires after != []
    ensures var n := |after| - 1;
            && before + [row] + after == before + [row] + after[..n] + [after[n]]
            && before + after == before + after[..n] + [after[n]]
  {
  }

  lemma AuditAppends(items: seq<Item>, item: Item, d: Date)
    ensures Audit(ItemsOn(items + [item], d)) == IncludeOn(Audit(ItemsOn(items, d)), item, d)
  {
    ItemsOnAppend(items, item, d);
    AuditAppend(ItemsOn(items, d), item);
  }

  function Without(items: seq<Item>, i: ItemId): seq<Item>
    requires i < |items|
  {
    items[..i] + items[i + 1..]
  }

  lemma AuditWithout(items: seq<Item>, i: ItemId, d: Date)
    requires i < |items|
    ensures AuditsDiffer(items, Without(items, i), items[i], d)
  {
    assert items == items[..i] + [items[i]] + items[i + 1..];
    AuditWithRow(items[..i], items[i], items[i + 1..], d);
  }

  /** A charge and its reversal on one day leave no money in that day's audit, and show in its counts. */
  lemma {:induction false} ReversalCancelsInAudit(l: Ledger, i: ItemId, j: ItemId, d: Date)
    requires WellFormed(l) && i < |l.items| && j < |l.items| && l.items[j].kind == Reversal(i)
    requires l.items[i].date == d && l.items[j].date == d
    ensures i < j
    ensures var s, s' := Audit(ItemsOn(Without(Without(l.items, j), i), d)), Audit(ItemsOn(l.items, d));
            && s'.net == s.net && s'.tax == s.tax && s'.room == s.room
            && s'.count == s.count + 2 && s'.reversals == s.reversals + 1
            && s'.charges == s.charges + Bit(l.items[i].total != 0)
  {
    assert ItemOk(l, j);
    var unreversed := Without(l.items, j);
    assert unreversed[i] == l.items[i];
    AuditWithout(l.items, j, d);
    AuditWithout(unreversed, i, d);
  }

  /** The rows an audit counts as charges: those that cost something, reversals of credits among them. */
  function CostingRows(items: seq<Item>): set<ItemId> {
    set i | 0 <= i < |items| && items[i].total > 0
  }

  function ReversingRows(items: seq<Item>): set<ItemId> {
    set i | 0 <= i < |items| && items[i].kind.Reversal?
  }

  /** Net and tax of an audit add up to the totals of its items, and its counts are numbers of rows. */
  lemma {:induction false} AuditAddsUp(items: seq<Item>)
    ensures Audit(items).net + Audit(items).tax == Sum(Totals(items))
    ensures Audit(items).count == |items|
    ensures Audit(items).charges == |CostingRows(items)| && Audit(items).reversals == |ReversingRows(items)|
  {
    if items != [] {
      var n := |items| - 1;
      AuditAddsUp(items[..n]);
      assert Totals(items)[..n] == Totals(items[..n]);
      CostingRowsGrow(items);
      ReversingRowsGrow(items);
    }
  }

  lemma CostingRowsGrow(items: seq<Item>)
    requires items != []
    ensures |CostingRows(items)| == |CostingRows(items[..|items| - 1])| + Bit(items[|items| - 1].total > 0)
  {
    var n := |items| - 1;
    assert CostingRows(items) == if items[n].total > 0 then CostingRows(items[..n]) + {n} else CostingRows(items[..n]);
  }

  lemma ReversingRowsGrow(items: seq<Item>)
    requires items != []
    ensures |ReversingRows(items)| == |ReversingRows(items[..|items| - 1])| + Bit(items[|items| - 1].kind.Reversal?)
  {
    var n := |items| - 1;
    assert ReversingRows(items) == if items[n].kind.Reversal? then ReversingRows(items[..n]) + {n} else ReversingRows(items[..n]);
  }

  /** The sum of `value` over the items dated `d`. */
  function SumOn(items: seq<Item>, d: Date, value: Item -> int): int {
    if items == [] then 0
    else
      var last := items[|items| - 1];
      SumOn(items[..|items| - 1], d, value) + if last.date == d then value(last) else 0
  }

  lemma SumOnAppend(items: seq<Item>, item: Item, d: Date, value: Item -> int)
    ensures SumOn(items + [item], d, value) == SumOn(items, d, value) + if item.date == d then value(item) else 0
  {
    assert (items + [item])[..|items|] == items;
  }

  function NetAmount(item: Item): int { item.total - item.tax }

  function TaxAmount(item: Item): int { item.tax }

  function RoomAmount(item: Item): int { if item.source == RoomSource then item.total else 0 }

  predicate FiguresRight(items: seq<Item>, d: Date) {
    var s := Audit(ItemsOn(items, d));
    s.net == SumOn(items, d, NetAmount) && s.tax == SumOn(items, d, TaxAmount) && s.room == SumOn(items, d, RoomAmount)
  }

  lemma IncludeAdds(s: Snapshot, item: Item, d: Date)
    ensures var s' := IncludeOn(s, item, d);
            && s'.net == s.net + (if item.date == d then NetAmount(item) else 0)
            && s'.tax == s.tax + (if item.date == d then TaxAmount(item) else 0)
            && s'.room == s.room + (if item.date == d then RoomAmount(item) else 0)
  {
  }

  lemma FiguresGrow(items: seq<Item>, item: Item, d: Date)
    requires FiguresRight(items, d)
    ensures FiguresRight(items + [item], d)
  {
    var s, more := Audit(ItemsOn(items, d)), items + [item];
    var s' := IncludeOn(s, item, d);
    IncludeAdds(s, item, d);
    assert s'.net == SumOn(more, d, NetAmount) by { SumOnAppend(items, item, d, NetAmount); }
    assert s'.tax == SumOn(more, d, TaxAmount) by { SumOnAppend(items, item, d, TaxAmount); }
    assert s'.room == SumOn(more, d, RoomAmount) by { SumOnAppend(items, item, d, RoomAmount); }
    assert Audit(ItemsOn(more, d)) == s' by { AuditAppends(items, item, d); }
  }

  /**
   What the night audit finds for a date, over the whole table: net revenue is what the
   day's items cost without tax, tax collected is their tax, and room revenue the totals
   of the room's items.
   */
  lemma {:induction false} AuditFigures(items: seq<Item>, d: Date)
    ensures FiguresRight(items, d)
  {
    if items != [] {
      var n := |items| - 1;
      AuditFigures(items[..n], d);
      FiguresGrow(items[..n], items[n], d);
      assert items == items[..n] + [items[n]];
    }
  }

  /** An item moved off its folio can never be moved back: the check compares with the folio it was posted on. */
  lemma {:induction false} NoWayBack(l: Ledger, steps: seq<Step>, p: PropertyId, i: ItemId, from: FolioId)
    requires i < |l.items|
    ensures Move(Run(l, steps), p, i, from, l.items[i].folio) == Err(FolioMismatch)
  {
    RowsAreImmutable(l, steps);
    assert Run(l, steps).items[i] == l.items[i];
  }

  /** The posted total is the exact price to within half a cent for the gross, scaled by the rate, and half a cent for the tax. */
  lemma {:induction false} ChargeNearExact(input: PostInput, date: Date)
    requires input.taxRate >= 0.0
    ensures var exact := (input.unitPrice * input.quantity - input.discount as real) * (1.0 + input.taxRate);
            -1.0 - 0.5 * input.taxRate <= ChargeFor(input, date).total as real - exact <= 1.0 + 0.5 * input.taxRate
  {
    var price, rate := input.unitPrice * input.quantity, input.taxRate;
    var gross := GrossFor(input.unitPrice, input.quantity);
    NearExact(price, rate, gross, input.discount, TaxFor(gross - input.discount, rate));
  }

  /** The columns of a charge add up, and its tax is the rate's share of the discounted price to within half a cent. */
  lemma {:induction false} ChargeColumns(input: PostInput, date: Date)
    ensures var item := ChargeFor(input, date);
            var base := item.total - item.tax;
            && -0.5 < (base + input.discount) as real - input.unitPrice * input.quantity <= 0.5
            && -0.5 < item.tax as real - base as real * input.taxRate <= 0.5
            && item.discount == input.discount && item.quantity == input.quantity && item.unitPrice == input.unitPrice
            && item.taxRate == input.taxRate && item.source == input.source && item.folio == input.folio && item.kind == Charge
  {
  }

  lemma NearExact(price: real, rate: real, gross: int, discount: int, tax: int)
    requires rate >= 0.0
    requires -0.5 <= gross as real - price <= 0.5
    requires -0.5 <= tax as real - (gross - discount) as real * rate <= 0.5
    ensures -1.0 - 0.5 * rate <= (gross - discount + tax) as real - (price - discount as real) * (1.0 + rate) <= 1.0 + 0.5 * rate
  {
    var base, off := price - discount as real, gross as real - price;
    TaxEngine.ScaleMonotone(-0.5, off, rate);
    TaxEngine.ScaleMonotone(off, 0.5, rate);
    assert (gross - discount) as real == base + off;
    assert (base + off) * rate == base * rate + off * rate;
    assert base * (1.0 + rate) == base + base * rate;
    AddErrors(base, base * rate, off, off * rate, tax as real, rate);
    assert (gross - discount + tax) as real == base + off + tax as real;
  }

  lemma AddErrors(base: real, scaled: real, off: real, scaledOff: real, tax: real, rate: real)
    requires -0.5 <= off <= 0.5 && -0.5 * rate <= scaledOff <= 0.5 * rate
    requires -0.5 <= tax - (scaled + scaledOff) <= 0.5
    ensures -1.0 - 0.5 * rate <= base + off + tax - (base + scaled) <= 1.0 + 0.5 * rate
  {
  }

  function Distance(a: real, b: real): real { if a < b then b - a else a - b }

  /** The rate used is the one in [0, 1] nearest to the configured one, and 18 per cent when none is configured. */
  lemma {:induction false} RateUsed(configured: Option<real>, other: real)
    requires 0.0 <= other <= 1.0
    ensures var wanted := match configured case Some(rate) => rate case None => 0.18;
            && 0.0 <= LowestRate(configured) <= 1.0
            && Distance(LowestRate(configured), wanted) <= Distance(other, wanted)
  {
  }

  /** A point-of-sale charge is the amount, and the rate's share of it, each to the cent. */
  lemma {:induction false} PosChargeColumns(input: PosInput, f: FolioId)
    ensures var item := PosCharge(input, f);
            var amount := item.total - item.tax;
            && -0.5 < amount as real - input.amount <= 0.5
            && -0.5 < item.tax as real - amount as real * item.taxRate <= 0.5
            && item.taxRate == LowestRate(input.configuredRate) && item.unitPrice == amount as real && item.quantity == 1.0
            && item.folio == f && item.source == input.source && item.discount == 0 && item.kind == Charge && item.date == input.today
  {
  }

  predicate HasOpenStay(l: Ledger, f: FolioId, r: ReservationId) {
    f < |l.folios| && l.folios[f].reservation == r && l.folios[f].status == Open
  }

  /**
   A charge behind the barrier always lands on an open folio of the guest's own stay. A
   folio is opened only when the stay has none, as a master folio of the property, and
   the next charge goes there too.
   */
  lemma {:induction false} PosChargeLands(l: Ledger, input: PosInput)
    ensures PosPost(l, input).Ok? <==> input.stay.Some? && input.nameMatches
    ensures PosPost(l, input).Ok? ==>
              var l', r := PosPost(l, input).value, input.stay.value;
              var item := l'.items[|l.items|];
              && l'.items == l.items + [item] && item == PosCharge(input, item.folio)
              && item.folio < |l'.folios| && l'.folios[item.folio].reservation == r && l'.folios[item.folio].status == Open
              && (if exists f :: 0 <= f < |l.folios| && HasOpenStay(l, f, r) then |l'.folios| == |l.folios|
                  else |l'.folios| == |l.folios| + 1
                       && l'.folios[item.folio] == Folio(input.property, r, Master, Open, item.total)
                       && PickOpenFolio(l', r) == Some(item.folio))
  {
    if PosPost(l, input).Ok? {
      PickPrefersPersonal(l, input.stay.value);
      var l', r := PosPost(l, input).value, input.stay.value;
      assert forall f :: 0 <= f < |l.folios| ==> (HasOpenStay(l, f, r) <==> IsOpenFor(l, r, f));
      if !exists f :: 0 <= f < |l.folios| && IsOpenFor(l, r, f) {
        assert IsOpenFor(l', r, |l.folios|);
        assert forall g :: 0 <= g < |l.folios| ==> l'.folios[g] == l.folios[g] && !IsOpenFor(l, r, g);
        PickPrefersPersonal(l', r);
      }
    }
  }

  lemma Share(a: real, rate: real)
    requires a >= 0.0 && 0.0 <= rate <= 1.0
    ensures 0.0 <= a * rate <= a
  {
  }

  lemma TaxWithinAmount(amount: nat, rate: real)
    requires 0.0 <= rate <= 1.0
    ensures 0 <= TaxFor(amount, rate) <= amount
  {
    var share := amount as real * rate;
    Share(amount as real, rate);
    TaxEngine.RoundMonotone(0.0, share);
    TaxEngine.RoundMonotone(share, amount as real);
  }

  /** A point-of-sale charge of a non-negative amount costs at least the amount and at most twice it. */
  lemma {:induction false} PosTotalWithinDouble(input: PosInput, f: FolioId)
    requires input.amount >= 0.0
    ensures TaxEngine.Round(input.amount) <= PosCharge(input, f).total <= 2 * TaxEngine.Round(input.amount)
  {
    var amount, rate := TaxEngine.Round(input.amount), LowestRate(input.configuredRate);
    TaxWithinAmount(amount, rate);
  }

  predicate HasOpen(l: Ledger, r: ReservationId, types: set<FolioType>) {
    exists f :: 0 <= f < |l.folios| && OpenFor(l, r, types, f)
  }

  /** A charge goes to an open folio of its stay whenever there is one, personal before master before others. */
  lemma {:induction false} PickPrefersPersonal(l: Ledger, r: ReservationId)
    ensures var picked := PickOpenFolio(l, r);
            && (picked.Some? <==> exists f :: 0 <= f < |l.folios| && IsOpenFor(l, r, f))
            && (picked.Some? ==> picked.value < |l.folios| && IsOpenFor(l, r, picked.value))
            && (HasOpen(l, r, {Personal}) ==> l.folios[picked.value].folioType == Personal)
            && (!HasOpen(l, r, {Personal}) && HasOpen(l, r, {Master}) ==> l.folios[picked.value].folioType == Master)
  {
    var picked := PickOpenFolio(l, r);
    assert picked.Some? ==> IsOpenFor(l, r, picked.value);
    if f :| 0 <= f < |l.folios| && IsOpenFor(l, r, f) {
      var t := l.folios[f].folioType;
      assert t == Master || t == Company || t == Personal || t == Split;
      assert OpenFor(l, r, {Master, Company, Personal, Split}, f);
    }
  }
}
