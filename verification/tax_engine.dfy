/**
 The tax normalizer every channel adapter goes through, and its inverse for
 outbound prices. Amounts are in cents, results are whole cents, rates are exact
 fractions, and rounding is to the nearest cent with halves going up.
 */
module TaxEngine {

  datatype TaxRule = TaxRule(id: string, name: string, rate: real)

  datatype TaxLine = TaxLine(ruleId: string, name: string, rate: real, amount: int)

  datatype NormalizedRate = NormalizedRate(
    net: int,
    gross: int,
    tax: int,
    items: seq<TaxLine>,
    wasInclusive: bool,
    currency: string)

  function Round(x: real): (n: int)
    ensures -0.5 < n as real - x <= 0.5
  {
    (x + 0.5).Floor
  }

  function TotalRate(rules: seq<TaxRule>): real {
    if rules == [] then 0.0 else TotalRate(rules[..|rules| - 1]) + rules[|rules| - 1].rate
  }

  function LineOf(net: int, rule: TaxRule): TaxLine {
    TaxLine(rule.id, rule.name, rule.rate, Round(net as real * rule.rate))
  }

  function Itemize(net: int, rules: seq<TaxRule>): (items: seq<TaxLine>)
    ensures |items| == |rules|
    ensures forall i :: 0 <= i < |rules| ==> items[i] == LineOf(net, rules[i])
  {
    seq(|rules|, i requires 0 <= i < |rules| => LineOf(net, rules[i]))
  }

  function SumLines(items: seq<TaxLine>): int {
    if items == [] then 0 else SumLines(items[..|items| - 1]) + items[|items| - 1].amount
  }

  /** Net that a quoted amount stands for. */
  function NetOf(amount: real, isGross: bool, rate: real): int
    requires isGross ==> rate != -1.0
  {
    if isGross then Round(amount / (1.0 + rate)) else Round(amount)
  }

  function GrossOf(net: int, rate: real): int {
    Round(net as real * (1.0 + rate))
  }

  function NormalizeRate(amount: real, currency: string, isGross: bool, rules: seq<TaxRule>): NormalizedRate
    requires isGross ==> TotalRate(rules) != -1.0
  {
    var rate := TotalRate(rules);
    var net := NetOf(amount, isGross, rate);
    var items := Itemize(net, rules);
    NormalizedRate(net, GrossOf(net, rate), Round(SumLines(items) as real), items, isGross, currency)
  }

  datatype Quote = Quote(gross: int, taxes: seq<TaxLine>)

  function TaxesToGross(net: int, rules: seq<TaxRule>): Quote {
    var n := NormalizeRate(net as real, "USD", false, rules);
    Quote(n.gross, n.items)
  }

  lemma WholeCentsUnchanged(n: int)
    ensures Round(n as real) == n
  {
  }

  lemma ScaledError(amount: real, factor: real, q: real, net: real)
    requires factor > 0.0 && q * factor == amount && -0.5 <= net - q <= 0.5
    ensures -0.5 * factor <= net * factor - amount <= 0.5 * factor
  {
    ScaleMonotone(-0.5, net - q, factor);
    ScaleMonotone(net - q, 0.5, factor);
    Distribute(factor, net, -q);
    assert factor * (net + -q) == (net - q) * factor;
  }

  /** The net is what is left of a gross amount without the total rate, or the amount itself, to the cent. */
  lemma {:induction false} NetNearExact(amount: real, isGross: bool, rate: real)
    requires rate > -1.0
    ensures if isGross then -0.5 * (1.0 + rate) <= NetOf(amount, true, rate) as real * (1.0 + rate) - amount <= 0.5 * (1.0 + rate)
            else -0.5 < NetOf(amount, false, rate) as real - amount <= 0.5
  {
    if isGross {
      var q := amount / (1.0 + rate);
      assert q * (1.0 + rate) == amount;
      ScaledError(amount, 1.0 + rate, q, Round(q) as real);
    }
  }

  // ---------- round trip ----------

  lemma ShrinkError(d: real, factor: real, error: real)
    requires factor > 1.0 && d * factor == error && -0.5 < error <= 0.5
    ensures -0.5 < d < 0.5
  {
  }

  /** Dividing the gross of a net by a factor of at least one lands within half a cent of the net. */
  lemma Undo(net: int, factor: real, gross: int)
    requires factor >= 1.0 && gross == Round(net as real * factor)
    ensures Round(gross as real / factor) == net
  {
    var x := net as real;
    var q := gross as real / factor;
    assert q * factor == gross as real;
    if factor == 1.0 {
      assert x * factor == x;
    } else {
      assert (q - x) * factor == gross as real - x * factor;
      ShrinkError(q - x, factor, gross as real - x * factor);
    }
  }

  lemma GrossGivesBackNet(net: int, rate: real)
    requires rate >= 0.0
    ensures NetOf(GrossOf(net, rate) as real, true, rate) == net
  {
    Undo(net, 1.0 + rate, GrossOf(net, rate));
  }

  /**
   With a total rate of at least zero, normalizing the gross made from a net gives
   back that net, that gross and that itemization.
   */
  lemma {:induction false} RoundTrip(net: int, currency: string, rules: seq<TaxRule>)
    requires TotalRate(rules) >= 0.0
    ensures var quote := TaxesToGross(net, rules);
            var n := NormalizeRate(quote.gross as real, currency, true, rules);
            n.net == net && n.gross == quote.gross && n.items == quote.taxes && n.tax == SumLines(quote.taxes)
  {
    WholeCentsUnchanged(net);
    GrossGivesBackNet(net, TotalRate(rules));
    WholeCentsUnchanged(SumLines(Itemize(net, rules)));
  }

  /** Normalizing a gross amount a second time changes nothing. */
  lemma {:induction false} NormalizingIsStable(amount: real, currency: string, rules: seq<TaxRule>)
    requires TotalRate(rules) >= 0.0
    ensures var n := NormalizeRate(amount, currency, true, rules);
            NormalizeRate(n.gross as real, currency, true, rules) == n
  {
    GrossGivesBackNet(NetOf(amount, true, TotalRate(rules)), TotalRate(rules));
  }

  /** The net comes back from its gross at this total rate. */
  ghost predicate Returns(net: nat, rate: real)
    requires rate > -1.0
  {
    NetOf(GrossOf(net, rate) as real, true, rate) == net
  }

  lemma RoundMonotone(x: real, y: real)
    requires x <= y
    ensures Round(x) <= Round(y)
  {
  }

  lemma GrossMonotone(a: nat, b: nat, rate: real)
    requires a <= b && rate > -1.0
    ensures GrossOf(a, rate) <= GrossOf(b, rate)
  {
    var x, y := a as real * (1.0 + rate), b as real * (1.0 + rate);
    ScaleMonotone(a as real, b as real, 1.0 + rate);
    RoundMonotone(x, y);
  }

  lemma ScaleMonotone(x: real, y: real, factor: real)
    requires x <= y && factor >= 0.0
    ensures x * factor <= y * factor
  {
  }

  /** If all nets up to n return, their gross amounts are all different, so the last is at least n. */
  lemma {:induction false} GrossClimbs(n: nat, rate: real)
    requires rate > -1.0
    requires forall m: nat :: m <= n ==> Returns(m, rate)
    ensures GrossOf(n, rate) >= n
  {
    if n > 0 {
      GrossClimbs(n - 1, rate);
      GrossMonotone(n - 1, n, rate);
      assert Returns(n - 1, rate) && Returns(n, rate);
    }
  }

  /** A negative rate makes some net's gross smaller than the net itself. */
  lemma {:induction false} GrossFallsBehind(rate: real) returns (n: nat)
    requires -1.0 < rate < 0.0
    ensures GrossOf(n, rate) < n
  {
    n := (1.0 / -rate).Floor + 1;
    assert n as real >= 1.0 / -rate;
    ShrinksPastHalf(n as real, -rate);
    assert n as real * (1.0 + rate) == n as real - n as real * -rate;
  }

  /** The round trip holds for every net exactly when the total rate is not negative. */
  lemma {:induction false} RoundTripExactly(rate: real)
    requires rate > -1.0
    ensures (forall net: nat :: Returns(net, rate)) <==> rate >= 0.0
  {
    if rate >= 0.0 {
      forall net: nat
        ensures Returns(net, rate)
      {
        GrossGivesBackNet(net, rate);
      }
    } else {
      var n := GrossFallsBehind(rate);
      if forall net: nat :: Returns(net, rate) {
        GrossClimbs(n, rate);
        assert false;
      }
    }
  }

  lemma ShrinksPastHalf(n: real, r: real)
    requires r > 0.0 && n >= 1.0 / r
    ensures n * r >= 1.0
  {
    assert 1.0 / r * r == 1.0;
    assert (n - 1.0 / r) * r >= 0.0;
  }

  // ---------- drift ----------

  function Abs(x: int): nat { if x < 0 then -x else x }

  /** Cents by which net plus itemized tax misses the gross. */
  function Drift(net: int, rules: seq<TaxRule>): int {
    net + SumLines(Itemize(net, rules)) - GrossOf(net, TotalRate(rules))
  }

  /** Each line is off by at most half a cent, and off by half only upwards. */
  lemma {:induction false} LineErrors(net: int, rules: seq<TaxRule>)
    ensures var error := SumLines(Itemize(net, rules)) as real - net as real * TotalRate(rules);
            error <= 0.5 * |rules| as real && (if rules == [] then error == 0.0 else error > -0.5 * |rules| as real)
  {
    if rules == [] {
      assert net as real * 0.0 == 0.0;
    } else {
      var init, last := rules[..|rules| - 1], rules[|rules| - 1];
      LineErrors(net, init);
      assert Itemize(net, rules)[..|rules| - 1] == Itemize(net, init);
      Distribute(net as real, TotalRate(init), last.rate);
      assert SumLines(Itemize(net, rules)) == SumLines(Itemize(net, init)) + Round(net as real * last.rate);
    }
  }

  lemma Distribute(x: real, a: real, b: real)
    ensures x * (a + b) == x * a + x * b
  {
  }

  lemma {:induction false} DriftOfNet(net: int, rules: seq<TaxRule>)
    ensures 2 * Abs(Drift(net, rules)) <= |rules|
  {
    var rate := TotalRate(rules);
    LineErrors(net, rules);
    assert net as real * (1.0 + rate) == net as real + net as real * rate;
    var error := SumLines(Itemize(net, rules)) as real - net as real * rate;
    var slip := GrossOf(net, TotalRate(rules)) as real - net as real * (1.0 + rate);
    assert Drift(net, rules) as real == error - slip;
    if rules == [] {
      WholeCentsUnchanged(net);
      assert net as real * (1.0 + rate) == net as real;
    }
  }

  /**
   For any amount, net or gross, and any k rules, net plus tax misses the gross by at
   most k / 2 cents, and the tax is the sum of its lines, one for each rule, in order;
   with one rule or none nothing is missed.
   */
  lemma {:induction false} DriftBound(amount: real, currency: string, isGross: bool, rules: seq<TaxRule>)
    requires isGross ==> TotalRate(rules) != -1.0
    ensures var n := NormalizeRate(amount, currency, isGross, rules);
            && 2 * Abs(n.net + n.tax - n.gross) <= |rules| && n.tax == SumLines(n.items)
            && n.currency == currency && n.wasInclusive == isGross && |n.items| == |rules|
            && forall i :: 0 <= i < |rules| ==>
                 && n.items[i].ruleId == rules[i].id && n.items[i].name == rules[i].name && n.items[i].rate == rules[i].rate
                 && -0.5 < n.items[i].amount as real - n.net as real * rules[i].rate <= 0.5
  {
    var net := NetOf(amount, isGross, TotalRate(rules));
    DriftOfNet(net, rules);
    WholeCentsUnchanged(SumLines(Itemize(net, rules)));
  }

  function QuarterRules(k: nat): seq<TaxRule> {
    seq(k, i => TaxRule("quarter", "quarter", 0.25))
  }

  lemma {:induction false} QuarterTotals(k: nat)
    ensures TotalRate(QuarterRules(k)) == 0.25 * k as real
    ensures SumLines(Itemize(2, QuarterRules(k))) == k
  {
    if k > 0 {
      QuarterTotals(k - 1);
      assert QuarterRules(k)[..k - 1] == QuarterRules(k - 1);
      assert Itemize(2, QuarterRules(k))[..k - 1] == Itemize(2, QuarterRules(k - 1));
      assert 2.0 * 0.25 == 0.5;
    }
  }

  /** The bound is reached: k rules of one quarter on two cents drift by k / 2 cents, rounded down. */
  lemma {:induction false} DriftBoundReached(k: nat, currency: string)
    ensures var n := NormalizeRate(2.0, currency, false, QuarterRules(k));
            n.net + n.tax - n.gross == k / 2
  {
    QuarterTotals(k);
    WholeCentsUnchanged(2);
    WholeCentsUnchanged(SumLines(Itemize(2, QuarterRules(k))));
    QuarterDrift(k);
  }

  lemma QuarterDrift(k: nat)
    ensures Drift(2, QuarterRules(k)) == k / 2
  {
    QuarterTotals(k);
    assert 2.0 * (1.0 + 0.25 * k as real) == 2.0 + 0.5 * k as real;
    if k % 2 == 0 {
      assert 0.5 * k as real == (k / 2) as real;
    } else {
      assert k == 2 * (k / 2) + 1;
      assert 0.5 * k as real == (k / 2) as real + 0.5;
    }
  }

  lemma SumOfErrors(scaled: real, quoted: int, factor: real)
    requires -0.5 * factor <= scaled - quoted as real <= 0.5 * factor
    ensures 2.0 * Abs(Round(scaled) - quoted) as real <= 1.0 + factor
  {
  }

  lemma RegeneratedAtRate(quoted: int, rate: real)
    requires rate >= 0.0
    ensures 2.0 * Abs(GrossOf(NetOf(quoted as real, true, rate), rate) - quoted) as real <= 2.0 + rate
  {
    var factor := 1.0 + rate;
    var q := quoted as real / factor;
    var net := Round(q);
    assert q * factor == quoted as real;
    ScaleMonotone(-0.5, net as real - q, factor);
    ScaleMonotone(net as real - q, 0.5, factor);
    assert (net as real - q) * factor == net as real * factor - q * factor;
    SumOfErrors(net as real * factor, quoted, factor);
  }

  /** The gross regenerated from a quoted whole-cent gross misses it by at most (2 + rate) / 2 cents. */
  lemma {:induction false} RegeneratedGross(quoted: int, currency: string, rules: seq<TaxRule>)
    requires TotalRate(rules) >= 0.0
    ensures 2.0 * Abs(NormalizeRate(quoted as real, currency, true, rules).gross - quoted) as real <= 2.0 + TotalRate(rules)
  {
    RegeneratedAtRate(quoted, TotalRate(rules));
  }

  /** For total rates below 200 per cent that is at most one cent. */
  lemma {:induction false} RegeneratedWithinOneCent(quoted: int, currency: string, rules: seq<TaxRule>)
    requires 0.0 <= TotalRate(rules) < 2.0
    ensures Abs(NormalizeRate(quoted as real, currency, true, rules).gross - quoted) <= 1
  {
    RegeneratedGross(quoted, currency, rules);
  }
}
