/** Prorated values of a plan upgrade, in integer cents over integer milliseconds. */
module UpgradeCredit {
  import opened Numbers
  import opened Options

  const UPGRADE_FEE_CENTS := 500

  /** remainingValue: None stands for the rejected request. The division is on non-negative numbers,
      where truncation and flooring agree. */
  function RemainingValue(cents: int, start: int, end: int, at: int): Option<int> {
    if cents < 0 || MAX_SAFE_INTEGER < cents || end <= start || at < start || end <= at then None
    else
      var duration, remaining := end - start, end - at;
      Some((cents * remaining + duration / 2) / duration)
  }

  /** x lies within half a unit of a / d. */
  ghost predicate Rounds(x: int, a: int, d: int) {
    -d <= 2 * (x * d - a) <= d
  }

  lemma DivisionBounds(a: int, d: int)
    requires 0 < d
    ensures d * (a / d) <= a < d * (a / d) + d
  {}

  /** The value is the exact proration, rounded to the nearest cent. */
  lemma WithinHalfACent(cents: int, start: int, end: int, at: int)
    requires RemainingValue(cents, start, end, at).Some?
    ensures Rounds(RemainingValue(cents, start, end, at).value, cents * (end - at), end - start)
  {
    var d := end - start;
    var a := cents * (end - at) + d / 2;
    DivisionBounds(a, d);
    assert d * (a / d) == (a / d) * d;
  }

  /** Which prices and times have a value, and which number it is: the only one whose distance from the exact
      proration is less than half a cent below it, or at most half a cent above it. */
  lemma ValueIs(cents: int, start: int, end: int, at: int, x: int)
    ensures RemainingValue(cents, start, end, at).Some?
            <==> 0 <= cents <= 9007199254740991 && start < end && start <= at < end
    ensures var d, a := end - start, cents * (end - at);
            RemainingValue(cents, start, end, at).Some? ==>
              (RemainingValue(cents, start, end, at) == Some(x) <==> -d < 2 * (x * d - a) <= d)
  {
    if RemainingValue(cents, start, end, at).Some? {
      var d := end - start;
      var a := cents * (end - at);
      var value := (a + d / 2) / d;
      DivisionBounds(a + d / 2, d);
      assert d * value == value * d;
      if -d < 2 * (x * d - a) <= d {
        Distribute(x, value, d);
        SignOfProduct(x - value, d);
      }
    }
  }

  lemma NoFurther(k: int, d: int, twice: int)
    requires 0 < d && -(twice * d) <= 2 * (k * d) <= twice * d
    ensures -twice <= 2 * k <= twice
  {
    Distribute(2 * k, twice, d);
    Distribute(2 * k, -twice, d);
    SignOfProduct(2 * k - twice, d);
    SignOfProduct(2 * k + twice, d);
  }

  lemma Distribute(x: int, y: int, d: int)
    ensures (x - y) * d == x * d - y * d
    ensures (x + y) * d == x * d + y * d
  {}

  lemma SignOfProduct(k: int, d: int)
    requires 0 < d
    ensures (k > 0 ==> k * d >= d) && (k < 0 ==> k * d <= -d) && (k >= 0 ==> k * d >= 0) && (k <= 0 ==> k * d <= 0)
  {}

  lemma QuotientOrder(a: int, b: int, d: int)
    requires 0 < d && a <= b
    ensures a / d <= b / d
  {
    DivisionBounds(a, d);
    DivisionBounds(b, d);
    FactorOrder(a / d, b / d, a, b, d);
  }

  lemma FactorOrder(p: int, q: int, a: int, b: int, d: int)
    requires 0 < d && a <= b && d * p <= a && b < d * q + d
    ensures p <= q
  {
    if q + 1 <= p {
      Grows(d, q + 1, p);
    }
  }

  /** The value never exceeds the price, is all of it at the start, falls with time and rises with price. */
  lemma ValueIsMonotone(cents: int, more: int, start: int, end: int, at: int, later: int)
    requires cents <= more && at <= later
    requires RemainingValue(cents, start, end, at).Some? && RemainingValue(more, start, end, later).Some?
    ensures 0 <= RemainingValue(cents, start, end, at).value <= cents
    ensures RemainingValue(cents, start, end, start) == Some(cents)
    ensures RemainingValue(cents, start, end, later).Some? && RemainingValue(more, start, end, at).Some?
    ensures RemainingValue(cents, start, end, later).value <= RemainingValue(cents, start, end, at).value
    ensures RemainingValue(cents, start, end, at).value <= RemainingValue(more, start, end, at).value
  {
    var d, r, s := end - start, end - at, end - later;
    Grows(cents, s, r);
    Grows(cents, r, d);
    Distribute(more, cents, r);
    SignOfProduct(more - cents, r);
    SignOfProduct(cents, s);
    QuotientOrder(0, cents * r + d / 2, d);
    QuotientOrder(cents * r + d / 2, cents * d + d / 2, d);
    QuotientOrder(cents * s + d / 2, cents * r + d / 2, d);
    QuotientOrder(cents * r + d / 2, more * r + d / 2, d);
    QuotientIs(cents, d);
  }

  lemma Grows(c: int, s: int, r: int)
    requires 0 <= c && s <= r
    ensures c * s <= c * r
  {}

  lemma QuotientIs(cents: int, d: int)
    requires 0 < d
    ensures (cents * d + d / 2) / d == cents
  {
    var a := cents * d + d / 2;
    DivisionBounds(a, d);
    FactorOrder(a / d, cents, a, a, d);
    FactorOrder(cents, a / d, a, a, d);
  }

  /** A second proration from the first one's rounded value, over what is left of the interval, is within
      one cent of the proration of the original price. */
  lemma ReproratingIsWithinACent(cents: int, start: int, end: int, at: int, later: int)
    requires at <= later
    requires RemainingValue(cents, start, end, at).Some? && RemainingValue(cents, start, end, later).Some?
    ensures var first := RemainingValue(cents, start, end, at).value;
            var direct := RemainingValue(cents, start, end, later).value;
            RemainingValue(first, at, end, later).Some?
            && direct - 1 <= RemainingValue(first, at, end, later).value <= direct + 1
  {
    var first, direct := RemainingValue(cents, start, end, at).value, RemainingValue(cents, start, end, later).value;
    ValueIsMonotone(cents, cents, start, end, at, later);
    var again := RemainingValue(first, at, end, later).value;
    var d, r, s := end - start, end - at, end - later;
    WithinHalfACent(cents, start, end, at);
    WithinHalfACent(cents, start, end, later);
    WithinHalfACent(first, at, end, later);
    ThreeRoundings(cents, first, again, direct, d, r, s);
  }

  /** Scaling a bound by a non-negative factor. */
  lemma Scale(x: int, bound: int, k: int)
    requires -bound <= 2 * x <= bound && 0 <= k
    ensures -(bound * k) <= 2 * (x * k) <= bound * k
  {
    Distribute(bound, 2 * x, k);
    Distribute(bound, -2 * x, k);
    assert (2 * x) * k == 2 * (x * k) && (-2 * x) * k == -(2 * (x * k));
    assert (bound - 2 * x) * k >= 0 && (bound + 2 * x) * k >= 0;
  }

  lemma Reorder(x: int, y: int, z: int)
    ensures (x * y) * z == x * (y * z) == x * (z * y) == (x * z) * y
  {}

  lemma ThreeRoundings(p: int, first: int, again: int, direct: int, d: int, r: int, s: int)
    requires 0 < s <= r <= d
    requires Rounds(first, p * r, d) && Rounds(again, first * s, r) && Rounds(direct, p * s, d)
    ensures direct - 1 <= again <= direct + 1
  {
    var unit, f, q := r * d, (first * s) * d, (p * r) * s;
    assert -unit <= 2 * (again * unit - f) <= unit by {
      Scale(again * r - first * s, r, d);
      Distribute(again * r, first * s, d);
      Reorder(again, r, d);
    }
    assert -unit <= 2 * (f - q) <= unit by {
      Scale(first * d - p * r, d, s);
      Distribute(first * d, p * r, s);
      Reorder(first, d, s);
      Grows(d, s, r);
    }
    assert -unit <= 2 * (direct * unit - q) <= unit by {
      Scale(direct * d - p * s, d, r);
      Distribute(direct * d, p * s, r);
      Reorder(direct, d, r);
      Reorder(p, s, r);
    }
    Distribute(again, direct, unit);
    SignOfProduct(r, d);
    NoFurther(again - direct, unit, 3);
  }

  /** The bound of one cent is met: one cent, a third of the way through, prorates to one cent and then
      to one again, while two thirds of the way through it is worth nothing. */
  lemma TheCentIsNeeded()
    ensures RemainingValue(1, 0, 3, 1) == Some(1)
    ensures RemainingValue(1, 1, 3, 2) == Some(1)
    ensures RemainingValue(1, 0, 3, 2) == Some(0)
  {}

  /** The current grant: its interval and the value of the order that bought it. */
  datatype Grant = Grant(start: int, end: int, valueCents: int)

  datatype CreditBasis = Original | PreviousUpgrade

  datatype Quote = Quote(
    basis: CreditBasis,
    basisCents: int,
    priceCents: int,
    creditCents: int,
    targetRemainingCents: int,
    payableCents: int,
    quotedAt: int)

  /** What the credit is computed from: the original order over the whole interval, or what was left of
      the previous upgrade's target when that upgrade was quoted. */
  function BasisCents(g: Grant, previous: Option<Quote>): int {
    if previous.Some? then previous.value.targetRemainingCents else g.valueCents
  }

  function BasisStart(g: Grant, previous: Option<Quote>): int {
    if previous.Some? then previous.value.quotedAt else g.start
  }

  predicate Priced(g: Grant, previous: Option<Quote>, q: Quote) {
    && q.basis == (if previous.Some? then PreviousUpgrade else Original)
    && q.basisCents == BasisCents(g, previous)
    && RemainingValue(g.valueCents, g.start, g.end, q.quotedAt).Some?
    && RemainingValue(q.basisCents, BasisStart(g, previous), g.end, q.quotedAt) == Some(q.creditCents)
    && RemainingValue(q.priceCents, g.start, g.end, q.quotedAt) == Some(q.targetRemainingCents)
    && q.creditCents < q.targetRemainingCents
    && q.payableCents == q.targetRemainingCents - q.creditCents + UPGRADE_FEE_CENTS
  }

  /** The arithmetic of a quote: it is refused exactly when there is nothing that is Priced. */
  method QuoteUpgrade(g: Grant, previous: Option<Quote>, priceCents: int, now: int) returns (r: Option<Quote>)
    ensures r.Some? ==> Priced(g, previous, r.value) && r.value.priceCents == priceCents && r.value.quotedAt == now
    ensures r.None? ==> forall q: Quote | q.priceCents == priceCents && q.quotedAt == now :: !Priced(g, previous, q)
  {
    var basis, basisCents := Original, g.valueCents;
    var credit := RemainingValue(basisCents, g.start, g.end, now);
    if credit.None? {
      return None;
    }
    if previous.Some? {
      basis, basisCents := PreviousUpgrade, previous.value.targetRemainingCents;
      credit := RemainingValue(basisCents, previous.value.quotedAt, g.end, now);
      if credit.None? {
        return None;
      }
    }
    var target := RemainingValue(priceCents, g.start, g.end, now);
    if target.None? || target.value - credit.value <= 0 {
      return None;
    }
    return Some(Quote(basis, basisCents, priceCents, credit.value, target.value,
                      target.value - credit.value + UPGRADE_FEE_CENTS, now));
  }

  /** An accepted quote charges more than the fee, at most the target's full price and the fee, and credits
      no more than its basis. */
  lemma QuoteIsFair(g: Grant, previous: Option<Quote>, q: Quote)
    requires Priced(g, previous, q)
    ensures 500 < q.payableCents <= q.priceCents + 500
    ensures q.payableCents == q.targetRemainingCents - q.creditCents + 500
    ensures 0 <= q.creditCents <= q.basisCents
  {
    ValueIsMonotone(q.priceCents, q.priceCents, g.start, g.end, q.quotedAt, q.quotedAt);
    ValueIsMonotone(q.basisCents, q.basisCents, BasisStart(g, previous), g.end, q.quotedAt, q.quotedAt);
  }

  /** A paid upgrade, and a later one quoted from its snapshot: had the credit been computed from the full
      price over the whole interval, it would differ by at most a cent. */
  lemma ChainedCreditIsWithinACent(g: Grant, before: Option<Quote>, previous: Quote, q: Quote)
    requires Priced(g, before, previous) && Priced(g, Some(previous), q)
    ensures var direct := RemainingValue(previous.priceCents, g.start, g.end, q.quotedAt);
            direct.Some? && direct.value - 1 <= q.creditCents <= direct.value + 1
  {
    ReproratingIsWithinACent(previous.priceCents, g.start, g.end, previous.quotedAt, q.quotedAt);
  }

  function Previous(quotes: seq<Quote>, k: nat): Option<Quote>
    requires k <= |quotes|
  {
    if k == 0 then None else Some(quotes[k - 1])
  }

  /** Every upgrade was quoted from the one before it. */
  ghost predicate Chain(g: Grant, quotes: seq<Quote>) {
    forall k: nat | k < |quotes| :: PricedFromPrevious(g, quotes, k)
  }

  predicate PricedFromPrevious(g: Grant, quotes: seq<Quote>, k: nat)
    requires k < |quotes|
  {
    Priced(g, Previous(quotes, k), quotes[k])
  }

  /** The plan held after the first k upgrades: its price, and since when it is held. */
  function HeldPrice(g: Grant, quotes: seq<Quote>, k: nat): int
    requires k <= |quotes|
  {
    if k == 0 then g.valueCents else quotes[k - 1].priceCents
  }

  function HeldSince(g: Grant, quotes: seq<Quote>, k: nat): int
    requires k <= |quotes|
  {
    BasisStart(g, Previous(quotes, k))
  }

  /** All the money charged, the fees left out. */
  function Charged(g: Grant, quotes: seq<Quote>, k: nat): int
    requires k <= |quotes|
  {
    if k == 0 then g.valueCents else Charged(g, quotes, k - 1) + quotes[k - 1].payableCents - UPGRADE_FEE_CENTS
  }

  /** Price times time over the plans given up so far, in cents times milliseconds. */
  function Consumed(g: Grant, quotes: seq<Quote>, k: nat): int
    requires k <= |quotes|
  {
    if k == 0 then 0
    else Consumed(g, quotes, k - 1)
         + HeldPrice(g, quotes, k - 1) * (HeldSince(g, quotes, k) - HeldSince(g, quotes, k - 1))
  }

  /** What a plan is billed for the time it was held, from the value T it had when it began to the credit C
      it left, is its price prorated over that time to within a cent. */
  lemma PeriodIsBilledWithinACent(p: int, t: int, c: int, d: int, r: int, s: int)
    requires 0 < s <= r <= d && Rounds(t, p * r, d) && Rounds(c, t * s, r)
    ensures -d <= d * (t - c) - p * (r - s) <= d
  {
    var x, e, f := d * (t - c) - p * (r - s), t * d - p * r, c * r - t * s;
    assert x * r == e * (r - s) - f * d by {
      PeriodIdentity(p, t, c, d, r, s);
    }
    Scale(e, d, r - s);
    Scale(f, r, d);
    assert -(2 * (d * r)) <= 2 * (x * r) <= 2 * (d * r) by {
      Distribute(r, s, d);
      Grows(d, r - s, r);
    }
    Compare(x, d, r);
  }

  lemma FirstPeriodIsBilledWithinHalfACent(p: int, c: int, d: int, s: int)
    requires Rounds(c, p * s, d)
    ensures -d <= 2 * (d * (p - c) - p * (d - s)) <= d
  {
    Distribute(d, s, p);
    Distribute(p, c, d);
  }

  lemma PeriodIdentity(p: int, t: int, c: int, d: int, r: int, s: int)
    ensures (d * (t - c) - p * (r - s)) * r == (t * d - p * r) * (r - s) - (c * r - t * s) * d
  {}

  lemma Compare(x: int, d: int, r: int)
    requires 0 < r && -(d * r) <= x * r <= d * r
    ensures -d <= x <= d
  {
    Distribute(x, d, r);
    SignOfProduct(x - d, r);
    SignOfProduct(x + d, r);
  }

  /** x is no further than n half units of d from zero. */
  ghost predicate WithinHalves(x: int, n: int, d: int) {
    -(n * d) <= 2 * x <= n * d
  }

  lemma AddErrors(x: int, y: int, m: int, n: int, d: int)
    requires WithinHalves(x, m, d) && WithinHalves(y, n, d)
    ensures WithinHalves(x + y, m + n, d)
  {
    Distribute(m, -n, d);
  }

  lemma RoundsWithinHalf(x: int, a: int, d: int)
    requires Rounds(x, a, d)
    ensures WithinHalves(d * x - a, 1, d)
  {}

  lemma FactorSum(d: int, x: int, y: int)
    ensures d * (x + y) == d * x + d * y
  {}

  function BillingError(g: Grant, quotes: seq<Quote>, k: nat): int
    requires k <= |quotes|
  {
    (g.end - g.start) * (Charged(g, quotes, k) - HeldValue(g, quotes, k)) - Consumed(g, quotes, k)
  }

  /** The value of the plan held after the first k upgrades, when it began to be held. */
  function HeldValue(g: Grant, quotes: seq<Quote>, k: nat): int
    requires k <= |quotes|
  {
    BasisCents(g, Previous(quotes, k))
  }

  lemma QuoteRounds(g: Grant, quotes: seq<Quote>, k: nat)
    requires Chain(g, quotes) && k < |quotes|
    ensures HeldSince(g, quotes, k) <= HeldSince(g, quotes, k + 1) < g.end && g.start <= HeldSince(g, quotes, k + 1)
    ensures quotes[k].payableCents == HeldValue(g, quotes, k + 1) - quotes[k].creditCents + UPGRADE_FEE_CENTS
    ensures Rounds(quotes[k].creditCents, HeldValue(g, quotes, k) * (g.end - HeldSince(g, quotes, k + 1)),
                   g.end - HeldSince(g, quotes, k))
    ensures Rounds(HeldValue(g, quotes, k + 1), HeldPrice(g, quotes, k + 1) * (g.end - HeldSince(g, quotes, k + 1)),
                   g.end - g.start)
  {
    var q, previous := quotes[k], Previous(quotes, k);
    assert PricedFromPrevious(g, quotes, k);
    WithinHalfACent(q.priceCents, g.start, g.end, q.quotedAt);
    WithinHalfACent(BasisCents(g, previous), BasisStart(g, previous), g.end, q.quotedAt);
  }

  function PeriodError(g: Grant, quotes: seq<Quote>, k: nat): int
    requires k < |quotes|
  {
    (g.end - g.start) * (HeldValue(g, quotes, k) - quotes[k].creditCents)
    - HeldPrice(g, quotes, k) * (HeldSince(g, quotes, k + 1) - HeldSince(g, quotes, k))
  }

  /** An upgrade closes the period of the plan held before it. */
  lemma PeriodIsBilled(g: Grant, quotes: seq<Quote>, k: nat)
    requires Chain(g, quotes) && k < |quotes|
    ensures WithinHalves(PeriodError(g, quotes, k), if k == 0 then 1 else 2, g.end - g.start)
  {
    var t, p, c, d := HeldValue(g, quotes, k), HeldPrice(g, quotes, k), quotes[k].creditCents, g.end - g.start;
    var r, s := g.end - HeldSince(g, quotes, k), g.end - HeldSince(g, quotes, k + 1);
    QuoteRounds(g, quotes, k);
    assert HeldSince(g, quotes, k + 1) - HeldSince(g, quotes, k) == r - s;
    if k == 0 {
      FirstPeriodIsBilledWithinHalfACent(p, c, d, s);
    } else {
      QuoteRounds(g, quotes, k - 1);
      PeriodIsBilledWithinACent(p, t, c, d, r, s);
    }
  }

  lemma BillingErrorGrows(g: Grant, quotes: seq<Quote>, k: nat)
    requires Chain(g, quotes) && k < |quotes|
    ensures BillingError(g, quotes, k + 1) == BillingError(g, quotes, k) + PeriodError(g, quotes, k)
  {
    QuoteRounds(g, quotes, k);
    var d, c, t := g.end - g.start, quotes[k].creditCents, HeldValue(g, quotes, k);
    var billed := Charged(g, quotes, k) - t;
    assert Charged(g, quotes, k + 1) - HeldValue(g, quotes, k + 1) == billed + (t - c);
    FactorSum(d, billed, t - c);
  }

  function Halves(k: nat): nat {
    if k == 0 then 0 else 2 * k - 1
  }

  lemma {:induction false} BilledSoFar(g: Grant, quotes: seq<Quote>, k: nat)
    requires Chain(g, quotes) && k <= |quotes|
    ensures WithinHalves(BillingError(g, quotes, k), Halves(k), g.end - g.start)
  {
    if k > 0 {
      BilledSoFar(g, quotes, k - 1);
      PeriodIsBilled(g, quotes, k - 1);
      BillingErrorGrows(g, quotes, k - 1);
      var halves := if k == 1 then 1 else 2;
      AddErrors(BillingError(g, quotes, k - 1), PeriodError(g, quotes, k - 1), Halves(k - 1), halves, g.end - g.start);
      assert Halves(k - 1) + halves == Halves(k);
    }
  }

  /** Over any number of upgrades a customer pays, the fees apart, for each plan the time it was held, and
      for the last one the rest of the interval: to within one cent per upgrade. */
  lemma UpgradesChargeForWhatIsHeld(g: Grant, quotes: seq<Quote>)
    requires Chain(g, quotes)
    ensures var n, d := |quotes|, g.end - g.start;
            var held := Consumed(g, quotes, n) + HeldPrice(g, quotes, n) * (g.end - HeldSince(g, quotes, n));
            WithinHalves(d * Charged(g, quotes, n) - held, 2 * n, d)
  {
    var n, d := |quotes|, g.end - g.start;
    var left := HeldValue(g, quotes, n);
    var rest := HeldPrice(g, quotes, n) * (g.end - HeldSince(g, quotes, n));
    BilledSoFar(g, quotes, n);
    FactorSum(d, Charged(g, quotes, n) - left, left);
    assert Charged(g, quotes, n) - left + left == Charged(g, quotes, n);
    if n > 0 {
      QuoteRounds(g, quotes, n - 1);
      RoundsWithinHalf(left, rest, d);
      AddErrors(BillingError(g, quotes, n), d * left - rest, Halves(n), 1, d);
      assert Halves(n) + 1 == 2 * n;
    }
  }
}
