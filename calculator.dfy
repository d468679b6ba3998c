/** The fee and profit calculation of the reseller calculator (App.tsx).

    Three text fields hold the amount of Vietnamese dong bought, the price
    paid for the card and the resale price. Each is read as a number, three
    fixed percentages are applied, and the profit, margin and ROI follow.
    Numbers are exact reals here; the source computes in JavaScript doubles. */
module Calculator {

  // The fixed business rules (App.tsx:9-11), as exact rationals.
  const IntermediaryFeePercent: real := 0.065  // 6.5% added to the card price
  const VnReductionPercent: real := 0.20       // 20% of the dong lost on activation
  const PlatformFeePercent: real := 0.16       // 16% taken from the resale price

  datatype Option<T> = None | Some(value: T)

  /** What an input field holds: the empty string, text that JavaScript's
      `Number` cannot read, or a finite number. */
  datatype RawInput = Blank | NonNumeric | Numeric(value: real)

  /** The three input fields of the form. */
  datatype Inputs = Inputs(vnPurchased: RawInput, cardCost: RawInput, resalePrice: RawInput)

  /** What JavaScript's `Number(x)` yields for a field: NaN or a finite value. */
  datatype JsNumber = NaN | Finite(value: real)

  /** Everything the calculation hands to the page (App.tsx:43-57). */
  datatype Figures = Figures(
    vnAmount: real,
    cost: real,
    resale: real,
    intermediaryFee: real,
    finalCost: real,
    vnReduction: real,
    usableVn: real,
    platformFee: real,
    netRevenue: real,
    profit: real,
    isProfitable: bool,
    profitMargin: real,
    roi: real)

  /** `Number(x)`: the empty string reads as 0, unreadable text as NaN. */
  function ToNumber(x: RawInput): JsNumber
  {
    match x
    case Blank => Finite(0.0)
    case NonNumeric => NaN
    case Numeric(v) => Finite(v)
  }

  /** `n || 0`: NaN and 0 are the falsy numbers, and both give 0. Over the
      reals the `0` branch changes nothing; it stands for `0` and `-0` both
      being falsy, a distinction that exists only in IEEE arithmetic, which
      this model leaves out. */
  function OrZero(n: JsNumber): real
  {
    match n
    case NaN => 0.0
    case Finite(v) => if v == 0.0 then 0.0 else v
  }

  /** `Number(x) || 0` (App.tsx:21-23): a number is kept, anything else is 0. */
  function Coerce(x: RawInput): (r: real)
    ensures x.Numeric? ==> r == x.value
    ensures !x.Numeric? ==> r == 0.0
  {
    OrZero(ToNumber(x))
  }

  /** The figures with every number 0 and no profit. */
  const ZeroFigures := Figures(0.0, 0.0, 0.0, 0.0, 0.0, 0.0, 0.0, 0.0, 0.0, 0.0, false, 0.0, 0.0)

  /** `whole > 0 ? (part / whole) * 100 : 0`, the guarded percentage used for
      both margin and ROI (App.tsx:40-41): `part` as a percentage of a
      positive `whole`, and 0 when the whole is zero or negative. */
  function GuardedPercent(part: real, whole: real): (p: real)
    ensures whole <= 0.0 ==> p == 0.0
  {
    if whole > 0.0 then (part / whole) * 100.0 else 0.0
  }

  /** Over a positive whole, the guarded percentage is the `p` with
      `p * whole == 100 * part`: the division is exact. Kept as a lemma and
      not as an ensures of GuardedPercent so that this product only enters
      the proofs that call for it. */
  lemma PercentOfWhole(part: real, whole: real)
    requires whole > 0.0
    ensures GuardedPercent(part, whole) * whole == 100.0 * part
  {
    var p := GuardedPercent(part, whole);
    assert p == (part / whole) * 100.0;
    assert (part / whole) * whole == part;
  }

  /** The body of the `useMemo` block (App.tsx:20-58). */
  function Calculate(inputs: Inputs): (f: Figures)
    ensures f.vnAmount == Coerce(inputs.vnPurchased)
    ensures f.cost == Coerce(inputs.cardCost)
    ensures f.resale == Coerce(inputs.resalePrice)
    // 1. the card costs its price plus 6.5%, whatever the sign of the price
    ensures f.intermediaryFee == f.cost * IntermediaryFeePercent
    ensures f.finalCost == f.cost * 1.065
    ensures f.cost >= 0.0 ==> f.finalCost >= f.cost
    // 2. 80% of the dong remains usable; reduction and usable part make up the whole
    ensures f.usableVn == f.vnAmount * 0.8
    ensures f.usableVn + f.vnReduction == f.vnAmount
    // 3. the seller keeps 84% of the resale price; fee and revenue make up the price
    ensures f.netRevenue == f.resale * 0.84
    ensures f.netRevenue + f.platformFee == f.resale
    ensures f.resale >= 0.0 ==> f.netRevenue <= f.resale
    // 4. profit, and the break-even condition stated on the inputs
    ensures f.profit == f.resale * 0.84 - f.cost * 1.065
    ensures f.isProfitable <==> f.resale * 0.84 > f.cost * 1.065
    // margin is profit over net revenue, ROI profit over final cost, each guarded
    ensures f.profitMargin == GuardedPercent(f.profit, f.netRevenue)
    ensures f.roi == GuardedPercent(f.profit, f.finalCost)
  {
    var vnAmount := Coerce(inputs.vnPurchased);
    var cost := Coerce(inputs.cardCost);
    var resale := Coerce(inputs.resalePrice);

    var intermediaryFee := cost * IntermediaryFeePercent;
    var finalCost := cost + intermediaryFee;

    var vnReduction := vnAmount * VnReductionPercent;
    var usableVn := vnAmount - vnReduction;

    var platformFee := resale * PlatformFeePercent;
    var netRevenue := resale - platformFee;

    var profit := netRevenue - finalCost;
    var isProfitable := profit > 0.0;
    var profitMargin := GuardedPercent(profit, netRevenue);
    var roi := GuardedPercent(profit, finalCost);

    Figures(vnAmount, cost, resale, intermediaryFee, finalCost, vnReduction, usableVn,
            platformFee, netRevenue, profit, isProfitable, profitMargin, roi)
  }

  /** `handleReset` (App.tsx:80-84): all three fields become empty again,
      as on first render (App.tsx:15-17). */
  function Reset(): (next: Inputs)
    ensures next.vnPurchased == Blank && next.cardCost == Blank && next.resalePrice == Blank
    ensures Coerce(next.vnPurchased) == 0.0
    ensures Coerce(next.cardCost) == 0.0
    ensures Coerce(next.resalePrice) == 0.0
    ensures Calculate(next) == ZeroFigures
  {
    Inputs(Blank, Blank, Blank)
  }

  // ---------------------------------------------------------------------
  // What the page derives from the figures

  /** One labelled part of a chart bar (`label` in the source, a keyword here). */
  datatype BreakdownItem = BreakdownItem(caption: string, val: real)

  /** One bar of the comparison chart. */
  datatype ChartBar = ChartBar(name: string, value: real, breakdown: seq<BreakdownItem>)

  /** The sum of the parts of a bar. */
  function BreakdownTotal(items: seq<BreakdownItem>): real
  {
    if items == [] then 0.0 else items[0].val + BreakdownTotal(items[1..])
  }

  /** `chartData` (App.tsx:61-78): money out is the final cost, split into
      card price and intermediary fee; money in is the net revenue, split
      into sale price and the platform fee as a negative part. */
  function ChartData(f: Figures): (bars: seq<ChartBar>)
    ensures |bars| == 2
    ensures bars[0].name == "Money Out" && bars[0].value == f.finalCost
    ensures bars[1].name == "Money In" && bars[1].value == f.netRevenue
    ensures BreakdownTotal(bars[0].breakdown) == f.cost + f.intermediaryFee
    ensures BreakdownTotal(bars[1].breakdown) == f.resale - f.platformFee
  {
    var out := [BreakdownItem("Card Price", f.cost), BreakdownItem("Intermediary Fee", f.intermediaryFee)];
    var into := [BreakdownItem("Sale Price", f.resale), BreakdownItem("Platform Fee", -f.platformFee)];
    PairTotal(out[0], out[1]);
    PairTotal(into[0], into[1]);
    [ ChartBar("Money Out", f.finalCost, out), ChartBar("Money In", f.netRevenue, into) ]
  }

  lemma PairTotal(a: BreakdownItem, b: BreakdownItem)
    ensures BreakdownTotal([a, b]) == a.val + b.val
  {
    assert [a, b][1..] == [b];
    assert [b][1..] == [];
    assert BreakdownTotal([b]) == b.val;
  }

  function Abs(x: real): real
  {
    if x < 0.0 then -x else x
  }

  /** `Math.min(Math.abs(roi), 100)` (App.tsx:231): the bar width in percent. */
  function BarWidth(roi: real): (w: real)
    ensures 0.0 <= w <= 100.0
    ensures w <= Abs(roi)
    ensures w == 100.0 || w == Abs(roi)
    ensures w == 100.0 <==> Abs(roi) >= 100.0
  {
    if Abs(roi) < 100.0 then Abs(roi) else 100.0
  }

  /** The progress bar under the profit card (App.tsx:227-234): drawn only
      while net revenue is positive, with the clamped ROI as its width. */
  function ProgressBar(f: Figures): (w: Option<real>)
    ensures w.Some? <==> f.netRevenue > 0.0
    ensures w.Some? ==> 0.0 <= w.value <= 100.0 && w.value == BarWidth(f.roi)
  {
    if f.netRevenue > 0.0 then Some(BarWidth(f.roi)) else None
  }

  // ---------------------------------------------------------------------
  // Properties of the calculation

  /** Fields that read as 0 (empty, unreadable or zero) give all-zero
      figures and no profit. */
  lemma ZeroInputsGiveZeroFigures(inputs: Inputs)
    requires Coerce(inputs.vnPurchased) == 0.0
    requires Coerce(inputs.cardCost) == 0.0
    requires Coerce(inputs.resalePrice) == 0.0
    ensures Calculate(inputs) == ZeroFigures
  {
  }

  /** The dong amount only feeds the three dong figures: profit, margin and
      ROI do not depend on it. */
  lemma VnAmountOnlyAffectsVnFigures(inputs: Inputs, vn: RawInput)
    ensures var f, g := Calculate(inputs), Calculate(inputs.(vnPurchased := vn));
      g == f.(vnAmount := g.vnAmount, vnReduction := g.vnReduction, usableVn := g.usableVn)
  {
  }

  /** When the final cost is positive, ROI has the sign of the profit. */
  lemma RoiHasSignOfProfit(inputs: Inputs)
    ensures var f := Calculate(inputs);
      f.finalCost > 0.0 ==>
        (f.roi > 0.0 <==> f.profit > 0.0) && (f.roi < 0.0 <==> f.profit < 0.0)
  {
    var f := Calculate(inputs);
    PercentHasSignOfPart(f.profit, f.finalCost);
  }

  /** When net revenue is positive, the margin has the sign of the profit. */
  lemma MarginHasSignOfProfit(inputs: Inputs)
    ensures var f := Calculate(inputs);
      f.netRevenue > 0.0 ==>
        (f.profitMargin > 0.0 <==> f.profit > 0.0) && (f.profitMargin < 0.0 <==> f.profit < 0.0)
  {
    var f := Calculate(inputs);
    PercentHasSignOfPart(f.profit, f.netRevenue);
  }

  /** With a non-negative resale price an investment loses at most all of
      itself: ROI is at least -100%. */
  lemma RoiAtLeastMinusHundred(inputs: Inputs)
    ensures var f := Calculate(inputs);
      f.resale >= 0.0 ==> f.roi >= -100.0
  {
    var f := Calculate(inputs);
    if f.resale >= 0.0 {
      // the loss is at most the final cost, since net revenue is not negative
      assert f.profit >= -f.finalCost;
      PercentAtLeastMinusHundred(f.profit, f.finalCost);
    }
  }

  /** With a non-negative card price the margin is at most 100%, and it is
      exactly 100% only for a free card. */
  lemma MarginAtMostHundred(inputs: Inputs)
    ensures var f := Calculate(inputs);
      f.cost >= 0.0 && f.netRevenue > 0.0 ==>
        f.profitMargin <= 100.0 && (f.profitMargin == 100.0 <==> f.cost == 0.0)
  {
    var f := Calculate(inputs);
    if f.cost >= 0.0 && f.netRevenue > 0.0 {
      // the profit is the revenue less a non-negative cost
      assert f.profit <= f.netRevenue && (f.profit == f.netRevenue <==> f.cost == 0.0);
      PercentAtMostHundred(f.profit, f.netRevenue);
    }
  }

  /** For a fixed card price, a higher resale price never lowers profit or ROI. */
  lemma RoiMonotoneInResale(vn: RawInput, cardCost: RawInput, r1: real, r2: real)
    requires r1 <= r2
    ensures var f, g := Calculate(Inputs(vn, cardCost, Numeric(r1))), Calculate(Inputs(vn, cardCost, Numeric(r2)));
      f.profit <= g.profit && f.roi <= g.roi
  {
    var f, g := Calculate(Inputs(vn, cardCost, Numeric(r1))), Calculate(Inputs(vn, cardCost, Numeric(r2)));
    assert f.finalCost == g.finalCost && f.profit <= g.profit;
    PercentMonotoneInPart(f.profit, g.profit, f.finalCost);
  }

  /** The money figures are linear in the prices: when the second form's
      card price and resale price read as k times the first's, its final
      cost, net revenue and profit are k times the first's. */
  lemma MoneyFiguresScale(a: Inputs, b: Inputs, k: real)
    requires Coerce(b.cardCost) == k * Coerce(a.cardCost)
    requires Coerce(b.resalePrice) == k * Coerce(a.resalePrice)
    ensures var f, g := Calculate(a), Calculate(b);
      g.finalCost == k * f.finalCost && g.netRevenue == k * f.netRevenue && g.profit == k * f.profit
  {
    var f, g := Calculate(a), Calculate(b);
    ScaledPricesScaleMoney(f, g, k);
  }

  /** The linear step of MoneyFiguresScale, on two sets of figures whose
      prices differ by the factor k and whose money figures are derived from
      the prices as the calculation derives them. */
  lemma ScaledPricesScaleMoney(f: Figures, g: Figures, k: real)
    requires g.cost == k * f.cost && g.resale == k * f.resale
    requires f.finalCost == f.cost * 1.065 && f.netRevenue == f.resale * 0.84 && f.profit == f.netRevenue - f.finalCost
    requires g.finalCost == g.cost * 1.065 && g.netRevenue == g.resale * 0.84 && g.profit == g.netRevenue - g.finalCost
    ensures g.finalCost == k * f.finalCost && g.netRevenue == k * f.netRevenue && g.profit == k * f.profit
  {
    ScaleProduct(f.cost, 1.065, k);
    ScaleProduct(f.resale, 0.84, k);
    ScaleDifference(f.netRevenue, f.finalCost, k);
  }

  /** Scaling card price and resale price by the same positive factor leaves
      margin, ROI and profitability unchanged. */
  lemma RatiosScaleInvariant(a: Inputs, b: Inputs, k: real)
    requires k > 0.0
    requires Coerce(b.cardCost) == k * Coerce(a.cardCost)
    requires Coerce(b.resalePrice) == k * Coerce(a.resalePrice)
    ensures var f, g := Calculate(a), Calculate(b);
      g.roi == f.roi && g.profitMargin == f.profitMargin && g.isProfitable == f.isProfitable
  {
    var f, g := Calculate(a), Calculate(b);
    MoneyFiguresScale(a, b, k);
    ScaledFiguresKeepRatios(f, g, k);
  }

  /** The ratio step of RatiosScaleInvariant, on two sets of figures whose
      money figures differ by a positive factor and whose margin, ROI and
      profit flag are derived from them as the calculation derives them. */
  lemma ScaledFiguresKeepRatios(f: Figures, g: Figures, k: real)
    requires k > 0.0
    requires g.finalCost == k * f.finalCost && g.netRevenue == k * f.netRevenue && g.profit == k * f.profit
    requires f.roi == GuardedPercent(f.profit, f.finalCost) && g.roi == GuardedPercent(g.profit, g.finalCost)
    requires f.profitMargin == GuardedPercent(f.profit, f.netRevenue) && g.profitMargin == GuardedPercent(g.profit, g.netRevenue)
    requires (f.isProfitable <==> f.profit > 0.0) && (g.isProfitable <==> g.profit > 0.0)
    ensures g.roi == f.roi && g.profitMargin == f.profitMargin && g.isProfitable == f.isProfitable
  {
    PercentScaleInvariant(f.profit, f.finalCost, g.profit, g.finalCost, k);
    PercentScaleInvariant(f.profit, f.netRevenue, g.profit, g.netRevenue, k);
    PositiveScalePreservesSign(f.profit, k);
  }

  /** Both bars of the chart of a calculation are exactly the sum of their parts. */
  lemma ChartBreakdownsAddUp(inputs: Inputs)
    ensures forall bar <- ChartData(Calculate(inputs)) :: BreakdownTotal(bar.breakdown) == bar.value
  {
    var f := Calculate(inputs);
    var bars := ChartData(f);
    assert bars == [bars[0], bars[1]];
  }

  /** After a reset the page shows no progress bar and a zero chart. */
  lemma ResetClearsChartAndBar()
    ensures var f := Calculate(Reset());
      ProgressBar(f).None? && ChartData(f)[0].value == 0.0 && ChartData(f)[1].value == 0.0
  {
    var f := Calculate(Reset());
    assert f.finalCost == 0.0 && f.netRevenue == 0.0;
  }

  // ---------------------------------------------------------------------
  // Worked examples

  /** A profitable resale: 100000 dong on a card bought for 50 and sold for 80. */
  lemma ScenarioProfit()
    ensures var f := Calculate(Inputs(Numeric(100000.0), Numeric(50.0), Numeric(80.0)));
      && f.intermediaryFee == 3.25 && f.finalCost == 53.25
      && f.vnReduction == 20000.0 && f.usableVn == 80000.0
      && f.platformFee == 12.8 && f.netRevenue == 67.2
      && f.profit == 13.95 && f.isProfitable
      && 26.1 < f.roi < 26.3 && 20.7 < f.profitMargin < 20.8
  {
  }

  /** Empty fields: everything is 0 and there is no profit. */
  lemma ScenarioEmpty()
    ensures Calculate(Inputs(Blank, Blank, Blank)) == ZeroFigures
  {
  }

  /** A loss: a card bought for 100 and sold for 50. */
  lemma ScenarioLoss()
    ensures var f := Calculate(Inputs(Blank, Numeric(100.0), Numeric(50.0)));
      && f.finalCost == 106.5 && f.netRevenue == 42.0
      && f.profit == -64.5 && !f.isProfitable
      && -60.6 < f.roi < -60.5
      && ProgressBar(f) == Some(-f.roi)
  {
  }

  // ---------------------------------------------------------------------
  // Properties of the guarded percentage

  /** A percentage of a positive whole has the sign of its part. */
  lemma PercentHasSignOfPart(part: real, whole: real)
    ensures whole > 0.0 ==>
      var p := GuardedPercent(part, whole);
      (p > 0.0 <==> part > 0.0) && (p < 0.0 <==> part < 0.0) && (p == 0.0 <==> part == 0.0)
  {
    if whole > 0.0 {
      var p := GuardedPercent(part, whole);
      PercentOfWhole(part, whole);
      CancelPositive(p, 0.0, whole);
      CancelPositive(0.0, p, whole);
    }
  }

  /** A part no smaller than minus the whole is at least -100%. */
  lemma PercentAtLeastMinusHundred(part: real, whole: real)
    requires part >= -whole
    ensures GuardedPercent(part, whole) >= -100.0
  {
    if whole > 0.0 {
      var p := GuardedPercent(part, whole);
      PercentOfWhole(part, whole);
      assert -100.0 * whole <= p * whole;
      CancelPositive(-100.0, p, whole);
    }
  }

  /** A part no larger than the whole is at most 100%, and exactly 100% when
      it is the whole. */
  lemma PercentAtMostHundred(part: real, whole: real)
    requires part <= whole
    ensures GuardedPercent(part, whole) <= 100.0
    ensures whole > 0.0 ==> (GuardedPercent(part, whole) == 100.0 <==> part == whole)
  {
    if whole > 0.0 {
      var p := GuardedPercent(part, whole);
      PercentOfWhole(part, whole);
      assert p * whole <= 100.0 * whole;
      CancelPositive(p, 100.0, whole);
    }
  }

  /** Over the same whole, a larger part gives a larger percentage. */
  lemma PercentMonotoneInPart(a: real, b: real, whole: real)
    requires a <= b
    ensures GuardedPercent(a, whole) <= GuardedPercent(b, whole)
  {
    if whole > 0.0 {
      var p, q := GuardedPercent(a, whole), GuardedPercent(b, whole);
      PercentOfWhole(a, whole);
      PercentOfWhole(b, whole);
      assert p * whole <= q * whole;
      CancelPositive(p, q, whole);
    }
  }

  /** Scaling part and whole by the same positive factor keeps the percentage. */
  lemma PercentScaleInvariant(part: real, whole: real, part': real, whole': real, k: real)
    requires k > 0.0 && part' == k * part && whole' == k * whole
    ensures GuardedPercent(part', whole') == GuardedPercent(part, whole)
  {
    PositiveScalePreservesSign(whole, k);
    if whole > 0.0 {
      var p, q := GuardedPercent(part, whole), GuardedPercent(part', whole');
      PercentOfWhole(part, whole);
      PercentOfWhole(part', whole');
      assert (q * whole) * k == (p * whole) * k;
      CancelPositive(q * whole, p * whole, k);
      CancelPositive(q, p, whole);
    }
  }

  // ---------------------------------------------------------------------
  // Facts about multiplying reals by a positive factor

  lemma CancelPositive(x: real, y: real, c: real)
    requires c > 0.0
    ensures x * c <= y * c <==> x <= y
    ensures x * c == y * c <==> x == y
  {
  }

  lemma ScaleProduct(x: real, a: real, k: real)
    ensures (k * x) * a == k * (x * a)
  {
  }

  lemma ScaleDifference(x: real, y: real, k: real)
    ensures k * x - k * y == k * (x - y)
  {
  }

  lemma PositiveScalePreservesSign(x: real, k: real)
    requires k > 0.0
    ensures k * x > 0.0 <==> x > 0.0
    ensures k * x <= 0.0 <==> x <= 0.0
  {
  }
}
