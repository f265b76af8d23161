/**
 * The (R, Q) inventory policy engine of src/lib/calculations/inventory-calculations.ts:
 * the economic order quantity, the reorder point, the Z-score table lookup, the
 * demand clamp and the day-by-day stock simulation, and `calculateResults`,
 * which strings them together.
 *
 * Quantities are exact reals. The daily demand is not drawn at random: the
 * standard-normal samples that `generateDemand` would draw are an input,
 * `Math.sqrt` is a parameter `sqrt` with `IsSqrt(sqrt)`, and
 * `Number.prototype.toString` is a parameter `toString` with `IsNumberText(toString)`.
 */
module InventoryCalculations {
  import opened RealMath

  /** `InventoryParams`: the service level is the number the form or the sheet supplies. */
  datatype InventoryParams = InventoryParams(
    muD: real,
    sigmaD: real,
    days: nat,
    orderCost: real,
    holdingCost: real,
    leadTime: real,
    serviceLevel: real)

  /**
   * The record `simulateInventory` returns: the closing stock of every day
   * (`inventario`), the days an order was placed (`ordenes`), the number of days
   * with a shortfall (`faltantes_dias`) and the units not sold (`unidades_faltantes`).
   */
  datatype Simulation = Simulation(levels: seq<real>, orderDays: seq<nat>, stockoutDays: nat, unmetUnits: real)

  /** `InventoryResults`: Q, R, D, Z and the simulation. */
  datatype InventoryResults = InventoryResults(q: real, r: real, d: real, z: real, simulation: Simulation)

  // ---------------------------------------------------------------------------
  // Closed-form formulas
  // ---------------------------------------------------------------------------

  /** The economic order quantity sqrt(2DS/H); the quotient must be a number the square root accepts. */
  function CalculateEOQ(d: real, s: real, h: real, sqrt: real -> real): (q: real)
    requires IsSqrt(sqrt)
    requires h != 0.0 && 0.0 <= 2.0 * d * s / h
    ensures 0.0 <= q && q * q == 2.0 * d * s / h
  {
    sqrt(2.0 * d * s / h)
  }

  /** The EOQ is the only non-negative number whose square is 2DS/H. */
  lemma EOQUnique(d: real, s: real, h: real, sqrt: real -> real, q: real)
    requires IsSqrt(sqrt)
    requires h != 0.0 && 0.0 <= 2.0 * d * s / h
    requires 0.0 <= q && q * q == 2.0 * d * s / h
    ensures q == CalculateEOQ(d, s, h, sqrt)
  {
    SquareInjective(q, CalculateEOQ(d, s, h, sqrt));
  }

  /** With positive holding cost and non-negative ordering cost, a larger demand never lowers the EOQ. */
  lemma EOQMonotoneInDemand(d1: real, d2: real, s: real, h: real, sqrt: real -> real)
    requires IsSqrt(sqrt)
    requires 0.0 <= d1 <= d2 && 0.0 <= s && 0.0 < h
    ensures 0.0 <= 2.0 * d1 * s / h <= 2.0 * d2 * s / h
    ensures CalculateEOQ(d1, s, h, sqrt) <= CalculateEOQ(d2, s, h, sqrt)
  {
    var x1, x2 := 2.0 * d1 * s, 2.0 * d2 * s;
    assert x2 - x1 == 2.0 * (d2 - d1) * s;
    assert 0.0 <= (d2 - d1) * s;
    assert 0.0 <= d1 * s;
    DivideMonotone(0.0, x1, h);
    DivideMonotone(x1, x2, h);
    var q1, q2 := CalculateEOQ(d1, s, h, sqrt), CalculateEOQ(d2, s, h, sqrt);
    if q2 < q1 {
      SquareLess(q2, q1);
    }
  }

  /** The reorder point mu_d·L + Z·(sigma_d·sqrt(L)) for a non-negative lead time L. */
  function CalculateReorderPoint(muD: real, l: real, sigmaD: real, z: real, sqrt: real -> real): (r: real)
    requires IsSqrt(sqrt) && 0.0 <= l
    ensures 0.0 <= z && 0.0 <= sigmaD ==> muD * l <= r
  {
    var muL := muD * l;
    var sigmaL := sigmaD * sqrt(l);
    assert 0.0 <= z && 0.0 <= sigmaD ==> 0.0 <= z * sigmaL;
    muL + z * sigmaL
  }

  /**
   * The safety stock R - mu_d·L is Z times the lead-time deviation sigma_d·sqrt(L):
   * its square is Z²·sigma_d²·L.
   */
  lemma SafetyStockSquare(muD: real, l: real, sigmaD: real, z: real, sqrt: real -> real)
    requires IsSqrt(sqrt) && 0.0 <= l
    ensures var ss := CalculateReorderPoint(muD, l, sigmaD, z, sqrt) - muD * l;
      ss * ss == z * z * sigmaD * sigmaD * l
  {
    var t := sqrt(l);
    assert t * t == l;
    var ss := CalculateReorderPoint(muD, l, sigmaD, z, sqrt) - muD * l;
    assert ss == z * sigmaD * t;
    assert ss * ss == (z * sigmaD) * (z * sigmaD) * (t * t);
  }

  /** A higher service factor Z never lowers the reorder point when sigma_d is non-negative. */
  lemma ReorderPointMonotoneInZ(muD: real, l: real, sigmaD: real, z1: real, z2: real, sqrt: real -> real)
    requires IsSqrt(sqrt) && 0.0 <= l && 0.0 <= sigmaD && z1 <= z2
    ensures CalculateReorderPoint(muD, l, sigmaD, z1, sqrt) <= CalculateReorderPoint(muD, l, sigmaD, z2, sqrt)
  {
    var sigmaL := sigmaD * sqrt(l);
    assert 0.0 <= sigmaL;
    assert z2 * sigmaL - z1 * sigmaL == (z2 - z1) * sigmaL;
  }

  /** With a lead time of one day the reorder point is mu_d + Z·sigma_d. */
  lemma ReorderPointUnitLeadTime(muD: real, sigmaD: real, z: real, sqrt: real -> real)
    requires IsSqrt(sqrt)
    ensures CalculateReorderPoint(muD, 1.0, sigmaD, z, sqrt) == muD + z * sigmaD
  {
    SqrtOfOne(sqrt);
  }

  // ---------------------------------------------------------------------------
  // Z-score lookup
  // ---------------------------------------------------------------------------

  /** The table of `calculateZScore`, keyed by text. */
  const ZScores: map<string, real> := map["0.90" := 1.28, "0.95" := 1.65, "0.98" := 2.05, "0.99" := 2.33]

  /**
   * `zScores[key] || 1.65`: the table entry when the key is present and the entry
   * is truthy (not 0), otherwise 1.65.
   */
  function CalculateZScore(key: string): (z: real)
    ensures z == 1.28 <==> key == "0.90"
    ensures z == 2.05 <==> key == "0.98"
    ensures z == 2.33 <==> key == "0.99"
    ensures z == 1.65 <==> key != "0.90" && key != "0.98" && key != "0.99"
  {
    if key in ZScores && ZScores[key] != 0.0 then ZScores[key] else 1.65
  }

  function Digit(d: nat): char
    requires d < 10
  {
    "0123456789"[d]
  }

  /**
   * The text `Number.prototype.toString` produces for the number k/100 with
   * 0 <= k < 100: the shortest decimal, so 0.9 prints as "0.9" and 0.05 as "0.05".
   */
  function HundredthsText(k: nat): (t: string)
    requires k < 100
    ensures k == 0 <==> t == "0"
    ensures 0 < k ==> 3 <= |t| <= 4 && t[..2] == "0." && t[2] == Digit(k / 10)
    ensures |t| == 4 <==> k % 10 != 0
    ensures |t| == 4 ==> t[3] == Digit(k % 10)
  {
    if k == 0 then "0"
    else if k % 10 == 0 then "0." + [Digit(k / 10)]
    else "0." + [Digit(k / 10), Digit(k % 10)]
  }

  /**
   * A service level of k hundredths, turned into text by `toString`, gets 2.05 at
   * 98, 2.33 at 99 and 1.65 everywhere else: the 1.28 entry keyed "0.90" is never reached.
   */
  lemma ZScoreOfHundredths(k: nat)
    requires k < 100
    ensures CalculateZScore(HundredthsText(k)) == if k == 98 then 2.05 else if k == 99 then 2.33 else 1.65
    ensures CalculateZScore(HundredthsText(k)) != 1.28
  {
    var t := HundredthsText(k);
    if |t| == 4 {
      assert t == "0." + [Digit(k / 10), Digit(k % 10)];
      if t == "0.98" || t == "0.99" || t == "0.90" {
        assert Digit(k / 10) == '9';
        assert k / 10 == 9;
      }
    }
  }

  /** The number k/100. */
  function Hundredths(k: nat): real
  {
    k as real / 100.0
  }

  /**
   * A shortest decimal text: when it has a decimal point and no exponent, its
   * last digit is not a zero, so "0.9" but never "0.90". Exponent forms such as
   * "1.2e-10" or "1.1e+30" may end in a zero and are not constrained.
   */
  predicate ShortestDecimal(t: string)
  {
    '.' in t && 'e' !in t ==> t[|t| - 1] != '0'
  }

  /**
   * What the model relies on of `Number.prototype.toString`: k/100 prints as
   * `HundredthsText(k)`, and no number printed without an exponent has a
   * trailing zero after its decimal point.
   */
  ghost predicate IsNumberText(toString: real -> string)
  {
    (forall k: nat :: k < 100 ==> toString(Hundredths(k)) == HundredthsText(k)) &&
    (forall x :: ShortestDecimal(toString(x)))
  }

  /**
   * The shortest-decimal rule holds of exponent forms that end in a zero, so it
   * is true of the printer, and it rules out the key "0.90".
   */
  lemma ExponentFormsAreShortest()
    ensures ShortestDecimal("1.2e-10") && ShortestDecimal("1.1e+30")
    ensures !ShortestDecimal("0.90")
  {
  }

  /** The text of k/100 is a shortest decimal, as `toString` produces. */
  lemma HundredthsTextShortest(k: nat)
    requires k < 100
    ensures ShortestDecimal(HundredthsText(k))
  {
    var t := HundredthsText(k);
    if |t| == 4 {
      assert t[3] == Digit(k % 10);
    } else if 0 < k {
      assert t == "0." + [Digit(k / 10)];
      assert t[2] == Digit(k / 10);
    }
  }

  /**
   * No number reaches the 1.28 entry: its key "0.90" is not the text of any
   * number, so every service level gets 1.65, 2.05 or 2.33.
   */
  lemma NoNumberGetsNinetyEntry(toString: real -> string, x: real)
    requires IsNumberText(toString)
    ensures var z := CalculateZScore(toString(x)); z != 1.28 && (z == 1.65 || z == 2.05 || z == 2.33)
  {
    var t := toString(x);
    assert ShortestDecimal(t);
    assert !ShortestDecimal("0.90") by {
      assert "0.90"[1] == '.';
    }
  }

  /** A service level of 0.9 prints as "0.9" and falls through to the default 1.65. */
  lemma NinetyPercentFallsThrough()
    ensures HundredthsText(90) == "0.9"
    ensures CalculateZScore(HundredthsText(90)) == 1.65
  {
    ZScoreOfHundredths(90);
  }

  // ---------------------------------------------------------------------------
  // Demand
  // ---------------------------------------------------------------------------

  /** `Math.round`: the nearest integer, halves rounded up. */
  function Round(x: real): (v: int)
    ensures x - 0.5 < v as real <= x + 0.5
  {
    (x + 0.5).Floor
  }

  /** One day's demand from the standard-normal sample `z`: round mu + sigma·z, then cut at zero. */
  function DemandFromSample(mu: real, sigma: real, z: real): (v: real)
    ensures 0.0 <= v && v == v.Floor as real
  {
    var v := Round(mu + sigma * z);
    (if v < 0 then 0 else v) as real
  }

  /** The demand sequence `generateDemand` builds from the samples `zs`. */
  function DemandOf(mu: real, sigma: real, zs: seq<real>): (demand: seq<real>)
    ensures |demand| == |zs|
    ensures forall i :: 0 <= i < |demand| ==> 0.0 <= demand[i] && demand[i] == demand[i].Floor as real
  {
    seq(|zs|, i requires 0 <= i < |zs| => DemandFromSample(mu, sigma, zs[i]))
  }

  /**
   * Each day's demand is a non-negative whole number; it is within half a unit
   * of mu + sigma·z when that is at least -1/2, and zero otherwise.
   */
  lemma DemandFromSampleSpec(mu: real, sigma: real, z: real)
    ensures var v := DemandFromSample(mu, sigma, z);
      0.0 <= v && v == v.Floor as real &&
      (-0.5 <= mu + sigma * z ==> mu + sigma * z - 0.5 < v <= mu + sigma * z + 0.5) &&
      (mu + sigma * z < -0.5 ==> v == 0.0)
  {
  }

  /** The loop of `generateDemand` over given samples (lines 99-114). */
  method GenerateDemand(days: nat, mu: real, sigma: real, zs: seq<real>) returns (demand: seq<real>)
    requires |zs| == days
    ensures demand == DemandOf(mu, sigma, zs)
  {
    demand := [];
    for i := 0 to days
      invariant |demand| == i
      invariant forall j :: 0 <= j < i ==> demand[j] == DemandFromSample(mu, sigma, zs[j])
    {
      var value := Round(mu + sigma * zs[i]);
      value := if 0 < value then value else 0;
      assert value as real == DemandFromSample(mu, sigma, zs[i]);
      demand := demand + [value as real];
    }
  }

  // ---------------------------------------------------------------------------
  // Simulation
  // ---------------------------------------------------------------------------

  /** Stock cut at zero after a shortfall: nothing is sold that is not on hand. */
  function Clamp(stock: real): (r: real)
    ensures 0.0 <= r && stock <= r
    ensures 0.0 <= stock ==> r == stock
  {
    if stock < 0.0 then 0.0 else stock
  }

  /** Stock at the start of the next day: the first lot Q, or the last closing level. */
  function Opening(q: real, levels: seq<real>): real
  {
    if |levels| == 0 then q else levels[|levels| - 1]
  }

  /** One iteration of the loop: demand is taken, a shortfall counted and cut, and an order placed at or below R. */
  function Day(q: real, r: real, sim: Simulation, demand: real): Simulation
  {
    var stock := Opening(q, sim.levels) - demand;
    var short := stock < 0.0;
    var clamped := Clamp(stock);
    var ordered := clamped <= r;
    Simulation(
      sim.levels + [if ordered then clamped + q else clamped],
      if ordered then sim.orderDays + [|sim.levels|] else sim.orderDays,
      if short then sim.stockoutDays + 1 else sim.stockoutDays,
      if short then sim.unmetUnits + Abs(stock) else sim.unmetUnits)
  }

  /**
   * One day appends exactly one level and keeps the earlier ones, counts a
   * stockout exactly when demand exceeds the opening stock, records at most
   * that day as an order day, and never lowers the unmet total.
   */
  lemma DaySpec(q: real, r: real, sim: Simulation, demand: real)
    ensures var next := Day(q, r, sim, demand);
      && |next.levels| == |sim.levels| + 1 && next.levels[..|sim.levels|] == sim.levels
      && next.stockoutDays == sim.stockoutDays + (if Opening(q, sim.levels) < demand then 1 else 0)
      && (next.orderDays == sim.orderDays || next.orderDays == sim.orderDays + [|sim.levels|])
      && sim.unmetUnits <= next.unmetUnits
  {
  }

  /**
   * The simulation over a demand sequence: one level per day, order days
   * strictly increasing and inside the period, at most one stockout per day
   * and a non-negative unmet total.
   */
  function Simulate(q: real, r: real, demand: seq<real>): (sim: Simulation)
    ensures |sim.levels| == |demand|
    ensures sim.stockoutDays <= |demand| && 0.0 <= sim.unmetUnits
    ensures forall j :: 0 <= j < |sim.orderDays| ==> sim.orderDays[j] < |demand|
    ensures forall j, k :: 0 <= j < k < |sim.orderDays| ==> sim.orderDays[j] < sim.orderDays[k]
  {
    if |demand| == 0 then Simulation([], [], 0, 0.0)
    else Day(q, r, Simulate(q, r, demand[..|demand| - 1]), demand[|demand| - 1])
  }

  /** `simulateInventory` with the demand given: the loop of lines 67-82. */
  method SimulateInventory(days: nat, demand: seq<real>, q: real, r: real) returns (sim: Simulation)
    requires |demand| == days
    ensures sim == Simulate(q, r, demand)
  {
    var levels: seq<real> := [];
    var orders: seq<nat> := [];
    var stock := q;
    var stockoutDays: nat := 0;
    var unmetUnits := 0.0;
    for day := 0 to days
      invariant Simulation(levels, orders, stockoutDays, unmetUnits) == Simulate(q, r, demand[..day])
      invariant stock == Opening(q, levels)
    {
      assert demand[..day + 1][..day] == demand[..day];
      stock := stock - demand[day];
      if stock < 0.0 {
        stockoutDays := stockoutDays + 1;
        unmetUnits := unmetUnits + Abs(stock);
        stock := 0.0;
      }
      if stock <= r {
        stock := stock + q;
        orders := orders + [day];
      }
      levels := levels + [stock];
    }
    assert demand[..days] == demand;
    sim := Simulation(levels, orders, stockoutDays, unmetUnits);
  }

  /** With a non-negative lot Q every recorded level is non-negative. */
  lemma {:induction false} LevelsNonNegative(q: real, r: real, demand: seq<real>)
    requires 0.0 <= q
    ensures forall i :: 0 <= i < |demand| ==> 0.0 <= Simulate(q, r, demand).levels[i]
  {
    if |demand| > 0 {
      LevelsNonNegative(q, r, demand[..|demand| - 1]);
    }
  }

  /** With Q > R every recorded level is above the reorder point. */
  lemma {:induction false} LevelsAboveReorderPoint(q: real, r: real, demand: seq<real>)
    requires r < q
    ensures forall i :: 0 <= i < |demand| ==> r < Simulate(q, r, demand).levels[i]
  {
    if |demand| > 0 {
      LevelsAboveReorderPoint(q, r, demand[..|demand| - 1]);
    }
  }

  /** Stock on day d after demand and before the clamp, read off the recorded levels. */
  function Net(q: real, levels: seq<real>, demand: seq<real>, d: nat): real
    requires d < |demand| && d <= |levels|
  {
    (if d == 0 then q else levels[d - 1]) - demand[d]
  }

  /**
   * Day d is an order day exactly when its clamped stock is at most R, and its
   * closing level is the clamped stock plus Q on an order day and the clamped
   * stock otherwise.
   */
  predicate OrderRuleHolds(q: real, r: real, sim: Simulation, demand: seq<real>, d: nat)
    requires d < |demand| && |sim.levels| == |demand|
  {
    var c := Clamp(Net(q, sim.levels, demand, d));
    (d in sim.orderDays <==> c <= r) && sim.levels[d] == (if c <= r then c + q else c)
  }

  /** Every day of the simulation follows the order rule. */
  lemma {:induction false} OrderRule(q: real, r: real, demand: seq<real>)
    ensures forall d :: 0 <= d < |demand| ==> OrderRuleHolds(q, r, Simulate(q, r, demand), demand, d)
  {
    if |demand| > 0 {
      var n := |demand|;
      var init := demand[..n - 1];
      var prev := Simulate(q, r, init);
      var sim := Simulate(q, r, demand);
      OrderRule(q, r, init);
      assert sim == Day(q, r, prev, demand[n - 1]);
      forall d | 0 <= d < n - 1
        ensures OrderRuleHolds(q, r, sim, demand, d)
      {
        assert OrderRuleHolds(q, r, prev, init, d);
        assert sim.levels[d] == prev.levels[d];
        assert Net(q, sim.levels, demand, d) == Net(q, prev.levels, init, d);
        assert d in sim.orderDays <==> d in prev.orderDays;
      }
      assert Net(q, sim.levels, demand, n - 1) == Opening(q, prev.levels) - demand[n - 1];
      assert n - 1 !in prev.orderDays;
      assert OrderRuleHolds(q, r, sim, demand, n - 1);
    }
  }

  /** The number of days before k on which demand exceeded the stock on hand. */
  function ShortfallDays(q: real, levels: seq<real>, demand: seq<real>, k: nat): (n: nat)
    requires |levels| == |demand| && k <= |demand|
    ensures n <= k
  {
    if k == 0 then 0
    else ShortfallDays(q, levels, demand, k - 1) + (if Net(q, levels, demand, k - 1) < 0.0 then 1 else 0)
  }

  /** The total of the shortfalls on the days before k. */
  function ShortfallUnits(q: real, levels: seq<real>, demand: seq<real>, k: nat): (u: real)
    requires |levels| == |demand| && k <= |demand|
    ensures 0.0 <= u
  {
    if k == 0 then 0.0
    else
      var net := Net(q, levels, demand, k - 1);
      ShortfallUnits(q, levels, demand, k - 1) + (if net < 0.0 then -net else 0.0)
  }

  /** The shortfall counts only look at the first k days. */
  lemma {:induction false} ShortfallsAgree(q: real, l1: seq<real>, d1: seq<real>, l2: seq<real>, d2: seq<real>, k: nat)
    requires |l1| == |d1| && |l2| == |d2| && k <= |d1| && k <= |d2|
    requires forall i :: 0 <= i < k ==> l1[i] == l2[i] && d1[i] == d2[i]
    ensures ShortfallDays(q, l1, d1, k) == ShortfallDays(q, l2, d2, k)
    ensures ShortfallUnits(q, l1, d1, k) == ShortfallUnits(q, l2, d2, k)
  {
    if k > 0 {
      ShortfallsAgree(q, l1, d1, l2, d2, k - 1);
      assert Net(q, l1, d1, k - 1) == Net(q, l2, d2, k - 1);
    }
  }

  /**
   * `faltantes_dias` counts the days on which demand exceeded the stock on hand,
   * and `unidades_faltantes` adds up those shortfalls.
   */
  lemma {:induction false} StockoutCounts(q: real, r: real, demand: seq<real>)
    ensures var sim := Simulate(q, r, demand);
      sim.stockoutDays == ShortfallDays(q, sim.levels, demand, |demand|) &&
      sim.unmetUnits == ShortfallUnits(q, sim.levels, demand, |demand|)
  {
    if |demand| > 0 {
      var n := |demand|;
      var init := demand[..n - 1];
      var prev := Simulate(q, r, init);
      var sim := Simulate(q, r, demand);
      StockoutCounts(q, r, init);
      assert sim == Day(q, r, prev, demand[n - 1]);
      ShortfallsAgree(q, sim.levels, demand, prev.levels, init, n - 1);
      assert Net(q, sim.levels, demand, n - 1) == Opening(q, prev.levels) - demand[n - 1];
    }
  }

  // ---------------------------------------------------------------------------
  // calculateResults
  // ---------------------------------------------------------------------------

  /**
   * `calculateResults`: D = mu_d·dias, Q the EOQ of D, Z looked up under the
   * text of the service level, R the reorder point, and the simulation over the
   * demand generated from the samples `zs`. Z is never the table's 1.28, and a
   * service level of k hundredths gets the Z that `ZScoreOfHundredths` gives.
   */
  method CalculateResults(p: InventoryParams, zs: seq<real>, sqrt: real -> real, toString: real -> string)
    returns (res: InventoryResults)
    requires IsSqrt(sqrt) && IsNumberText(toString)
    requires p.holdingCost != 0.0 && 0.0 <= 2.0 * (p.muD * p.days as real) * p.orderCost / p.holdingCost
    requires 0.0 <= p.leadTime
    requires |zs| == p.days
    ensures res.d == p.muD * p.days as real
    ensures res.q == CalculateEOQ(res.d, p.orderCost, p.holdingCost, sqrt)
    ensures res.z == CalculateZScore(toString(p.serviceLevel))
    ensures res.z != 1.28 && (res.z == 1.65 || res.z == 2.05 || res.z == 2.33)
    ensures forall k: nat :: k < 100 && p.serviceLevel == Hundredths(k) ==>
      res.z == if k == 98 then 2.05 else if k == 99 then 2.33 else 1.65
    ensures res.r == CalculateReorderPoint(p.muD, p.leadTime, p.sigmaD, res.z, sqrt)
    ensures res.simulation == Simulate(res.q, res.r, DemandOf(p.muD, p.sigmaD, zs))
  {
    var d := p.muD * p.days as real;
    var q := CalculateEOQ(d, p.orderCost, p.holdingCost, sqrt);
    var key := toString(p.serviceLevel);
    var z := CalculateZScore(key);
    NoNumberGetsNinetyEntry(toString, p.serviceLevel);
    forall k: nat | k < 100 && p.serviceLevel == Hundredths(k)
      ensures z == if k == 98 then 2.05 else if k == 99 then 2.33 else 1.65
    {
      ZScoreOfHundredths(k);
    }
    var r := CalculateReorderPoint(p.muD, p.leadTime, p.sigmaD, z, sqrt);
    var demand := GenerateDemand(p.days, p.muD, p.sigmaD, zs);
    var simulation := SimulateInventory(p.days, demand, q, r);
    res := InventoryResults(q, r, d, z, simulation);
  }
}
