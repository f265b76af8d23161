/**
 * src/lib/inventory-calculations.ts, the copy of the inventory formulas and
 * simulation that the dashboard page imports. Each member here is written out
 * again as the file has it, and its contract ties it to the matching member of
 * `InventoryCalculations`.
 */
module DashboardInventory {
  import opened RealMath
  import IC = InventoryCalculations

  /** `calculateEOQ`: the same quantity as the first file's version. */
  function CalculateEOQ(d: real, s: real, h: real, sqrt: real -> real): (q: real)
    requires IsSqrt(sqrt)
    requires h != 0.0 && 0.0 <= 2.0 * d * s / h
    ensures 0.0 <= q && q * q == 2.0 * d * s / h
    ensures q == IC.CalculateEOQ(d, s, h, sqrt)
  {
    sqrt(2.0 * d * s / h)
  }

  /** `calculateReorderPoint`: the same reorder point as the first file's version. */
  function CalculateReorderPoint(muD: real, l: real, sigmaD: real, z: real, sqrt: real -> real): (r: real)
    requires IsSqrt(sqrt) && 0.0 <= l
    ensures r == IC.CalculateReorderPoint(muD, l, sigmaD, z, sqrt)
  {
    var muL := muD * l;
    var sigmaL := sigmaD * sqrt(l);
    muL + z * sigmaL
  }

  /**
   * `simulateInventory` with the demand given: for the same demand it returns
   * the same record as the first file's simulation, so it starts with one full
   * lot, records one level per day, and keeps its levels non-negative and its
   * order days increasing.
   */
  method SimulateInventory(days: nat, demand: seq<real>, q: real, r: real) returns (sim: IC.Simulation)
    requires |demand| == days
    ensures sim == IC.Simulate(q, r, demand)
  {
    var levels: seq<real> := [];
    var orders: seq<nat> := [];
    var stock := q;
    var stockoutDays: nat := 0;
    var unmetUnits := 0.0;
    for day := 0 to days
      invariant IC.Simulation(levels, orders, stockoutDays, unmetUnits) == IC.Simulate(q, r, demand[..day])
      invariant stock == IC.Opening(q, levels)
    {
      assert demand[..day + 1][..day] == demand[..day];
      stock := stock - demand[day];
      if stock < 0.0 {
        stockoutDays := stockoutDays + 1;
        unmetUnits := unmetUnits + Abs(stock);
        stock := 0.0;
      }
      if stock <= r {
        stock := stock + q;
        orders := orders + [day];
      }
      levels := levels + [stock];
    }
    assert demand[..days] == demand;
    sim := IC.Simulation(levels, orders, stockoutDays, unmetUnits);
  }

  /**
   * The dashboard's starting parameters (365 days, mu_d = 105, sigma_d = 13.3,
   * S = 10000, H = 1600, service level 0.95, L = 1) give Q² = 479062.5 for the
   * annual demand 105·365, Z = 1.65 for the text "0.95" and R = 126.945.
   */
  lemma DashboardDefaults(sqrt: real -> real)
    requires IsSqrt(sqrt)
    ensures var q := CalculateEOQ(105.0 * 365.0, 10000.0, 1600.0, sqrt); q * q == 479062.5
    ensures IC.HundredthsText(95) == "0.95" && IC.CalculateZScore(IC.HundredthsText(95)) == 1.65
    ensures CalculateReorderPoint(105.0, 1.0, 13.3, IC.CalculateZScore(IC.HundredthsText(95)), sqrt) == 126.945
  {
    IC.ZScoreOfHundredths(95);
    IC.ReorderPointUnitLeadTime(105.0, 13.3, 1.65, sqrt);
  }
}
