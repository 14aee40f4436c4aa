/** Bed and ICU load of one hospital, as the hospital table
    (pages/HospitalsPage.tsx), the city dashboard's hospital table
    (pages/CityDashboard.tsx) and the hospital detail page
    (pages/HospitalDetailPage.tsx) all show it: `occupied / total * 100`
    rounded for display, a bar coloured by the 90 % and 70 % thresholds,
    and an ICU badge that turns red above 0.9.

    Exact rationals stand in for doubles. A zero total is not excluded:
    JavaScript divides to `Infinity` when beds are occupied (above every
    threshold) and to `NaN` when none are (below every threshold, since
    every comparison with `NaN` is false), and the model follows that. */
module Capacity {
  import opened Types
  import opened Numeric

  /** `occupied / total * 100` for a non-zero total. */
  function Percent(occupied: nat, total: nat): real
    requires total > 0
  {
    (occupied as real / total as real) * 100.0
  }

  /** Comparing the percentage with a threshold is comparing integers. */
  lemma PercentAbove(occupied: nat, total: nat, k: nat)
    requires total > 0
    ensures Percent(occupied, total) > k as real <==> 100 * occupied > k * total
  {
    var t := total as real;
    var x := occupied as real / t;
    assert x * t == occupied as real;
    assert Percent(occupied, total) * t == 100.0 * occupied as real;
    RealScale(Percent(occupied, total), k as real, t);
  }

  /** Multiplying by a positive factor keeps a strict comparison. */
  lemma RealScale(a: real, b: real, t: real)
    requires t > 0.0
    ensures a > b <==> a * t > b * t
  {
    if a > b {
      assert (a - b) * t > 0.0;
    } else {
      assert (b - a) * t >= 0.0;
    }
  }

  /** The bar's colour: rose, amber or emerald. */
  datatype Band = Critical | Strained | Comfortable

  /** `occupancyPct > 90 ? rose : occupancyPct > 70 ? amber : emerald`. */
  function OccupancyBand(occupied: nat, total: nat): (b: Band)
    ensures total > 0 ==> (b == Critical <==> Percent(occupied, total) > 90.0)
    ensures total > 0 ==> (b == Strained <==> 70.0 < Percent(occupied, total) <= 90.0)
    ensures total > 0 ==> (b == Comfortable <==> Percent(occupied, total) <= 70.0)
    ensures total == 0 ==> (b == Critical <==> occupied > 0)
    ensures total == 0 ==> b != Strained
  {
    if total == 0 then
      (if occupied > 0 then Critical else Comfortable)
    else
      PercentAbove(occupied, total, 90);
      PercentAbove(occupied, total, 70);
      if 100 * occupied > 90 * total then Critical
      else if 100 * occupied > 70 * total then Strained
      else Comfortable
  }

  function BandRank(b: Band): nat
  {
    match b
    case Comfortable => 0
    case Strained => 1
    case Critical => 2
  }

  /** Filling more beds of the same hospital never lowers its band. */
  lemma BandMonotone(occupied1: nat, occupied2: nat, total: nat)
    requires occupied1 <= occupied2
    ensures BandRank(OccupancyBand(occupied1, total)) <= BandRank(OccupancyBand(occupied2, total))
  {
    if total > 0 {
      MulMonotone(100, occupied1, occupied2);
    }
  }

  /** The ICU badge: `icuOccupied / icuTotal > 0.9`. */
  function IcuCritical(icuOccupied: nat, icuTotal: nat): (c: bool)
    ensures icuTotal > 0 ==> (c <==> icuOccupied as real / icuTotal as real > 0.9)
    ensures icuTotal == 0 ==> (c <==> icuOccupied > 0)
  {
    if icuTotal == 0 then icuOccupied > 0
    else
      IcuRatio(icuOccupied, icuTotal);
      10 * icuOccupied > 9 * icuTotal
  }

  lemma IcuRatio(occupied: nat, total: nat)
    requires total > 0
    ensures occupied as real / total as real > 0.9 <==> 10 * occupied > 9 * total
  {
    var t := total as real;
    var x := occupied as real / t;
    assert x * t == occupied as real;
    RealScale(x, 0.9, t);
    assert 0.9 * t * 10.0 == (9 * total) as real;
    assert x * t * 10.0 == (10 * occupied) as real;
    RealScale(x * t, 0.9 * t, 10.0);
  }

  /** An ICU with a free bed in every ten is never flagged. */
  lemma IcuWithRoomIsCalm(icuOccupied: nat, icuTotal: nat)
    requires 10 * icuOccupied <= 9 * icuTotal
    ensures !IcuCritical(icuOccupied, icuTotal)
  {
  }

  /** `Math.round(occupied / total * 100)` as the page prints it: a whole
      percentage, or nothing numeric (`NaN` or `Infinity`) for a zero total. */
  function DisplayedPercent(occupied: nat, total: nat): (r: Option<int>)
    ensures r.Some? <==> total > 0
    ensures r.Some? ==> r.value as real - 0.5 <= Percent(occupied, total) < r.value as real + 0.5
    ensures r.Some? && occupied <= total ==> 0 <= r.value <= 100
  {
    if total == 0 then None
    else
      var v := RoundedPercent(occupied, total);
      RoundingBounds(occupied, total, v);
      Some(v)
  }

  /** The integer bounds of `RoundedPercent` read as real bounds on the
      percentage. */
  lemma RoundingBounds(p: nat, q: nat, r: int)
    requires q > 0
    requires 2 * q * r <= 200 * p + q < 2 * q * (r + 1)
    ensures r as real - 0.5 <= Percent(p, q) < r as real + 0.5
  {
    var t, rr, pp := q as real, r as real, p as real;
    assert Percent(p, q) * t == 100.0 * pp by {
      assert (pp / t) * t == pp;
    }
    var lo, hi := 2 * q * r, 2 * q * (r + 1);
    assert lo as real <= (200 * p + q) as real < hi as real;
    assert lo as real == 2.0 * t * rr by {
      CastProduct(2 * q, r);
    }
    assert hi as real == 2.0 * t * (rr + 1.0) by {
      CastProduct(2 * q, r + 1);
    }
    RealSandwich(Percent(p, q), t, rr, pp);
  }

  lemma CastProduct(a: int, b: int)
    ensures (a * b) as real == a as real * b as real
  {
  }

  /** `x * t == 100 * p` with `2 t r <= 200 p + t < 2 t (r + 1)` puts `x`
      within a half of `r`. */
  lemma RealSandwich(x: real, t: real, r: real, p: real)
    requires t > 0.0
    requires x * t == 100.0 * p
    requires 2.0 * t * r <= 200.0 * p + t < 2.0 * t * (r + 1.0)
    ensures r - 0.5 <= x < r + 0.5
  {
    assert (r - 0.5) * t == (2.0 * t * r - t) / 2.0;
    assert (r + 0.5) * t == (2.0 * t * (r + 1.0) - t) / 2.0;
    assert x * t == (200.0 * p + t - t) / 2.0;
    RealScale(r - 0.5, x, t);
    RealScale(x, r + 0.5, t);
  }
}
