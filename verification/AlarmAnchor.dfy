/** How alarm limits become comparator thresholds: the ratio of a channel's raw reading
    to its measured value anchors a register scale, the median of the phases decides,
    and each limit is rounded into its register. */
module AlarmAnchor {
  import opened CInt
  import opened Options

  /** `(float)M_SQRT2 * 16384`: from the root-mean-square to the sample domain. */
  const GAIN_NUM := 23170.474609375
  const V_MIN := 50.0
  const A_MIN := 0.5
  const LOSS_RATIO := 0.1

  type Gain = g: u16 | g != 0 witness 0x8000

  /** One phase: what was measured, the raw registers behind it, the applied gains. */
  datatype Phase = Phase(valid: bool, volts: real, amps: real, urms: u16, irms: u16, vGain: Gain, iGain: Gain)

  const DEAD := Phase(false, 0.0, 0.0, 0, 0, 0x8000, 0x8000)

  type Phases = s: seq<Phase> | |s| == 3 witness [DEAD, DEAD, DEAD]

  type Hertz = r: real | 0.0 <= r <= 655.0 witness 0.0

  datatype Limits = Limits(highV: real, lowV: real, amps: real, lowHz: Hertz, highHz: Hertz)

  /** The over-current threshold is written only when a load anchors it. */
  datatype Thresholds = Thresholds(ov: u16, sag: u16, loss: u16, oi: Option<u16>, freqLo: u16, freqHi: u16)

  function ThReg(x: real): u16 { if x <= 0.0 then 0 else if x > 65535.0 then 0xFFFF else (x + 0.5).Floor }

  function Scaled(k: real, x: real): u16 { ThReg(k * x) }

  predicate Live(p: Phase) { p.valid && p.volts >= V_MIN && p.urms > 0 }

  function VoltScale(p: Phase): (k: real)
    requires Live(p)
  {
    p.urms as real / p.volts * (GAIN_NUM / p.vGain as real)
  }

  predicate Loaded(p: Phase) { p.amps >= A_MIN && p.irms > 0 }

  function AmpScale(p: Phase): real
    requires Loaded(p)
  {
    p.irms as real / p.amps * (GAIN_NUM / p.iGain as real)
  }

  /** The scales of the live phases, in order. */
  function Scales(ps: seq<Phase>): (ks: seq<real>)
    ensures |ks| <= |ps|
  {
    if ps == [] then []
    else
      var (front, p) := (ps[..|ps| - 1], ps[|ps| - 1]);
      if Live(p) then Scales(front) + [VoltScale(p)] else Scales(front)
  }

  function VoltSum(ps: seq<Phase>): real {
    if ps == [] then 0.0
    else VoltSum(ps[..|ps| - 1]) + if Live(ps[|ps| - 1]) then ps[|ps| - 1].volts else 0.0
  }

  function Min(a: real, b: real): real { if a < b then a else b }

  function Max(a: real, b: real): real { if a < b then b else a }

  function Median3(a: real, b: real, c: real): real {
    if c < Min(a, b) then Min(a, b) else if c > Max(a, b) then Max(a, b) else c
  }

  /** Registers per volt, from two or three live phases. */
  function Scale(ks: seq<real>): real
    requires 2 <= |ks| <= 3
  {
    if |ks| == 2 then (ks[0] + ks[1]) * 0.5 else Median3(ks[0], ks[1], ks[2])
  }

  /** The phase with the largest current, the first of equal ones. */
  predicate Heaviest(ps: Phases, i: nat) {
    && i < 3
    && (forall j: nat :: j < 3 ==> ps[j].amps <= ps[i].amps)
    && forall j: nat :: j < i ==> ps[j].amps < ps[i].amps
  }

  function HeaviestOf(ps: Phases): (i: nat)
    ensures Heaviest(ps, i)
  {
    var i := if ps[1].amps > ps[0].amps then 1 else 0;
    if ps[2].amps > ps[i].amps then 2 else i
  }

  predicate HasLoad(ps: Phases) { Loaded(ps[HeaviestOf(ps)]) }

  function Hundredths(hz: Hertz): u16 { (hz * 100.0 + 0.5).Floor }

  function OiTh(p: Phase, amps: real): u16
    requires Loaded(p)
  {
    Scaled(AmpScale(p), amps)
  }

  /** All thresholds from registers per volt, the mean voltage and the limits. */
  function ThresholdsFrom(k: real, volts: real, oi: Option<u16>, lim: Limits): Thresholds {
    Thresholds(Scaled(k, lim.highV), Scaled(k, lim.lowV), Scaled(k, volts * LOSS_RATIO), oi,
               Hundredths(lim.lowHz), Hundredths(lim.highHz))
  }

  function MeanVolts(ps: Phases): real
    requires Scales(ps) != []
  {
    VoltSum(ps) / |Scales(ps)| as real
  }

  function ThresholdsOf(ps: Phases, lim: Limits, withOi: bool): Thresholds
    requires |Scales(ps)| >= 2 && (withOi ==> HasLoad(ps))
  {
    var oi := if withOi then Some(OiTh(ps[HeaviestOf(ps)], lim.amps)) else None;
    ThresholdsFrom(Scale(Scales(ps)), MeanVolts(ps), oi, lim)
  }

  /* ---- the loops ---- */

  lemma ScalesGrow(ps: seq<Phase>, n: nat)
    requires n < |ps|
    ensures Scales(ps[..n + 1]) == if Live(ps[n]) then Scales(ps[..n]) + [VoltScale(ps[n])] else Scales(ps[..n])
    ensures VoltSum(ps[..n + 1]) == VoltSum(ps[..n]) + if Live(ps[n]) then ps[n].volts else 0.0
  {
    assert ps[..n + 1][..n] == ps[..n];
  }

  method AnchorVoltage(ps: Phases) returns (ks: seq<real>, sum: real)
    ensures ks == Scales(ps) && sum == VoltSum(ps)
  {
    ks, sum := [], 0.0;
    for p: nat := 0 to 3
      invariant ks == Scales(ps[..p]) && sum == VoltSum(ps[..p])
    {
      ScalesGrow(ps, p);
      if Live(ps[p]) {
        ks := ks + [VoltScale(ps[p])];
        sum := sum + ps[p].volts;
      }
    }
    assert ps[..3] == ps;
  }

  lemma HeaviestIsUnique(ps: Phases, i: nat, j: nat)
    requires Heaviest(ps, i) && Heaviest(ps, j)
    ensures i == j
  {
    assert ps[i].amps <= ps[j].amps <= ps[i].amps;
  }

  method FindHeaviest(ps: Phases) returns (best: nat)
    ensures Heaviest(ps, best) && best == HeaviestOf(ps)
  {
    best := 0;
    var amps := ps[0].amps;
    for p: nat := 1 to 3
      invariant best < p && amps == ps[best].amps
      invariant forall j: nat :: j < p ==> ps[j].amps <= amps
      invariant forall j: nat :: j < best ==> ps[j].amps < amps
    {
      if ps[p].amps > amps { best, amps := p, ps[p].amps; }
    }
    HeaviestIsUnique(ps, best, HeaviestOf(ps));
  }

  method Compute(ps: Phases, ks: seq<real>, sum: real, oi: Option<u16>, lim: Limits) returns (th: Thresholds)
    requires ks == Scales(ps) && sum == VoltSum(ps) && |ks| >= 2
    requires oi.Some? ==> HasLoad(ps) && oi.value == OiTh(ps[HeaviestOf(ps)], lim.amps)
    ensures th == ThresholdsOf(ps, lim, oi.Some?)
  {
    th := ThresholdsFrom(Scale(ks), sum / |ks| as real, oi, lim);
  }

  /* ---- what the anchor is worth ---- */

  /** A register is the nearest to the wanted value, and saturates outside its range. */
  lemma ThRegIsNearest(x: real)
    ensures 0.0 <= x <= 65535.0 ==> x - 0.5 <= ThReg(x) as real <= x + 0.5
    ensures x < 0.0 ==> ThReg(x) == 0
    ensures x > 65535.0 ==> ThReg(x) == 0xFFFF
  {
  }

  lemma ThRegGrows(x: real, y: real)
    requires x <= y
    ensures ThReg(x) <= ThReg(y)
  {
  }

  /** The scale lies between the live phases' own scales; and with three of them, between
      any two, so a single wild phase cannot move it, and where two agree it is theirs.
      Of two live phases it is midway between them. */
  lemma ScaleIsRobust(ks: seq<real>, lo: real, hi: real)
    requires 2 <= |ks| <= 3
    ensures (forall i :: 0 <= i < |ks| ==> lo <= ks[i] <= hi) ==> lo <= Scale(ks) <= hi
    ensures |ks| == 3 && (exists i, j :: 0 <= i < j < 3 && lo <= ks[i] <= hi && lo <= ks[j] <= hi) ==>
              lo <= Scale(ks) <= hi
    ensures |ks| == 2 ==> Scale(ks) - ks[0] == ks[1] - Scale(ks)
  {
  }

  lemma Positive(a: real, b: real)
    requires a > 0.0 && b > 0.0
    ensures a * b > 0.0 && a / b > 0.0
  {
  }

  lemma VoltScaleIsPositive(p: Phase)
    requires Live(p)
    ensures VoltScale(p) > 0.0
  {
    Positive(p.urms as real, p.volts);
    Positive(GAIN_NUM, p.vGain as real);
    Positive(p.urms as real / p.volts, GAIN_NUM / p.vGain as real);
  }

  lemma {:induction false} ScalesArePositive(ps: seq<Phase>)
    ensures forall i :: 0 <= i < |Scales(ps)| ==> Scales(ps)[i] > 0.0
    decreases |ps|
  {
    if ps != [] {
      ScalesArePositive(ps[..|ps| - 1]);
      if Live(ps[|ps| - 1]) { VoltScaleIsPositive(ps[|ps| - 1]); }
    }
  }

  lemma ScaleIsPositive(ks: seq<real>)
    requires 2 <= |ks| <= 3 && forall i :: 0 <= i < |ks| ==> ks[i] > 0.0
    ensures Scale(ks) > 0.0
  {
  }

  lemma MulGrows(k: real, x: real, y: real)
    requires k >= 0.0 && x <= y
    ensures k * x <= k * y
  {
    assert k * (y - x) >= 0.0;
  }

  lemma HundredthsGrow(x: Hertz, y: Hertz)
    requires x <= y
    ensures Hundredths(x) <= Hundredths(y)
  {
  }

  lemma VoltLimitsStayOrdered(k: real, low: real, high: real)
    requires k > 0.0 && low <= high
    ensures Scaled(k, low) <= Scaled(k, high)
  {
    MulGrows(k, low, high);
    ThRegGrows(k * low, k * high);
  }

  lemma OrderedFrom(k: real, volts: real, oi: Option<u16>, lim: Limits)
    requires k > 0.0 && lim.lowV <= lim.highV && lim.lowHz <= lim.highHz
    ensures
      var th := ThresholdsFrom(k, volts, oi, lim);
      th.sag <= th.ov && th.freqLo <= th.freqHi
  {
    VoltLimitsStayOrdered(k, lim.lowV, lim.highV);
    HundredthsGrow(lim.lowHz, lim.highHz);
  }

  /** Limits that are in order stay in order in the registers. */
  lemma LimitsStayOrdered(ps: Phases, lim: Limits, withOi: bool)
    requires |Scales(ps)| >= 2 && (withOi ==> HasLoad(ps))
    requires lim.lowV <= lim.highV && lim.lowHz <= lim.highHz
    ensures
      var th := ThresholdsOf(ps, lim, withOi);
      th.sag <= th.ov && th.freqLo <= th.freqHi
  {
    ScalesArePositive(ps);
    ScaleIsPositive(Scales(ps));
    var oi := if withOi then Some(OiTh(ps[HeaviestOf(ps)], lim.amps)) else None;
    OrderedFrom(Scale(Scales(ps)), MeanVolts(ps), oi, lim);
  }

  /* ---- every threshold from its own limit ---- */

  /** The register closest to a wanted value. */
  ghost predicate Closest(reg: u16, x: real) {
    && (0.0 <= x <= 65535.0 ==> -0.5 <= reg as real - x <= 0.5)
    && (x < 0.0 ==> reg == 0) && (x > 65535.0 ==> reg == 65535)
  }

  /** A phase with a grid behind it: valid, at least 50 V, and a raw reading. */
  ghost predicate HasGrid(p: Phase) { p.valid && p.volts >= 50.0 && p.urms != 0 }

  ghost function GridPhases(ps: Phases): nat {
    (if HasGrid(ps[0]) then 1 else 0) + (if HasGrid(ps[1]) then 1 else 0) + (if HasGrid(ps[2]) then 1 else 0)
  }

  ghost function GridVolts(ps: Phases): real {
    (if HasGrid(ps[0]) then ps[0].volts else 0.0) + (if HasGrid(ps[1]) then ps[1].volts else 0.0)
    + (if HasGrid(ps[2]) then ps[2].volts else 0.0)
  }

  lemma AnchorsAreGridPhases(ps: Phases)
    ensures |Scales(ps)| == GridPhases(ps) && VoltSum(ps) == GridVolts(ps)
    ensures forall k <- Scales(ps) :: exists i: nat :: i < 3 && HasGrid(ps[i]) && k == VoltScale(ps[i])
  {
    ScalesGrow(ps, 0);
    ScalesGrow(ps, 1);
    ScalesGrow(ps, 2);
    assert ps[..3] == ps && Scales(ps[..0]) == [];
  }

  ghost predicate FirstLargest(ps: Phases, i: nat)
    requires i < 3
  {
    (forall j: nat :: j < 3 ==> ps[j].amps <= ps[i].amps) && forall j: nat :: j < i ==> ps[j].amps < ps[i].amps
  }

  /** A load anchors the current iff the phase with the most current, the first of equal
      ones, carries at least half an ampere and has a raw reading. */
  lemma LoadExactly(ps: Phases)
    ensures HasLoad(ps) <==>
      exists i: nat :: i < 3 && FirstLargest(ps, i) && ps[i].amps >= 0.5 && ps[i].irms != 0
  {
    assert FirstLargest(ps, HeaviestOf(ps));
    forall i: nat | i < 3 && FirstLargest(ps, i)
      ensures i == HeaviestOf(ps)
    {
      HeaviestIsUnique(ps, i, HeaviestOf(ps));
    }
  }

  /** Registers per volt of a phase, and per ampere. */
  ghost predicate VoltRatio(p: Phase, r: real)
    requires p.volts > 0.0
  {
    r == p.urms as real / p.volts * (23170.474609375 / p.vGain as real)
  }

  ghost predicate AmpRatio(p: Phase, r: real)
    requires p.amps > 0.0
  {
    r == p.irms as real / p.amps * (23170.474609375 / p.iGain as real)
  }

  /** What `th` is, for channels of `r` registers per volt and a mean voltage `mean`. */
  ghost predicate FollowLimits(th: Thresholds, r: real, mean: real, lim: Limits) {
    && Closest(th.ov, r * lim.highV) && Closest(th.sag, r * lim.lowV) && Closest(th.loss, r * (mean * 0.1))
    && -0.5 <= th.freqLo as real - 100.0 * lim.lowHz <= 0.5
    && -0.5 <= th.freqHi as real - 100.0 * lim.highHz <= 0.5
  }

  lemma SameScale(ks: seq<real>, r: real)
    requires 2 <= |ks| <= 3 && forall k <- ks :: k == r
    ensures Scale(ks) == r
  {
    assert forall i :: 0 <= i < |ks| ==> ks[i] in ks;
  }

  lemma ClosestRegister(k: real, x: real)
    ensures Closest(Scaled(k, x), k * x)
  {
    ThRegIsNearest(k * x);
  }

  lemma FromFollows(k: real, mean: real, oi: Option<u16>, lim: Limits)
    ensures FollowLimits(ThresholdsFrom(k, mean, oi, lim), k, mean, lim)
  {
    ClosestRegister(k, lim.highV);
    ClosestRegister(k, lim.lowV);
    ClosestRegister(k, mean * LOSS_RATIO);
  }

  lemma ScalesAreRatio(ps: Phases, r: real)
    requires forall i: nat :: i < 3 && HasGrid(ps[i]) ==> VoltRatio(ps[i], r)
    ensures forall k <- Scales(ps) :: k == r
  {
    AnchorsAreGridPhases(ps);
    forall i: nat | i < 3 && HasGrid(ps[i]) { RatioIsScale(ps[i], r); }
  }

  lemma RatioIsScale(p: Phase, r: real)
    requires HasGrid(p) && VoltRatio(p, r)
    ensures VoltScale(p) == r
  {}

  lemma PartsOf(ps: Phases, lim: Limits, withOi: bool)
    requires |Scales(ps)| >= 2 && (withOi ==> HasLoad(ps))
    ensures
      ThresholdsOf(ps, lim, withOi)
      == ThresholdsFrom(Scale(Scales(ps)), MeanVolts(ps),
                        if withOi then Some(OiTh(ps[HeaviestOf(ps)], lim.amps)) else None, lim)
  {}

  lemma MeanOf(ps: Phases, n: nat, volts: real)
    requires |Scales(ps)| == n > 0 && VoltSum(ps) == volts
    ensures MeanVolts(ps) == volts / n as real
  {}

  /** On channels that all read `r` registers per volt, the over-voltage register is the
      closest to the upper limit, the sag register to the lower one, the phase-loss
      register to a tenth of the live phases' mean voltage, and the two frequency
      registers hold hundredths of a hertz. */
  lemma ThresholdsFollowLimits(ps: Phases, lim: Limits, withOi: bool, r: real)
    requires GridPhases(ps) >= 2 && |Scales(ps)| >= 2 && (withOi ==> HasLoad(ps))
    requires forall i: nat :: i < 3 && HasGrid(ps[i]) ==> VoltRatio(ps[i], r)
    ensures FollowLimits(ThresholdsOf(ps, lim, withOi), r, GridVolts(ps) / GridPhases(ps) as real, lim)
  {
    AnchorsAreGridPhases(ps);
    ScalesAreRatio(ps, r);
    SameScale(Scales(ps), r);
    PartsOf(ps, lim, withOi);
    MeanOf(ps, GridPhases(ps), GridVolts(ps));
    FromFollows(r, MeanVolts(ps), if withOi then Some(OiTh(ps[HeaviestOf(ps)], lim.amps)) else None, lim);
  }

  lemma AmpsFollow(p: Phase, amps: real, r: real)
    requires Loaded(p) && AmpRatio(p, r)
    ensures Closest(OiTh(p, amps), r * amps)
  {
    ClosestRegister(AmpScale(p), amps);
  }

  lemma CurrentPart(ps: Phases, lim: Limits, withOi: bool)
    requires |Scales(ps)| >= 2 && (withOi ==> HasLoad(ps))
    ensures ThresholdsOf(ps, lim, withOi).oi
         == if withOi then Some(OiTh(ps[HeaviestOf(ps)], lim.amps)) else None
  {}

  /** The over-current register is the closest to the limit on the channel of the
      heaviest phase, and written only with a load. */
  lemma CurrentFollowsLimit(ps: Phases, lim: Limits, withOi: bool, i: nat, r: real)
    requires |Scales(ps)| >= 2 && (withOi ==> HasLoad(ps))
    requires i < 3 && FirstLargest(ps, i) && (withOi ==> ps[i].amps > 0.0 && AmpRatio(ps[i], r))
    ensures
      var oi := ThresholdsOf(ps, lim, withOi).oi;
      (oi.Some? <==> withOi) && (withOi ==> Closest(oi.value, r * lim.amps))
  {
    CurrentPart(ps, lim, withOi);
    if withOi {
      HeaviestIsUnique(ps, i, HeaviestOf(ps));
      AmpsFollow(ps[i], lim.amps, r);
    }
  }
}
