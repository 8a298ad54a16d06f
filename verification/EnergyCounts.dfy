/** The chip's four total-energy registers are cleared by being read, so every
    count that leaves the chip must reach an accumulator. */
module EnergyCounts {
  import opened CInt

  const REGISTERS := 4
  const CAP := 65535
  const COUNT_TO_WH := 10.0 / 3200.0
  const DRAIN_PERIOD_US := 10 * 1_000_000

  /** One entry per register. */
  type Reads = s: seq<bool> | |s| == REGISTERS witness [false, false, false, false]
  type Pulses = s: seq<nat> | |s| == REGISTERS witness [0, 0, 0, 0]

  /** One sweep over the registers: what was read, and which reads succeeded. */
  datatype Sample = Sample(counts: seq<u16>, valid: seq<bool>)

  /** `CT now / CT at calibration`, when both are known and differ. */
  function NctScale(ct: u16, ctCalib: u16): (k: real)
    ensures k > 0.0
    ensures k != 1.0 <==> ct >= 1000 && ctCalib >= 1000 && ct != ctCalib
    ensures ct >= 1000 && ctCalib >= 1000 ==> k * ctCalib as real == ct as real
  {
    if ctCalib >= 1000 && ct >= 1000 && ct != ctCalib then
      RatioIsNotOne(ct, ctCalib);
      ct as real / ctCalib as real
    else 1.0
  }

  lemma RatioIsNotOne(x: u16, y: u16)
    requires x > 0 && y > 0 && x != y
    ensures x as real / y as real != 1.0 && x as real / y as real > 0.0
  {
    var q := x as real / y as real;
    assert q * y as real == x as real;
  }

  /* ---- specification ---- */

  /** Chip registers, accumulators (Wh / varh) and the stamp of the last drain. */
  datatype Meter = Meter(regs: seq<u16>, wh: seq<real>, drainUs: int)
  {
    ghost predicate Valid() { |regs| == |wh| == REGISTERS }
  }

  function ReadClear(regs: seq<u16>, ok: Reads): (seq<u16>, Sample)
    requires |regs| == REGISTERS
  {
    (seq(|regs|, i requires 0 <= i < |regs| => if ok[i] then 0 else regs[i]),
     Sample(seq(|regs|, i requires 0 <= i < |regs| => if ok[i] then regs[i] else 0), ok))
  }

  function Added(wh: seq<real>, s: Sample, scale: real): seq<real>
    requires |wh| == |s.counts| == |s.valid|
  {
    seq(|wh|, i requires 0 <= i < |wh| =>
      if s.valid[i] then wh[i] + s.counts[i] as real * (COUNT_TO_WH * scale) else wh[i])
  }

  function Sweep(m: Meter, ok: Reads, scale: real): Meter
    requires m.Valid()
  {
    var (regs, s) := ReadClear(m.regs, ok);
    m.(regs := regs, wh := Added(m.wh, s, scale))
  }

  predicate DrainDue(m: Meter, now: int) { now - m.drainUs >= DRAIN_PERIOD_US }

  function PollTick(m: Meter, ok: Reads, scale: real): Meter
    requires m.Valid()
  {
    Sweep(m.(drainUs := 0), ok, scale)
  }

  function PausedTick(m: Meter, ok: Reads, now: int): Meter
    requires m.Valid()
  {
    if DrainDue(m, now) then Sweep(m.(drainUs := now), ok, 1.0) else m
  }

  /* ---- the driver and the task, updating in place ---- */

  class MeterTask {
    const regs: array<u16>    // inside the chip
    const wh: array<real>     // s_active_import_wh ...
    var drainUs: int

    ghost predicate Valid()
      reads this, regs, wh
    {
      regs.Length == wh.Length == REGISTERS
    }

    ghost function State(): Meter
      reads this, regs, wh
    {
      Meter(regs[..], wh[..], drainUs)
    }

    constructor ()
      ensures Valid() && fresh(regs) && fresh(wh)
      ensures State() == Meter([0, 0, 0, 0], [0.0, 0.0, 0.0, 0.0], 0)
    {
      regs := new u16[REGISTERS](i => 0);
      wh := new real[REGISTERS](i => 0.0);
      drainUs := 0;
      new;
      assert regs[..] == [0, 0, 0, 0] && wh[..] == [0.0, 0.0, 0.0, 0.0];
    }

    /** Every register is attempted even when an earlier read failed. */
    method ReadEnergyCounts(ok: Reads) returns (s: Sample, ret: bool)
      requires Valid()
      modifies regs
      ensures Valid() && (regs[..], s) == ReadClear(old(regs[..]), ok)
      ensures ret <==> exists i :: 0 <= i < REGISTERS && ok[i]
    {
      var counts: seq<u16>, valid: seq<bool> := [], [];
      ret := false;
      for i := 0 to REGISTERS
        invariant |counts| == |valid| == i
        invariant forall j :: 0 <= j < i ==> regs[j] == if ok[j] then 0 else old(regs[j])
        invariant forall j :: i <= j < REGISTERS ==> regs[j] == old(regs[j])
        invariant forall j :: 0 <= j < i ==> counts[j] == (if ok[j] then old(regs[j]) else 0) && valid[j] == ok[j]
        invariant ret <==> exists j :: 0 <= j < i && ok[j]
      {
        if ok[i] {
          counts, valid := counts + [regs[i]], valid + [true];
          regs[i] := 0;
          ret := true;
        } else {
          counts, valid := counts + [0], valid + [false];
        }
      }
      s := Sample(counts, valid);
      assert valid == ok;
      assert regs[..] == ReadClear(old(regs[..]), ok).0 && counts == ReadClear(old(regs[..]), ok).1.counts;
    }

    method Accumulate(s: Sample, scale: real)
      requires Valid() && |s.counts| == |s.valid| == REGISTERS
      modifies wh
      ensures wh[..] == Added(old(wh[..]), s, scale)
    {
      var k := COUNT_TO_WH * scale;
      for i := 0 to REGISTERS
        invariant forall j :: 0 <= j < i ==> wh[j] == Added(old(wh[..]), s, scale)[j]
        invariant forall j :: i <= j < REGISTERS ==> wh[j] == old(wh[j])
      {
        if s.valid[i] {
          wh[i] := wh[i] + s.counts[i] as real * k;
        }
      }
    }

    /** A measuring pass: read, and fold in whatever came back. */
    method Poll(ok: Reads, ct: u16, ctCalib: u16)
      requires Valid()
      modifies this, regs, wh
      ensures Valid() && State() == PollTick(old(State()), ok, NctScale(ct, ctCalib))
    {
      drainUs := 0;
      ghost var before := wh[..];
      var s, ret := ReadEnergyCounts(ok);
      if ret {
        Accumulate(s, NctScale(ct, ctCalib));
      } else {
        assert wh[..] == Added(before, s, NctScale(ct, ctCalib));
      }
    }

    /** A pass while the portal or a download owns the device. */
    method Pause(ok: Reads, now: int)
      requires Valid()
      modifies this, regs, wh
      ensures Valid() && State() == PausedTick(old(State()), ok, now)
    {
      if now - drainUs >= DRAIN_PERIOD_US {
        drainUs := now;
        ghost var before := wh[..];
        var s, ret := ReadEnergyCounts(ok);
        if ret {
          Accumulate(s, 1.0);
        } else {
          assert wh[..] == Added(before, s, 1.0);
        }
      }
    }
  }

  /* ---- runs ---- */

  /** `Generate(g)`: the chip counts `g[i]` more pulses on register i. Polls and
      paused passes meet whatever transformer ratios the configuration then holds. */
  datatype Event =
    | Generate(g: Pulses)
    | Poll(ok: Reads, ct: u16, ctCalib: u16)
    | Pause(ok: Reads, now: int, ct: u16, ctCalib: u16)

  /** The meter, and for one register what was ever generated, what left the
      chip by a poll or by a drain, and what a full register dropped. */
  datatype World = World(m: Meter, generated: nat, polled: nat, drained: nat, dropped: nat)

  const FRESH := World(Meter([0, 0, 0, 0], [0.0, 0.0, 0.0, 0.0], 0), 0, 0, 0, 0)

  function Saturate(x: nat): u16 { if x > CAP then CAP else x }

  /** What an event takes out of register r by a poll, and by a drain. */
  function PolledBy(w: World, e: Event, r: nat): nat
    requires w.m.Valid() && r < REGISTERS
  {
    if e.Poll? && e.ok[r] then w.m.regs[r] else 0
  }

  function DrainedBy(w: World, e: Event, r: nat): nat
    requires w.m.Valid() && r < REGISTERS
  {
    if e.Pause? && DrainDue(w.m, e.now) && e.ok[r] then w.m.regs[r] else 0
  }

  function Act(m: Meter, e: Event): Meter
    requires m.Valid()
  {
    match e
    case Generate(g) => m.(regs := seq(REGISTERS, i requires 0 <= i < REGISTERS => Saturate(m.regs[i] + g[i])))
    case Poll(ok, ct, ctCalib) => PollTick(m, ok, NctScale(ct, ctCalib))
    case Pause(ok, now, _, _) => PausedTick(m, ok, now)
  }

  function Step(w: World, e: Event, r: nat): World
    requires w.m.Valid() && r < REGISTERS
  {
    var full := if e.Generate? then w.m.regs[r] + e.g[r] else 0;
    World(Act(w.m, e),
          w.generated + (if e.Generate? then e.g[r] else 0),
          w.polled + PolledBy(w, e, r), w.drained + DrainedBy(w, e, r),
          w.dropped + (full - Saturate(full)))
  }

  function Run(es: seq<Event>, r: nat): (w: World)
    requires r < REGISTERS
    ensures w.m.Valid()
    decreases |es|
  {
    if es == [] then FRESH else Step(Run(es[..|es| - 1], r), es[|es| - 1], r)
  }

  predicate Overfills(w: World, e: Event, r: nat)
    requires w.m.Valid() && r < REGISTERS
  {
    e.Generate? && w.m.regs[r] + e.g[r] > CAP
  }

  /** No register was ever asked to hold more than it can. */
  predicate NeverFull(es: seq<Event>, r: nat)
    requires r < REGISTERS
    decreases |es|
  {
    es == [] ||
    (var before, e := es[..|es| - 1], es[|es| - 1];
     NeverFull(before, r) && !Overfills(Run(before, r), e, r))
  }

  /** The polled counts, each weighted with the scale in force at its poll. */
  function Weighted(es: seq<Event>, r: nat): real
    requires r < REGISTERS
    decreases |es|
  {
    if es == [] then 0.0 else
      Weighted(es[..|es| - 1], r) + Weight(Run(es[..|es| - 1], r), es[|es| - 1], r)
  }

  /** Every pulse is accounted for, and the accumulator holds exactly what left the
      chip: polled counts at their own scale, drained counts at one. */
  ghost predicate Conserved(w: World, weighted: real, r: nat)
    requires w.m.Valid() && r < REGISTERS
  {
    && w.generated == w.polled + w.drained + w.m.regs[r] + w.dropped
    && w.m.wh[r] == COUNT_TO_WH * (weighted + w.drained as real)
  }

  lemma PulsesStay(w: World, e: Event, r: nat)
    requires w.m.Valid() && r < REGISTERS
    ensures
      var v := Step(w, e, r);
      v.polled + v.drained + v.m.regs[r] + v.dropped - v.generated
      == w.polled + w.drained + w.m.regs[r] + w.dropped - w.generated
  {
  }

  lemma DropsOnlyWhenFull(w: World, e: Event, r: nat)
    requires w.m.Valid() && r < REGISTERS
    ensures Step(w, e, r).dropped >= w.dropped && (Step(w, e, r).dropped == w.dropped <==> !Overfills(w, e, r))
  {
  }

  /** What an event adds to the accumulator. */
  lemma AccumulatorGains(w: World, e: Event, r: nat)
    requires w.m.Valid() && r < REGISTERS
    ensures
      Step(w, e, r).m.wh[r] == w.m.wh[r]
        + (if e.Poll? then PolledBy(w, e, r) as real * (COUNT_TO_WH * NctScale(e.ct, e.ctCalib)) else 0.0)
        + DrainedBy(w, e, r) as real * COUNT_TO_WH
  {
  }

  lemma Reweigh(counts: real, scale: real)
    ensures counts * (COUNT_TO_WH * scale) == COUNT_TO_WH * (scale * counts)
  {
    var x := scale * counts;
    assert counts * (COUNT_TO_WH * scale) == COUNT_TO_WH * x;
  }

  lemma StepConserves(w: World, weighted: real, e: Event, r: nat)
    requires w.m.Valid() && r < REGISTERS && Conserved(w, weighted, r)
    ensures Conserved(Step(w, e, r), weighted + Weight(w, e, r), r)
  {
    PulsesStay(w, e, r);
    AccumulatorGains(w, e, r);
    if e.Poll? { Reweigh(PolledBy(w, e, r) as real, NctScale(e.ct, e.ctCalib)); }
  }

  /** What an event adds to the weighted polls. */
  function Weight(w: World, e: Event, r: nat): real
    requires w.m.Valid() && r < REGISTERS
  {
    if e.Poll? then NctScale(e.ct, e.ctCalib) * PolledBy(w, e, r) as real else 0.0
  }

  lemma {:induction false} RunConserves(es: seq<Event>, r: nat)
    requires r < REGISTERS
    ensures Conserved(Run(es, r), Weighted(es, r), r)
    decreases |es|
  {
    if es != [] {
      var front := es[..|es| - 1];
      RunConserves(front, r);
      StepConserves(Run(front, r), Weighted(front, r), es[|es| - 1], r);
    }
  }

  lemma {:induction false} RunDrops(es: seq<Event>, r: nat)
    requires r < REGISTERS
    ensures Run(es, r).dropped == 0 <==> NeverFull(es, r)
    decreases |es|
  {
    if es != [] {
      var front := es[..|es| - 1];
      RunDrops(front, r);
      DropsOnlyWhenFull(Run(front, r), es[|es| - 1], r);
    }
  }

  /** Conservation over every run, however reads fail, polls and paused drains
      alternate and the transformer ratio changes: every pulse has been accumulated
      with the scale of its poll, or with one by a drain, or is still in the chip, or
      was dropped by a full register; and none is dropped unless one was full. */
  lemma CountsConserved(es: seq<Event>, r: nat)
    requires r < REGISTERS
    ensures Conserved(Run(es, r), Weighted(es, r), r) && (Run(es, r).dropped == 0 <==> NeverFull(es, r))
  {
    RunConserves(es, r);
    RunDrops(es, r);
  }

  predicate OneScale(es: seq<Event>, scale: real) {
    forall i :: 0 <= i < |es| && es[i].Poll? ==> NctScale(es[i].ct, es[i].ctCalib) == scale
  }

  /** A total of counts at one scale. */
  function AtScale(scale: real, counts: nat): real { scale * counts as real }

  lemma AtScaleAdds(total: real, part: real, scale: real, x: nat, y: nat)
    requires total == AtScale(scale, x) && part == AtScale(scale, y)
    ensures total + part == AtScale(scale, x + y)
  {
    assert (x + y) as real == x as real + y as real;
    assert scale * (x as real + y as real) == scale * x as real + scale * y as real;
  }

  lemma PollAtScale(w: World, e: Event, scale: real, r: nat)
    requires w.m.Valid() && r < REGISTERS && (e.Poll? ==> NctScale(e.ct, e.ctCalib) == scale)
    ensures Weight(w, e, r) == AtScale(scale, PolledBy(w, e, r))
  {
  }

  lemma {:induction false} OneScaleWeighs(es: seq<Event>, scale: real, r: nat)
    requires r < REGISTERS && OneScale(es, scale)
    ensures Weighted(es, r) == AtScale(scale, Run(es, r).polled)
    decreases |es|
  {
    if es != [] {
      var front, e := es[..|es| - 1], es[|es| - 1];
      var w := Run(front, r);
      OneScaleWeighs(front, scale, r);
      PollAtScale(w, e, scale, r);
      AtScaleAdds(Weighted(front, r), Weight(w, e, r), scale, w.polled, PolledBy(w, e, r));
    }
  }

  lemma Substitute(wh: real, weighted: real, drained: real, x: real)
    requires wh == COUNT_TO_WH * (weighted + drained) && weighted == x
    ensures wh == COUNT_TO_WH * (x + drained)
  {
  }

  /** The accumulated energy weighs each polled count with its own scale and drained
      counts with one; while the scale stands, that is the scale times all polled
      counts. */
  lemma EnergyOfCounts(es: seq<Event>, scale: real, r: nat)
    requires r < REGISTERS
    ensures Run(es, r).m.wh[r] == COUNT_TO_WH * (Weighted(es, r) + Run(es, r).drained as real)
    ensures OneScale(es, scale) ==>
              Run(es, r).m.wh[r] == COUNT_TO_WH * (AtScale(scale, Run(es, r).polled) + Run(es, r).drained as real)
  {
    CountsConserved(es, r);
    if OneScale(es, scale) {
      var w := Run(es, r);
      OneScaleWeighs(es, scale, r);
      Substitute(w.m.wh[r], Weighted(es, r), w.drained as real, AtScale(scale, w.polled));
    }
  }

  /** With no transformer swapped, the accumulator is simply the counts that left
      the chip: nothing is lost and nothing is counted twice. */
  lemma UnscaledRunsCount(es: seq<Event>, r: nat)
    requires r < REGISTERS && OneScale(es, 1.0)
    ensures
      var w := Run(es, r);
      w.m.wh[r] == COUNT_TO_WH * (w.generated - w.dropped - w.m.regs[r]) as real
  {
    CountsConserved(es, r);
    OneScaleWeighs(es, 1.0, r);
  }

  /* ---- the same factor as power ---- */

  /** What the accumulator would hold had every count, drained ones too, carried the
      factor that power has at the time. */
  function Ideal(es: seq<Event>, r: nat): real
    requires r < REGISTERS
    decreases |es|
  {
    if es == [] then 0.0 else
      var w, e := Run(es[..|es| - 1], r), es[|es| - 1];
      Ideal(es[..|es| - 1], r) +
      match e
      case Generate(_) => 0.0
      case Poll(_, ct, ctCalib) => NctScale(ct, ctCalib) * PolledBy(w, e, r) as real
      case Pause(_, _, ct, ctCalib) => NctScale(ct, ctCalib) * DrainedBy(w, e, r) as real
  }

  /** The part of the factor that the drained counts miss. */
  function Missed(es: seq<Event>, r: nat): real
    requires r < REGISTERS
    decreases |es|
  {
    if es == [] then 0.0 else
      Missed(es[..|es| - 1], r) + MissedBy(Run(es[..|es| - 1], r), es[|es| - 1], r)
  }

  function MissedBy(w: World, e: Event, r: nat): real
    requires w.m.Valid() && r < REGISTERS
  {
    if e.Pause? then (NctScale(e.ct, e.ctCalib) - 1.0) * DrainedBy(w, e, r) as real else 0.0
  }

  lemma {:induction false} IdealSplits(es: seq<Event>, r: nat)
    requires r < REGISTERS
    ensures Ideal(es, r) == Weighted(es, r) + Run(es, r).drained as real + Missed(es, r)
    decreases |es|
  {
    if es != [] {
      IdealSplits(es[..|es| - 1], r);
      var w, e := Run(es[..|es| - 1], r), es[|es| - 1];
      if e.Pause? { Spread(NctScale(e.ct, e.ctCalib), DrainedBy(w, e, r) as real); }
    }
  }

  lemma Spread(scale: real, counts: real)
    ensures scale * counts == counts + (scale - 1.0) * counts
  {
  }

  /** In every run the accumulated energy falls short of the factor that power has
      by exactly what the drains missed. */
  lemma EnergyShortfall(es: seq<Event>, r: nat)
    requires r < REGISTERS
    ensures Run(es, r).m.wh[r] == COUNT_TO_WH * (Ideal(es, r) - Missed(es, r))
  {
    CountsConserved(es, r);
    IdealSplits(es, r);
  }

  /** No drain ever took counts while power carried a factor other than one. */
  predicate DrainsUnscaled(es: seq<Event>, r: nat)
    requires r < REGISTERS
    decreases |es|
  {
    es == [] ||
    (var before, e := es[..|es| - 1], es[|es| - 1];
     && DrainsUnscaled(before, r)
     && (e.Pause? ==> DrainedBy(Run(before, r), e, r) == 0 || NctScale(e.ct, e.ctCalib) == 1.0))
  }

  /** Every drain met a scale of at least one, or of at most one. */
  predicate DrainsUp(es: seq<Event>) {
    forall i :: 0 <= i < |es| && es[i].Pause? ==> NctScale(es[i].ct, es[i].ctCalib) >= 1.0
  }

  predicate DrainsDown(es: seq<Event>) {
    forall i :: 0 <= i < |es| && es[i].Pause? ==> NctScale(es[i].ct, es[i].ctCalib) <= 1.0
  }

  lemma Sign(scale: real, counts: real)
    requires counts >= 0.0
    ensures scale >= 1.0 ==> (scale - 1.0) * counts >= 0.0
    ensures scale <= 1.0 ==> (scale - 1.0) * counts <= 0.0
    ensures (scale - 1.0) * counts == 0.0 <==> scale == 1.0 || counts == 0.0
  {
  }

  lemma MissedSign(w: World, e: Event, r: nat)
    requires w.m.Valid() && r < REGISTERS
    ensures e.Pause? && NctScale(e.ct, e.ctCalib) >= 1.0 ==> MissedBy(w, e, r) >= 0.0
    ensures e.Pause? && NctScale(e.ct, e.ctCalib) <= 1.0 ==> MissedBy(w, e, r) <= 0.0
    ensures MissedBy(w, e, r) == 0.0 <==>
      (e.Pause? ==> DrainedBy(w, e, r) == 0 || NctScale(e.ct, e.ctCalib) == 1.0)
  {
    if e.Pause? { Sign(NctScale(e.ct, e.ctCalib), DrainedBy(w, e, r) as real); }
  }

  lemma {:induction false} MissedUp(es: seq<Event>, r: nat)
    requires r < REGISTERS && DrainsUp(es)
    ensures Missed(es, r) >= 0.0 && (Missed(es, r) == 0.0 <==> DrainsUnscaled(es, r))
    decreases |es|
  {
    if es != [] {
      MissedUp(es[..|es| - 1], r);
      MissedSign(Run(es[..|es| - 1], r), es[|es| - 1], r);
    }
  }

  lemma {:induction false} MissedDown(es: seq<Event>, r: nat)
    requires r < REGISTERS && DrainsDown(es)
    ensures Missed(es, r) <= 0.0 && (Missed(es, r) == 0.0 <==> DrainsUnscaled(es, r))
    decreases |es|
  {
    if es != [] {
      MissedDown(es[..|es| - 1], r);
      MissedSign(Run(es[..|es| - 1], r), es[|es| - 1], r);
    }
  }

  lemma {:induction false} UnscaledMissesNothing(es: seq<Event>, r: nat)
    requires r < REGISTERS && DrainsUnscaled(es, r)
    ensures Missed(es, r) == 0.0
    decreases |es|
  {
    if es != [] {
      UnscaledMissesNothing(es[..|es| - 1], r);
      MissedSign(Run(es[..|es| - 1], r), es[|es| - 1], r);
    }
  }

  /** "Energy gets the same factor as power" holds exactly when the drains missed
      nothing in sum. It always does when no counts were drained under a swapped
      transformer, and, unless drains under a larger and under a smaller one cancel
      each other, only then. */
  lemma SameFactorAsPower(es: seq<Event>, r: nat)
    requires r < REGISTERS
    ensures Run(es, r).m.wh[r] == COUNT_TO_WH * Ideal(es, r) <==> Missed(es, r) == 0.0
    ensures DrainsUnscaled(es, r) ==> Run(es, r).m.wh[r] == COUNT_TO_WH * Ideal(es, r)
    ensures (DrainsUp(es) || DrainsDown(es)) ==>
              (Run(es, r).m.wh[r] == COUNT_TO_WH * Ideal(es, r) <==> DrainsUnscaled(es, r))
  {
    EnergyShortfall(es, r);
    if DrainsUnscaled(es, r) { UnscaledMissesNothing(es, r); }
    if DrainsUp(es) { MissedUp(es, r); }
    if DrainsDown(es) { MissedDown(es, r); }
  }

  /** A single event from the fresh meter, and a drain under a doubled transformer. */
  lemma FirstPulse(g: Pulses)
    requires g[0] == 1
    ensures
      var w := Run([Generate(g)], 0);
      w.m.regs[0] == 1 && w.m.wh[0] == 0.0 && w.m.drainUs == 0 && Ideal([Generate(g)], 0) == 0.0
  {
    assert [Generate(g)][..0] == [];
  }

  lemma DrainUnderDouble(es: seq<Event>, p: Event)
    requires p.Pause? && NctScale(p.ct, p.ctCalib) == 2.0 && p.ok[0] && p.now >= DRAIN_PERIOD_US
    requires Run(es, 0).m.regs[0] == 1 && Run(es, 0).m.drainUs == 0
    ensures Ideal(es + [p], 0) == Ideal(es, 0) + 2.0 && !DrainsUnscaled(es + [p], 0)
    ensures Run(es + [p], 0).m.wh[0] == Run(es, 0).m.wh[0] + COUNT_TO_WH
  {
    assert (es + [p])[..|es|] == es;
    OneCountDrained(Run(es, 0), p);
  }

  lemma OneCountDrained(w: World, p: Event)
    requires w.m.Valid() && w.m.regs[0] == 1 && w.m.drainUs == 0 && p.Pause? && p.ok[0] && p.now >= DRAIN_PERIOD_US
    ensures DrainedBy(w, p, 0) == 1 && Step(w, p, 0).m.wh[0] == w.m.wh[0] + COUNT_TO_WH
  {
    AccumulatorGains(w, p, 0);
  }

  /** One pulse, drained while a transformer of twice the ratio is fitted: the
      accumulator shows one count where power would have made it two. */
  lemma DrainedPulseIsUnderweighted(g: Pulses, ok: Reads)
    requires g[0] == 1 && ok[0]
    ensures
      var es := [Generate(g)] + [Pause(ok, DRAIN_PERIOD_US, 2000, 1000)];
      Run(es, 0).m.wh[0] == COUNT_TO_WH && Ideal(es, 0) == 2.0 && !DrainsUnscaled(es, 0)
  {
    FirstPulse(g);
    assert NctScale(2000, 1000) == 2.0;
    DrainUnderDouble([Generate(g)], Pause(ok, DRAIN_PERIOD_US, 2000, 1000));
  }

  /* ---- the meter against its own events ---- */

  /** One register of a run kept beside the meter: the counts still in the chip, the
      energy they came to, and the stamp of the last drain. */
  datatype Account = Account(held: nat, wh: real, drainedAt: int)

  /** The factor that a swapped transformer calls for. */
  ghost predicate Factor(ct: u16, ctCalib: u16, k: real) {
    if ct >= 1000 && ctCalib >= 1000 then k * ctCalib as real == ct as real else k == 1.0
  }

  /** 320 counts are one watt-hour. */
  ghost function Taken(l: Account, ok: bool, k: real, stamp: int): Account {
    if ok then Account(0, l.wh + l.held as real / 320.0 * k, stamp) else Account(l.held, l.wh, stamp)
  }

  ghost predicate Follows(l: Account, e: Event, r: nat, after: Account)
    requires r < REGISTERS
  {
    match e
    case Generate(g) =>
      after == Account(if l.held + g[r] > 65535 then 65535 else l.held + g[r], l.wh, l.drainedAt)
    case Poll(ok, ct, ctCalib) =>
      exists k: real :: Factor(ct, ctCalib, k) && after == Taken(l, ok[r], k, 0)
    case Pause(ok, now, _, _) =>
      after == if now - l.drainedAt >= 10_000_000 then Taken(l, ok[r], 1.0, now) else l
  }

  function AccountOf(m: Meter, r: nat): Account
    requires m.Valid() && r < REGISTERS
  {
    Account(m.regs[r], m.wh[r], m.drainUs)
  }

  /** A sweep over the registers: those read are cleared and reported with their counts,
      the others stay, and are reported as invalid with none. */
  lemma SweepReports(regs: seq<u16>, ok: Reads, i: nat)
    requires |regs| == REGISTERS && i < REGISTERS
    ensures
      var (after, s) := ReadClear(regs, ok);
      && |after| == |s.counts| == |s.valid| == 4
      && (if ok[i] then after[i] == 0 && s.counts[i] == regs[i] && s.valid[i]
          else after[i] == regs[i] && s.counts[i] == 0 && !s.valid[i])
  {}

  lemma CountsToEnergy(counts: real, k: real)
    ensures counts * (COUNT_TO_WH * k) == counts / 320.0 * k
  {
    var x := counts / 320.0;
    assert counts * COUNT_TO_WH == x;
  }

  lemma FactorIsUnique(ct: u16, ctCalib: u16, j: real, k: real)
    requires Factor(ct, ctCalib, j) && Factor(ct, ctCalib, k)
    ensures j == k
  {
    if ct >= 1000 && ctCalib >= 1000 {
      assert (j - k) * ctCalib as real == 0.0;
    }
  }

  lemma SweepTakes(m: Meter, ok: Reads, scale: real, r: nat)
    requires m.Valid() && r < REGISTERS
    ensures AccountOf(Sweep(m, ok, scale), r) == Taken(AccountOf(m, r), ok[r], scale, m.drainUs)
  {
    CountsToEnergy(m.regs[r] as real, scale);
  }

  /** Every event does to every register just what it should: pulses pile up to the
      register's end, a poll that reads it turns its counts into energy at the factor of
      the transformers, and a drain does so at one, at most every ten seconds. */
  lemma MeterFollowsEvents(m: Meter, e: Event, r: nat)
    requires m.Valid() && r < REGISTERS
    ensures Follows(AccountOf(m, r), e, r, AccountOf(Act(m, e), r))
  {
    match e
    case Generate(_) =>
    case Poll(ok, ct, ctCalib) =>
      SweepTakes(m.(drainUs := 0), ok, NctScale(ct, ctCalib), r);
      assert Factor(ct, ctCalib, NctScale(ct, ctCalib));
    case Pause(ok, now, _, _) =>
      if now - m.drainUs >= 10_000_000 { SweepTakes(m.(drainUs := now), ok, 1.0, r); }
  }
}
