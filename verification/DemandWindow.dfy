/** Demand: the average of total active power over a window of real time,
    integrated as power times elapsed time. */
module DemandWindow {

  const US_PER_S := 1_000_000
  /** Two poll periods: a longer gap is discarded. */
  const MAX_GAP_S := 2.0
  const DEFAULT_WINDOW_MIN := 15

  function WindowSeconds(windowMin: nat): real {
    (if windowMin == 0 then 1 else windowMin) as real * 60.0
  }

  function Seconds(us: int): real { us as real / US_PER_S as real }

  datatype Demand = Demand(
    accumWs: real, elapsedS: real, lastUs: int,
    value: real, max: real, windowMin: nat)

  const POWER_ON := Demand(0.0, 0.0, 0, 0.0, 0.0, DEFAULT_WINDOW_MIN)

  /* ---- specification ---- */

  /** The stretch since the previous sample, when it is fit to be integrated. */
  predicate Counts(d: Demand, now: int) {
    d.lastUs != 0 && 0.0 < Seconds(now - d.lastUs) <= MAX_GAP_S
  }

  function Integrated(d: Demand, now: int, p: real): Demand {
    var dt := Seconds(now - d.lastUs);
    (if Counts(d, now) then d.(accumWs := d.accumWs + p * dt, elapsedS := d.elapsedS + dt) else d).(lastUs := now)
  }

  predicate Full(d: Demand) { d.elapsedS >= WindowSeconds(d.windowMin) }

  function Published(d: Demand): Demand {
    if Full(d) && d.elapsedS != 0.0 then
      var v := d.accumWs / d.elapsedS;
      d.(value := v, max := if v > d.max then v else d.max, accumWs := 0.0, elapsedS := 0.0)
    else d
  }

  function Sampled(d: Demand, now: int, p: real): Demand { Published(Integrated(d, now, p)) }

  function Paused(d: Demand): Demand { d.(lastUs := 0) }

  function Cleared(d: Demand): Demand {
    d.(accumWs := 0.0, elapsedS := 0.0, lastUs := 0, value := 0.0, max := 0.0)
  }

  function Rewindowed(d: Demand, minutes: nat): Demand {
    d.(windowMin := minutes, accumWs := 0.0, elapsedS := 0.0, lastUs := 0)
  }

  /** Boot: the persisted peak and window come back. */
  function Restored(peak: real, minutes: nat, now: int): Demand {
    POWER_ON.(max := peak, windowMin := if minutes > 0 then minutes else DEFAULT_WINDOW_MIN, lastUs := now)
  }

  class DemandMeter {
    var accumWs: real
    var elapsedS: real
    var lastUs: int
    var value: real
    var max: real
    var windowMin: nat

    ghost function State(): Demand
      reads this
    {
      Demand(accumWs, elapsedS, lastUs, value, max, windowMin)
    }

    constructor (peak: real, minutes: nat, now: int)
      ensures State() == Restored(peak, minutes, now)
    {
      accumWs, elapsedS, lastUs, value, max := 0.0, 0.0, now, 0.0, peak;
      windowMin := if minutes > 0 then minutes else DEFAULT_WINDOW_MIN;
    }

    method Integrate(now: int, totalActivePower: real)
      modifies this
      ensures State() == Integrated(old(State()), now, totalActivePower)
    {
      if lastUs != 0 {
        var dt := Seconds(now - lastUs);
        if dt > 0.0 && dt <= MAX_GAP_S {
          accumWs := accumWs + totalActivePower * dt;
          elapsedS := elapsedS + dt;
        }
      }
      lastUs := now;
    }

    method Publish()
      modifies this
      ensures State() == Published(old(State()))
    {
      var windowS := (if windowMin != 0 then windowMin else 1) as real * 60.0;
      if elapsedS >= windowS {
        value := accumWs / elapsedS;
        if value > max {
          max := value;
        }
        accumWs := 0.0;
        elapsedS := 0.0;
      }
    }

    /** The demand part of one successful poll. */
    method Sample(now: int, totalActivePower: real)
      modifies this
      ensures State() == Sampled(old(State()), now, totalActivePower)
    {
      Integrate(now, totalActivePower);
      Publish();
    }

    method Pause()
      modifies this
      ensures State() == Paused(old(State()))
    {
      lastUs := 0;
    }

    method ResetDemand()
      modifies this
      ensures State() == Cleared(old(State()))
    {
      accumWs, elapsedS, lastUs := 0.0, 0.0, 0;
      value, max := 0.0, 0.0;
    }

    method SetWindowMinutes(minutes: nat) returns (ok: bool)
      modifies this
      ensures ok == (minutes > 0)
      ensures State() == if ok then Rewindowed(old(State()), minutes) else old(State())
    {
      if minutes == 0 {
        return false;
      }
      windowMin := minutes;
      accumWs, elapsedS, lastUs := 0.0, 0.0, 0;
      return true;
    }
  }

  /* ---- runs ---- */

  datatype Event =
    | Sample(now: int, p: real)
    | Pause
    | Reset
    | SetWindow(minutes: nat)
    | Reboot(peak: real, minutes: nat, now: int)

  /** A stretch of accepted time at one power. */
  datatype Piece = Piece(p: real, dt: real)

  /** `pieces` are the stretches accepted since the window began at `begin`;
      `values` everything published since the last reset or reboot, and `peak`
      the demand maximum that was restored then. */
  datatype World = World(d: Demand, pieces: seq<Piece>, begin: int, clock: int, values: seq<real>, peak: real)

  function Boot(peak: real, minutes: nat, now: int): World {
    World(Restored(peak, minutes, now), [], now, now, [], peak)
  }

  function StepSample(w: World, now: int, p: real): World {
    var piece := if Counts(w.d, now) then [Piece(p, Seconds(now - w.d.lastUs))] else [];
    var d' := Sampled(w.d, now, p);
    if Full(Integrated(w.d, now, p)) then
      w.(d := d', pieces := [], begin := now, clock := now, values := w.values + [d'.value])
    else
      w.(d := d', pieces := w.pieces + piece, clock := now)
  }

  function Step(w: World, e: Event): World {
    match e
    case Sample(now, p) => StepSample(w, now, p)
    case Pause => w.(d := Paused(w.d))
    case Reset => w.(d := Cleared(w.d), pieces := [], begin := w.clock, values := [], peak := 0.0)
    case SetWindow(minutes) =>
      if minutes > 0 then w.(d := Rewindowed(w.d, minutes), pieces := [], begin := w.clock) else w
    case Reboot(peak, minutes, now) => Boot(peak, minutes, now)
  }

  function Run(w: World, es: seq<Event>): World
    decreases |es|
  {
    if es == [] then w else Step(Run(w, es[..|es| - 1]), es[|es| - 1])
  }

  /** The timer never runs backwards, except that it starts over at a reboot. */
  predicate Timely(clock: int, es: seq<Event>)
    decreases |es|
  {
    es == [] ||
    (var e := es[0];
     match e
     case Sample(now, _) => clock <= now && Timely(now, es[1..])
     case Reboot(_, _, now) => Timely(now, es[1..])
     case _ => Timely(clock, es[1..]))
  }

  function Energy(ps: seq<Piece>): real
    decreases |ps|
  {
    if ps == [] then 0.0 else Energy(ps[..|ps| - 1]) + ps[|ps| - 1].p * ps[|ps| - 1].dt
  }

  function Span(ps: seq<Piece>): real
    decreases |ps|
  {
    if ps == [] then 0.0 else Span(ps[..|ps| - 1]) + ps[|ps| - 1].dt
  }

  predicate Accepted(ps: seq<Piece>) {
    forall i :: 0 <= i < |ps| ==> 0.0 < ps[i].dt <= MAX_GAP_S
  }

  predicate Between(ps: seq<Piece>, lo: real, hi: real) {
    forall i :: 0 <= i < |ps| ==> lo <= ps[i].p <= hi
  }

  ghost predicate Inv(w: World) {
    && w.d.accumWs == Energy(w.pieces) && w.d.elapsedS == Span(w.pieces)
    && Accepted(w.pieces)
    && !Full(w.d)
    && (w.d.lastUs != 0 ==> w.d.lastUs <= w.clock) && w.begin <= w.clock
    && w.d.elapsedS <= Seconds((if w.d.lastUs != 0 then w.d.lastUs else w.clock) - w.begin)
  }

  /** Demand maximum: at least the restored peak and every value since. */
  ghost predicate Bounds(w: World) {
    && w.d.max >= w.peak
    && (forall i :: 0 <= i < |w.values| ==> w.values[i] <= w.d.max)
    && (w.d.max == w.peak || w.d.max in w.values)
    && (w.values != [] ==> w.d.value == w.values[|w.values| - 1])
  }

  lemma {:induction false} MeanWithin(ps: seq<Piece>, lo: real, hi: real)
    requires Accepted(ps) && Between(ps, lo, hi)
    ensures lo * Span(ps) <= Energy(ps) <= hi * Span(ps)
    ensures Span(ps) >= 0.0 && (ps != [] ==> Span(ps) > 0.0)
    decreases |ps|
  {
    if ps != [] {
      var q, x := ps[..|ps| - 1], ps[|ps| - 1];
      MeanWithin(q, lo, hi);
      AddPiece(lo, hi, Energy(q), Span(q), x.p, x.dt);
    }
  }

  lemma AddPiece(lo: real, hi: real, e: real, s: real, p: real, dt: real)
    requires lo * s <= e <= hi * s && lo <= p <= hi && dt > 0.0
    ensures lo * (s + dt) <= e + p * dt <= hi * (s + dt)
  {
    Weigh(lo, p, dt);
    Weigh(p, hi, dt);
    assert lo * (s + dt) == lo * s + lo * dt;
    assert hi * (s + dt) == hi * s + hi * dt;
  }

  lemma Weigh(x: real, y: real, dt: real)
    requires x <= y && dt > 0.0
    ensures x * dt <= y * dt
  {}

  lemma Quotient(e: real, s: real, lo: real, hi: real)
    requires s > 0.0 && lo * s <= e <= hi * s
    ensures lo <= e / s <= hi
  {
    var q := e / s;
    assert q * s == e;
  }

  lemma MeanBetween(ps: seq<Piece>, lo: real, hi: real)
    requires Accepted(ps) && Span(ps) > 0.0 && Between(ps, lo, hi)
    ensures lo <= Energy(ps) / Span(ps) <= hi
  {
    MeanWithin(ps, lo, hi);
    Quotient(Energy(ps), Span(ps), lo, hi);
  }

  /** The pieces a sample adds to the window that it may close. */
  function WindowPieces(w: World, now: int, p: real): seq<Piece> {
    w.pieces + if Counts(w.d, now) then [Piece(p, Seconds(now - w.d.lastUs))] else []
  }

  lemma IntegratesPieces(w: World, now: int, p: real)
    requires Inv(w) && w.clock <= now
    ensures
      var d1, ps := Integrated(w.d, now, p), WindowPieces(w, now, p);
      && d1.accumWs == Energy(ps) && d1.elapsedS == Span(ps) && Accepted(ps)
      && d1.elapsedS < WindowSeconds(w.d.windowMin) + MAX_GAP_S
      && d1.elapsedS <= Seconds(now - w.begin)
  {
    var ps := WindowPieces(w, now, p);
    if Counts(w.d, now) {
      assert ps[..|ps| - 1] == w.pieces;
    } else {
      assert ps == w.pieces;
    }
  }

  lemma WindowPositive(minutes: nat)
    ensures WindowSeconds(minutes) >= 60.0
  {}

  lemma SampleKeeps(w: World, now: int, p: real)
    requires Inv(w) && w.clock <= now
    ensures Inv(StepSample(w, now, p))
  {
    IntegratesPieces(w, now, p);
    WindowPositive(w.d.windowMin);
  }

  lemma StepKeeps(w: World, e: Event)
    requires Inv(w) && (e.Sample? ==> w.clock <= e.now)
    ensures Inv(Step(w, e))
  {
    match e
    case Sample(now, p) => SampleKeeps(w, now, p);
    case Reboot(_, _, _) => WindowPositive(Step(w, e).d.windowMin);
    case SetWindow(minutes) => WindowPositive(minutes);
    case Reset => WindowPositive(w.d.windowMin);
    case Pause =>
  }

  lemma StepKeepsBounds(w: World, e: Event)
    requires Bounds(w)
    ensures Bounds(Step(w, e))
  {
    var w' := Step(w, e);
    if e.Sample? && Full(Integrated(w.d, e.now, e.p)) {
      WindowPositive(w.d.windowMin);
      assert w'.values == w.values + [w'.d.value];
      assert w'.d.value in w'.values;
      assert forall v <- w.values :: v in w'.values;
    }
  }

  lemma {:induction false} TimelySplits(clock: int, w: World, es: seq<Event>)
    requires es != [] && Timely(clock, es) && w.clock == clock
    ensures Timely(clock, es[..|es| - 1])
    ensures es[|es| - 1].Sample? ==> Run(w, es[..|es| - 1]).clock <= es[|es| - 1].now
    decreases |es|
  {
    if |es| == 1 {
      assert es[..0] == [];
    } else {
      var w1 := Step(w, es[0]);
      TimelySplits(w1.clock, w1, es[1..]);
      assert es[1..][..|es| - 2] == es[..|es| - 1][1..];
      RunFrom(w, es[..|es| - 1]);
    }
  }

  /** A run may equally be unfolded from its first event. */
  lemma {:induction false} RunFrom(w: World, es: seq<Event>)
    requires es != []
    ensures Run(w, es) == Run(Step(w, es[0]), es[1..])
    decreases |es|
  {
    if |es| == 1 {
      assert es[..0] == [] && es[1..] == [];
    } else {
      RunFrom(w, es[..|es| - 1]);
      assert es[..|es| - 1][1..] == es[1..][..|es| - 2];
    }
  }

  lemma {:induction false} RunKeeps(w: World, es: seq<Event>)
    requires Inv(w) && Bounds(w) && Timely(w.clock, es)
    ensures Inv(Run(w, es)) && Bounds(Run(w, es))
    decreases |es|
  {
    if es != [] {
      TimelySplits(w.clock, w, es);
      RunKeeps(w, es[..|es| - 1]);
      StepKeeps(Run(w, es[..|es| - 1]), es[|es| - 1]);
      StepKeepsBounds(Run(w, es[..|es| - 1]), es[|es| - 1]);
    }
  }

  /* ---- what the design promises ---- */

  /** A published value is the time-weighted mean of exactly the accepted
      stretches of its window; those cover at least the configured time, less
      than one permitted gap more, and no more than really passed. */
  ghost predicate HonestMean(w: World, now: int, p: real) {
    var ps, d' := WindowPieces(w, now, p), Sampled(w.d, now, p);
    var length := WindowSeconds(w.d.windowMin);
    if Full(Integrated(w.d, now, p)) then
      && Accepted(ps) && Span(ps) > 0.0
      && d'.value == Energy(ps) / Span(ps)
      && length <= Span(ps) < length + MAX_GAP_S
      && Span(ps) <= Seconds(now - w.begin)
      && (forall lo, hi :: Between(ps, lo, hi) ==> lo <= Energy(ps) / Span(ps) <= hi)
    else
      d'.value == w.d.value && d'.max == w.d.max
  }

  lemma SampleIsHonest(w: World, now: int, p: real)
    requires Inv(w) && w.clock <= now
    ensures HonestMean(w, now, p)
  {
    IntegratesPieces(w, now, p);
    WindowPositive(w.d.windowMin);
    var ps, d1 := WindowPieces(w, now, p), Integrated(w.d, now, p);
    if Full(d1) {
      assert Sampled(w.d, now, p).value == d1.accumWs / d1.elapsedS;
      forall lo, hi | Between(ps, lo, hi) ensures lo <= Energy(ps) / Span(ps) <= hi {
        MeanBetween(ps, lo, hi);
      }
    }
  }

  lemma PublishedIsMean(peak: real, minutes: nat, start: int, es: seq<Event>, now: int, p: real)
    requires Timely(start, es) && Run(Boot(peak, minutes, start), es).clock <= now
    ensures HonestMean(Run(Boot(peak, minutes, start), es), now, p)
  {
    BootHolds(peak, minutes, start);
    RunKeeps(Boot(peak, minutes, start), es);
    SampleIsHonest(Run(Boot(peak, minutes, start), es), now, p);
  }

  lemma BootHolds(peak: real, minutes: nat, now: int)
    ensures Inv(Boot(peak, minutes, now)) && Bounds(Boot(peak, minutes, now))
  {
    WindowPositive(Restored(peak, minutes, now).windowMin);
  }

  /** Demand maximum bounds every value published since the last reset or boot,
      and is itself one of them or the restored peak. */
  lemma PeakBoundsValues(peak: real, minutes: nat, start: int, es: seq<Event>)
    requires Timely(start, es)
    ensures Bounds(Run(Boot(peak, minutes, start), es))
  {
    BootHolds(peak, minutes, start);
    RunKeeps(Boot(peak, minutes, start), es);
  }

  /** Pauses, clock jumps and gaps beyond two poll periods contribute nothing. */
  lemma LongGapAddsNothing(d: Demand, now: int, p: real)
    requires d.lastUs == 0 || now <= d.lastUs || Seconds(now - d.lastUs) > MAX_GAP_S
    requires !Full(d)
    ensures Sampled(d, now, p) == d.(lastUs := now)
  {
    if d.lastUs != 0 && now <= d.lastUs {
      assert Seconds(now - d.lastUs) <= 0.0;
    }
  }

  /* ---- the meter against its own events ---- */

  /** A run kept in whole microseconds: the previous sample's stamp (0 for none), the
      accepted time and its watt-seconds, the minutes set, and what was published. */
  datatype Account = Account(last: int, us: int, ws: real, minutes: nat, value: real, max: real)

  ghost function Booted(peak: real, minutes: nat, now: int): Account {
    Account(now, 0, 0.0, if minutes == 0 then 15 else minutes, 0.0, peak)
  }

  /** The two seconds of a permitted gap are its last microsecond; the window closes at
      60 seconds for every minute set, and at one minute when none is. */
  ghost function Sampling(l: Account, now: int, p: real): Account {
    var gap := now - l.last;
    var fits := l.last != 0 && 0 < gap <= 2_000_000;
    var us := if fits then l.us + gap else l.us;
    var ws := if fits then l.ws + p * (gap as real / 1_000_000.0) else l.ws;
    if us >= 60_000_000 * (if l.minutes == 0 then 1 else l.minutes) then
      var mean := ws / (us as real / 1_000_000.0);
      Account(now, 0, 0.0, l.minutes, mean, if mean > l.max then mean else l.max)
    else
      Account(now, us, ws, l.minutes, l.value, l.max)
  }

  ghost function AccountOf(peak: real, minutes: nat, start: int, es: seq<Event>): Account
    decreases |es|
  {
    if es == [] then Booted(peak, minutes, start) else
      var l := AccountOf(peak, minutes, start, es[..|es| - 1]);
      match es[|es| - 1]
      case Sample(now, p) => Sampling(l, now, p)
      case Pause => Account(0, l.us, l.ws, l.minutes, l.value, l.max)
      case Reset => Account(0, 0, 0.0, l.minutes, 0.0, 0.0)
      case SetWindow(n) => if n == 0 then l else Account(0, 0, 0.0, n, l.value, l.max)
      case Reboot(kept, n, now) => Booted(kept, n, now)
  }

  ghost predicate Tallies(d: Demand, l: Account) {
    && d.lastUs == l.last && d.windowMin == l.minutes && d.value == l.value && d.max == l.max
    && d.accumWs == l.ws && d.elapsedS == l.us as real / 1_000_000.0
  }

  lemma MicrosecondsAdd(us: int, gap: int)
    ensures us as real / 1_000_000.0 + Seconds(gap) == (us + gap) as real / 1_000_000.0
    ensures 0.0 < Seconds(gap) <= MAX_GAP_S <==> 0 < gap <= 2_000_000
  {}

  lemma WindowInMicroseconds(us: int, minutes: nat)
    ensures us as real / 1_000_000.0 >= WindowSeconds(minutes)
       <==> us >= 60_000_000 * (if minutes == 0 then 1 else minutes)
  {}

  lemma SampleTallies(d: Demand, l: Account, now: int, p: real)
    requires Tallies(d, l)
    ensures Tallies(Sampled(d, now, p), Sampling(l, now, p))
  {
    var gap := now - d.lastUs;
    MicrosecondsAdd(l.us, gap);
    var d1 := Integrated(d, now, p);
    var us := if d.lastUs != 0 && 0 < gap <= 2_000_000 then l.us + gap else l.us;
    assert d1.elapsedS == us as real / 1_000_000.0;
    WindowInMicroseconds(us, l.minutes);
    WindowPositive(l.minutes);
  }

  /** In every run the meter holds what its events alone make it hold, to the microsecond. */
  lemma {:induction false} MeterFollowsEvents(peak: real, minutes: nat, start: int, es: seq<Event>)
    ensures Tallies(Run(Boot(peak, minutes, start), es).d, AccountOf(peak, minutes, start, es))
    decreases |es|
  {
    if es != [] {
      MeterFollowsEvents(peak, minutes, start, es[..|es| - 1]);
      var e := es[|es| - 1];
      if e.Sample? {
        SampleTallies(Run(Boot(peak, minutes, start), es[..|es| - 1]).d,
                      AccountOf(peak, minutes, start, es[..|es| - 1]), e.now, e.p);
      }
    }
  }
}
