/** Calibration as a transaction over the chip, the wiring relay and three copies
    of the calibration in RAM: applying with rollback, every command that changes
    a calibration, and the multi-phase auto-calibration. */
module CalibControl {
  import opened CInt
  import opened CalibChip
  import CalibMath
  import opened Options

  /** The stored profile, the one in use, the one last applied, the relay (closed
      for three-wire), the driver with its chip, and how often the alarm thresholds
      were asked to follow new gains. */
  datatype Meter = Meter(stored: Calib, current: Calib, applied: Calib, relay: bool, drv: Driver, anchors: nat)

  function RelayFor(wiring: u32): bool { wiring == W3P3 }

  function Stamped(c: Calib, pga: u32, freq: u32): Calib { c.(pga := pga, freq := freq) }

  /** Switch the relay first when the wiring changes; on failure switch it back and
      write the previous calibration again; on success all copies follow. */
  function ApplyLocked(m: Meter, c: Calib): (Meter, Error) {
    if !Validated(c) then (m, InvalidArg)
    else
      var changed := m.applied.wiring != c.wiring;
      var tried := Applied(m.drv, c);
      if tried.1 == Fine
      then (Meter(c, c, c, if changed then RelayFor(c.wiring) else m.relay, tried.0, m.anchors + 1), Fine)
      else if changed then
        (m.(relay := RelayFor(m.applied.wiring), drv := Applied(tried.0, m.applied).0), tried.1)
      else (m.(drv := tried.0), tried.1)
  }

  /* ---- the commands ---- */

  function SetWiring(m: Meter, mode: u32, apply: bool): (Meter, Error) {
    var n := m.(current := m.current.(wiring := mode), stored := m.stored.(wiring := mode));
    if apply then ApplyLocked(n, n.current) else (n, Fine)
  }

  function SetLineFreq(m: Meter, freq: u32, apply: bool): (Meter, Error) {
    if freq > HZ60 then (m, InvalidArg)
    else
      var n := m.(stored := Stamped(m.stored, m.current.pga, freq), current := m.current.(freq := freq));
      if apply then ApplyLocked(n, n.current) else (n, Fine)
  }

  function SetCalibration(m: Meter, c: Calib): Meter {
    var next := Stamped(c, m.current.pga, m.current.freq);
    m.(stored := next, current := next)
  }

  function ApplyStored(m: Meter): (Meter, Error) {
    ApplyLocked(m, Stamped(m.stored, m.current.pga, m.current.freq).(wiring := m.current.wiring))
  }

  function Load(m: Meter, c: Calib, apply: bool): (Meter, Error) {
    var n := m.(current := c);
    if apply then ApplyLocked(n, c) else (n, Fine)
  }

  function ResetDefaults(m: Meter, pga: u32, freq: u32, apply: bool): (Meter, Error) {
    var c := Calib(freq, m.current.wiring, pga, [UNITY, UNITY, UNITY]);
    var n := m.(current := c, stored := c);
    if apply then ApplyLocked(n, c) else (n, Fine)
  }

  function CtApply(m: Meter, pga: u32): (Meter, Error) {
    var c := m.current.(pga := pga);
    ApplyLocked(m.(current := c, stored := c), c)
  }

  function ImportBlob(m: Meter, c: Calib, apply: bool): (Meter, Error) {
    if !Validated(c) then (m, InvalidArg)
    else
      var next := Stamped(c, m.current.pga, m.current.freq);
      var n := m.(stored := next, current := next);
      if apply then ApplyStored(n) else (n, Fine)
  }

  /** Phase values from a backup file; chip-wide settings stay as they run. */
  function Install(m: Meter, phases: Phases, fileMode: u32, apply: bool): (Meter, Error) {
    if apply
    then
      var c := Calib(m.current.freq, m.current.wiring, m.current.pga, phases);
      ApplyLocked(m.(stored := c, current := c), c)
    else (m.(stored := Calib(m.current.freq, fileMode, m.current.pga, phases)), Fine)
  }

  /** PQ-gain and phase auto-calibration: one tuned copy is applied, and on any
      failure, including one before the first write, the original is written again. */
  function Trial(m: Meter, tuned: Option<Calib>, accepted: bool): (Meter, Error) {
    var first := if tuned.Some? then ApplyLocked(m, tuned.value) else (m, Unavailable);
    if first.1 == Fine && accepted then first
    else (ApplyLocked(first.0, m.applied).0, if first.1 == Fine then Mismatch else first.1)
  }

  function WithPower(c: Calib, p: nat, reactive: bool, v: i16): Calib
    requires p < 3
  {
    c.(phases := c.phases[p := if reactive then c.phases[p].(qOff := v) else c.phases[p].(pOff := v)])
  }

  /** Power-offset calibration of one phase: zero the offset, take the no-load
      average as counts, store its negation, and judge what is left. */
  function PowerJudged(tuned: (Meter, Error), after: Option<int>, tolerance: nat): (Meter, Error) {
    if tuned.1 != Fine then tuned
    else if after.None? then (tuned.0, Unavailable)
    else if Abs(after.value) > tolerance then (tuned.0, Mismatch)
    else tuned
  }

  function PowerTune(c: Calib, zeroed: (Meter, Error), p: nat, reactive: bool, before: Option<int>, after: Option<int>,
                     tolerance: nat): (Meter, Error)
    requires p < 3
  {
    if zeroed.1 != Fine then zeroed
    else if before.None? then (zeroed.0, Unavailable)
    else if !(-0x8000 <= -before.value < 0x8000) then (zeroed.0, OutOfRange)
    else
      PowerJudged(ApplyLocked(zeroed.0, WithPower(c, p, reactive, -before.value)), after, tolerance)
  }

  function PowerAttempt(m: Meter, p: nat, reactive: bool, before: Option<int>, after: Option<int>, tolerance: nat)
    : (Meter, Error)
    requires p < 3
  {
    PowerTune(m.applied, ApplyLocked(m, WithPower(m.applied, p, reactive, 0)), p, reactive, before, after, tolerance)
  }

  /** On any failure the original is written again; the last part is how that went. */
  function PowerOffset(m: Meter, p: nat, reactive: bool, before: Option<int>, after: Option<int>, tolerance: nat)
    : (Meter, Error, Error)
    requires p < 3
  {
    var a := PowerAttempt(m, p, reactive, before, after, tolerance);
    if a.1 == Fine then (a.0, Fine, Fine)
    else
      var back := ApplyLocked(a.0, m.applied);
      (back.0, a.1, back.1)
  }

  /* ---- multi-phase auto-calibration ---- */

  /** Which phases, current or voltage, offset or gain. */
  datatype Request = Request(mask: set<nat>, current: bool, offset: bool)

  type Reading = CalibMath.Reading

  type Readings = s: seq<Reading> | |s| == 3 witness [0.0, 0.0, 0.0]

  /** The references and the averages before and after, where they can be had. */
  datatype Samples = Samples(refs: Option<Readings>, before: Option<Readings>, after: Option<Readings>)

  datatype Outcome = Outcome(err: Error, calibrated: set<nat>, rolledBack: bool, rollback: Error)

  function GainOf(p: Phase, current: bool): u16 { if current then p.iGain else p.vGain }

  function WithGain(p: Phase, current: bool, g: u16): Phase {
    if current then p.(iGain := g) else p.(vGain := g)
  }

  function WithOffset(p: Phase, current: bool, v: i16): Phase {
    if current then p.(iOff := v) else p.(vOff := v)
  }

  /** The gain computed for phase `p`, if it is a gain at all. */
  function NewGain(c: Calib, req: Request, refs: Readings, before: Readings, p: nat): CalibMath.Result<u16>
    requires p < 3
  {
    CalibMath.CalculateGain(GainOf(c.phases[p], req.current), refs[p], before[p])
  }

  predicate GainsExist(c: Calib, req: Request, refs: Readings, before: Readings) {
    forall p: nat :: p < 3 && p in req.mask ==> NewGain(c, req, refs, before, p).Ok?
  }

  function Regained(c: Calib, req: Request, refs: Readings, before: Readings): Calib
    requires GainsExist(c, req, refs, before)
  {
    c.(phases := seq(3, p requires 0 <= p < 3 =>
      if p in req.mask
      then WithGain(c.phases[p], req.current, NewGain(c, req, refs, before, p).value)
      else c.phases[p]))
  }

  /** The offset that cancels a no-load reading, in the register's own steps. */
  function Correction(req: Request, before: Reading): int {
    -CalibMath.LlRound(before * (if req.current then 1000.0 else 100.0))
  }

  predicate CorrectionsFit(req: Request, before: Readings) {
    forall p: nat :: p < 3 && p in req.mask ==> -0x8000 <= Correction(req, before[p]) < 0x8000
  }

  function Zeroed(c: Calib, req: Request): Calib {
    c.(phases := seq(3, p requires 0 <= p < 3 =>
      if p in req.mask then WithOffset(c.phases[p], req.current, 0) else c.phases[p]))
  }

  function Reoffset(c: Calib, req: Request, before: Readings): Calib
    requires CorrectionsFit(req, before)
  {
    c.(phases := seq(3, p requires 0 <= p < 3 =>
      if p in req.mask then WithOffset(c.phases[p], req.current, Correction(req, before[p])) else c.phases[p]))
  }

  /** What the attempt did: the meter, the error, and whether the chip was written. */
  datatype Attempt = Attempt(m: Meter, err: Error, wrote: bool)

  function OffsetTune(c: Calib, first: (Meter, Error), req: Request, s: Samples): Attempt {
    if first.1 != Fine then Attempt(first.0, first.1, true)
    else if s.before.None? then Attempt(first.0, Unavailable, true)
    else if !CorrectionsFit(req, s.before.value) then Attempt(first.0, OutOfRange, true)
    else
      var second := ApplyLocked(first.0, Reoffset(c, req, s.before.value));
      Attempt(second.0, second.1, true)
  }

  /** Zero the selected offsets, measure the bias, store its negation. */
  function OffsetAttempt(m: Meter, req: Request, s: Samples): Attempt {
    OffsetTune(m.applied, ApplyLocked(m, Zeroed(m.applied, req)), req, s)
  }

  /** Resolve references, measure, compute every gain, and only then write. */
  function GainAttempt(m: Meter, req: Request, s: Samples): Attempt {
    if s.refs.None? || s.before.None? then Attempt(m, Unavailable, false)
    else if !GainsExist(m.applied, req, s.refs.value, s.before.value) then Attempt(m, OutOfRange, false)
    else
      var done := ApplyLocked(m, Regained(m.applied, req, s.refs.value, s.before.value));
      Attempt(done.0, done.1, true)
  }

  function AutoCalibrate(m: Meter, req: Request, s: Samples): (Meter, Outcome) {
    if req.mask == {} || !(req.mask <= {0, 1, 2}) then (m, Outcome(InvalidArg, {}, false, Fine))
    else if m.applied.wiring == W3P3 then (m, Outcome(NotSupported, {}, false, Fine))
    else
      var a := if req.offset then OffsetAttempt(m, req, s) else GainAttempt(m, req, s);
      if a.err == Fine then (a.m, Outcome(if s.after.None? then Unavailable else Fine, req.mask, false, Fine))
      else if a.wrote then
        var back := ApplyLocked(a.m, m.applied);
        (back.0, Outcome(a.err, {}, true, back.1))
      else (a.m, Outcome(a.err, {}, false, Fine))
  }

  /* ---- the meter object ---- */

  class EnergyMeter {
    var stored: Calib
    var current: Calib
    var applied: Calib
    var relay: bool
    const chip: Atm90e32
    var anchors: nat

    ghost function State(): Meter
      reads this, chip
    {
      Meter(stored, current, applied, relay, chip.State(), anchors)
    }

    /** Bring-up: the relay follows the calibration found at boot. */
    constructor (boot: Calib, b: Bus)
      ensures fresh(chip) && State() == Meter(boot, boot, boot, RelayFor(boot.wiring), Driver(b, boot), 0)
    {
      stored, current, applied := boot, boot, boot;
      relay, anchors := RelayFor(boot.wiring), 0;
      chip := new Atm90e32(b, boot);
    }

    method Apply(c: Calib) returns (err: Error)
      modifies this, chip
      ensures (State(), err) == ApplyLocked(old(State()), c)
    {
      if !Validated(c) { return InvalidArg; }
      var previous := applied;
      var changed := previous.wiring != c.wiring;
      if changed { relay := RelayFor(c.wiring); }
      err := chip.ApplyCalibration(c);
      if err != Fine && changed {
        relay := RelayFor(previous.wiring);
        var rollback := chip.ApplyCalibration(previous);
        return;
      }
      if err == Fine {
        current, applied, stored := c, c, c;
        anchors := anchors + 1;
      }
    }

    method SetWiringMode(mode: u32, apply: bool) returns (err: Error)
      modifies this, chip
      ensures (State(), err) == SetWiring(old(State()), mode, apply)
    {
      current := current.(wiring := mode);
      stored := stored.(wiring := mode);
      err := Fine;
      if apply { err := Apply(current); }
    }

    method StampChipwide(pga: u32, freq: u32)
      modifies `stored, `current
      ensures stored == Stamped(old(stored), pga, freq) && current == Stamped(old(current), pga, freq)
    {
      stored := stored.(pga := pga, freq := freq);
      current := current.(pga := pga, freq := freq);
    }

    method ChangeLineFreq(freq: u32, apply: bool) returns (err: Error)
      modifies this, chip
      ensures (State(), err) == SetLineFreq(old(State()), freq, apply)
    {
      if freq > HZ60 { return InvalidArg; }
      StampChipwide(current.pga, freq);
      err := Fine;
      if apply { err := Apply(current); }
    }

    method ApplyCalibration() returns (err: Error)
      modifies this, chip
      ensures (State(), err) == ApplyStored(old(State()))
    {
      err := Apply(stored.(pga := current.pga, freq := current.freq, wiring := current.wiring));
    }

    /** A whole calibration from an old backup; gain stage and frequency stay as they run. */
    method ImportCalib(c: Calib, apply: bool) returns (err: Error)
      modifies this, chip
      ensures (State(), err) == ImportBlob(old(State()), c, apply)
    {
      if !Validated(c) { return InvalidArg; }
      var keepPga, keepFreq := current.pga, current.freq;
      stored, current := c, c;
      StampChipwide(keepPga, keepFreq);
      err := Fine;
      if apply { err := ApplyCalibration(); }
    }

    method InstallPhases(phases: Phases, fileMode: u32, apply: bool) returns (err: Error)
      modifies this, chip
      ensures (State(), err) == Install(old(State()), phases, fileMode, apply)
    {
      var mode, keepPga, keepFreq := current.wiring, current.pga, current.freq;
      var c := Calib(keepFreq, fileMode, keepPga, phases);
      err := Fine;
      if apply {
        c := c.(wiring := mode);
        stored, current := c, c;
        StampChipwide(keepPga, keepFreq);
        err := Apply(current);
      } else {
        stored := c;
        StampChipwide(keepPga, keepFreq);
      }
    }

    method WriteOffsets(c: Calib, req: Request, before: Readings) returns (w: Calib)
      requires CorrectionsFit(req, before)
      ensures w == Reoffset(c, req, before)
    {
      w := c;
      for p: nat := 0 to 3
        invariant w == c.(phases := w.phases)
        invariant forall k: nat :: k < p ==> w.phases[k] == Reoffset(c, req, before).phases[k]
        invariant forall k: nat :: p <= k < 3 ==> w.phases[k] == c.phases[k]
      {
        if p in req.mask {
          w := w.(phases := w.phases[p := WithOffset(w.phases[p], req.current, Correction(req, before[p]))]);
        }
      }
      assert w.phases == Reoffset(c, req, before).phases;
    }

    method ZeroOffsets(c: Calib, req: Request) returns (w: Calib)
      ensures w == Zeroed(c, req)
    {
      w := c;
      for p: nat := 0 to 3
        invariant w == c.(phases := w.phases)
        invariant forall k: nat :: k < p ==> w.phases[k] == Zeroed(c, req).phases[k]
        invariant forall k: nat :: p <= k < 3 ==> w.phases[k] == c.phases[k]
      {
        if p in req.mask { w := w.(phases := w.phases[p := WithOffset(w.phases[p], req.current, 0)]); }
      }
      assert w.phases == Zeroed(c, req).phases;
    }

    /** Every gain is computed before any is put into the working copy. */
    method ComputeGains(c: Calib, req: Request, refs: Readings, before: Readings) returns (ok: bool, w: Calib)
      ensures ok == GainsExist(c, req, refs, before)
      ensures ok ==> w == Regained(c, req, refs, before)
    {
      var calculated: seq<u16> := [0, 0, 0];
      w := c;
      for p: nat := 0 to 3
        invariant |calculated| == 3
        invariant forall k: nat :: k < p && k in req.mask ==>
                                     NewGain(c, req, refs, before, k) == CalibMath.Ok(calculated[k])
      {
        if p in req.mask {
          var g := CalibMath.CalculateGain(GainOf(c.phases[p], req.current), refs[p], before[p]);
          if g.Err? {
            assert NewGain(c, req, refs, before, p).Err?;
            return false, c;
          }
          calculated := calculated[p := g.value];
        }
      }
      for p: nat := 0 to 3
        invariant w == c.(phases := w.phases)
        invariant forall k: nat :: k < p ==> w.phases[k] == Regained(c, req, refs, before).phases[k]
        invariant forall k: nat :: p <= k < 3 ==> w.phases[k] == c.phases[k]
      {
        if p in req.mask { w := w.(phases := w.phases[p := WithGain(w.phases[p], req.current, calculated[p])]); }
      }
      assert w.phases == Regained(c, req, refs, before).phases;
      ok := true;
    }

    /** The range of every correction is checked before any is written. */
    method CheckCorrections(req: Request, before: Readings) returns (ok: bool)
      ensures ok == CorrectionsFit(req, before)
    {
      for p: nat := 0 to 3
        invariant forall k: nat :: k < p && k in req.mask ==> -0x8000 <= Correction(req, before[k]) < 0x8000
      {
        if p in req.mask {
          var reading: real := before[p];
          var raw := CalibMath.LlRound(reading * (if req.current then 1000.0 else 100.0));
          if -raw < -0x8000 || -raw > 0x7FFF {
            assert Correction(req, before[p]) == -raw;
            return false;
          }
        }
      }
      ok := true;
    }

    method TryOffsets(req: Request, s: Samples) returns (err: Error)
      modifies this, chip
      ensures Attempt(State(), err, true) == OffsetAttempt(old(State()), req, s)
    {
      var original := applied;
      var working := ZeroOffsets(original, req);
      err := Apply(working);
      if err != Fine { return; }
      if s.before.None? { return Unavailable; }
      var fit := CheckCorrections(req, s.before.value);
      if !fit { return OutOfRange; }
      working := WriteOffsets(original, req, s.before.value);
      err := Apply(working);
    }

    method TryGains(req: Request, s: Samples) returns (err: Error, wrote: bool)
      modifies this, chip
      ensures Attempt(State(), err, wrote) == GainAttempt(old(State()), req, s)
    {
      if s.refs.None? || s.before.None? { return Unavailable, false; }
      var ok, working := ComputeGains(applied, req, s.refs.value, s.before.value);
      if !ok { return OutOfRange, false; }
      err := Apply(working);
      wrote := true;
    }

    method AutoCalibrateMulti(req: Request, s: Samples) returns (o: Outcome)
      modifies this, chip
      ensures (State(), o) == AutoCalibrate(old(State()), req, s)
    {
      if req.mask == {} || !(req.mask <= {0, 1, 2}) { return Outcome(InvalidArg, {}, false, Fine); }
      var original := applied;
      if original.wiring == W3P3 { return Outcome(NotSupported, {}, false, Fine); }
      var err, wrote := Fine, true;
      if req.offset {
        err := TryOffsets(req, s);
      } else {
        err, wrote := TryGains(req, s);
      }
      if err == Fine {
        return Outcome(if s.after.None? then Unavailable else Fine, req.mask, false, Fine);
      }
      if wrote {
        var back := Apply(original);
        return Outcome(err, {}, true, back);
      }
      return Outcome(err, {}, false, Fine);
    }
  }

  /* ---- the relay ---- */

  datatype Command =
    | SetWiringCmd(mode: u32, apply: bool)
    | SetLineFreqCmd(freq: u32, apply: bool)
    | SetCalibrationCmd(c: Calib)
    | ApplyCmd
    | LoadCmd(c: Calib, apply: bool)
    | ResetCmd(pga: u32, freq: u32, apply: bool)
    | CtCmd(pga: u32)
    | ImportCmd(c: Calib, apply: bool)
    | InstallCmd(phases: Phases, mode: u32, apply: bool)
    | TrialCmd(tuned: Option<Calib>, accepted: bool)
    | PowerCmd(p: nat, reactive: bool, before: Option<int>, after: Option<int>, tolerance: nat)
    | AutoCmd(req: Request, s: Samples)

  function Execute(m: Meter, e: Command): Meter {
    match e
    case SetWiringCmd(mode, apply) => SetWiring(m, mode, apply).0
    case SetLineFreqCmd(freq, apply) => SetLineFreq(m, freq, apply).0
    case SetCalibrationCmd(c) => SetCalibration(m, c)
    case ApplyCmd => ApplyStored(m).0
    case LoadCmd(c, apply) => Load(m, c, apply).0
    case ResetCmd(pga, freq, apply) => ResetDefaults(m, pga, freq, apply).0
    case CtCmd(pga) => CtApply(m, pga).0
    case ImportCmd(c, apply) => ImportBlob(m, c, apply).0
    case InstallCmd(phases, mode, apply) => Install(m, phases, mode, apply).0
    case TrialCmd(tuned, accepted) => Trial(m, tuned, accepted).0
    case PowerCmd(p, reactive, before, after, tolerance) =>
      if p < 3 then PowerOffset(m, p, reactive, before, after, tolerance).0 else m
    case AutoCmd(req, s) => AutoCalibrate(m, req, s).0
  }

  function Run(m: Meter, es: seq<Command>): Meter {
    if es == [] then m else Execute(Run(m, es[..|es| - 1]), es[|es| - 1])
  }

  /** The relay is closed exactly for a three-wire calibration, and the driver
      scales its readings by that same calibration. */
  ghost predicate InStep(m: Meter) { (m.relay <==> m.applied.wiring == 1) && m.drv.calib == m.applied }

  /** Applying either installs exactly the target, read back from the chip, or
      leaves every copy and the relay as they were; then, after a change of wiring,
      it has tried to write the old calibration again. */
  lemma ApplyIsAtomic(m: Meter, c: Calib)
    requires InStep(m)
    ensures
      var (v, err) := ApplyLocked(m, c);
      && InStep(v)
      && (err == Fine ==>
            && v.stored == v.current == v.applied == c && Usable(c)
            && AllHeld(v.drv.bus, c) && ImageByNumber(v.drv.bus, c) && v.anchors == m.anchors + 1)
      && (err != Fine ==> v == m.(drv := v.drv))
      && (err != Fine && Usable(c) ==>
            v.drv == if c.wiring == m.applied.wiring then Applied(m.drv, c).0
                     else Applied(Applied(m.drv, c).0, m.applied).0)
  {
    SuccessMeansWritten(m.drv, c);
    UsableIsValidated(c);
    if Applied(m.drv, c).1 == Fine { AppliedByNumber(m.drv, c); }
    SuccessMeansWritten(Applied(m.drv, c).0, m.applied);
  }

  lemma OffsetKeepsRelay(c: Calib, first: (Meter, Error), req: Request, s: Samples)
    requires InStep(first.0)
    ensures InStep(OffsetTune(c, first, req, s).m)
  {
    if s.before.Some? && CorrectionsFit(req, s.before.value) {
      ApplyIsAtomic(first.0, Reoffset(c, req, s.before.value));
    }
  }

  lemma GainKeepsRelay(m: Meter, req: Request, s: Samples)
    requires InStep(m)
    ensures InStep(GainAttempt(m, req, s).m)
  {
    if s.refs.Some? && s.before.Some? && GainsExist(m.applied, req, s.refs.value, s.before.value) {
      ApplyIsAtomic(m, Regained(m.applied, req, s.refs.value, s.before.value));
    }
  }

  lemma AttemptKeepsRelay(m: Meter, req: Request, s: Samples)
    requires InStep(m)
    ensures InStep((if req.offset then OffsetAttempt(m, req, s) else GainAttempt(m, req, s)).m)
  {
    if req.offset {
      ApplyIsAtomic(m, Zeroed(m.applied, req));
      OffsetKeepsRelay(m.applied, ApplyLocked(m, Zeroed(m.applied, req)), req, s);
    } else {
      GainKeepsRelay(m, req, s);
    }
  }

  lemma AutoKeepsRelay(m: Meter, req: Request, s: Samples)
    requires InStep(m)
    ensures InStep(AutoCalibrate(m, req, s).0)
  {
    AttemptKeepsRelay(m, req, s);
    ApplyIsAtomic((if req.offset then OffsetAttempt(m, req, s) else GainAttempt(m, req, s)).m, m.applied);
  }

  lemma TrialKeepsRelay(m: Meter, tuned: Option<Calib>, accepted: bool)
    requires InStep(m)
    ensures InStep(Trial(m, tuned, accepted).0)
  {
    if tuned.Some? {
      ApplyIsAtomic(m, tuned.value);
      ApplyIsAtomic(ApplyLocked(m, tuned.value).0, m.applied);
    } else {
      ApplyIsAtomic(m, m.applied);
    }
  }

  /** The relay and the wiring are as before, and the meter is in step. */
  ghost predicate Alike(m: Meter, v: Meter) {
    InStep(v) && v.relay == m.relay && v.applied.wiring == m.applied.wiring
  }

  ghost predicate Installed(v: Meter, c: Calib) {
    v.stored == v.current == v.applied == c && AllHeld(v.drv.bus, c)
  }

  ghost predicate PowerDone(m: Meter, r: (Meter, Error), p: nat, reactive: bool, before: Option<int>,
                            after: Option<int>, tolerance: nat)
    requires p < 3
  {
    && Alike(m, r.0)
    && (r.1 == Fine ==>
          && before.Some? && -0x8000 <= -before.value < 0x8000 && after.Some? && Abs(after.value) <= tolerance
          && Installed(r.0, WithPower(m.applied, p, reactive, -before.value)))
  }

  lemma PowerJudgedDone(m: Meter, tuned: (Meter, Error), p: nat, reactive: bool, before: Option<int>,
                        after: Option<int>, tolerance: nat)
    requires p < 3 && Alike(m, tuned.0) && before.Some? && -0x8000 <= -before.value < 0x8000
    requires tuned.1 == Fine ==> Installed(tuned.0, WithPower(m.applied, p, reactive, -before.value))
    ensures PowerDone(m, PowerJudged(tuned, after, tolerance), p, reactive, before, after, tolerance)
  {
  }

  lemma PowerTunedDone(m: Meter, u: Meter, p: nat, reactive: bool, before: Option<int>, after: Option<int>,
                       tolerance: nat)
    requires Alike(m, u) && p < 3 && before.Some? && -0x8000 <= -before.value < 0x8000
    ensures
      var tuned := ApplyLocked(u, WithPower(m.applied, p, reactive, -before.value));
      PowerDone(m, PowerJudged(tuned, after, tolerance), p, reactive, before, after, tolerance)
  {
    var c := WithPower(m.applied, p, reactive, -before.value);
    PowerKeepsWiring(m.applied, p, reactive, -before.value);
    ApplySameWiring(u, c);
    PowerJudgedDone(m, ApplyLocked(u, c), p, reactive, before, after, tolerance);
  }

  lemma PowerKeepsWiring(c: Calib, p: nat, reactive: bool, v: i16)
    requires p < 3
    ensures WithPower(c, p, reactive, v).wiring == c.wiring
  {}

  lemma PowerTuneDone(m: Meter, zeroed: (Meter, Error), p: nat, reactive: bool, before: Option<int>, after: Option<int>,
                      tolerance: nat)
    requires Alike(m, zeroed.0) && p < 3
    ensures
      var r := PowerTune(m.applied, zeroed, p, reactive, before, after, tolerance);
      PowerDone(m, r, p, reactive, before, after, tolerance)
  {
    if zeroed.1 != Fine {
      PowerStops(m.applied, zeroed, p, reactive, before, after, tolerance);
    } else if before.Some? && -32767 <= before.value <= 32768 {
      PowerTunedDone(m, zeroed.0, p, reactive, before, after, tolerance);
      PowerIsJudged(m.applied, zeroed, p, reactive, before.value, after, tolerance);
    } else {
      PowerUntuned(m.applied, zeroed, p, reactive, before, after, tolerance);
    }
  }

  lemma PowerStops(c: Calib, z: (Meter, Error), p: nat, reactive: bool, before: Option<int>, after: Option<int>,
                   tolerance: nat)
    requires p < 3 && z.1 != Fine
    ensures PowerTune(c, z, p, reactive, before, after, tolerance) == z
  {}

  lemma PowerAttemptDone(m: Meter, p: nat, reactive: bool, before: Option<int>, after: Option<int>, tolerance: nat)
    requires InStep(m) && p < 3
    ensures PowerDone(m, PowerAttempt(m, p, reactive, before, after, tolerance), p, reactive, before, after, tolerance)
  {
    ApplySameWiring(m, WithPower(m.applied, p, reactive, 0));
    PowerTuneDone(m, ApplyLocked(m, WithPower(m.applied, p, reactive, 0)), p, reactive, before, after, tolerance);
  }

  /** Only phase `p` differs, and is `q`. */
  ghost predicate OnePhase(c: Calib, w: Calib, p: nat, q: Phase)
    requires p < 3
  {
    && w.freq == c.freq && w.wiring == c.wiring && w.pga == c.pga
    && w.phases[p] == q && forall k: nat :: k < 3 && k != p ==> w.phases[k] == c.phases[k]
  }

  /** Success leaves exactly the negated no-load reading in the chosen register, and
      a residual within the tolerance; failure, if the original can be written
      again, leaves exactly the original. */
  lemma PowerOffsetIsAllOrNothing(m: Meter, p: nat, reactive: bool, before: Option<int>, after: Option<int>,
                                  tolerance: nat)
    requires InStep(m) && p < 3
    ensures
      var (v, err, rollback) := PowerOffset(m, p, reactive, before, after, tolerance);
      && InStep(v) && v.relay == m.relay
      && (err == Fine ==>
            && before.Some? && after.Some? && Abs(after.value) <= tolerance
            && v.stored == v.current == v.applied && AllHeld(v.drv.bus, v.applied)
            && -0x8000 <= -before.value < 0x8000
            && OnePhase(m.applied, v.applied, p, if reactive then m.applied.phases[p].(qOff := -before.value)
                                                 else m.applied.phases[p].(pOff := -before.value)))
      && (err != Fine && rollback == Fine ==>
            v.stored == v.current == v.applied == m.applied && AllHeld(v.drv.bus, m.applied))
  {
    PowerAttemptDone(m, p, reactive, before, after, tolerance);
    ApplySameWiring(PowerAttempt(m, p, reactive, before, after, tolerance).0, m.applied);
  }

  predicate Tunes(e: Command) { e.TrialCmd? || e.PowerCmd? || e.AutoCmd? }

  lemma PowerKeepsRelay(m: Meter, p: nat, reactive: bool, before: Option<int>, after: Option<int>, tolerance: nat)
    requires InStep(m) && p < 3
    ensures InStep(PowerOffset(m, p, reactive, before, after, tolerance).0)
  {
    PowerOffsetIsAllOrNothing(m, p, reactive, before, after, tolerance);
  }

  lemma TuningKeepsRelay(m: Meter, e: Command)
    requires InStep(m) && Tunes(e)
    ensures InStep(Execute(m, e))
  {
    match e
    case TrialCmd(tuned, accepted) => TrialKeepsRelay(m, tuned, accepted);
    case PowerCmd(p, reactive, before, after, tolerance) =>
      if p < 3 { PowerKeepsRelay(m, p, reactive, before, after, tolerance); }
    case AutoCmd(req, s) => AutoKeepsRelay(m, req, s);
  }

  lemma SettingKeepsRelay(m: Meter, e: Command)
    requires InStep(m) && !Tunes(e)
    ensures InStep(Execute(m, e))
  {
    match e
    case SetWiringCmd(mode, apply) =>
      var n := m.(current := m.current.(wiring := mode), stored := m.stored.(wiring := mode));
      ApplyIsAtomic(n, n.current);
    case SetLineFreqCmd(freq, apply) =>
      var n := m.(stored := Stamped(m.stored, m.current.pga, freq), current := m.current.(freq := freq));
      ApplyIsAtomic(n, n.current);
    case SetCalibrationCmd(c) =>
    case ApplyCmd => ApplyIsAtomic(m, Stamped(m.stored, m.current.pga, m.current.freq).(wiring := m.current.wiring));
    case LoadCmd(c, apply) => ApplyIsAtomic(m.(current := c), c);
    case ResetCmd(pga, freq, apply) =>
      var c := Calib(freq, m.current.wiring, pga, [UNITY, UNITY, UNITY]);
      ApplyIsAtomic(m.(current := c, stored := c), c);
    case CtCmd(pga) =>
      var c := m.current.(pga := pga);
      ApplyIsAtomic(m.(current := c, stored := c), c);
    case ImportCmd(c, apply) =>
      var next := Stamped(c, m.current.pga, m.current.freq);
      ApplyIsAtomic(m.(stored := next, current := next), Stamped(next, next.pga, next.freq).(wiring := next.wiring));
    case InstallCmd(phases, mode, apply) =>
      var c := Calib(m.current.freq, m.current.wiring, m.current.pga, phases);
      ApplyIsAtomic(m.(stored := c, current := c), c);
  }

  lemma CommandKeepsRelay(m: Meter, e: Command)
    requires InStep(m)
    ensures InStep(Execute(m, e))
  {
    if Tunes(e) { TuningKeepsRelay(m, e); } else { SettingKeepsRelay(m, e); }
  }

  /** From bring-up on, whatever commands run and however the bus misbehaves, the
      relay stands where the last applied calibration's wiring wants it. */
  lemma {:induction false} RelayFollowsApplied(boot: Calib, b: Bus, es: seq<Command>)
    ensures InStep(Run(Meter(boot, boot, boot, RelayFor(boot.wiring), Driver(b, boot), 0), es))
    decreases |es|
  {
    var m := Meter(boot, boot, boot, RelayFor(boot.wiring), Driver(b, boot), 0);
    if es != [] {
      RelayFollowsApplied(boot, b, es[..|es| - 1]);
      CommandKeepsRelay(Run(m, es[..|es| - 1]), es[|es| - 1]);
    }
  }

  /* ---- all or nothing ---- */

  /** The tuned calibration differs from the original only in the requested
      register of the selected phases. */
  ghost predicate TunedOnly(c: Calib, w: Calib, req: Request) {
    && w.freq == c.freq && w.wiring == c.wiring && w.pga == c.pga
    && forall p: nat :: p < 3 ==> TunedPhase(c.phases[p], w.phases[p], req, p)
  }

  ghost predicate TunedPhase(x: Phase, y: Phase, req: Request, p: nat) {
    if p !in req.mask then y == x
    else if req.offset then (if req.current then y == x.(iOff := y.iOff) else y == x.(vOff := y.vOff))
    else (if req.current then y == x.(iGain := y.iGain) else y == x.(vGain := y.vGain))
  }

  /** An offset is the no-load reading with its sign turned, in milliamperes or in
      hundredths of a volt, to the nearest step. */
  ghost predicate Cancels(offset: i16, current: bool, reading: real) {
    -0.5 <= offset as real + reading * (if current then 1000.0 else 100.0) <= 0.5
  }

  lemma CorrectionCancels(req: Request, reading: Reading)
    requires -0x8000 <= Correction(req, reading) < 0x8000
    ensures Cancels(Correction(req, reading), req.current, reading)
  {
    CalibMath.LlRoundIsNearest(reading * (if req.current then 1000.0 else 100.0));
  }

  /** The registers it does change hold the values the measurement calls for. */
  ghost predicate TunedWell(c: Calib, w: Calib, req: Request, s: Samples) {
    s.before.Some? && forall p: nat :: p < 3 && p in req.mask ==>
      if req.offset
      then
        Cancels(if req.current then w.phases[p].iOff else w.phases[p].vOff, req.current, s.before.value[p])
      else
        && s.refs.Some?
        && CalibMath.CalculateGain(if req.current then c.phases[p].iGain else c.phases[p].vGain,
                                   s.refs.value[p], s.before.value[p])
           == CalibMath.Ok(if req.current then w.phases[p].iGain else w.phases[p].vGain)
  }

  /** Committed: every copy and the chip hold one tuned calibration. */
  ghost predicate Committed(m: Meter, v: Meter, req: Request, s: Samples) {
    && v.stored == v.current == v.applied && AllHeld(v.drv.bus, v.applied) && v.relay == m.relay
    && TunedOnly(m.applied, v.applied, req) && TunedWell(m.applied, v.applied, req, s)
  }

  /** Rolled back: if the original could be written again, it is exactly what the
      chip and every copy hold. */
  ghost predicate Restored(m: Meter, v: Meter) {
    v.stored == v.current == v.applied == m.applied && AllHeld(v.drv.bus, m.applied) && v.relay == m.relay
  }

  lemma ApplySameWiring(m: Meter, c: Calib)
    requires c.wiring == m.applied.wiring && InStep(m)
    ensures
      var (v, err) := ApplyLocked(m, c);
      Alike(m, v) && (err == Fine ==> Installed(v, c))
  {
    ApplyIsAtomic(m, c);
  }

  lemma OffsetTuneDone(m: Meter, first: (Meter, Error), req: Request, s: Samples)
    requires Alike(m, first.0)
    ensures
      var a := OffsetTune(m.applied, first, req, s);
      && a.wrote && Alike(m, a.m)
      && (a.err == Fine ==>
            && s.before.Some? && CorrectionsFit(req, s.before.value)
            && Installed(a.m, Reoffset(m.applied, req, s.before.value)))
  {
    if s.before.Some? && CorrectionsFit(req, s.before.value) {
      ApplySameWiring(first.0, Reoffset(m.applied, req, s.before.value));
    }
  }

  lemma OffsetAttemptDone(m: Meter, req: Request, s: Samples)
    requires InStep(m)
    ensures
      var a := OffsetAttempt(m, req, s);
      && a.wrote && Alike(m, a.m)
      && (a.err == Fine ==>
            && s.before.Some? && CorrectionsFit(req, s.before.value)
            && Installed(a.m, Reoffset(m.applied, req, s.before.value)))
  {
    ApplySameWiring(m, Zeroed(m.applied, req));
    OffsetTuneDone(m, ApplyLocked(m, Zeroed(m.applied, req)), req, s);
  }

  lemma GainAttemptDone(m: Meter, req: Request, s: Samples)
    requires InStep(m)
    ensures
      var a := GainAttempt(m, req, s);
      && Alike(m, a.m) && (!a.wrote ==> a.m == m && a.err != Fine)
      && (a.err == Fine ==>
            s.refs.Some? && s.before.Some? && GainsExist(m.applied, req, s.refs.value, s.before.value)
            && Installed(a.m, Regained(m.applied, req, s.refs.value, s.before.value)))
  {
    if s.refs.Some? && s.before.Some? && GainsExist(m.applied, req, s.refs.value, s.before.value) {
      ApplySameWiring(m, Regained(m.applied, req, s.refs.value, s.before.value));
    }
  }

  lemma OffsetCommits(m: Meter, req: Request, s: Samples)
    requires InStep(m) && req.offset && OffsetAttempt(m, req, s).err == Fine
    ensures Committed(m, OffsetAttempt(m, req, s).m, req, s)
  {
    OffsetAttemptDone(m, req, s);
    forall p: nat | p < 3 && p in req.mask { CorrectionCancels(req, s.before.value[p]); }
    assert TunedOnly(m.applied, Reoffset(m.applied, req, s.before.value), req);
  }

  lemma GainCommits(m: Meter, req: Request, s: Samples)
    requires InStep(m) && !req.offset && GainAttempt(m, req, s).err == Fine
    ensures Committed(m, GainAttempt(m, req, s).m, req, s)
  {
    GainAttemptDone(m, req, s);
    assert TunedOnly(m.applied, Regained(m.applied, req, s.refs.value, s.before.value), req);
  }

  lemma AttemptTunes(m: Meter, req: Request, s: Samples)
    requires InStep(m)
    ensures
      var a := if req.offset then OffsetAttempt(m, req, s) else GainAttempt(m, req, s);
      && Alike(m, a.m)
      && (!a.wrote ==> a.m == m && a.err != Fine)
      && (a.err == Fine ==> Committed(m, a.m, req, s))
  {
    if req.offset {
      OffsetAttemptDone(m, req, s);
      if OffsetAttempt(m, req, s).err == Fine { OffsetCommits(m, req, s); }
    } else {
      GainAttemptDone(m, req, s);
      if GainAttempt(m, req, s).err == Fine { GainCommits(m, req, s); }
    }
  }

  ghost predicate AllOrNothing(m: Meter, v: Meter, o: Outcome, req: Request, s: Samples) {
    if m.applied.wiring == W3P3 then
      v == m && o.calibrated == {} && !o.rolledBack && o.err in {InvalidArg, NotSupported}
    else if o.calibrated != {} then
      && !o.rolledBack && o.calibrated == req.mask && Committed(m, v, req, s)
      && (o.err != Fine <==> s.after.None?)
    else
      && o.err != Fine
      && (if o.rolledBack then (o.rollback == Fine ==> Restored(m, v)) && v.relay == m.relay else v == m)
  }

  lemma CommitFits(m: Meter, v: Meter, o: Outcome, req: Request, s: Samples)
    requires m.applied.wiring != W3P3 && req.mask != {} && Committed(m, v, req, s)
    requires o == Outcome(if s.after.None? then Unavailable else Fine, req.mask, false, Fine)
    ensures AllOrNothing(m, v, o, req, s)
  {}

  lemma RollbackFits(m: Meter, u: Meter, why: Error, req: Request, s: Samples)
    requires m.applied.wiring != W3P3 && Alike(m, u) && why != Fine
    ensures
      var back := ApplyLocked(u, m.applied);
      AllOrNothing(m, back.0, Outcome(why, {}, true, back.1), req, s)
  {
    ApplySameWiring(u, m.applied);
  }

  /** Auto-calibration is all or nothing, in every run of readings and bus faults:
      it commits one calibration that differs from the original only in the chosen
      register of the chosen phases, each with its computed value, even if the final
      check could not be read; or it fails before any chip write, with nothing
      changed, as it always does in three-wire mode; or it tries to roll back, and
      a successful rollback ends at exactly the original. */
  lemma AutoCalibrationIsAllOrNothing(m: Meter, req: Request, s: Samples)
    requires InStep(m)
    ensures
      var (v, o) := AutoCalibrate(m, req, s);
      AllOrNothing(m, v, o, req, s)
  {
    if req.mask != {} && req.mask <= {0, 1, 2} && m.applied.wiring != W3P3 {
      AttemptTunes(m, req, s);
      var a := if req.offset then OffsetAttempt(m, req, s) else GainAttempt(m, req, s);
      if a.err == Fine {
        CommitFits(m, a.m, AutoCalibrate(m, req, s).1, req, s);
      } else if a.wrote {
        RollbackFits(m, a.m, a.err, req, s);
      }
    }
  }

  /** Refused before anything happens: no phase or a phase that does not exist, and any
      request while three-wire is applied. */
  lemma RefusedExactly(m: Meter, req: Request, s: Samples)
    ensures (req.mask == {} || exists p :: p in req.mask && p > 2) ==>
              AutoCalibrate(m, req, s) == (m, Outcome(InvalidArg, {}, false, Fine))
    ensures req.mask != {} && (forall p :: p in req.mask ==> p <= 2) && m.applied.wiring == 1 ==>
              AutoCalibrate(m, req, s) == (m, Outcome(NotSupported, {}, false, Fine))
  {
    assert req.mask <= {0, 1, 2} <==> forall p :: p in req.mask ==> p <= 2;
  }

  /** The trial of a power gain or delay: it ends with exactly the tuned calibration, if it
      could be computed and applied and its result was accepted; otherwise, if the original
      could be written again, with exactly the original. */
  lemma TrialIsAllOrNothing(m: Meter, tuned: Option<Calib>, accepted: bool)
    requires InStep(m)
    ensures
      var (v, err) := Trial(m, tuned, accepted);
      && InStep(v)
      && (err == Fine <==> tuned.Some? && accepted && ApplyLocked(m, tuned.value).1 == Fine)
      && (err == Fine ==> Installed(v, tuned.value))
      && (err != Fine ==>
            || (v.applied == m.applied && v.relay == m.relay)
            || (err == Mismatch && tuned.Some? && !accepted && v.applied == tuned.value))
  {
    var first := if tuned.Some? then ApplyLocked(m, tuned.value) else (m, Unavailable);
    if tuned.Some? { ApplyIsAtomic(m, tuned.value); }
    ApplyIsAtomic(first.0, m.applied);
  }

  /* ---- the commands, field by field ---- */

  ghost predicate Settings(c: Calib, freq: u32, wiring: u32, pga: u32, phases: Phases) {
    c.freq == freq && c.wiring == wiring && c.pga == pga && c.phases == phases
  }

  /** Left alone, or applied and then in every copy. */
  ghost predicate Ends(m: Meter, apply: bool, v: Meter, err: Error, freq: u32, wiring: u32, pga: u32, phases: Phases) {
    && Settings(v.current, freq, wiring, pga, phases)
    && (apply && err == Fine ==>
          && Settings(v.applied, freq, wiring, pga, phases) && v.stored == v.applied
          && ImageByNumber(v.drv.bus, v.applied))
    && (!apply || err != Fine ==> v.applied == m.applied && v.relay == m.relay)
    && (!apply ==> err == Fine && v.drv == m.drv)
  }

  /** A change of wiring or frequency changes the stored and the used copy even if it then
      cannot be applied; nothing else of the used one changes. */
  lemma ChipwideCommandsDo(m: Meter, x: u32, apply: bool)
    requires InStep(m)
    ensures
      var (v, err) := SetWiring(m, x, apply);
      && Ends(m, apply, v, err, m.current.freq, x, m.current.pga, m.current.phases)
      && v.stored.wiring == x && (!apply || err != Fine ==> v.stored == m.stored.(wiring := x))
    ensures
      var (v, err) := SetLineFreq(m, x, apply);
      if x > 1 then v == m && err == InvalidArg
      else
        && Ends(m, apply, v, err, x, m.current.wiring, m.current.pga, m.current.phases)
        && v.stored.freq == x && v.stored.pga == m.current.pga
        && (!apply || err != Fine ==> v.stored.phases == m.stored.phases && v.stored.wiring == m.stored.wiring)
  {
    var n := m.(current := m.current.(wiring := x), stored := m.stored.(wiring := x));
    ApplyIsAtomic(n, n.current);
    var k := m.(stored := Stamped(m.stored, m.current.pga, x), current := m.current.(freq := x));
    ApplyIsAtomic(k, k.current);
  }

  /** Taking over phases, from storage, from a whole calibration or from a backup, keeps the
      gain stage and the frequency that run; loading one outright does not. */
  lemma PhaseCommandsDo(m: Meter, c: Calib, phases: Phases, mode: u32, apply: bool)
    requires InStep(m)
    ensures
      var v := SetCalibration(m, c);
      && Settings(v.current, m.current.freq, c.wiring, m.current.pga, c.phases) && v.stored == v.current
      && v == m.(stored := v.stored, current := v.current)
    ensures
      var (v, err) := Load(m, c, apply);
      Ends(m, apply, v, err, c.freq, c.wiring, c.pga, c.phases) && (err != Fine ==> v.stored == m.stored)
    ensures
      var (v, err) := ImportBlob(m, c, apply);
      if !Usable(c) then v == m && err == InvalidArg
      else
        Ends(m, apply, v, err, m.current.freq, c.wiring, m.current.pga, c.phases) && v.stored == v.current
    ensures
      var (v, err) := Install(m, phases, mode, apply);
      if apply then
        Ends(m, true, v, err, m.current.freq, m.current.wiring, m.current.pga, phases) && v.stored == v.current
      else
        && v == m.(stored := v.stored) && err == Fine
        && Settings(v.stored, m.current.freq, mode, m.current.pga, phases)
  {
    UsableIsValidated(c);
    ApplyIsAtomic(m.(current := c), c);
    var next := Stamped(c, m.current.pga, m.current.freq);
    ApplyIsAtomic(m.(stored := next, current := next), Stamped(next, next.pga, next.freq).(wiring := next.wiring));
    var k := Calib(m.current.freq, m.current.wiring, m.current.pga, phases);
    ApplyIsAtomic(m.(stored := k, current := k), k);
  }

  /** Applying the stored profile takes only its phases; the defaults are unity in every
      phase; the gain stage is the only thing that a change of transformer moves. */
  lemma ProfileCommandsDo(m: Meter, pga: u32, freq: u32, apply: bool)
    requires InStep(m)
    ensures
      var (v, err) := ApplyStored(m);
      if err == Fine then
        && Settings(v.applied, m.current.freq, m.current.wiring, m.current.pga, m.stored.phases)
        && v.stored == v.current == v.applied
      else v == m.(drv := v.drv)
    ensures
      var (v, err) := ResetDefaults(m, pga, freq, apply);
      var plain := Phase(0x8000, 0x8000, 0, 0, 0, 0, 0, 0, 0);
      Ends(m, apply, v, err, freq, m.current.wiring, pga, [plain, plain, plain]) && v.stored == v.current
    ensures
      var (v, err) := CtApply(m, pga);
      Ends(m, true, v, err, m.current.freq, m.current.wiring, pga, m.current.phases) && v.stored == v.current
  {
    ApplyIsAtomic(m, Stamped(m.stored, m.current.pga, m.current.freq).(wiring := m.current.wiring));
    var c := Calib(freq, m.current.wiring, pga, [UNITY, UNITY, UNITY]);
    ApplyIsAtomic(m.(current := c, stored := c), c);
    var k := m.current.(pga := pga);
    ApplyIsAtomic(m.(current := k, stored := k), k);
  }

  /* ---- when calibration succeeds ---- */

  /** The meter is in step with a calibration that its chip can hold, and its bus has no
      faults. */
  ghost predicate Sane(m: Meter) {
    InStep(m) && m.drv.bus.faults == map[] && Usable(m.applied) && DelaysHold(m.applied)
  }

  lemma SaneApplies(m: Meter, c: Calib)
    requires Sane(m) && Usable(c) && DelaysHold(c)
    ensures
      var (v, err) := ApplyLocked(m, c);
      err == Fine && Sane(v) && v.applied == c
  {
    UsableIsValidated(c);
    CleanBusApplies(m.drv, c);
    ApplyIsAtomic(m, c);
  }

  lemma PowerKeepsUsable(c: Calib, p: nat, reactive: bool, v: i16)
    requires p < 3 && Usable(c) && DelaysHold(c)
    ensures Usable(WithPower(c, p, reactive, v)) && DelaysHold(WithPower(c, p, reactive, v))
  {}

  lemma PowerJudgedEnds(t: (Meter, Error), after: Option<int>, tolerance: nat)
    requires t.1 == Fine
    ensures
      PowerJudged(t, after, tolerance)
      == (t.0, if after.None? then Unavailable else if Abs(after.value) <= tolerance then Fine else Mismatch)
  {}

  /** Which error a power-offset attempt ends with on a bus without faults. */
  ghost function PowerVerdict(before: Option<int>, after: Option<int>, tolerance: nat): Error {
    if before.None? then Unavailable
    else if before.value < -32767 || before.value > 32768 then OutOfRange
    else if after.None? then Unavailable
    else if Abs(after.value) <= tolerance then Fine
    else Mismatch
  }

  lemma PowerUntuned(c: Calib, z: (Meter, Error), p: nat, reactive: bool, before: Option<int>, after: Option<int>,
                     tolerance: nat)
    requires p < 3 && z.1 == Fine && (before.Some? ==> before.value < -32767 || before.value > 32768)
    ensures PowerTune(c, z, p, reactive, before, after, tolerance) == (z.0, PowerVerdict(before, after, tolerance))
  {}

  lemma PowerIsJudged(c: Calib, z: (Meter, Error), p: nat, reactive: bool, before: int, after: Option<int>,
                      tolerance: nat)
    requires p < 3 && z.1 == Fine && -32767 <= before <= 32768
    ensures
      PowerTune(c, z, p, reactive, Some(before), after, tolerance)
      == PowerJudged(ApplyLocked(z.0, WithPower(c, p, reactive, -before)), after, tolerance)
  {}

  lemma PowerTuned(c: Calib, z: (Meter, Error), p: nat, reactive: bool, before: int, after: Option<int>, tolerance: nat)
    requires p < 3 && z.1 == Fine && Sane(z.0) && Usable(c) && DelaysHold(c) && -32767 <= before <= 32768
    ensures
      var (v, err) := PowerTune(c, z, p, reactive, Some(before), after, tolerance);
      Sane(v) && err == PowerVerdict(Some(before), after, tolerance)
  {
    var w := WithPower(c, p, reactive, -before);
    PowerKeepsUsable(c, p, reactive, -before);
    SaneApplies(z.0, w);
    PowerJudgedEnds(ApplyLocked(z.0, w), after, tolerance);
    PowerIsJudged(c, z, p, reactive, before, after, tolerance);
  }

  lemma PowerAttemptEnds(m: Meter, p: nat, reactive: bool, before: Option<int>, after: Option<int>, tolerance: nat)
    requires Sane(m) && p < 3
    ensures
      var (v, err) := PowerAttempt(m, p, reactive, before, after, tolerance);
      && Sane(v) && err == PowerVerdict(before, after, tolerance)
      && (before.None? ==> v.applied == WithPower(m.applied, p, reactive, 0))
  {
    PowerKeepsUsable(m.applied, p, reactive, 0);
    SaneApplies(m, WithPower(m.applied, p, reactive, 0));
    var zeroed := ApplyLocked(m, WithPower(m.applied, p, reactive, 0));
    if before.Some? && -32767 <= before.value <= 32768 {
      PowerTuned(m.applied, zeroed, p, reactive, before.value, after, tolerance);
    } else {
      PowerUntuned(m.applied, zeroed, p, reactive, before, after, tolerance);
    }
  }

  /** On a bus without faults, power-offset calibration succeeds exactly if the no-load reading
      could be taken, its negation fits the register and what is left is within the tolerance;
      otherwise it says why, and the original is back. */
  lemma PowerOffsetSucceedsExactly(m: Meter, p: nat, reactive: bool, before: Option<int>, after: Option<int>,
                                   tolerance: nat)
    requires Sane(m) && p < 3
    ensures
      var (v, err, rollback) := PowerOffset(m, p, reactive, before, after, tolerance);
      && err == PowerVerdict(before, after, tolerance) && rollback == Fine
      && (err != Fine ==> v.applied == m.applied)
  {
    PowerAttemptEnds(m, p, reactive, before, after, tolerance);
    var a := PowerAttempt(m, p, reactive, before, after, tolerance);
    if a.1 != Fine { SaneApplies(a.0, m.applied); }
  }

  /** The offset is at zero while the reading is taken: an attempt whose reading cannot be had
      leaves exactly that register at zero until it rolls back. */
  lemma PowerIsZeroedFirst(m: Meter, p: nat, reactive: bool, after: Option<int>, tolerance: nat)
    requires Sane(m) && p < 3
    ensures
      var w := PowerAttempt(m, p, reactive, None, after, tolerance).0.applied;
      OnePhase(m.applied, w, p, if reactive then m.applied.phases[p].(qOff := 0) else m.applied.phases[p].(pOff := 0))
  {
    PowerAttemptEnds(m, p, reactive, None, after, tolerance);
  }

  /** Can the negated reading be held, in its steps? */
  ghost predicate Holdable(reading: real, current: bool) {
    -32767.5 < reading * (if current then 1000.0 else 100.0) < 32768.5
  }

  lemma RoundsWithin(x: real)
    ensures -0x8000 <= -CalibMath.LlRound(x) < 0x8000 <==> -32767.5 < x < 32768.5
  {}

  lemma FitsExactly(req: Request, before: Readings)
    ensures CorrectionsFit(req, before) <==>
      forall p: nat :: p < 3 && p in req.mask ==> Holdable(before[p], req.current)
  {
    forall p: nat | p < 3
      ensures -0x8000 <= Correction(req, before[p]) < 0x8000 <==> Holdable(before[p], req.current)
    {
      var reading: real := before[p];
      RoundsWithin(reading * (if req.current then 1000.0 else 100.0));
    }
  }

  /** What the readings must be for the request to be computable. */
  ghost predicate Computable(c: Calib, req: Request, s: Samples) {
    && s.before.Some?
    && if req.offset then forall p: nat :: p < 3 && p in req.mask ==> Holdable(s.before.value[p], req.current)
       else
         && s.refs.Some?
         && forall p: nat :: p < 3 && p in req.mask ==>
              CalibMath.CalculateGain(if req.current then c.phases[p].iGain else c.phases[p].vGain,
                                      s.refs.value[p], s.before.value[p]).Ok?
  }

  lemma ZeroedIsUsable(c: Calib, req: Request)
    requires Usable(c) && DelaysHold(c)
    ensures Usable(Zeroed(c, req)) && DelaysHold(Zeroed(c, req))
  {}

  lemma ReoffsetIsUsable(c: Calib, req: Request, before: Readings)
    requires Usable(c) && DelaysHold(c) && CorrectionsFit(req, before)
    ensures Usable(Reoffset(c, req, before)) && DelaysHold(Reoffset(c, req, before))
  {}

  lemma RegainedIsUsable(c: Calib, req: Request, refs: Readings, before: Readings)
    requires Usable(c) && DelaysHold(c) && GainsExist(c, req, refs, before)
    ensures Usable(Regained(c, req, refs, before)) && DelaysHold(Regained(c, req, refs, before))
  {
    forall p: nat | p < 3 && p in req.mask { GainsAreGains(c, req, refs, before, p); }
  }

  lemma GainsAreGains(c: Calib, req: Request, refs: Readings, before: Readings, p: nat)
    requires p < 3 && NewGain(c, req, refs, before, p).Ok?
    ensures NewGain(c, req, refs, before, p).value >= 1
  {}

  lemma OffsetAttemptEnds(m: Meter, req: Request, s: Samples)
    requires Sane(m) && req.offset
    ensures
      var a := OffsetAttempt(m, req, s);
      && Sane(a.m) && a.wrote && (a.err == Fine <==> Computable(m.applied, req, s))
      && (s.before.None? ==> a.m.applied == Zeroed(m.applied, req))
  {
    var b := if s.before.Some? then s.before.value else [0.0, 0.0, 0.0];
    ZeroedIsUsable(m.applied, req);
    SaneApplies(m, Zeroed(m.applied, req));
    FitsExactly(req, b);
    if s.before.Some? && CorrectionsFit(req, b) {
      ReoffsetIsUsable(m.applied, req, b);
      SaneApplies(ApplyLocked(m, Zeroed(m.applied, req)).0, Reoffset(m.applied, req, b));
    }
  }

  lemma GainAttemptEnds(m: Meter, req: Request, s: Samples)
    requires Sane(m) && !req.offset
    ensures
      var a := GainAttempt(m, req, s);
      Sane(a.m) && (a.err == Fine <==> Computable(m.applied, req, s)) && (a.err != Fine ==> a.m == m)
  {
    if s.before.Some? && s.refs.Some? {
      GainsExactly(m.applied, req, s);
      if GainsExist(m.applied, req, s.refs.value, s.before.value) {
        RegainedIsUsable(m.applied, req, s.refs.value, s.before.value);
        SaneApplies(m, Regained(m.applied, req, s.refs.value, s.before.value));
      }
    }
  }

  lemma GainsExactly(c: Calib, req: Request, s: Samples)
    requires s.before.Some? && s.refs.Some? && !req.offset
    ensures GainsExist(c, req, s.refs.value, s.before.value) <==> Computable(c, req, s)
  {
    forall p: nat | p < 3
      ensures NewGain(c, req, s.refs.value, s.before.value, p)
           == CalibMath.CalculateGain(if req.current then c.phases[p].iGain else c.phases[p].vGain,
                                      s.refs.value[p], s.before.value[p])
    {}
  }

  /** On a bus without faults and with a neutral, auto-calibration of existing phases commits
      exactly if every reading it needs could be had and every result is one: an offset that
      fits its register, or a gain; otherwise the original is in force. */
  lemma AutoCalibrationSucceedsExactly(m: Meter, req: Request, s: Samples)
    requires Sane(m) && m.applied.wiring == 0 && req.mask != {} && req.mask <= {0, 1, 2}
    ensures
      var (v, o) := AutoCalibrate(m, req, s);
      && Sane(v)
      && (Computable(m.applied, req, s) <==> o.calibrated == req.mask)
      && (o.calibrated == req.mask || o.calibrated == {})
      && (o.calibrated == {} ==> v.applied == m.applied && o.err != Fine)
  {
    if req.offset { OffsetAttemptEnds(m, req, s); } else { GainAttemptEnds(m, req, s); }
    var a := if req.offset then OffsetAttempt(m, req, s) else GainAttempt(m, req, s);
    SaneApplies(a.m, m.applied);
  }

  /** While an offset is measured, it is zero: an attempt whose reading cannot be had leaves
      exactly the requested offsets at zero until it rolls back. */
  lemma OffsetsAreZeroedFirst(m: Meter, req: Request, s: Samples)
    requires Sane(m) && req.offset && s.before.None?
    ensures
      var w := OffsetAttempt(m, req, s).m.applied;
      && w.freq == m.applied.freq && w.wiring == m.applied.wiring && w.pga == m.applied.pga
      && forall p: nat :: p < 3 ==>
           w.phases[p] == if p !in req.mask then m.applied.phases[p]
                          else if req.current then m.applied.phases[p].(iOff := 0)
                          else m.applied.phases[p].(vOff := 0)
  {
    OffsetAttemptEnds(m, req, s);
  }
}
