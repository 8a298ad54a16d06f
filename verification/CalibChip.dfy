/** Writing a calibration into the metering chip: validation, the register image,
    write and read-back of every calibration register, over a serial bus on which
    a transfer can fail and a write can be silently dropped. */
module CalibChip {
  import opened CInt

  /** Per-phase calibration in its logical form. */
  datatype Phase = Phase(
    vGain: u16, iGain: u16, vOff: i16, iOff: i16, pOff: i16, qOff: i16, pq: i16, phi: i16, fund: i16)

  const UNITY := Phase(0x8000, 0x8000, 0, 0, 0, 0, 0, 0, 0)

  type Phases = s: seq<Phase> | |s| == 3 witness [UNITY, UNITY, UNITY]

  /** The enumerations are plain words: a stored record may hold any value. */
  datatype Calib = Calib(freq: u32, wiring: u32, pga: u32, phases: Phases)

  const HZ50 := 0
  const HZ60 := 1
  const W3P4 := 0
  const W3P3 := 1
  const PGA_4X := 2

  datatype Error = Fine | InvalidArg | BusFailed | Mismatch | NotSupported | OutOfRange | Unavailable

  predicate Validated(c: Calib) {
    && c.freq <= HZ60 && c.wiring <= W3P3 && c.pga <= PGA_4X
    && forall i :: 0 <= i < 3 ==> c.phases[i].vGain != 0 && c.phases[i].iGain != 0
  }

  /* ---- the register image ---- */

  const METER_EN: nat := 0x00
  const FREQ_LO_TH: nat := 0x0C
  const FREQ_HI_TH: nat := 0x0D
  const MMODE0: nat := 0x33
  const MMODE1: nat := 0x34
  const CFG_ACCESS: nat := 0x7F
  const UNLOCK := 0x55AA

  /** The nine registers of phase `i`, in the order they are written. */
  function RegOf(i: nat, j: nat): nat
    requires i < 3 && j < 9
  {
    if j < 4 then 0x61 + 4 * i + j
    else if j == 4 then 0x41 + 2 * i
    else if j == 5 then 0x42 + 2 * i
    else if j == 6 then 0x47 + 2 * i
    else if j == 7 then 0x48 + 2 * i
    else 0x54 + i
  }

  lemma RegistersAreDistinct(i: nat, j: nat, k: nat, l: nat)
    requires i < 3 && j < 9 && k < 3 && l < 9
    ensures RegOf(i, j) == RegOf(k, l) <==> i == k && j == l
    ensures RegOf(i, j) !in {METER_EN, FREQ_LO_TH, FREQ_HI_TH, MMODE0, MMODE1, CFG_ACCESS}
  {
  }

  /** Sign and magnitude; a delay of more than eight bits has no encoding. */
  function EncodePhi(phi: i16): u16 {
    if Abs(phi) > 0xFF then 0xFFFF else Abs(phi) + (if phi < 0 then 0x8000 else 0)
  }

  function ValOf(p: Phase, j: nat): u16
    requires j < 9
  {
    match j
    case 0 => p.vGain
    case 1 => p.iGain
    case 2 => AsU16(p.vOff)
    case 3 => AsU16(p.iOff)
    case 4 => AsU16(p.pOff)
    case 5 => AsU16(p.qOff)
    case 6 => AsU16(p.pq)
    case 7 => EncodePhi(p.phi)
    case 8 => AsU16(p.fund)
  }

  /** The image determines the calibration: no two calibrations with delays the
      chip can hold share their nine register values. */
  lemma ImageIsUnique(p: Phase, q: Phase)
    requires Abs(p.phi) <= 0xFF && Abs(q.phi) <= 0xFF
    requires forall j: nat :: j < 9 ==> ValOf(p, j) == ValOf(q, j)
    ensures p == q
  {
    assert ValOf(p, 0) == ValOf(q, 0) && ValOf(p, 1) == ValOf(q, 1) && ValOf(p, 2) == ValOf(q, 2);
    assert ValOf(p, 3) == ValOf(q, 3) && ValOf(p, 4) == ValOf(q, 4) && ValOf(p, 5) == ValOf(q, 5);
    assert ValOf(p, 6) == ValOf(q, 6) && ValOf(p, 7) == ValOf(q, 7) && ValOf(p, 8) == ValOf(q, 8);
  }

  function MMode0(c: Calib): u16 {
    (if c.wiring == W3P3 then 0x0185 else 0x0087) + (if c.freq == HZ60 then 0x1000 else 0)
  }

  function MMode1(pga: u32): u16 { Wrap16(pga + 4 * pga + 16 * pga) }

  function FreqLo(c: Calib): u16 { if c.freq == HZ60 then 5700 else 4700 }

  function FreqHi(c: Calib): u16 { if c.freq == HZ60 then 6300 else 5300 }

  /** The two mode registers determine wiring, line frequency and gain stage. */
  lemma ModesAreUnique(c: Calib, d: Calib)
    requires Validated(c) && Validated(d)
    ensures MMode0(c) == MMode0(d) && MMode1(c.pga) == MMode1(d.pga) <==>
              c.wiring == d.wiring && c.freq == d.freq && c.pga == d.pga
  {
  }

  /* ---- the bus ---- */

  /** What becomes of a transfer: absent from the script, it goes through. */
  datatype Fault = Dropped | Failed

  /** The chip's registers, the number of transfers so far, and which transfers
      (by number) go wrong. A dropped write is acknowledged but not stored; only
      writes can be dropped, a read fails or tells the truth. */
  datatype Bus = Bus(regs: map<nat, u16>, at: nat, faults: map<nat, Fault>)

  function Held(b: Bus, reg: nat): u16 { if reg in b.regs then b.regs[reg] else 0 }

  predicate Fails(b: Bus) { b.at in b.faults && b.faults[b.at] == Failed }

  predicate Drops(b: Bus) { b.at in b.faults && b.faults[b.at] == Dropped }

  function AfterWrite(b: Bus, reg: nat, val: u16): Bus {
    b.(regs := if Fails(b) || Drops(b) then b.regs else b.regs[reg := val], at := b.at + 1)
  }

  function AfterRead(b: Bus): Bus { b.(at := b.at + 1) }

  /* ---- programs of register operations that stop at the first error ---- */

  datatype Op = Put(reg: nat, val: u16) | CheckPhi(phi: i16) | Expect(reg: nat, val: u16)

  datatype Line = Line(bus: Bus, err: Error)

  function Do(s: Line, op: Op): Line {
    if s.err != Fine then s else
    match op
    case Put(reg, val) => Line(AfterWrite(s.bus, reg, val), if Fails(s.bus) then BusFailed else Fine)
    case CheckPhi(phi) => s.(err := if Abs(phi) <= 0xFF then Fine else InvalidArg)
    case Expect(reg, val) =>
      Line(AfterRead(s.bus), if Fails(s.bus) then BusFailed else if Held(s.bus, reg) != val then Mismatch else Fine)
  }

  function DoAll(s: Line, ops: seq<Op>): Line {
    if ops == [] then s else Do(DoAll(s, ops[..|ops| - 1]), ops[|ops| - 1])
  }

  lemma Front(s: Line, ops: seq<Op>, n: nat)
    requires 0 < n <= |ops|
    ensures DoAll(s, ops[..n]) == Do(DoAll(s, ops[..n - 1]), ops[n - 1])
  {
    assert ops[..n][..n - 1] == ops[..n - 1];
  }

  lemma {:induction false} DoAllSplits(s: Line, xs: seq<Op>, ys: seq<Op>)
    ensures DoAll(s, xs + ys) == DoAll(DoAll(s, xs), ys)
    decreases |ys|
  {
    if ys == [] {
      assert xs + ys == xs;
    } else {
      assert (xs + ys)[..|xs + ys| - 1] == xs + ys[..|ys| - 1];
      DoAllSplits(s, xs, ys[..|ys| - 1]);
    }
  }

  /** Phase `i`: seven registers, then the delay is checked before it is written. */
  function PutOps(c: Calib, i: nat): (ops: seq<Op>)
    requires i < 3
    ensures |ops| == 10
  {
    seq(10, k requires 0 <= k < 10 =>
      if k < 7 then Put(RegOf(i, k), ValOf(c.phases[i], k))
      else if k == 7 then CheckPhi(c.phases[i].phi)
      else Put(RegOf(i, k - 1), ValOf(c.phases[i], k - 1)))
  }

  function ExpectOps(c: Calib, i: nat): (ops: seq<Op>)
    requires i < 3
    ensures |ops| == 9
  {
    seq(9, j requires 0 <= j < 9 => Expect(RegOf(i, j), ValOf(c.phases[i], j)))
  }

  /** Mode, gain stage, frequency limits; then metering is enabled again so that
      the DSP reloads its parameters. */
  function ModeReg(k: nat): nat
    requires k < 5
  {
    match k
    case 0 => MMODE0
    case 1 => MMODE1
    case 2 => FREQ_LO_TH
    case 3 => FREQ_HI_TH
    case 4 => METER_EN
  }

  function ModeVal(c: Calib, k: nat): u16
    requires k < 5
  {
    match k
    case 0 => MMode0(c)
    case 1 => MMode1(c.pga)
    case 2 => FreqLo(c)
    case 3 => FreqHi(c)
    case 4 => 1
  }

  function ModeOps(c: Calib): (ops: seq<Op>)
    ensures |ops| == 5
  {
    seq(5, k requires 0 <= k < 5 => Put(ModeReg(k), ModeVal(c, k)))
  }

  function Written(s: Line, c: Calib): Line {
    DoAll(DoAll(DoAll(s, PutOps(c, 0)), PutOps(c, 1)), PutOps(c, 2))
  }

  function Verified(s: Line, c: Calib): Line {
    DoAll(DoAll(DoAll(s, ExpectOps(c, 0)), ExpectOps(c, 1)), ExpectOps(c, 2))
  }

  /** Between unlock and lock. */
  function Window(s: Line, c: Calib): Line {
    Verified(DoAll(Written(s, c), ModeOps(c)), c)
  }

  /** The driver: the bus and the calibration it believes the chip has. */
  datatype Driver = Driver(bus: Bus, calib: Calib)

  function Applied(d: Driver, c: Calib): (Driver, Error) {
    if !Validated(c) then (d, InvalidArg)
    else
      var open := Do(Line(d.bus, Fine), Put(CFG_ACCESS, UNLOCK));
      if open.err != Fine then (d.(bus := open.bus), open.err)
      else
        var done := Window(open, c);
        var shut := Do(done.(err := Fine), Put(CFG_ACCESS, 0));
        var err := if done.err == Fine then shut.err else done.err;
        (Driver(shut.bus, if err == Fine then c else d.calib), err)
  }

  class Atm90e32 {
    var bus: Bus
    var calib: Calib

    ghost function State(): Driver
      reads this
    {
      Driver(bus, calib)
    }

    constructor (b: Bus, c: Calib)
      ensures State() == Driver(b, c)
    {
      bus, calib := b, c;
    }

    method WriteRegister(reg: nat, val: u16) returns (err: Error)
      modifies `bus
      ensures Line(bus, err) == Do(Line(old(bus), Fine), Put(reg, val))
    {
      err := if Fails(bus) then BusFailed else Fine;
      bus := AfterWrite(bus, reg, val);
    }

    method ReadRegister(reg: nat) returns (err: Error, val: u16)
      modifies `bus
      ensures bus == AfterRead(old(bus))
      ensures err == if Fails(old(bus)) then BusFailed else Fine
      ensures err == Fine ==> val == Held(old(bus), reg)
    {
      err := if Fails(bus) then BusFailed else Fine;
      val := if err == Fine then Held(bus, reg) else 0;
      bus := AfterRead(bus);
    }

    /** A table of operations, up to the first that goes wrong. */
    method Perform(ops: seq<Op>) returns (err: Error)
      modifies `bus
      ensures Line(bus, err) == DoAll(Line(old(bus), Fine), ops)
    {
      err := Fine;
      var k := 0;
      while k < |ops| && err == Fine
        invariant 0 <= k <= |ops|
        invariant Line(bus, err) == DoAll(Line(old(bus), Fine), ops[..k])
      {
        match ops[k] {
          case Put(reg, val) => err := WriteRegister(reg, val);
          case CheckPhi(phi) => err := if Abs(phi) <= 0xFF then Fine else InvalidArg;
          case Expect(reg, val) =>
            var actual;
            err, actual := ReadRegister(reg);
            if err == Fine && actual != val { err := Mismatch; }
        }
        assert ops[..k + 1][..k] == ops[..k];
        k := k + 1;
      }
      assert ops[..k] + ops[k..] == ops;
      DoAllSplits(Line(old(bus), Fine), ops[..k], ops[k..]);
      if err != Fine { DoAllStuck(Line(bus, err), ops[k..]); }
    }

    method WriteCalibrationRegisters(c: Calib) returns (err: Error)
      modifies `bus
      ensures Line(bus, err) == Written(Line(old(bus), Fine), c)
    {
      err := Perform(PutOps(c, 0));
      if err == Fine { err := Perform(PutOps(c, 1)); } else { DoAllStuck(Line(bus, err), PutOps(c, 1)); }
      if err == Fine { err := Perform(PutOps(c, 2)); } else { DoAllStuck(Line(bus, err), PutOps(c, 2)); }
    }

    method VerifyCalibrationRegisters(c: Calib) returns (err: Error)
      modifies `bus
      ensures Line(bus, err) == Verified(Line(old(bus), Fine), c)
    {
      err := Perform(ExpectOps(c, 0));
      if err == Fine { err := Perform(ExpectOps(c, 1)); } else { DoAllStuck(Line(bus, err), ExpectOps(c, 1)); }
      if err == Fine { err := Perform(ExpectOps(c, 2)); } else { DoAllStuck(Line(bus, err), ExpectOps(c, 2)); }
    }

    method ApplyCalibration(c: Calib) returns (err: Error)
      modifies this
      ensures (State(), err) == Applied(old(State()), c)
    {
      if !Validated(c) { return InvalidArg; }
      err := WriteRegister(CFG_ACCESS, UNLOCK);
      if err != Fine { return; }
      err := WriteCalibrationRegisters(c);
      if err == Fine { err := Perform(ModeOps(c)); } else { DoAllStuck(Line(bus, err), ModeOps(c)); }
      if err == Fine { err := VerifyCalibrationRegisters(c); } else { VerifiedStuck(Line(bus, err), c); }
      var lockErr := WriteRegister(CFG_ACCESS, 0);
      if err == Fine { err := lockErr; }
      if err == Fine { calib := c; }
    }
  }

  lemma {:induction false} DoAllStuck(s: Line, ops: seq<Op>)
    requires s.err != Fine
    ensures DoAll(s, ops) == s
    decreases |ops|
  {
    if ops != [] { DoAllStuck(s, ops[..|ops| - 1]); }
  }

  lemma VerifiedStuck(s: Line, c: Calib)
    requires s.err != Fine
    ensures Verified(s, c) == s
  {
    DoAllStuck(s, ExpectOps(c, 0));
    DoAllStuck(s, ExpectOps(c, 1));
    DoAllStuck(s, ExpectOps(c, 2));
  }

  /* ---- what a program does to the chip ---- */

  /** How many of the first `n` operations of a phase are transfers. */
  function Transfers(n: nat): nat { if n <= 7 then n else n - 1 }

  /** No transfer goes wrong among the next `n`. */
  ghost predicate Clean(b: Bus, n: nat) {
    forall t :: b.at <= t < b.at + n ==> t !in b.faults
  }

  ghost predicate OfPhase(i: nat, r: nat)
    requires i < 3
  {
    exists j: nat :: j < 9 && r == RegOf(i, j)
  }

  /** A program that gets through: the script is used up transfer by transfer, and
      only the phase's own registers can have changed. */
  lemma {:induction false} PutsAdvance(s: Line, c: Calib, i: nat, n: nat)
    requires i < 3 && n <= 10 && DoAll(s, PutOps(c, i)[..n]).err == Fine
    ensures
      var v := DoAll(s, PutOps(c, i)[..n]);
      && s.err == Fine && v.bus.faults == s.bus.faults && v.bus.at == s.bus.at + Transfers(n)
      && forall r: nat :: !OfPhase(i, r) ==> Held(v.bus, r) == Held(s.bus, r)
    decreases n
  {
    if n > 0 {
      Front(s, PutOps(c, i), n);
      PutsAdvance(s, c, i, n - 1);
      assert n != 8 ==> OfPhase(i, RegOf(i, Transfers(n) - 1));
    }
  }

  lemma {:induction false} PutsGoThrough(s: Line, c: Calib, i: nat, n: nat)
    requires i < 3 && n <= 10 && s.err == Fine && Clean(s.bus, 9) && Abs(c.phases[i].phi) <= 0xFF
    ensures DoAll(s, PutOps(c, i)[..n]).err == Fine
    decreases n
  {
    if n > 0 {
      Front(s, PutOps(c, i), n);
      PutsGoThrough(s, c, i, n - 1);
      PutsAdvance(s, c, i, n - 1);
    }
  }

  lemma {:induction false} PutLands(s: Line, c: Calib, i: nat, n: nat, j: nat)
    requires i < 3 && n <= 10 && s.err == Fine && Clean(s.bus, 9) && Abs(c.phases[i].phi) <= 0xFF
    requires j < Transfers(n)
    ensures Held(DoAll(s, PutOps(c, i)[..n]).bus, RegOf(i, j)) == ValOf(c.phases[i], j)
    decreases n
  {
    Front(s, PutOps(c, i), n);
    PutsGoThrough(s, c, i, n);
    PutsGoThrough(s, c, i, n - 1);
    PutsAdvance(s, c, i, n - 1);
    if n != 8 {
      RegistersAreDistinct(i, j, i, Transfers(n) - 1);
      var l := Transfers(n) - 1;
      PutStep(DoAll(s, PutOps(c, i)[..n - 1]), RegOf(i, l), ValOf(c.phases[i], l), RegOf(i, j));
    }
    if j < Transfers(n - 1) { PutLands(s, c, i, n - 1, j); }
  }

  /** On a clean bus the phase's nine registers end up with its image. */
  lemma PutsLand(s: Line, c: Calib, i: nat)
    requires i < 3 && s.err == Fine && Clean(s.bus, 9) && Abs(c.phases[i].phi) <= 0xFF
    ensures DoAll(s, PutOps(c, i)).err == Fine && PhaseHeld(DoAll(s, PutOps(c, i)).bus, c, i)
  {
    assert PutOps(c, i)[..10] == PutOps(c, i);
    PutsGoThrough(s, c, i, 10);
    forall j: nat | j < 9 { PutLands(s, c, i, 10, j); }
  }

  lemma {:induction false} ExpectsHold(s: Line, c: Calib, i: nat, n: nat)
    requires i < 3 && n <= 9 && DoAll(s, ExpectOps(c, i)[..n]).err == Fine
    ensures
      var v := DoAll(s, ExpectOps(c, i)[..n]);
      && s.err == Fine && v.bus == s.bus.(at := s.bus.at + n)
      && forall j: nat :: j < n ==> Held(s.bus, RegOf(i, j)) == ValOf(c.phases[i], j)
    decreases n
  {
    if n > 0 {
      Front(s, ExpectOps(c, i), n);
      ExpectsHold(s, c, i, n - 1);
    }
  }

  /** Do the phase's nine registers hold its image? */
  ghost predicate PhaseHeld(b: Bus, c: Calib, i: nat)
    requires i < 3
  {
    forall j: nat :: j < 9 ==> Held(b, RegOf(i, j)) == ValOf(c.phases[i], j)
  }

  ghost predicate AllHeld(b: Bus, c: Calib) {
    PhaseHeld(b, c, 0) && PhaseHeld(b, c, 1) && PhaseHeld(b, c, 2)
  }

  lemma PhaseVerified(s: Line, c: Calib, i: nat)
    requires i < 3 && DoAll(s, ExpectOps(c, i)).err == Fine
    ensures s.err == Fine && DoAll(s, ExpectOps(c, i)).bus == s.bus.(at := s.bus.at + 9) && PhaseHeld(s.bus, c, i)
  {
    assert ExpectOps(c, i)[..9] == ExpectOps(c, i);
    ExpectsHold(s, c, i, 9);
  }

  lemma VerifyMeansHeld(s: Line, c: Calib)
    requires Verified(s, c).err == Fine
    ensures s.err == Fine && Verified(s, c).bus == s.bus.(at := s.bus.at + 27) && AllHeld(s.bus, c)
  {
    var one := DoAll(s, ExpectOps(c, 0));
    var two := DoAll(one, ExpectOps(c, 1));
    PhaseVerified(two, c, 2);
    PhaseVerified(one, c, 1);
    PhaseVerified(s, c, 0);
  }

  lemma LockLeavesImage(b: Bus, c: Calib, val: u16)
    requires AllHeld(b, c)
    ensures AllHeld(AfterWrite(b, CFG_ACCESS, val), c)
  {
    forall i: nat, j: nat | i < 3 && j < 9
      ensures Held(AfterWrite(b, CFG_ACCESS, val), RegOf(i, j)) == Held(b, RegOf(i, j))
    {
      RegistersAreDistinct(i, j, i, j);
    }
  }

  /** When applying reports success, all 27 calibration registers hold exactly the
      image of the calibration, whatever the bus dropped on the way, and the driver
      remembers that calibration; when it reports failure, the driver keeps the one
      it had. */
  lemma SuccessMeansWritten(d: Driver, c: Calib)
    ensures Applied(d, c).1 == Fine ==> AllHeld(Applied(d, c).0.bus, c) && Applied(d, c).0.calib == c && Validated(c)
    ensures Applied(d, c).1 != Fine ==> Applied(d, c).0.calib == d.calib
  {
    if Applied(d, c).1 == Fine {
      var open := Do(Line(d.bus, Fine), Put(CFG_ACCESS, UNLOCK));
      var before := DoAll(Written(open, c), ModeOps(c));
      VerifyMeansHeld(before, c);
      LockLeavesImage(Verified(before, c).bus, c, 0);
    }
  }

  /** The chip's image names the applied calibration: if two calibrations were both
      applied with success and the chip holds the same 27 values, they agree in
      every phase. */
  lemma ChipIdentifiesCalibration(d: Driver, c: Calib, e: Driver, k: Calib)
    requires Applied(d, c).1 == Fine && Applied(e, k).1 == Fine
    requires forall i: nat, j: nat :: i < 3 && j < 9 ==>
                                       Held(Applied(d, c).0.bus, RegOf(i, j)) == Held(Applied(e, k).0.bus, RegOf(i, j))
    ensures c.phases == k.phases
  {
    SuccessMeansWritten(d, c);
    SuccessMeansWritten(e, k);
    DelaysFit(d, c);
    DelaysFit(e, k);
    forall i: nat | i < 3
      ensures c.phases[i] == k.phases[i]
    {
      assert PhaseHeld(Applied(d, c).0.bus, c, i) && PhaseHeld(Applied(e, k).0.bus, k, i);
      ImageIsUnique(c.phases[i], k.phases[i]);
    }
  }

  lemma PhaseWrites(s: Line, c: Calib, i: nat)
    requires i < 3 && DoAll(s, PutOps(c, i)).err == Fine
    ensures
      var v := DoAll(s, PutOps(c, i));
      && s.err == Fine && v.bus.faults == s.bus.faults && v.bus.at == s.bus.at + 9
      && Abs(c.phases[i].phi) <= 0xFF
      && forall r: nat :: !OfPhase(i, r) ==> Held(v.bus, r) == Held(s.bus, r)
  {
    var ops := PutOps(c, i);
    assert ops[..10] == ops;
    PutsAdvance(s, c, i, 10);
    assert ops == ops[..8] + ops[8..] && ops[..8][..7] == ops[..7];
    DoAllSplits(s, ops[..8], ops[8..]);
    if DoAll(s, ops[..8]).err != Fine { DoAllStuck(DoAll(s, ops[..8]), ops[8..]); }
  }

  ghost predicate Outside(r: nat) { !OfPhase(0, r) && !OfPhase(1, r) && !OfPhase(2, r) }

  lemma WritesAdvance(s: Line, c: Calib)
    requires Written(s, c).err == Fine
    ensures
      var v := Written(s, c);
      && s.err == Fine && v.bus.faults == s.bus.faults && v.bus.at == s.bus.at + 27
      && (forall i :: 0 <= i < 3 ==> Abs(c.phases[i].phi) <= 0xFF)
      && forall r: nat :: Outside(r) ==> Held(v.bus, r) == Held(s.bus, r)
  {
    var one := DoAll(s, PutOps(c, 0));
    var two := DoAll(one, PutOps(c, 1));
    PhaseWrites(two, c, 2);
    PhaseWrites(one, c, 1);
    PhaseWrites(s, c, 0);
  }

  lemma WindowStages(s: Line, c: Calib)
    requires Window(s, c).err == Fine
    ensures Written(s, c).err == Fine && DoAll(Written(s, c), ModeOps(c)).err == Fine
  {
    VerifyMeansHeld(DoAll(Written(s, c), ModeOps(c)), c);
    if Written(s, c).err != Fine { DoAllStuck(Written(s, c), ModeOps(c)); }
  }

  lemma DelaysFit(d: Driver, c: Calib)
    requires Applied(d, c).1 == Fine
    ensures forall i :: 0 <= i < 3 ==> Abs(c.phases[i].phi) <= 0xFF
  {
    var open := Do(Line(d.bus, Fine), Put(CFG_ACCESS, UNLOCK));
    WindowStages(open, c);
    WritesAdvance(open, c);
  }

  /* ---- the mode registers, which are not read back ---- */

  lemma {:induction false} DoAllFrame(s: Line, ops: seq<Op>, r: nat)
    requires forall k :: 0 <= k < |ops| && ops[k].Put? ==> ops[k].reg != r
    ensures Held(DoAll(s, ops).bus, r) == Held(s.bus, r)
    decreases |ops|
  {
    if ops != [] { DoAllFrame(s, ops[..|ops| - 1], r); }
  }

  /** What a write that is acknowledged leaves in register `r`. */
  lemma PutStep(s: Line, reg: nat, val: u16, r: nat)
    requires Do(s, Put(reg, val)).err == Fine
    ensures
      var v := Do(s, Put(reg, val)).bus;
      && s.err == Fine && v.faults == s.bus.faults && v.at == s.bus.at + 1
      && Held(v, r) == if r == reg && s.bus.at !in s.bus.faults then val else Held(s.bus, r)
  {
  }

  /** Register `k` of the modes holds its new value unless its transfer was dropped. */
  ghost predicate ModeLanded(s: Bus, v: Bus, c: Calib, k: nat)
    requires k < 5
  {
    Held(v, ModeReg(k)) == if s.at + k in s.faults then Held(s, ModeReg(k)) else ModeVal(c, k)
  }

  lemma {:induction false} ModesCount(s: Line, c: Calib, n: nat)
    requires n <= 5 && DoAll(s, ModeOps(c)[..n]).err == Fine
    ensures
      var v := DoAll(s, ModeOps(c)[..n]);
      s.err == Fine && v.bus.faults == s.bus.faults && v.bus.at == s.bus.at + n
    decreases n
  {
    if n > 0 {
      Front(s, ModeOps(c), n);
      PutStep(DoAll(s, ModeOps(c)[..n - 1]), ModeReg(n - 1), ModeVal(c, n - 1), 0);
      ModesCount(s, c, n - 1);
    }
  }

  lemma {:induction false} ModeLands(s: Line, c: Calib, n: nat, k: nat)
    requires k < n <= 5 && DoAll(s, ModeOps(c)[..n]).err == Fine
    ensures ModeLanded(s.bus, DoAll(s, ModeOps(c)[..n]).bus, c, k)
    decreases n
  {
    var v := DoAll(s, ModeOps(c)[..n - 1]);
    Front(s, ModeOps(c), n);
    PutStep(v, ModeReg(n - 1), ModeVal(c, n - 1), ModeReg(k));
    if k < n - 1 {
      ModeLands(s, c, n - 1, k);
    } else {
      ModesCount(s, c, n - 1);
      DoAllFrame(s, ModeOps(c)[..n - 1], ModeReg(k));
    }
  }

  lemma ModesDone(s: Line, c: Calib)
    requires DoAll(s, ModeOps(c)).err == Fine
    ensures
      var v := DoAll(s, ModeOps(c));
      && s.err == Fine && v.bus.faults == s.bus.faults && v.bus.at == s.bus.at + 5
      && (forall k: nat :: k < 5 ==> ModeLanded(s.bus, v.bus, c, k))
      && forall i: nat, j: nat :: i < 3 && j < 9 ==> Held(v.bus, RegOf(i, j)) == Held(s.bus, RegOf(i, j))
  {
    assert ModeOps(c)[..5] == ModeOps(c);
    ModesCount(s, c, 5);
    forall k: nat | k < 5 { ModeLands(s, c, 5, k); }
    forall i: nat, j: nat | i < 3 && j < 9
      ensures Held(DoAll(s, ModeOps(c)).bus, RegOf(i, j)) == Held(s.bus, RegOf(i, j))
    {
      RegistersAreDistinct(i, j, i, j);
      DoAllFrame(s, ModeOps(c), RegOf(i, j));
    }
  }

  lemma ModeRegisters(k: nat)
    requires k < 5
    ensures Outside(ModeReg(k)) && ModeReg(k) != CFG_ACCESS
  {
    forall i: nat, j: nat | i < 3 && j < 9
      ensures RegOf(i, j) != ModeReg(k)
    {
      RegistersAreDistinct(i, j, i, j);
    }
  }

  lemma WrittenKeepsModes(s: Line, c: Calib, k: nat)
    requires k < 5 && Written(s, c).err == Fine
    ensures
      var v := Written(s, c);
      Held(v.bus, ModeReg(k)) == Held(s.bus, ModeReg(k)) && v.bus.at == s.bus.at + 27 && v.bus.faults == s.bus.faults
  {
    WritesAdvance(s, c);
    ModeRegisters(k);
  }

  lemma WindowModes(s: Line, c: Calib, k: nat)
    requires k < 5 && Window(s, c).err == Fine
    ensures
      Held(Window(s, c).bus, ModeReg(k))
      == if s.bus.at + 27 + k in s.bus.faults then Held(s.bus, ModeReg(k)) else ModeVal(c, k)
  {
    var filled := Written(s, c);
    WindowStages(s, c);
    WrittenKeepsModes(s, c, k);
    ModesDone(filled, c);
    assert ModeLanded(filled.bus, DoAll(filled, ModeOps(c)).bus, c, k);
    VerifyMeansHeld(DoAll(filled, ModeOps(c)), c);
  }

  /** Success says nothing about the mode and frequency registers: each of the
      five holds its new value exactly when its own transfer was not dropped, and
      otherwise what it held before. */
  lemma ModesFollowTheirTransfers(d: Driver, c: Calib, k: nat)
    requires k < 5 && Applied(d, c).1 == Fine
    ensures
      Held(Applied(d, c).0.bus, ModeReg(k))
      == if d.bus.at + 28 + k in d.bus.faults then Held(d.bus, ModeReg(k)) else ModeVal(c, k)
  {
    var open := Do(Line(d.bus, Fine), Put(CFG_ACCESS, UNLOCK));
    WindowModes(open, c, k);
    ModeRegisters(k);
  }

  /** So a chip can stay in its old wiring mode while applying reports success. */
  lemma DroppedModeGoesUnnoticed(d: Driver, c: Calib)
    requires Validated(c) && (forall i :: 0 <= i < 3 ==> Abs(c.phases[i].phi) <= 0xFF)
    requires d.bus.faults == map[d.bus.at + 28 := Dropped]
    ensures Applied(d, c).1 == Fine && Held(Applied(d, c).0.bus, MMODE0) == Held(d.bus, MMODE0)
  {
    UnverifiedDropsApply(d, c);
    ModesFollowTheirTransfers(d, c, 0);
  }

  /* ---- a good bus always applies ---- */

  lemma PhaseLands(s: Line, c: Calib, i: nat)
    requires i < 3 && s.err == Fine && Clean(s.bus, 9) && Abs(c.phases[i].phi) <= 0xFF
    ensures
      var v := DoAll(s, PutOps(c, i));
      && v.err == Fine && PhaseHeld(v.bus, c, i) && v.bus.at == s.bus.at + 9 && v.bus.faults == s.bus.faults
      && forall k: nat :: k < 3 && k != i && PhaseHeld(s.bus, c, k) ==> PhaseHeld(v.bus, c, k)
  {
    PutsLand(s, c, i);
    PhaseWrites(s, c, i);
    forall k: nat, j: nat | k < 3 && k != i && j < 9
      ensures !OfPhase(i, RegOf(k, j))
    {
      forall l: nat | l < 9 { RegistersAreDistinct(k, j, i, l); }
    }
  }

  lemma AllLand(s: Line, c: Calib)
    requires s.err == Fine && Clean(s.bus, 27) && forall i :: 0 <= i < 3 ==> Abs(c.phases[i].phi) <= 0xFF
    ensures
      var v := Written(s, c);
      v.err == Fine && AllHeld(v.bus, c) && v.bus.at == s.bus.at + 27 && v.bus.faults == s.bus.faults
  {
    PhaseLands(s, c, 0);
    var one := DoAll(s, PutOps(c, 0));
    PhaseLands(one, c, 1);
    var two := DoAll(one, PutOps(c, 1));
    PhaseLands(two, c, 2);
  }

  lemma {:induction false} ModesNeverFail(s: Line, c: Calib, n: nat)
    requires n <= 5 && s.err == Fine
    requires forall t :: s.bus.at <= t < s.bus.at + n && t in s.bus.faults ==> s.bus.faults[t] == Dropped
    ensures DoAll(s, ModeOps(c)[..n]).err == Fine
    decreases n
  {
    if n > 0 {
      Front(s, ModeOps(c), n);
      ModesNeverFail(s, c, n - 1);
      ModesCount(s, c, n - 1);
    }
  }

  lemma {:induction false} ExpectsPass(s: Line, c: Calib, i: nat, n: nat)
    requires i < 3 && n <= 9 && s.err == Fine && Clean(s.bus, 9) && PhaseHeld(s.bus, c, i)
    ensures DoAll(s, ExpectOps(c, i)[..n]) == Line(s.bus.(at := s.bus.at + n), Fine)
    decreases n
  {
    if n > 0 {
      Front(s, ExpectOps(c, i), n);
      ExpectsPass(s, c, i, n - 1);
    }
  }

  lemma PhasePasses(s: Line, c: Calib, i: nat)
    requires i < 3 && s.err == Fine && Clean(s.bus, 9) && PhaseHeld(s.bus, c, i)
    ensures DoAll(s, ExpectOps(c, i)) == Line(s.bus.(at := s.bus.at + 9), Fine)
  {
    assert ExpectOps(c, i)[..9] == ExpectOps(c, i);
    ExpectsPass(s, c, i, 9);
  }

  lemma AllPass(s: Line, c: Calib)
    requires s.err == Fine && Clean(s.bus, 27) && AllHeld(s.bus, c)
    ensures Verified(s, c) == Line(s.bus.(at := s.bus.at + 27), Fine)
  {
    PhasePasses(s, c, 0);
    var one := DoAll(s, ExpectOps(c, 0));
    PhasePasses(one, c, 1);
    var two := DoAll(one, ExpectOps(c, 1));
    PhasePasses(two, c, 2);
  }

  /** A calibration the chip can hold is applied with success whenever no transfer
      fails and no write that is read back is dropped. */
  lemma UnverifiedDropsApply(d: Driver, c: Calib)
    requires Validated(c) && (forall i :: 0 <= i < 3 ==> Abs(c.phases[i].phi) <= 0xFF)
    requires forall t :: d.bus.at <= t <= d.bus.at + 60 && t in d.bus.faults ==>
                           d.bus.at + 28 <= t < d.bus.at + 33 && d.bus.faults[t] == Dropped
    ensures Applied(d, c).1 == Fine
  {
    var open := Do(Line(d.bus, Fine), Put(CFG_ACCESS, UNLOCK));
    AllLand(open, c);
    var filled := Written(open, c);
    assert ModeOps(c)[..5] == ModeOps(c);
    ModesNeverFail(filled, c, 5);
    ModesDone(filled, c);
    AllPass(DoAll(filled, ModeOps(c)), c);
  }

  /* ---- everything else in the chip ---- */

  lemma WrittenFrame(s: Line, c: Calib, r: nat)
    requires Outside(r)
    ensures Held(Written(s, c).bus, r) == Held(s.bus, r)
  {
    var one := DoAll(s, PutOps(c, 0));
    var two := DoAll(one, PutOps(c, 1));
    DoAllFrame(s, PutOps(c, 0), r);
    DoAllFrame(one, PutOps(c, 1), r);
    DoAllFrame(two, PutOps(c, 2), r);
  }

  lemma VerifiedFrame(s: Line, c: Calib, r: nat)
    ensures Held(Verified(s, c).bus, r) == Held(s.bus, r)
  {
    var one := DoAll(s, ExpectOps(c, 0));
    var two := DoAll(one, ExpectOps(c, 1));
    DoAllFrame(s, ExpectOps(c, 0), r);
    DoAllFrame(one, ExpectOps(c, 1), r);
    DoAllFrame(two, ExpectOps(c, 2), r);
  }

  /** Success or failure, no register outside the calibration image, the five mode
      registers and the access lock is ever touched. */
  lemma OtherRegistersUntouched(d: Driver, c: Calib, r: nat)
    requires Outside(r) && r !in {METER_EN, FREQ_LO_TH, FREQ_HI_TH, MMODE0, MMODE1, CFG_ACCESS}
    ensures Held(Applied(d, c).0.bus, r) == Held(d.bus, r)
  {
    if Validated(c) {
      var open := Do(Line(d.bus, Fine), Put(CFG_ACCESS, UNLOCK));
      var filled := Written(open, c);
      WrittenFrame(open, c, r);
      DoAllFrame(filled, ModeOps(c), r);
      VerifiedFrame(DoAll(filled, ModeOps(c)), c, r);
    }
  }

  /* ---- the chip, register by register ---- */

  /** Nine registers by their addresses: gains as they are, offsets, PQ gain and fundamental
      gain in two's complement, the delay as magnitude with the sign in the top bit. */
  ghost predicate PhaseRegisters(b: Bus, p: Phase, vGain: nat, iGain: nat, vOff: nat, iOff: nat, pOff: nat, qOff: nat,
                                 pq: nat, phi: nat, fund: nat) {
    && Held(b, vGain) == p.vGain && Held(b, iGain) == p.iGain
    && TwosComplement(Held(b, vOff), p.vOff) && TwosComplement(Held(b, iOff), p.iOff)
    && TwosComplement(Held(b, pOff), p.pOff) && TwosComplement(Held(b, qOff), p.qOff)
    && TwosComplement(Held(b, pq), p.pq) && TwosComplement(Held(b, fund), p.fund)
    && Held(b, phi) == if p.phi < 0 then 0x8000 - p.phi else p.phi
  }

  ghost predicate TwosComplement(word: u16, v: i16) { word == v || word == v + 0x1_0000 }

  /** All 27 by number: phases A, B and C. */
  ghost predicate ImageByNumber(b: Bus, c: Calib) {
    && PhaseRegisters(b, c.phases[0], 0x61, 0x62, 0x63, 0x64, 0x41, 0x42, 0x47, 0x48, 0x54)
    && PhaseRegisters(b, c.phases[1], 0x65, 0x66, 0x67, 0x68, 0x43, 0x44, 0x49, 0x4A, 0x55)
    && PhaseRegisters(b, c.phases[2], 0x69, 0x6A, 0x6B, 0x6C, 0x45, 0x46, 0x4B, 0x4C, 0x56)
  }

  lemma PhaseByNumber(b: Bus, c: Calib, i: nat)
    requires i < 3 && PhaseHeld(b, c, i) && Abs(c.phases[i].phi) <= 0xFF
    ensures PhaseRegisters(b, c.phases[i], 0x61 + 4 * i, 0x62 + 4 * i, 0x63 + 4 * i, 0x64 + 4 * i, 0x41 + 2 * i,
                           0x42 + 2 * i, 0x47 + 2 * i, 0x48 + 2 * i, 0x54 + i)
  {
    assert Held(b, RegOf(i, 0)) == ValOf(c.phases[i], 0) && Held(b, RegOf(i, 1)) == ValOf(c.phases[i], 1);
    assert Held(b, RegOf(i, 2)) == ValOf(c.phases[i], 2) && Held(b, RegOf(i, 3)) == ValOf(c.phases[i], 3);
    assert Held(b, RegOf(i, 4)) == ValOf(c.phases[i], 4) && Held(b, RegOf(i, 5)) == ValOf(c.phases[i], 5);
    assert Held(b, RegOf(i, 6)) == ValOf(c.phases[i], 6) && Held(b, RegOf(i, 7)) == ValOf(c.phases[i], 7);
    assert Held(b, RegOf(i, 8)) == ValOf(c.phases[i], 8);
  }

  /** After success every calibration register, by its address in the chip, holds its
      field of its phase. */
  lemma AppliedByNumber(d: Driver, c: Calib)
    requires Applied(d, c).1 == Fine
    ensures ImageByNumber(Applied(d, c).0.bus, c)
  {
    SuccessMeansWritten(d, c);
    DelaysFit(d, c);
    PhaseByNumber(Applied(d, c).0.bus, c, 0);
    PhaseByNumber(Applied(d, c).0.bus, c, 1);
    PhaseByNumber(Applied(d, c).0.bus, c, 2);
  }

  /** A calibration of a kind the chip knows, with no gain at zero. */
  ghost predicate Usable(c: Calib) {
    && c.freq in {0, 1} && c.wiring in {0, 1} && c.pga in {0, 1, 2}
    && forall i :: 0 <= i < 3 ==> c.phases[i].vGain >= 1 && c.phases[i].iGain >= 1
  }

  lemma UsableIsValidated(c: Calib)
    ensures Usable(c) <==> Validated(c)
  {
    assert forall i :: 0 <= i < 3 ==> (c.phases[i].vGain >= 1 <==> c.phases[i].vGain != 0);
    assert forall i :: 0 <= i < 3 ==> (c.phases[i].iGain >= 1 <==> c.phases[i].iGain != 0);
  }

  /** Anything else is refused before a transfer is made. */
  lemma UnusableIsRefused(d: Driver, c: Calib)
    ensures !Usable(c) ==> Applied(d, c) == (d, InvalidArg)
    ensures Applied(d, c).1 == Fine ==> Usable(c)
  {
    UsableIsValidated(c);
    if Applied(d, c).1 == Fine { SuccessMeansWritten(d, c); }
  }

  /** The mode registers by number: four or three wires and 60 Hz in 0x33, the gain stage
      in three fields of two bits in 0x34, and 47 to 53 or 57 to 63 Hz in hundredths. */
  ghost predicate ModesByNumber(b: Bus, c: Calib) {
    && Held(b, 0x33) == (if c.wiring == 1 then 0x0185 else 0x0087) + (if c.freq == 1 then 0x1000 else 0)
    && Held(b, 0x34) == 0x15 * c.pga
    && Held(b, 0x0C) == (if c.freq == 1 then 5700 else 4700)
    && Held(b, 0x0D) == (if c.freq == 1 then 6300 else 5300)
    && Held(b, 0x00) == 1
  }

  /** After success on a bus that dropped none of their transfers, the mode registers
      hold wiring, line frequency and gain stage. */
  lemma ModesApplied(d: Driver, c: Calib)
    requires Applied(d, c).1 == Fine && forall t <- d.bus.faults :: !(d.bus.at + 28 <= t < d.bus.at + 33)
    ensures ModesByNumber(Applied(d, c).0.bus, c)
  {
    SuccessMeansWritten(d, c);
    forall k: nat | k < 5
      ensures Held(Applied(d, c).0.bus, ModeReg(k)) == ModeVal(c, k)
    {
      ModesFollowTheirTransfers(d, c, k);
    }
    assert Held(Applied(d, c).0.bus, ModeReg(0)) == ModeVal(c, 0);
    assert Held(Applied(d, c).0.bus, ModeReg(1)) == ModeVal(c, 1);
    assert Held(Applied(d, c).0.bus, ModeReg(2)) == ModeVal(c, 2);
    assert Held(Applied(d, c).0.bus, ModeReg(3)) == ModeVal(c, 3);
    assert Held(Applied(d, c).0.bus, ModeReg(4)) == ModeVal(c, 4);
  }

  lemma LockOutside(r: nat)
    requires r == CFG_ACCESS
    ensures Outside(r)
  {
    forall i: nat, j: nat | i < 3 && j < 9
      ensures RegOf(i, j) != CFG_ACCESS
    {
      RegistersAreDistinct(i, j, i, j);
    }
  }

  lemma WindowKeepsLock(s: Line, c: Calib)
    ensures Held(Window(s, c).bus, CFG_ACCESS) == Held(s.bus, CFG_ACCESS)
  {
    LockOutside(CFG_ACCESS);
    var filled := Written(s, c);
    WrittenFrame(s, c, CFG_ACCESS);
    forall k: nat | k < 5 { ModeRegisters(k); }
    DoAllFrame(filled, ModeOps(c), CFG_ACCESS);
    VerifiedFrame(DoAll(filled, ModeOps(c)), c, CFG_ACCESS);
  }

  lemma WindowLength(s: Line, c: Calib)
    requires Window(s, c).err == Fine
    ensures Window(s, c).bus.at == s.bus.at + 59 && Window(s, c).bus.faults == s.bus.faults
  {
    WindowStages(s, c);
    WritesAdvance(s, c);
    ModesDone(Written(s, c), c);
    VerifyMeansHeld(DoAll(Written(s, c), ModeOps(c)), c);
  }

  lemma {:induction false} DoAllCounts(s: Line, ops: seq<Op>)
    ensures DoAll(s, ops).bus.faults == s.bus.faults && DoAll(s, ops).bus.at >= s.bus.at
    decreases |ops|
  {
    if ops != [] { DoAllCounts(s, ops[..|ops| - 1]); }
  }

  lemma WindowCounts(s: Line, c: Calib)
    ensures Window(s, c).bus.faults == s.bus.faults && Window(s, c).bus.at >= s.bus.at
  {
    var one := DoAll(s, PutOps(c, 0));
    var two := DoAll(one, PutOps(c, 1));
    DoAllCounts(s, PutOps(c, 0));
    DoAllCounts(one, PutOps(c, 1));
    DoAllCounts(two, PutOps(c, 2));
    var filled := Written(s, c);
    DoAllCounts(filled, ModeOps(c));
    var k := DoAll(filled, ModeOps(c));
    var four := DoAll(k, ExpectOps(c, 0));
    var five := DoAll(four, ExpectOps(c, 1));
    DoAllCounts(k, ExpectOps(c, 0));
    DoAllCounts(four, ExpectOps(c, 1));
    DoAllCounts(five, ExpectOps(c, 2));
  }

  /** Once the chip has been unlocked, the last transfer always locks it again, whatever
      failed in between; only if that one goes wrong does the chip stay open with the key it
      was given. Success takes 61 transfers in all. */
  lemma LocksAgain(d: Driver, c: Calib)
    requires Usable(c) && d.bus.at !in d.bus.faults
    ensures
      var (v, err) := (Applied(d, c).0.bus, Applied(d, c).1);
      && v.at >= d.bus.at + 2 && v.faults == d.bus.faults
      && Held(v, 0x7F) == (if v.at - 1 in d.bus.faults then 0x55AA else 0)
      && (err == Fine ==> v.at == d.bus.at + 61)
  {
    UsableIsValidated(c);
    var open := Do(Line(d.bus, Fine), Put(CFG_ACCESS, UNLOCK));
    WindowCounts(open, c);
    WindowKeepsLock(open, c);
    if Window(open, c).err == Fine { WindowLength(open, c); }
  }

  /** Delays that the chip can hold. */
  ghost predicate DelaysHold(c: Calib) { forall i :: 0 <= i < 3 ==> -255 <= c.phases[i].phi <= 255 }

  /** On a bus without faults every usable calibration is applied. */
  lemma CleanBusApplies(d: Driver, c: Calib)
    requires d.bus.faults == map[] && Usable(c) && DelaysHold(c)
    ensures Applied(d, c).1 == Fine && Applied(d, c).0.bus.faults == map[]
  {
    UsableIsValidated(c);
    UnverifiedDropsApply(d, c);
    LocksAgain(d, c);
  }
}
