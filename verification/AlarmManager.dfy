/** The latching alarm machine: gates that follow the thresholds really in the
    chip, a confirm window over a wrapping millisecond clock, latches that only
    an operator clears, and an incident log. */
module AlarmManager {
  import opened CInt
  import opened Options
  import AlarmAnchor

  const BIT_COUNT: nat := 15
  const CLOCK := 0x1_0000_0000
  const OC_RETRY_MS := 5000
  const FREQ_HI := 12
  const FREQ_LO := 13
  const IC_ERROR := 14

  /** `(uint32_t)` of the millisecond timer. */
  function Clock(t: nat): u32 { t % CLOCK }

  /** `now - since` in 32-bit unsigned arithmetic. */
  function Elapsed(now: u32, since: u32): u32 {
    if now >= since then now - since else now - since + CLOCK
  }

  /** The wrapped difference never exceeds the time that really passed, and is
      that time while less than a full turn of the clock went by. */
  lemma ElapsedIsSafe(t0: nat, t: nat)
    requires t0 <= t
    ensures Elapsed(Clock(t), Clock(t0)) <= t - t0
    ensures t - t0 < CLOCK ==> Elapsed(Clock(t), Clock(t0)) == t - t0
  {
    var q0, q := t0 / CLOCK, t / CLOCK;
    assert t0 == q0 * CLOCK + Clock(t0) && t == q * CLOCK + Clock(t);
    assert q0 <= q;
  }

  /** In general it is the time that passed, less whole turns of the clock. */
  lemma ElapsedIsModulo(t0: nat, t: nat)
    ensures Elapsed(Clock(t), Clock(t0)) == (t - t0) % CLOCK
  {
    var q0, q := t0 / CLOCK, t / CLOCK;
    assert t0 == q0 * CLOCK + Clock(t0) && t == q * CLOCK + Clock(t);
    var k := if Clock(t) >= Clock(t0) then q - q0 else q - q0 - 1;
    assert t - t0 == k * CLOCK + Elapsed(Clock(t), Clock(t0));
    Residue(t - t0, k, Elapsed(Clock(t), Clock(t0)));
  }

  lemma Residue(x: int, k: int, r: u32)
    requires x == k * CLOCK + r
    ensures x % CLOCK == r
  {
    assert x == x / CLOCK * CLOCK + x % CLOCK;
  }

  /* ---- decoding the chip's status words ---- */

  datatype Trio = Trio(a: bool, b: bool, c: bool)

  datatype Emm = Emm(ov: Trio, oc: Trio, sag: Trio, loss: Trio, fhi: bool, flo: bool)

  /** A status field packs phases A, B, C from its top bit down, while the alarm
      bitmap counts phase A first: the three bits are turned round. */
  function PhaseBits(st: bv16, shift: bv16): Trio
    requires shift < 16
  {
    var f := (st >> shift) & 7;
    var r := ((f & 1) << 2) | (f & 2) | ((f >> 2) & 1);
    Trio(r & 1 != 0, r & 2 != 0, r & 4 != 0)
  }

  function Decoded(st0: bv16, st1: bv16): Emm {
    Emm(PhaseBits(st0, 10), PhaseBits(st0, 13), PhaseBits(st1, 12), PhaseBits(st1, 8),
        st1 & 0x8000 != 0, st1 & 0x0800 != 0)
  }

  /** Phase A of every field is the field's most significant bit: OV [12:10],
      OI [15:13], sag [14:12], phase loss [10:8]. */
  lemma PhaseAIsTheTopBit(st0: bv16, st1: bv16)
    ensures Decoded(st0, st1).ov == Trio(st0 & 0x1000 != 0, st0 & 0x0800 != 0, st0 & 0x0400 != 0)
    ensures Decoded(st0, st1).oc == Trio(st0 & 0x8000 != 0, st0 & 0x4000 != 0, st0 & 0x2000 != 0)
    ensures Decoded(st0, st1).sag == Trio(st1 & 0x4000 != 0, st1 & 0x2000 != 0, st1 & 0x1000 != 0)
    ensures Decoded(st0, st1).loss == Trio(st1 & 0x0400 != 0, st1 & 0x0200 != 0, st1 & 0x0100 != 0)
  {
  }

  /** What the firmware caches of the alarm configuration. */
  datatype Masks = Masks(ov: bool, oc: bool, uv: bool, pl: bool, freq: bool, confirmMs: u32, role0: u8, role1: u8)

  /** The `i`-th phase of a field, phase A first. */
  predicate Phase(t: Trio, i: int) {
    (i == 0 && t.a) || (i == 1 && t.b) || (i == 2 && t.c)
  }

  /** May bit `b` be judged, and does the chip report it? A category counts only
      when it is enabled and its thresholds are in the chip; the fatal-error pin
      always counts. */
  predicate Reported(m: Masks, vArmed: bool, ocAnchored: bool, e: Emm, warn: bool, b: nat) {
    || (vArmed && m.ov && Phase(e.ov, b))
    || (ocAnchored && m.oc && Phase(e.oc, b - 3))
    || (vArmed && m.uv && Phase(e.sag, b - 6))
    || (vArmed && m.pl && Phase(e.loss, b - 9))
    || (vArmed && m.freq && ((b == FREQ_HI && e.fhi) || (b == FREQ_LO && e.flo)))
    || (b == IC_ERROR && warn)
  }

  function ActiveBits(m: Masks, vArmed: bool, ocAnchored: bool, e: Emm, warn: bool): set<nat> {
    set b: nat | b < BIT_COUNT && Reported(m, vArmed, ocAnchored, e, warn, b)
  }

  /* ---- every alarm bit by its number ---- */

  /** Over-voltage, over-current, under-voltage and phase loss of phases A, B and C. */
  ghost predicate PhaseBitsMean(s: set<nat>, m: Masks, vArmed: bool, ocAnchored: bool, st0: bv16, st1: bv16) {
    && (0 in s <==> vArmed && m.ov && st0 & 0x1000 != 0)
    && (1 in s <==> vArmed && m.ov && st0 & 0x0800 != 0)
    && (2 in s <==> vArmed && m.ov && st0 & 0x0400 != 0)
    && (3 in s <==> ocAnchored && m.oc && st0 & 0x8000 != 0)
    && (4 in s <==> ocAnchored && m.oc && st0 & 0x4000 != 0)
    && (5 in s <==> ocAnchored && m.oc && st0 & 0x2000 != 0)
    && (6 in s <==> vArmed && m.uv && st1 & 0x4000 != 0)
    && (7 in s <==> vArmed && m.uv && st1 & 0x2000 != 0)
    && (8 in s <==> vArmed && m.uv && st1 & 0x1000 != 0)
    && (9 in s <==> vArmed && m.pl && st1 & 0x0400 != 0)
    && (10 in s <==> vArmed && m.pl && st1 & 0x0200 != 0)
    && (11 in s <==> vArmed && m.pl && st1 & 0x0100 != 0)
  }

  /** High and low frequency and the fatal-error pin, and no further bit. */
  ghost predicate OtherBitsMean(s: set<nat>, m: Masks, vArmed: bool, st1: bv16, warn: bool) {
    && (12 in s <==> vArmed && m.freq && st1 & 0x8000 != 0)
    && (13 in s <==> vArmed && m.freq && st1 & 0x0800 != 0)
    && (14 in s <==> warn)
    && forall b <- s :: b < 15
  }

  /** Which bits a snapshot of the chip's two status words activates. */
  lemma BitsByNumber(m: Masks, vArmed: bool, ocAnchored: bool, st0: bv16, st1: bv16, warn: bool)
    ensures
      var s := ActiveBits(m, vArmed, ocAnchored, Decoded(st0, st1), warn);
      && PhaseBitsMean(s, m, vArmed, ocAnchored, st0, st1)
      && OtherBitsMean(s, m, vArmed, st1, warn)
  {
    var e := Decoded(st0, st1);
    VoltageFields(m, vArmed, ocAnchored, e, warn);
    CurrentFields(m, vArmed, ocAnchored, e, warn);
    SagFields(m, vArmed, ocAnchored, e, warn);
    LossFields(m, vArmed, ocAnchored, e, warn);
    BitsOfFields(ActiveBits(m, vArmed, ocAnchored, e, warn), m, vArmed, ocAnchored, e, st0, st1);
    HighAndLow(st0, st1);
    OtherFields(m, vArmed, ocAnchored, e, st1, warn);
  }

  lemma HighAndLow(st0: bv16, st1: bv16)
    ensures Decoded(st0, st1).fhi == (st1 & 0x8000 != 0) && Decoded(st0, st1).flo == (st1 & 0x0800 != 0)
  {}

  ghost predicate TrioBits(s: set<nat>, first: nat, t: Trio, on: bool) {
    (first in s <==> on && t.a) && (first + 1 in s <==> on && t.b) && (first + 2 in s <==> on && t.c)
  }

  lemma BitsOfFields(s: set<nat>, m: Masks, vArmed: bool, ocAnchored: bool, e: Emm, st0: bv16, st1: bv16)
    requires e == Decoded(st0, st1)
    requires TrioBits(s, 0, e.ov, vArmed && m.ov) && TrioBits(s, 3, e.oc, ocAnchored && m.oc)
    requires TrioBits(s, 6, e.sag, vArmed && m.uv) && TrioBits(s, 9, e.loss, vArmed && m.pl)
    ensures PhaseBitsMean(s, m, vArmed, ocAnchored, st0, st1)
  {
    PhaseAIsTheTopBit(st0, st1);
  }

  lemma VoltageFields(m: Masks, vArmed: bool, ocAnchored: bool, e: Emm, warn: bool)
    ensures TrioBits(ActiveBits(m, vArmed, ocAnchored, e, warn), 0, e.ov, vArmed && m.ov)
  {}

  lemma CurrentFields(m: Masks, vArmed: bool, ocAnchored: bool, e: Emm, warn: bool)
    ensures TrioBits(ActiveBits(m, vArmed, ocAnchored, e, warn), 3, e.oc, ocAnchored && m.oc)
  {}

  lemma SagFields(m: Masks, vArmed: bool, ocAnchored: bool, e: Emm, warn: bool)
    ensures TrioBits(ActiveBits(m, vArmed, ocAnchored, e, warn), 6, e.sag, vArmed && m.uv)
  {}

  lemma LossFields(m: Masks, vArmed: bool, ocAnchored: bool, e: Emm, warn: bool)
    ensures TrioBits(ActiveBits(m, vArmed, ocAnchored, e, warn), 9, e.loss, vArmed && m.pl)
  {}

  lemma OtherFields(m: Masks, vArmed: bool, ocAnchored: bool, e: Emm, st1: bv16, warn: bool)
    requires e.fhi == (st1 & 0x8000 != 0) && e.flo == (st1 & 0x0800 != 0)
    ensures OtherBitsMean(ActiveBits(m, vArmed, ocAnchored, e, warn), m, vArmed, st1, warn)
  {}

  /* ---- the state and its transitions ---- */

  type Since = s: seq<u32> | |s| == BIT_COUNT witness [0, 0, 0, 0, 0, 0, 0, 0, 0, 0, 0, 0, 0, 0, 0]

  /** One row of the incident file; the stamp stands for its time columns. */
  datatype Row = Row(bit: nat, fault: bool, stamp: nat)

  datatype Alarm = Alarm(
    latched: set<nat>, active: set<nat>, since: Since, faultLogged: set<nat>, rows: seq<Row>,
    driven0: bool, driven1: bool,
    pending: bool, vArmed: bool, ocAnchored: bool, retryAt: u32, masks: Masks)

  const NO_WINDOWS: Since := [0, 0, 0, 0, 0, 0, 0, 0, 0, 0, 0, 0, 0, 0, 0]
  const NO_MASKS := Masks(false, false, false, false, false, 0, 0, 0)
  const POWER_ON := Alarm({}, {}, NO_WINDOWS, {}, [], false, false, true, false, false, 0, NO_MASKS)

  /** One row per bit of the set, in ascending order. */
  function RowsOf(bits: set<nat>, fault: bool, stamp: nat, n: nat): seq<Row> {
    if n == 0 then []
    else if n - 1 in bits then RowsOf(bits, fault, stamp, n - 1) + [Row(n - 1, fault, stamp)]
    else RowsOf(bits, fault, stamp, n - 1)
  }

  function RowsFor(bits: set<nat>, fault: bool, stamp: nat): seq<Row> { RowsOf(bits, fault, stamp, BIT_COUNT) }

  function Window(since: u32, active: bool, now: u32): u32 {
    if !active then 0 else if since == 0 then now else since
  }

  function Windows(since: Since, active: set<nat>, now: u32): Since {
    seq(BIT_COUNT, b requires 0 <= b < BIT_COUNT => Window(since[b], b in active, now))
  }

  predicate Ripe(since: u32, now: u32, confirmMs: u32) {
    since != 0 && Elapsed(now, since) >= confirmMs
  }

  /** The active bits whose window is open and has lasted. */
  function Confirmed(since: Since, active: set<nat>, now: u32, confirmMs: u32): set<nat> {
    set b: nat | b < BIT_COUNT && b in active && Ripe(since[b], now, confirmMs)
  }

  /** One evaluated snapshot; `ok0`, `ok1` say whether the expander took the
      command to switch an output on. */
  function Serviced(a: Alarm, active: set<nat>, now: u32, stamp: nat, ok0: bool, ok1: bool): Alarm {
    Judged(a, active, now, stamp, Confirmed(a.since, active, now, a.masks.confirmMs) - a.latched, ok0, ok1)
  }

  function Judged(a: Alarm, active: set<nat>, now: u32, stamp: nat, newly: set<nat>, ok0: bool, ok1: bool): Alarm {
    Alarm(a.latched + newly, active, Windows(a.since, active, now),
          a.faultLogged + newly - (a.faultLogged - active),
          a.rows + RowsFor(newly, true, stamp) + RowsFor(a.faultLogged - active, false, stamp),
          a.driven0 || (newly != {} && a.masks.role0 != 0 && ok0),
          a.driven1 || (newly != {} && a.masks.role1 != 0 && ok1),
          a.pending, a.vArmed, a.ocAnchored, a.retryAt, a.masks)
  }

  /** Engineering mode: nothing is judged, and every window starts over. */
  function Suspended(a: Alarm): Alarm { a.(since := NO_WINDOWS) }

  function ResetLatches(a: Alarm): Alarm {
    a.(latched := {}, since := NO_WINDOWS, driven0 := false, driven1 := false)
  }

  function Requested(a: Alarm, now: u32): Alarm {
    a.(pending := true, vArmed := false, ocAnchored := false, retryAt := now)
  }

  /** How the outside answers one pass over the thresholds. */
  datatype Answers = Answers(rawOk: bool, anchors: nat, load: bool, writeOk: bool)

  /** What the measured phases come to for a pass. */
  function Anchored(ps: AlarmAnchor.Phases, rawOk: bool, writeOk: bool): Answers {
    Answers(rawOk, |AlarmAnchor.Scales(ps)|, AlarmAnchor.HasLoad(ps), writeOk)
  }

  predicate Skips(a: Alarm, now: u32) {
    !a.pending && !(!a.ocAnchored && Elapsed(now, a.retryAt) < 0x8000_0000)
  }

  /** The over-current threshold is written only from a live load. */
  predicate WritesOi(m: Masks, e: Answers) { m.oc && e.load }

  /** Does the pass get as far as writing the chip's thresholds? */
  predicate Writes(a: Alarm, m: Masks, e: Answers, now: u32) {
    !Skips(a, now) && e.rawOk && e.anchors >= 2 && (a.pending || WritesOi(m, e))
  }

  /** The rest of a pass that found its masks, its raw readings and a voltage anchor. */
  function Anchoring(a: Alarm, m: Masks, e: Answers, now: u32): Alarm {
    var b := a.(ocAnchored := a.ocAnchored || !m.oc,
                retryAt := if m.oc && !e.load && !a.ocAnchored then Wrap32(now + OC_RETRY_MS) else a.retryAt);
    if (a.pending || WritesOi(m, e)) && e.writeOk
    then b.(ocAnchored := b.ocAnchored || WritesOi(m, e), pending := false, vArmed := true)
    else b
  }

  function Applied(a: Alarm, m: Masks, e: Answers, now: u32): Alarm {
    if Skips(a, now) then a
    else if !e.rawOk || e.anchors < 2 then a.(masks := m)
    else Anchoring(a.(masks := m), m, e, now)
  }

  /* ---- the commands, field by field ---- */

  ghost predicate SameGates(a: Alarm, b: Alarm) {
    && b.pending == a.pending && b.vArmed == a.vArmed && b.ocAnchored == a.ocAnchored
    && b.retryAt == a.retryAt && b.masks == a.masks
  }

  ghost predicate SameLatches(a: Alarm, b: Alarm) {
    && b.latched == a.latched && b.active == a.active && b.faultLogged == a.faultLogged && b.rows == a.rows
    && b.driven0 == a.driven0 && b.driven1 == a.driven1
  }

  /** Engineering mode restarts the windows; the operator's reset also drops latches and
      outputs, but ends no incident; a request closes both gates and is due at once. */
  lemma CommandsDo(a: Alarm, now: u32)
    ensures
      var s := Suspended(a);
      SameGates(a, s) && SameLatches(a, s) && forall b :: 0 <= b < BIT_COUNT ==> s.since[b] == 0
    ensures
      var r := ResetLatches(a);
      && SameGates(a, r) && (forall b :: 0 <= b < BIT_COUNT ==> r.since[b] == 0)
      && r.latched == {} && !r.driven0 && !r.driven1
      && r.active == a.active && r.faultLogged == a.faultLogged && r.rows == a.rows
    ensures
      var q := Requested(a, now);
      && SameLatches(a, q) && q.since == a.since && q.masks == a.masks
      && q.pending && !q.vArmed && !q.ocAnchored && q.retryAt == now
  {}

  /** A pass runs when it was asked for, or when the over-current threshold waits and its
      retry time has come on the wrapping clock. */
  ghost predicate Enters(a: Alarm, now: u32) {
    a.pending || (!a.ocAnchored && AsI32(Wrap32(now - a.retryAt)) >= 0)
  }

  /** What a pass leaves: nothing if it does not run, only the new masks without two
      live phases, and otherwise thresholds if a request is pending or a load anchors the
      current. A write opens a gate only if the chip acknowledged it. */
  ghost predicate PassEffects(a: Alarm, m: Masks, e: Answers, now: u32, b: Alarm) {
    var goesOn := Enters(a, now) && e.rawOk && e.anchors >= 2;
    var current := m.oc && e.load;
    var acked := goesOn && (a.pending || current) && e.writeOk;
    && SameLatches(a, b) && b.since == a.since
    && b.masks == (if Enters(a, now) then m else a.masks)
    && (b.pending <==> a.pending && !acked)
    && (b.vArmed <==> a.vArmed || acked)
    && (b.ocAnchored <==> a.ocAnchored || (goesOn && !m.oc) || (acked && current))
    && b.retryAt == if goesOn && m.oc && !e.load && !a.ocAnchored then Wrap32(now + 5000) else a.retryAt
  }

  lemma PassDoes(a: Alarm, m: Masks, e: Answers, now: u32)
    ensures PassEffects(a, m, e, now, Applied(a, m, e, now))
    ensures Writes(a, m, e, now) <==>
      Enters(a, now) && e.rawOk && e.anchors >= 2 && (a.pending || (m.oc && e.load))
  {
    SignedDifference(now, a.retryAt);
  }

  lemma SignedDifference(x: u32, y: u32)
    ensures Elapsed(x, y) == Wrap32(x - y)
  {}

  /* ---- the manager ---- */

  class AlarmManager {
    var latched: set<nat>
    var active: set<nat>
    const bitSince: array<u32>
    var faultLogged: set<nat>
    var rows: seq<Row>
    var driven0: bool
    var driven1: bool
    var pending: bool
    var vArmed: bool
    var ocAnchored: bool
    var retryAt: u32
    var masks: Masks

    ghost predicate Valid() { bitSince.Length == BIT_COUNT }

    ghost function State(): Alarm
      reads this, bitSince
      requires Valid()
    {
      Alarm(latched, active, bitSince[..], faultLogged, rows, driven0, driven1,
            pending, vArmed, ocAnchored, retryAt, masks)
    }

    constructor ()
      ensures Valid() && fresh(bitSince) && State() == POWER_ON
    {
      latched, active, faultLogged, rows := {}, {}, {}, [];
      driven0, driven1 := false, false;
      pending, vArmed, ocAnchored, retryAt, masks := true, false, false, 0, NO_MASKS;
      bitSince := new u32[BIT_COUNT](i => 0);
      new;
      assert bitSince[..] == NO_WINDOWS;
    }

    method LogEdges(bits: set<nat>, fault: bool, stamp: nat)
      modifies `rows
      ensures rows == old(rows) + RowsFor(bits, fault, stamp)
    {
      for b: nat := 0 to BIT_COUNT
        invariant rows == old(rows) + RowsOf(bits, fault, stamp, b)
      {
        if b in bits {
          rows := rows + [Row(b, fault, stamp)];
        }
      }
    }

    method ClearWindows()
      requires Valid()
      modifies bitSince
      ensures bitSince[..] == NO_WINDOWS
    {
      for b := 0 to BIT_COUNT
        invariant forall k :: 0 <= k < b ==> bitSince[k] == 0
      {
        bitSince[b] := 0;
      }
    }

    /** The loop over the bits: open, keep or close each window, and latch. */
    method Confirm(seen: set<nat>, now: u32) returns (newly: set<nat>)
      requires Valid()
      modifies `latched, bitSince
      ensures newly == Confirmed(old(bitSince[..]), seen, now, masks.confirmMs) - old(latched)
      ensures latched == old(latched) + newly
      ensures bitSince[..] == Windows(old(bitSince[..]), seen, now)
    {
      ghost var was: Since, ms := bitSince[..], masks.confirmMs;
      newly := {};
      for b: nat := 0 to BIT_COUNT
        invariant forall k :: 0 <= k < b ==> bitSince[k] == Window(was[k], k in seen, now)
        invariant forall k :: b <= k < BIT_COUNT ==> bitSince[k] == was[k]
        invariant forall k: nat :: k in newly <==> k < b && k in Confirmed(was, seen, now, ms) && k !in old(latched)
        invariant forall k: nat :: k in latched <==> k in old(latched) || (k < b && k in Confirmed(was, seen, now, ms))
      {
        if b in seen {
          if bitSince[b] == 0 {
            bitSince[b] := now;
          } else if Elapsed(now, bitSince[b]) >= masks.confirmMs {
            if b !in latched {
              newly := newly + {b};
            }
            latched := latched + {b};
          }
        } else {
          bitSince[b] := 0;
        }
      }
    }

    /** A FAULT row for every fresh latch, a CLEAR row for every open incident
        whose condition went away. */
    method LogIncidents(newly: set<nat>, seen: set<nat>, stamp: nat)
      requires newly <= seen
      modifies `faultLogged, `rows
      ensures faultLogged == old(faultLogged) + newly - (old(faultLogged) - seen)
      ensures rows == old(rows) + RowsFor(newly, true, stamp)
                      + RowsFor(old(faultLogged) - seen, false, stamp)
    {
      var ended := faultLogged - seen;
      faultLogged := faultLogged + newly;
      LogEdges(newly, true, stamp);
      faultLogged := faultLogged - ended;
      LogEdges(ended, false, stamp);
    }

    method DriveOutputs(ok0: bool, ok1: bool)
      modifies `driven0, `driven1
      ensures driven0 == (old(driven0) || (masks.role0 != 0 && ok0))
      ensures driven1 == (old(driven1) || (masks.role1 != 0 && ok1))
    {
      if masks.role0 != 0 && !driven0 && ok0 { driven0 := true; }
      if masks.role1 != 0 && !driven1 && ok1 { driven1 := true; }
    }

    method Evaluate(seen: set<nat>, now: u32, stamp: nat, ok0: bool, ok1: bool)
      requires Valid()
      modifies `active, `latched, bitSince, `faultLogged, `rows, `driven0, `driven1
      ensures
        var z := Serviced(old(State()), seen, now, stamp, ok0, ok1);
        && latched == z.latched && active == z.active && bitSince[..] == z.since
        && faultLogged == z.faultLogged && rows == z.rows
        && driven0 == z.driven0 && driven1 == z.driven1
    {
      active := seen;
      var newly := Confirm(seen, now);
      LogIncidents(newly, seen, stamp);
      if newly != {} { DriveOutputs(ok0, ok1); }
    }

    method Service(st0: bv16, st1: bv16, warn: bool, engineering: bool, now: u32, stamp: nat, ok0: bool, ok1: bool)
      requires Valid()
      modifies this, bitSince
      ensures engineering ==> State() == Suspended(old(State()))
      ensures !engineering ==>
        State() == Serviced(old(State()),
                            ActiveBits(old(masks), old(vArmed), old(ocAnchored), Decoded(st0, st1), warn),
                            now, stamp, ok0, ok1)
    {
      if engineering {
        ClearWindows();
      } else {
        Evaluate(ActiveBits(masks, vArmed, ocAnchored, Decoded(st0, st1), warn), now, stamp, ok0, ok1);
      }
    }

    method ResetLatch() returns (off0: bool, off1: bool)
      requires Valid()
      modifies this, bitSince
      ensures State() == ResetLatches(old(State()))
      ensures off0 == old(driven0) && off1 == old(driven1)
    {
      latched := {};
      ClearWindows();
      off0, off1 := driven0, driven1;
      driven0, driven1 := false, false;
    }

    method RequestApply(now: u32)
      requires Valid()
      modifies this
      ensures State() == Requested(old(State()), now)
    {
      pending, vArmed, ocAnchored, retryAt := true, false, false, now;
    }

    /** The over-current threshold, which needs a load; without one, try again later. */
    method AnchorCurrent(on: bool, amps: real, ps: AlarmAnchor.Phases, now: u32) returns (oi: Option<u16>)
      modifies `ocAnchored, `retryAt
      ensures oi == if on && AlarmAnchor.HasLoad(ps)
                    then Some(AlarmAnchor.OiTh(ps[AlarmAnchor.HeaviestOf(ps)], amps)) else None
      ensures ocAnchored == (old(ocAnchored) || !on)
      ensures retryAt == if on && !AlarmAnchor.HasLoad(ps) && !old(ocAnchored)
                         then Wrap32(now + OC_RETRY_MS) else old(retryAt)
    {
      oi := None;
      if on {
        var best := AlarmAnchor.FindHeaviest(ps);
        if AlarmAnchor.Loaded(ps[best]) {
          oi := Some(AlarmAnchor.OiTh(ps[best], amps));
        } else if !ocAnchored {
          retryAt := Wrap32(now + OC_RETRY_MS);
        }
      } else {
        ocAnchored := true;
      }
    }

    /** Nothing is written unless a request is pending or a load anchors the current;
        only an acknowledged write opens the gates. */
    method WriteThresholds(asked: bool, ps: AlarmAnchor.Phases, scales: seq<real>, sum: real, oi: Option<u16>,
                           lim: AlarmAnchor.Limits, writeOk: bool)
      returns (wrote: Option<AlarmAnchor.Thresholds>)
      requires scales == AlarmAnchor.Scales(ps) && sum == AlarmAnchor.VoltSum(ps) && |scales| >= 2
      requires oi.Some? ==>
        AlarmAnchor.HasLoad(ps) && oi.value == AlarmAnchor.OiTh(ps[AlarmAnchor.HeaviestOf(ps)], lim.amps)
      modifies `ocAnchored, `pending, `vArmed
      ensures wrote == if asked || oi.Some? then Some(AlarmAnchor.ThresholdsOf(ps, lim, oi.Some?)) else None
      ensures ocAnchored == (old(ocAnchored) || (oi.Some? && writeOk))
      ensures pending == (old(pending) && !(wrote.Some? && writeOk))
      ensures vArmed == (old(vArmed) || (wrote.Some? && writeOk))
    {
      wrote := None;
      if !asked && oi.None? { return; }
      var th := AlarmAnchor.Compute(ps, scales, sum, oi, lim);
      wrote := Some(th);
      if !writeOk { return; }
      if oi.Some? { ocAnchored := true; }
      pending, vArmed := false, true;
    }

    method AnchorAndWrite(m: Masks, lim: AlarmAnchor.Limits, ps: AlarmAnchor.Phases, scales: seq<real>, sum: real,
                          writeOk: bool, now: u32)
      returns (wrote: Option<AlarmAnchor.Thresholds>)
      requires Valid() && scales == AlarmAnchor.Scales(ps) && sum == AlarmAnchor.VoltSum(ps) && |scales| >= 2
      modifies `retryAt, `ocAnchored, `pending, `vArmed
      ensures State() == Anchoring(old(State()), m, Anchored(ps, true, writeOk), now)
      ensures wrote == if old(pending) || WritesOi(m, Anchored(ps, true, writeOk))
                       then Some(AlarmAnchor.ThresholdsOf(ps, lim, m.oc && AlarmAnchor.HasLoad(ps))) else None
    {
      var asked := pending;
      var oi := AnchorCurrent(m.oc, lim.amps, ps, now);
      wrote := WriteThresholds(asked, ps, scales, sum, oi, lim, writeOk);
    }

    /** One pass over the thresholds, under the meter's lock. */
    method ApplyIc(m: Masks, lim: AlarmAnchor.Limits, ps: AlarmAnchor.Phases, rawOk: bool, writeOk: bool, now: u32)
      returns (wrote: Option<AlarmAnchor.Thresholds>)
      requires Valid()
      modifies `masks, `retryAt, `ocAnchored, `pending, `vArmed
      ensures State() == Applied(old(State()), m, Anchored(ps, rawOk, writeOk), now)
      ensures wrote == if Writes(old(State()), m, Anchored(ps, rawOk, writeOk), now)
                       then Some(AlarmAnchor.ThresholdsOf(ps, lim, WritesOi(m, Anchored(ps, rawOk, writeOk)))) else None
    {
      wrote := None;
      var ocDue := !ocAnchored && Elapsed(now, retryAt) < 0x8000_0000;
      if !pending && !ocDue { return; }
      masks := m;
      if !rawOk { return; }
      var scales, sum := AlarmAnchor.AnchorVoltage(ps);
      if |scales| < 2 { return; }
      wrote := AnchorAndWrite(m, lim, ps, scales, sum, writeOk, now);
    }
  }

  /* ---- whole runs ---- */

  /** The chip's comparators, in the order in which their thresholds are written. */
  const COMPARATORS: nat := 6
  const OV_TH: nat := 0
  const SAG_TH: nat := 1
  const LOSS_TH: nat := 2
  const OI_TH: nat := 3
  const FREQ_LO_TH: nat := 4
  const FREQ_HI_TH: nat := 5

  /** For every comparator, the version of the configuration its threshold was
      computed from; -1 is what the chip starts with. */
  type Chip = s: seq<int> | |s| == COMPARATORS witness [-1, -1, -1, -1, -1, -1]

  const RESET_CHIP: Chip := [-1, -1, -1, -1, -1, -1]

  /** The measuring task's steps and what other tasks do between them. A pass of the
      task reads the status words, copies the configuration out, writes thresholds if
      it must, and judges the words it read: `Read`, `Fetch`, `Apply`, `Eval`, or
      `Paused` in engineering mode; runs may take these in any order. Others reset the
      latch, or change the configuration and request its thresholds. `stored` are the
      comparators whose write reached the chip, whatever was reported. */
  datatype Event =
    | Read(emm: Emm)
    | Fetch
    | Apply(env: Answers, at: u32, stored: set<nat>)
    | Eval(t: nat, warn: bool, ok0: bool, ok1: bool)
    | Paused
    | Reset
    | Configure(m: Masks, now: u32)

  /** What an observer of the run remembers of one event. */
  datatype Seen = Seen(event: Event, active: set<nat>, confirmMs: u32)

  /** The status words as read, and what the comparators behind them were set to. */
  datatype Sample = Sample(emm: Emm, chip: Chip)

  /** The task's own copy of the configuration. */
  datatype Fetched = Fetched(m: Masks, version: nat)

  /** The manager, the configuration in force with its version, the task's copy and
      sample, the version of the cached masks, the chip, and the record of the run. */
  datatype World = World(a: Alarm, config: Masks, version: nat, copy: Fetched, sample: Sample, cached: nat, chip: Chip,
                         past: seq<Seen>)

  /** Does the event set comparator `k`? */
  predicate Stores(w: World, e: Event, k: nat) {
    && e.Apply? && Writes(w.a, w.copy.m, e.env, e.at) && k in e.stored
    && (k == OI_TH ==> WritesOi(w.copy.m, e.env))
  }

  function ChipAfter(w: World, e: Event): Chip {
    seq(COMPARATORS, k requires 0 <= k < COMPARATORS => if Stores(w, e, k) then w.copy.version else w.chip[k])
  }

  function Act(w: World, e: Event): World {
    match e
    case Read(emm) => w.(sample := Sample(emm, w.chip))
    case Fetch => w.(copy := Fetched(w.config, w.version))
    case Apply(env, at, _) =>
      w.(a := Applied(w.a, w.copy.m, env, at), cached := if Skips(w.a, at) then w.cached else w.copy.version,
         chip := ChipAfter(w, e))
    case Eval(t, warn, ok0, ok1) =>
      w.(a := Serviced(w.a, ActiveBits(w.a.masks, w.a.vArmed, w.a.ocAnchored, w.sample.emm, warn), Clock(t), |w.past|,
                       ok0, ok1))
    case Paused => w.(a := Suspended(w.a))
    case Reset => w.(a := ResetLatches(w.a))
    case Configure(m, now) => w.(a := Requested(w.a, now), config := m, version := w.version + 1)
  }

  function Step(w: World, e: Event): World {
    var v := Act(w, e);
    v.(past := w.past + [Seen(e, v.a.active, w.a.masks.confirmMs)])
  }

  const QUIET_TRIO := Trio(false, false, false)
  const QUIET := Emm(QUIET_TRIO, QUIET_TRIO, QUIET_TRIO, QUIET_TRIO, false, false)
  const START :=
    World(POWER_ON, NO_MASKS, 0, Fetched(NO_MASKS, 0), Sample(QUIET, RESET_CHIP), 0, RESET_CHIP, [])

  function Run(es: seq<Event>): World {
    if es == [] then START else Step(Run(es[..|es| - 1]), es[|es| - 1])
  }

  /** Real time does not run backwards. */
  ghost predicate Timed(past: seq<Seen>) {
    forall i, j :: 0 <= i < j < |past| && past[i].event.Eval? && past[j].event.Eval? ==>
                     past[i].event.t <= past[j].event.t
  }

  /* ---- the confirm window ---- */

  /** From entry `k` up to `n`, bit `b` was active at every judged snapshot and
      nothing restarted the windows. */
  ghost predicate Streak(past: seq<Seen>, k: nat, n: nat, b: nat) {
    && k < n <= |past| && past[k].event.Eval?
    && forall j :: k <= j < n ==>
                     && !past[j].event.Paused? && !past[j].event.Reset?
                     && (past[j].event.Eval? ==> b in past[j].active)
  }

  /** The window, whose start reads `since`, opened at entry `k`. */
  ghost predicate OpenedAt(past: seq<Seen>, since: u32, k: nat, b: nat) {
    Streak(past, k, |past|, b) && since == Clock(past[k].event.t)
  }

  /** An open window opened at entry `o`, the start of a streak; and no streak
      that began on a non-zero tick is older than the window. */
  ghost predicate WindowFrom(past: seq<Seen>, since: u32, o: int, b: nat) {
    && (since != 0 ==> o >= 0 && OpenedAt(past, since, o, b))
    && forall k: nat :: Streak(past, k, |past|, b) && Clock(past[k].event.t) != 0 ==> since != 0 && o <= k
  }

  ghost predicate WindowSound(past: seq<Seen>, since: u32, b: nat) {
    exists o: int :: WindowFrom(past, since, o, b)
  }

  ghost predicate WindowsSound(w: World) {
    forall b: nat :: b < BIT_COUNT ==> WindowSound(w.past, w.a.since[b], b)
  }

  /** Bit `b` latched at entry `m`, after a streak that began at `k` and really
      lasted the confirm time, and no operator reset came since. */
  ghost predicate LatchedAt(past: seq<Seen>, k: nat, m: nat, b: nat) {
    && k < m && Streak(past, k, m + 1, b) && past[m].event.Eval?
    && past[m].event.t - past[k].event.t >= past[m].confirmMs
    && forall j :: m < j < |past| ==> !past[j].event.Reset?
  }

  ghost predicate LatchesSound(w: World) {
    forall b <- w.a.latched :: b < BIT_COUNT && exists k: nat, m: nat :: LatchedAt(w.past, k, m, b)
  }

  /** What one entry does to one window. */
  function WindowAfter(since: u32, e: Event, active: bool): u32 {
    if e.Paused? || e.Reset? then 0
    else if e.Eval? then Window(since, active, Clock(e.t))
    else since
  }

  lemma StepRecords(w: World, e: Event)
    ensures Step(w, e).past == w.past + [Seen(e, Step(w, e).a.active, w.a.masks.confirmMs)]
  {
  }

  lemma SinceAfter(w: World, e: Event, b: nat)
    requires b < BIT_COUNT
    ensures Step(w, e).a.since[b] == WindowAfter(w.a.since[b], e, b in Step(w, e).a.active)
  {
    if e.Apply? {
      assert Applied(w.a, w.copy.m, e.env, e.at).since == w.a.since;
    } else if e.Paused? || e.Reset? {
      assert NO_WINDOWS[b] == 0;
    }
  }

  ghost predicate Continues(x: Seen, b: nat) {
    !x.event.Paused? && !x.event.Reset? && (x.event.Eval? ==> b in x.active)
  }

  lemma StreakGrows(past: seq<Seen>, x: Seen, k: nat, b: nat)
    requires Streak(past, k, |past|, b) && Continues(x, b)
    ensures Streak(past + [x], k, |past| + 1, b)
  {
  }

  lemma StreakShrinks(past: seq<Seen>, x: Seen, k: nat, b: nat)
    requires Streak(past + [x], k, |past| + 1, b)
    ensures Continues(x, b)
    ensures if k < |past| then Streak(past, k, |past|, b) else k == |past| && x.event.Eval?
  {
    assert (past + [x])[|past|] == x;
    assert forall j :: 0 <= j < |past| ==> (past + [x])[j] == past[j];
  }

  lemma WindowStaysSound(past: seq<Seen>, since: u32, x: Seen, b: nat)
    requires WindowSound(past, since, b)
    ensures WindowSound(past + [x], WindowAfter(since, x.event, b in x.active), b)
  {
    var o: int :| WindowFrom(past, since, o, b);
    var later := WindowAfter(since, x.event, b in x.active);
    var p := if since != 0 then o else |past|;
    if later != 0 && since != 0 { StreakGrows(past, x, o, b); }
    forall k: nat | Streak(past + [x], k, |past + [x]|, b) && Clock((past + [x])[k].event.t) != 0
      ensures later != 0 && p <= k
    {
      StreakShrinks(past, x, k, b);
    }
    assert WindowFrom(past + [x], later, p, b);
  }

  lemma WindowsStaySound(w: World, e: Event)
    requires WindowsSound(w)
    ensures WindowsSound(Step(w, e))
  {
    StepRecords(w, e);
    forall b: nat | b < BIT_COUNT
      ensures WindowSound(Step(w, e).past, Step(w, e).a.since[b], b)
    {
      SinceAfter(w, e, b);
      WindowStaysSound(w.past, w.a.since[b], Seen(e, Step(w, e).a.active, w.a.masks.confirmMs), b);
    }
  }

  /** A bit latches exactly when it is active and its window has lasted. */
  lemma LatchAfter(w: World, e: Event, b: nat)
    requires b < BIT_COUNT
    ensures b in Step(w, e).a.latched <==>
      if e.Reset? then false
      else
        || b in w.a.latched
        || (e.Eval? && b in Step(w, e).a.active && Ripe(w.a.since[b], Clock(e.t), w.a.masks.confirmMs))
    ensures forall c <- Step(w, e).a.latched :: c in w.a.latched || c < BIT_COUNT
  {
  }

  lemma LatchAges(past: seq<Seen>, x: Seen, k: nat, m: nat, b: nat)
    requires LatchedAt(past, k, m, b) && !x.event.Reset?
    ensures LatchedAt(past + [x], k, m, b)
  {
  }

  lemma RipeWindowLasted(past: seq<Seen>, since: u32, x: Seen, b: nat)
    requires WindowSound(past, since, b) && Timed(past + [x])
    requires x.event.Eval? && b in x.active && Ripe(since, Clock(x.event.t), x.confirmMs)
    ensures exists k: nat :: LatchedAt(past + [x], k, |past|, b)
  {
    var o: int :| WindowFrom(past, since, o, b);
    var k: nat := o;
    StreakGrows(past, x, k, b);
    assert (past + [x])[k] == past[k] && (past + [x])[|past|] == x;
    ElapsedIsSafe(past[k].event.t, x.event.t);
    assert LatchedAt(past + [x], k, |past|, b);
  }

  lemma LatchesStaySound(w: World, e: Event)
    requires WindowsSound(w) && LatchesSound(w) && Timed(Step(w, e).past)
    ensures LatchesSound(Step(w, e))
  {
    var v := Step(w, e);
    StepRecords(w, e);
    var x := Seen(e, v.a.active, w.a.masks.confirmMs);
    forall b | b in v.a.latched
      ensures b < BIT_COUNT && exists k: nat, m: nat :: LatchedAt(v.past, k, m, b)
    {
      LatchAfter(w, e, 0);
      LatchAfter(w, e, b);
      if b in w.a.latched {
        var k: nat, m: nat :| LatchedAt(w.past, k, m, b);
        LatchAges(w.past, x, k, m, b);
      } else {
        RipeWindowLasted(w.past, w.a.since[b], x, b);
      }
    }
  }

  ghost predicate Sound(w: World) {
    WindowsSound(w) && (Timed(w.past) ==> LatchesSound(w))
  }

  lemma StartSound()
    ensures Sound(START)
  {
    forall b: nat | b < BIT_COUNT
      ensures WindowSound([], NO_WINDOWS[b], b)
    {
      assert WindowFrom([], 0, -1, b);
    }
  }

  lemma StepKeepsSound(w: World, e: Event)
    requires Sound(w)
    ensures Sound(Step(w, e))
  {
    WindowsStaySound(w, e);
    StepRecords(w, e);
    if Timed(Step(w, e).past) {
      assert forall i :: 0 <= i < |w.past| ==> Step(w, e).past[i] == w.past[i];
      LatchesStaySound(w, e);
    }
  }

  lemma {:induction false} RunSound(es: seq<Event>)
    ensures Sound(Run(es))
    decreases |es|
  {
    if es == [] {
      StartSound();
    } else {
      RunSound(es[..|es| - 1]);
      StepKeepsSound(Run(es[..|es| - 1]), es[|es| - 1]);
    }
  }

  /** Whatever the run, a latched bit was active at every snapshot judged over a
      stretch of real time no shorter than the confirm time, with no pause or
      reset inside it, and no reset came since: neither the wrapping clock nor the
      use of 0 as "no window" can latch early. */
  lemma LatchMeansConfirmed(es: seq<Event>, b: nat)
    requires Timed(Run(es).past) && b in Run(es).a.latched
    ensures exists k: nat, m: nat :: LatchedAt(Run(es).past, k, m, b)
  {
    RunSound(es);
  }

  /** Bit `b` has been active for the confirm time, since a non-zero tick, but not
      for a whole turn of the clock. */
  ghost predicate Due(past: seq<Seen>, t: nat, confirmMs: u32, k: nat, b: nat) {
    && Streak(past, k, |past|, b) && Clock(past[k].event.t) != 0
    && t - past[k].event.t >= confirmMs
    && forall o: nat :: Streak(past, o, |past|, b) ==> past[o].event.t <= t && t - past[o].event.t < CLOCK
  }

  lemma DueIsRipe(past: seq<Seen>, since: u32, t: nat, confirmMs: u32, k: nat, b: nat)
    requires WindowSound(past, since, b) && Timed(past) && Due(past, t, confirmMs, k, b)
    ensures Ripe(since, Clock(t), confirmMs)
  {
    var o: int :| WindowFrom(past, since, o, b);
    assert past[o].event.t <= past[k].event.t;
    ElapsedIsSafe(past[o].event.t, t);
  }

  /** The other direction: a bit that has been active at every snapshot for the
      confirm time latches at the next snapshot that sees it active. Two things
      can hold it back: a first snapshot on the very tick where the clock reads 0,
      and a clock that has come full circle since. */
  lemma LatchesPromptly(es: seq<Event>, e: Event, k: nat, b: nat)
    requires Timed(Run(es).past) && b < BIT_COUNT
    requires e.Eval? && b in Step(Run(es), e).a.active
    requires Due(Run(es).past, e.t, Run(es).a.masks.confirmMs, k, b)
    ensures b in Step(Run(es), e).a.latched
  {
    RunSound(es);
    DueIsRipe(Run(es).past, Run(es).a.since[b], e.t, Run(es).a.masks.confirmMs, k, b);
    LatchAfter(Run(es), e, b);
  }

  /** The window of bit `b` counts from entry `o`: the first, on a tick other than zero,
      at which the present streak could have begun. */
  ghost predicate CountsFrom(past: seq<Seen>, o: nat, b: nat) {
    && Streak(past, o, |past|, b) && Clock(past[o].event.t) != 0
    && forall k: nat :: Streak(past, k, |past|, b) && Clock(past[k].event.t) != 0 ==> o <= k
  }

  /** The time since then, less whole turns of the clock, has reached the confirm time. */
  ghost predicate RipeFrom(past: seq<Seen>, o: nat, t: nat, confirmMs: u32, b: nat) {
    CountsFrom(past, o, b) && (t - past[o].event.t) % CLOCK >= confirmMs
  }

  lemma OpenWindowCounts(past: seq<Seen>, since: u32, o: int, b: nat)
    requires WindowFrom(past, since, o, b) && since != 0
    ensures o >= 0 && CountsFrom(past, o, b) && since == Clock(past[o].event.t)
  {
  }

  lemma CountingWindowIsOpen(past: seq<Seen>, since: u32, o: int, k: nat, b: nat)
    requires WindowFrom(past, since, o, b) && CountsFrom(past, k, b)
    ensures since != 0 && o == k
  {
    OpenWindowCounts(past, since, o, b);
  }

  lemma RipeExactly(past: seq<Seen>, since: u32, t: nat, confirmMs: u32, b: nat)
    requires WindowSound(past, since, b)
    ensures Ripe(since, Clock(t), confirmMs) <==> exists o: nat :: RipeFrom(past, o, t, confirmMs, b)
  {
    var o: int :| WindowFrom(past, since, o, b);
    if since != 0 {
      OpenWindowCounts(past, since, o, b);
      var p: nat := o;
      ElapsedIsModulo(past[p].event.t, t);
      assert Ripe(since, Clock(t), confirmMs) ==> RipeFrom(past, p, t, confirmMs, b);
    }
    if k: nat :| RipeFrom(past, k, t, confirmMs, b) {
      CountingWindowIsOpen(past, since, o, k, b);
      ElapsedIsModulo(past[k].event.t, t);
    }
  }

  /** Exactly when a bit latches, in every run and however the clock runs: it was
      latched before, or its streak counts from an entry that lies the confirm time
      back on the wrapping clock. */
  lemma LatchesExactly(es: seq<Event>, e: Event, b: nat)
    requires b < BIT_COUNT && e.Eval? && b in Step(Run(es), e).a.active
    ensures
      var w := Run(es);
      b in Step(w, e).a.latched <==>
        b in w.a.latched || exists o: nat :: RipeFrom(w.past, o, e.t, w.a.masks.confirmMs, b)
  {
    RunSound(es);
    RipeExactly(Run(es).past, Run(es).a.since[b], e.t, Run(es).a.masks.confirmMs, b);
    LatchAfter(Run(es), e, b);
  }

  /** A manager that has cached the masks `m`, before its first snapshot. */
  function Cached(m: Masks): World {
    Step(Step(Step(START, Configure(m, 0)), Fetch), Apply(Answers(false, 0, false, false), 0, {}))
  }

  /** A pass that reads `emm` and judges it at `t`, while the chip's fault pin is up. */
  function Warned(w: World, emm: Emm, t: nat): World { Step(Step(w, Read(emm)), Eval(t, true, true, true)) }

  lemma CachedMasks(m: Masks)
    ensures Cached(m).a == POWER_ON.(masks := m)
  {
  }

  lemma WarnedTwice(m: Masks, t: nat, u: nat, emm: Emm, fmm: Emm)
    ensures
      var w := Warned(Cached(m), emm, t);
      && IC_ERROR in w.a.active && IC_ERROR in Warned(w, fmm, u).a.active
      && (IC_ERROR in Warned(w, fmm, u).a.latched <==> Clock(t) != 0 && Elapsed(Clock(u), Clock(t)) >= m.confirmMs)
  {
    CachedMasks(m);
    var r, e, f := Step(Cached(m), Read(emm)), Eval(t, true, true, true), Eval(u, true, true, true);
    var w := Step(r, e);
    LatchAfter(r, e, IC_ERROR);
    SinceAfter(r, e, IC_ERROR);
    LatchAfter(Step(w, Read(fmm)), f, IC_ERROR);
  }

  lemma FullTurn(t: nat)
    ensures Clock(t + CLOCK) == Clock(t)
  {
    assert t == t / CLOCK * CLOCK + Clock(t);
    Residue(t + CLOCK, t / CLOCK + 1, Clock(t));
  }

  /** A fault first seen on a tick that reads zero does not latch at the next snapshot,
      however late that comes. */
  lemma TickZeroDelays(m: Masks, emm: Emm, fmm: Emm, n: nat, u: nat)
    ensures IC_ERROR !in Warned(Warned(Cached(m), emm, n * CLOCK), fmm, u).a.latched
  {
    WarnedTwice(m, n * CLOCK, u, emm, fmm);
    Residue(n * CLOCK, n, 0);
  }

  /** Nor does one that is next seen a whole turn of the clock later. */
  lemma FullTurnDelays(m: Masks, emm: Emm, fmm: Emm, t: nat)
    requires m.confirmMs > 0
    ensures IC_ERROR !in Warned(Warned(Cached(m), emm, t), fmm, t + CLOCK).a.latched
  {
    WarnedTwice(m, t, t + CLOCK, emm, fmm);
    FullTurn(t);
  }

  /* ---- the incident log ---- */

  function History(rows: seq<Row>, b: nat): seq<Row> {
    if rows == [] then [] else
      With(History(rows[..|rows| - 1], b), rows[|rows| - 1].bit == b, rows[|rows| - 1])
  }

  function With(h: seq<Row>, more: bool, r: Row): seq<Row> { if more then h + [r] else h }

  lemma HistoryPush(rows: seq<Row>, r: Row, b: nat)
    ensures History(rows + [r], b) == With(History(rows, b), r.bit == b, r)
  {
    assert (rows + [r])[..|rows|] == rows;
  }

  lemma {:induction false} HistoryAppends(rows: seq<Row>, bits: set<nat>, fault: bool, stamp: nat, n: nat, b: nat)
    ensures History(rows + RowsOf(bits, fault, stamp, n), b)
         == With(History(rows, b), b < n && b in bits, Row(b, fault, stamp))
    decreases n
  {
    if n == 0 {
      assert rows + [] == rows;
    } else {
      var front := RowsOf(bits, fault, stamp, n - 1);
      HistoryAppends(rows, bits, fault, stamp, n - 1, b);
      if n - 1 in bits {
        HistoryPush(rows + front, Row(n - 1, fault, stamp), b);
        assert rows + (front + [Row(n - 1, fault, stamp)]) == (rows + front) + [Row(n - 1, fault, stamp)];
      }
    }
  }

  ghost predicate ResetWithin(past: seq<Seen>, i: int, j: int) {
    exists k :: i < k < j && 0 <= k < |past| && past[k].event.Reset?
  }

  /** The rows of one bit: a CLEAR directly after a FAULT, and two FAULTs in a row
      only around an operator reset. */
  ghost predicate Alternates(past: seq<Seen>, h: seq<Row>) {
    && (h != [] ==> h[0].fault)
    && forall i, j :: 0 <= i < j < |h| && j == i + 1 ==>
         && (h[i].fault || h[j].fault)
         && (h[i].fault && h[j].fault ==> ResetWithin(past, h[i].stamp, h[j].stamp))
  }

  /** The rows of bit `b` so far: an incident is open exactly when the last row is
      a FAULT, and an open incident of an unlatched bit has seen a reset. */
  ghost predicate BitLog(past: seq<Seen>, h: seq<Row>, open: bool, latched: bool) {
    && Alternates(past, h)
    && (open <==> h != [] && h[|h| - 1].fault)
    && (h != [] ==> h[|h| - 1].stamp < |past|)
    && (open && !latched ==> ResetWithin(past, h[|h| - 1].stamp, |past|))
  }

  ghost predicate LogSound(w: World) {
    forall b: nat :: b < BIT_COUNT ==> BitLog(w.past, History(w.a.rows, b), b in w.a.faultLogged, b in w.a.latched)
  }

  lemma ResetStays(past: seq<Seen>, x: Seen, i: int, j: int)
    requires ResetWithin(past, i, j)
    ensures ResetWithin(past + [x], i, j) && ResetWithin(past + [x], i, j + 1)
  {
    var k :| i < k < j && 0 <= k < |past| && past[k].event.Reset?;
    assert (past + [x])[k].event.Reset?;
  }

  lemma AlternatesStays(past: seq<Seen>, x: Seen, h: seq<Row>)
    requires Alternates(past, h)
    ensures Alternates(past + [x], h)
  {
    forall i, j | 0 <= i < j < |h| && j == i + 1 && h[i].fault && h[j].fault
      ensures ResetWithin(past + [x], h[i].stamp, h[j].stamp)
    {
      ResetStays(past, x, h[i].stamp, h[j].stamp);
    }
  }

  /** An evaluation's effect on one bit's rows: FAULT when it latches anew, CLEAR
      when its open incident ends, never both. */
  lemma BitLogStep(past: seq<Seen>, x: Seen, h: seq<Row>, b: nat, open: bool, latched: bool, isNew: bool, over: bool)
    requires BitLog(past, h, open, latched) && !x.event.Reset?
    requires isNew ==> !latched && !over
    requires over ==> open
    ensures
      var g := With(With(h, isNew, Row(b, true, |past|)), over, Row(b, false, |past|));
      BitLog(past + [x], g, (open || isNew) && !over, latched || isNew)
  {
    AlternatesStays(past, x, h);
    if open && !latched { ResetStays(past, x, h[|h| - 1].stamp, |past|); }
  }

  /** Does bit `b` latch anew, or does its incident end, in this evaluation? */
  predicate LatchesAnew(w: World, e: Event, b: nat)
    requires e.Eval? && b < BIT_COUNT
  {
    b !in w.a.latched && b in Step(w, e).a.active && Ripe(w.a.since[b], Clock(e.t), w.a.masks.confirmMs)
  }

  predicate Ends(w: World, e: Event, b: nat) {
    b in w.a.faultLogged && b !in Step(w, e).a.active
  }

  lemma EvalHistory(w: World, e: Event, b: nat)
    requires e.Eval? && b < BIT_COUNT
    ensures
      History(Step(w, e).a.rows, b)
      == With(With(History(w.a.rows, b), LatchesAnew(w, e, b), Row(b, true, |w.past|)),
              Ends(w, e, b), Row(b, false, |w.past|))
    ensures b in Step(w, e).a.faultLogged <==> (b in w.a.faultLogged || LatchesAnew(w, e, b)) && !Ends(w, e, b)
    ensures b in Step(w, e).a.latched <==> b in w.a.latched || LatchesAnew(w, e, b)
  {
    var seen := Step(w, e).a.active;
    var newly := Confirmed(w.a.since, seen, Clock(e.t), w.a.masks.confirmMs) - w.a.latched;
    HistoryAppends(w.a.rows, newly, true, |w.past|, BIT_COUNT, b);
    HistoryAppends(w.a.rows + RowsFor(newly, true, |w.past|), w.a.faultLogged - seen, false, |w.past|, BIT_COUNT, b);
  }

  lemma EvalKeepsLog(w: World, e: Event, b: nat)
    requires LogSound(w) && e.Eval? && b < BIT_COUNT
    ensures
      var v := Step(w, e);
      BitLog(v.past, History(v.a.rows, b), b in v.a.faultLogged, b in v.a.latched)
  {
    EvalHistory(w, e, b);
    BitLogStep(w.past, Step(w, e).past[|w.past|], History(w.a.rows, b), b, b in w.a.faultLogged, b in w.a.latched,
               LatchesAnew(w, e, b), Ends(w, e, b));
  }

  lemma AppliedKeepsLog(a: Alarm, m: Masks, e: Answers, now: u32)
    ensures Applied(a, m, e, now).rows == a.rows && Applied(a, m, e, now).faultLogged == a.faultLogged
    ensures Applied(a, m, e, now).latched == a.latched
  {
  }

  lemma QuietStep(w: World, e: Event)
    requires !e.Eval?
    ensures Step(w, e).a.rows == w.a.rows && Step(w, e).a.faultLogged == w.a.faultLogged
    ensures Step(w, e).a.latched == if e.Reset? then {} else w.a.latched
  {
    if e.Apply? { AppliedKeepsLog(w.a, w.copy.m, e.env, e.at); }
  }

  lemma QuietKeepsLog(w: World, e: Event, b: nat)
    requires LogSound(w) && !e.Eval? && b < BIT_COUNT
    ensures
      var v := Step(w, e);
      BitLog(v.past, History(v.a.rows, b), b in v.a.faultLogged, b in v.a.latched)
  {
    QuietStep(w, e);
    StepRecords(w, e);
    var x := Seen(e, Step(w, e).a.active, w.a.masks.confirmMs);
    BitLogQuiet(w.past, x, History(w.a.rows, b), b in w.a.faultLogged, b in w.a.latched);
  }

  lemma BitLogQuiet(past: seq<Seen>, x: Seen, h: seq<Row>, open: bool, latched: bool)
    requires BitLog(past, h, open, latched)
    ensures BitLog(past + [x], h, open, latched && !x.event.Reset?)
  {
    AlternatesStays(past, x, h);
    if open {
      if x.event.Reset? {
        assert (past + [x])[|past|] == x;
        assert ResetWithin(past + [x], h[|h| - 1].stamp, |past + [x]|);
      } else if !latched {
        ResetStays(past, x, h[|h| - 1].stamp, |past|);
      }
    }
  }

  lemma StepKeepsLog(w: World, e: Event)
    requires LogSound(w)
    ensures LogSound(Step(w, e))
  {
    var v := Step(w, e);
    forall b: nat | b < BIT_COUNT
      ensures BitLog(v.past, History(v.a.rows, b), b in v.a.faultLogged, b in v.a.latched)
    {
      if e.Eval? { EvalKeepsLog(w, e, b); } else { QuietKeepsLog(w, e, b); }
    }
  }

  /** In every run, for every bit: an incident is open exactly when the bit's last
      row is FAULT, its first row is FAULT, every CLEAR directly follows a FAULT,
      and two FAULTs in a row have an operator reset between them. */
  lemma {:induction false} IncidentLog(es: seq<Event>)
    ensures LogSound(Run(es))
    decreases |es|
  {
    if es != [] {
      IncidentLog(es[..|es| - 1]);
      StepKeepsLog(Run(es[..|es| - 1]), es[|es| - 1]);
    }
  }

  /** After an evaluated snapshot every open incident is a condition that is
      present now. */
  lemma OpenIncidentsAreActive(es: seq<Event>)
    requires es != [] && es[|es| - 1].Eval?
    ensures Run(es).a.faultLogged <= Run(es).a.active
  {
    var w := Run(es[..|es| - 1]);
    assert Run(es) == Step(w, es[|es| - 1]);
  }

  /** Bit `b` is latched in `v`, and no FAULT row of it was added since `w`. */
  ghost predicate StillLatched(w: World, v: World, b: nat) {
    var (h, k) := (History(w.a.rows, b), History(v.a.rows, b));
    b in v.a.latched && h <= k && forall i :: |h| <= i < |k| ==> !k[i].fault
  }

  lemma StepWhileLatched(w: World, v: World, e: Event, b: nat)
    requires b < BIT_COUNT && StillLatched(w, v, b) && !e.Reset?
    ensures StillLatched(w, Step(v, e), b)
  {
    if e.Eval? {
      EvalHistory(v, e, b);
    }
  }

  /** Once latched, a bit stays latched until the operator resets, and a fault
      that comes back meanwhile writes no second FAULT row. */
  lemma {:induction false} LatchHoldsUntilReset(es: seq<Event>, i: nat, b: nat)
    requires i <= |es| && b < BIT_COUNT && b in Run(es[..i]).a.latched
    requires forall j :: i <= j < |es| ==> !es[j].Reset?
    ensures StillLatched(Run(es[..i]), Run(es), b)
    decreases |es|
  {
    if i == |es| {
      assert es[..i] == es;
    } else {
      var front := es[..|es| - 1];
      assert front[..i] == es[..i];
      LatchHoldsUntilReset(front, i, b);
      StepWhileLatched(Run(es[..i]), Run(front), es[|es| - 1], b);
    }
  }

  /* ---- outputs ---- */

  ghost predicate OutputSound(w: World) { (w.a.driven0 || w.a.driven1) ==> w.a.latched != {} }

  lemma StepKeepsOutputs(w: World, e: Event)
    requires OutputSound(w)
    ensures OutputSound(Step(w, e))
  {
  }

  /** The alarm believes that it holds an output on only while something is latched, so
      a reset gives both up; whether switching them off succeeded it does not ask. */
  lemma {:induction false} OutputsFollowTheLatch(es: seq<Event>)
    ensures Run(es).a.latched == {} ==> !Run(es).a.driven0 && !Run(es).a.driven1
    decreases |es|
  {
    if es != [] {
      OutputsFollowTheLatch(es[..|es| - 1]);
      StepKeepsOutputs(Run(es[..|es| - 1]), es[|es| - 1]);
    }
  }

  /* ---- which thresholds a verdict was passed on ---- */

  /** Was the configuration changed since the task last copied it out? */
  predicate Overtaken(es: seq<Event>) {
    es != [] &&
    match es[|es| - 1]
    case Fetch => false
    case Configure(_, _) => true
    case _ => Overtaken(es[..|es| - 1])
  }

  /** Is comparator `k` set from anything but the configuration in force? */
  predicate Outdated(es: seq<Event>, k: nat) {
    es == [] ||
    var (front, e) := (es[..|es| - 1], es[|es| - 1]);
    if e.Configure? then true
    else if Stores(Run(front), e, k) then Overtaken(front)
    else Outdated(front, k)
  }

  /** Was the last read status word passed on by such a comparator, or did the
      configuration change since it was read? */
  predicate SampleOutdated(es: seq<Event>, k: nat) {
    es == [] ||
    match es[|es| - 1]
    case Configure(_, _) => true
    case Read(_) => Outdated(es[..|es| - 1], k)
    case _ => SampleOutdated(es[..|es| - 1], k)
  }

  /** Versions only grow, and what is cached or written is no newer than the copy. */
  ghost predicate Ordered(w: World) {
    && w.cached <= w.copy.version <= w.version
    && (forall k: nat :: k < COMPARATORS ==> w.sample.chip[k] <= w.chip[k] <= w.cached)
    && (w.copy.version == w.version ==> w.copy.m == w.config)
    && (w.cached == w.version ==> w.a.masks == w.config)
  }

  lemma StepKeepsOrder(w: World, e: Event)
    requires Ordered(w)
    ensures Ordered(Step(w, e))
  {
  }

  lemma {:induction false} RunKeepsOrder(es: seq<Event>)
    ensures Ordered(Run(es))
    decreases |es|
  {
    if es != [] {
      RunKeepsOrder(es[..|es| - 1]);
      StepKeepsOrder(Run(es[..|es| - 1]), es[|es| - 1]);
    }
  }

  lemma {:induction false} CopyExactly(es: seq<Event>)
    ensures Run(es).copy.version == Run(es).version <==> !Overtaken(es)
    decreases |es|
  {
    if es != [] {
      CopyExactly(es[..|es| - 1]);
      RunKeepsOrder(es[..|es| - 1]);
    }
  }

  lemma VersionAfter(w: World, e: Event, k: nat)
    requires k < COMPARATORS
    ensures Step(w, e).version == if e.Configure? then w.version + 1 else w.version
    ensures Step(w, e).chip[k] == if Stores(w, e, k) then w.copy.version else w.chip[k]
    ensures Step(w, e).sample.chip[k] == if e.Read? then w.chip[k] else w.sample.chip[k]
  {
  }

  /** In every run, and however requests, passes, failed and dropped writes mix: a
      comparator is set from the configuration in force exactly if its last write since
      that configuration was requested used a copy taken after the request. */
  lemma {:induction false} ComparatorExactly(es: seq<Event>, k: nat)
    requires k < COMPARATORS
    ensures Run(es).chip[k] == Run(es).version <==> !Outdated(es, k)
    decreases |es|
  {
    if es != [] {
      var front := es[..|es| - 1];
      ComparatorExactly(front, k);
      RunKeepsOrder(front);
      CopyExactly(front);
      VersionAfter(Run(front), es[|es| - 1], k);
    }
  }

  lemma {:induction false} SampleExactly(es: seq<Event>, k: nat)
    requires k < COMPARATORS
    ensures Run(es).sample.chip[k] == Run(es).version <==> !SampleOutdated(es, k)
    decreases |es|
  {
    if es != [] {
      var front := es[..|es| - 1];
      SampleExactly(front, k);
      ComparatorExactly(front, k);
      RunKeepsOrder(front);
      VersionAfter(Run(front), es[|es| - 1], k);
    }
  }

  /** The comparator behind an alarm bit. */
  function ComparatorOf(b: nat): nat
    requires b < IC_ERROR
  {
    if b < 3 then OV_TH
    else if b < 6 then OI_TH
    else if b < 9 then SAG_TH
    else if b < 12 then LOSS_TH
    else if b == FREQ_HI then FREQ_HI_TH
    else FREQ_LO_TH
  }

  predicate Enabled(m: Masks, b: nat)
    requires b < IC_ERROR
  {
    if b < 3 then m.ov else if b < 6 then m.oc else if b < 9 then m.uv else if b < 12 then m.pl else m.freq
  }

  const ALL := Trio(true, true, true)
  const EVERYTHING := Emm(ALL, ALL, ALL, ALL, true, true)

  /** Which category a bit belongs to, seen from the bits that a chip reporting everything
      activates; and its comparator: over-voltage, over-current, sag, phase loss, high and
      low frequency. */
  lemma ComparatorsByBit(m: Masks, b: nat)
    requires b < IC_ERROR
    ensures b in ActiveBits(m, true, true, EVERYTHING, false) <==> Enabled(m, b)
    ensures ComparatorOf(b) == [0, 0, 0, 3, 3, 3, 1, 1, 1, 2, 2, 2, 5, 4][b]
  {}

  /** The verdict on bit `b` was passed by a comparator set from the configuration in
      force, and that configuration wants it. */
  ghost predicate JudgedFresh(w: World, b: nat)
    requires b < IC_ERROR
  {
    Enabled(w.config, b) && w.sample.chip[ComparatorOf(b)] == w.version
  }

  lemma ReportedIsEnabled(m: Masks, vArmed: bool, ocAnchored: bool, emm: Emm, warn: bool, b: nat)
    requires b < IC_ERROR && Reported(m, vArmed, ocAnchored, emm, warn, b)
    ensures Enabled(m, b) && if ComparatorOf(b) == OI_TH then ocAnchored else vArmed
  {
  }

  lemma EvalActive(w: World, e: Event, b: nat)
    requires e.Eval? && b in Step(w, e).a.active
    ensures b < BIT_COUNT && Reported(w.a.masks, w.a.vArmed, w.a.ocAnchored, w.sample.emm, e.warn, b)
  {
  }

  /** "A new limit can never be judged against the old comparator value" is promised,
      and this is exactly when it is kept, verdict by verdict, in every run: if the
      comparator was current when the status words were read, and nothing was
      reconfigured since. That the gate is open does not say so: a pass that writes new
      thresholds opens it for the words it had read before. */
  lemma JudgedFreshExactly(es: seq<Event>, e: Event, b: nat)
    requires e.Eval? && b < IC_ERROR && b in Step(Run(es), e).a.active
    ensures JudgedFresh(Run(es), b) <==> !SampleOutdated(es, ComparatorOf(b))
  {
    var w := Run(es);
    EvalActive(w, e, b);
    ReportedIsEnabled(w.a.masks, w.a.vArmed, w.a.ocAnchored, w.sample.emm, e.warn, b);
    RunKeepsOrder(es);
    SampleExactly(es, ComparatorOf(b));
  }

  /* ---- what the gates do promise ---- */

  /** Acknowledged writes are stored, and no request comes between the copy of the
      configuration and the writing of its thresholds. */
  predicate Calm(es: seq<Event>) {
    es == [] ||
    var (front, e) := (es[..|es| - 1], es[|es| - 1]);
    && Calm(front)
    && (e.Apply? ==> !Overtaken(front))
    && (e.Apply? && e.env.writeOk ==> forall k: nat :: k < COMPARATORS ==> k in e.stored)
  }

  /** An open gate means current masks and current comparators. */
  ghost predicate GatesSound(w: World) {
    && (w.a.vArmed <==> !w.a.pending)
    && (w.a.vArmed || w.a.ocAnchored ==> w.cached == w.version)
    && (w.a.vArmed ==> forall k: nat :: k < COMPARATORS && k != OI_TH ==> w.chip[k] == w.version)
    && (w.a.ocAnchored && w.a.masks.oc ==> w.chip[OI_TH] == w.version)
  }

  lemma ApplyKeepsGates(w: World, e: Event)
    requires Ordered(w) && GatesSound(w) && e.Apply? && w.copy.version == w.version
    requires e.env.writeOk ==> forall k: nat :: k < COMPARATORS ==> k in e.stored
    ensures GatesSound(Step(w, e))
  {
  }

  lemma OtherKeepsGates(w: World, e: Event)
    requires GatesSound(w) && !e.Apply?
    ensures GatesSound(Step(w, e))
  {
  }

  lemma {:induction false} CalmKeepsGates(es: seq<Event>)
    requires Calm(es)
    ensures GatesSound(Run(es))
    decreases |es|
  {
    if es != [] {
      var front, e := es[..|es| - 1], es[|es| - 1];
      CalmKeepsGates(front);
      RunKeepsOrder(front);
      CopyExactly(front);
      if e.Apply? { ApplyKeepsGates(Run(front), e); } else { OtherKeepsGates(Run(front), e); }
    }
  }

  /** Is the gate of comparator `k` open? */
  predicate Gate(a: Alarm, k: nat) { if k == OI_TH then a.ocAnchored && a.masks.oc else a.vArmed }

  /** In a calm run an open gate means that the comparator behind it is set from the
      configuration in force now. */
  lemma OpenGateIsCurrent(es: seq<Event>, k: nat)
    requires Calm(es) && k < COMPARATORS && Gate(Run(es).a, k)
    ensures !Outdated(es, k) && Run(es).a.masks == Run(es).config
  {
    CalmKeepsGates(es);
    ComparatorExactly(es, k);
    RunKeepsOrder(es);
  }

  lemma {:induction false} SampleStays(es: seq<Event>, r: nat, k: nat)
    requires r < |es| && es[r].Read? && forall j :: r < j < |es| ==> !es[j].Configure? && !es[j].Read?
    ensures SampleOutdated(es, k) <==> Outdated(es[..r], k)
    decreases |es|
  {
    var front := es[..|es| - 1];
    if r < |es| - 1 {
      assert front[..r] == es[..r];
      SampleStays(front, r, k);
    }
  }

  /** Words read through an open gate stay fresh until something is reconfigured. */
  lemma ReadThroughOpenGate(es: seq<Event>, r: nat, k: nat)
    requires r < |es| && es[r].Read? && forall j :: r < j < |es| ==> !es[j].Configure? && !es[j].Read?
    requires Calm(es[..r]) && k < COMPARATORS && Gate(Run(es[..r]).a, k)
    ensures !SampleOutdated(es, k)
  {
    OpenGateIsCurrent(es[..r], k);
    SampleStays(es, r, k);
  }

  /** A pass of the task that nothing comes between: its verdicts are fresh exactly if
      the gate was open before it, or an earlier pass that reported failure had already
      set the comparator. So a pass that opens a gate always judges, by the new limits,
      words that other thresholds produced, unless such a failure came first. */
  lemma UndisturbedPass(es: seq<Event>, emm: Emm, env: Answers, at: u32, stored: set<nat>, k: nat)
    requires Calm(es) && k < COMPARATORS
    ensures
      var w := Run(es);
      !SampleOutdated(es + [Read(emm), Fetch, Apply(env, at, stored)], k) <==>
        Gate(w.a, k) || w.chip[k] == w.version
  {
    var fs := es + [Read(emm), Fetch, Apply(env, at, stored)];
    assert fs[..|es|] == es && fs[|es|] == Read(emm);
    SampleStays(fs, |es|, k);
    ComparatorExactly(es, k);
    if Gate(Run(es).a, k) { OpenGateIsCurrent(es, k); }
  }

  /* ---- a verdict of the old thresholds ---- */

  const ALL_STORED: set<nat> := {0, 1, 2, 3, 4, 5}
  const WRITE_ALL := Apply(Answers(true, 3, true, true), 0, ALL_STORED)

  /** A pass that succeeds in all it does. */
  function Pass(w: World, emm: Emm, t: nat): World {
    Step(Step(Step(Step(w, Read(emm)), Fetch), WRITE_ALL), Eval(t, false, true, true))
  }

  lemma ArmingPass(w: World, m: Masks, now: u32, emm: Emm, t: nat)
    requires m.ov && emm.ov.a
    ensures
      var v := Pass(Step(w, Configure(m, now)), emm, t);
      && v.sample == Sample(emm, w.chip) && v.a.vArmed && v.version == w.version + 1 && 0 in v.a.active
      && v.a.since[0] == (if w.a.since[0] == 0 then Clock(t) else w.a.since[0])
      && (0 in v.a.latched <==> 0 in w.a.latched || Ripe(w.a.since[0], Clock(t), m.confirmMs))
  {
    var c := Step(Step(Step(w, Configure(m, now)), Read(emm)), Fetch);
    var x := Step(c, WRITE_ALL);
    assert x.a.vArmed && x.a.masks == m && x.sample.emm == emm && x.a.since == w.a.since && x.a.latched == w.a.latched;
    assert Reported(m, true, x.a.ocAnchored, emm, false, 0);
    LatchAfter(x, Eval(t, false, true, true), 0);
    SinceAfter(x, Eval(t, false, true, true), 0);
  }

  /** The first pass after power-on already judges what the chip's own reset defaults
      had to say. */
  lemma DefaultsAreJudged(m: Masks, now: u32, emm: Emm, t: nat)
    requires m.ov && emm.ov.a
    ensures
      var v := Pass(Step(START, Configure(m, now)), emm, t);
      0 in v.a.active && v.sample.chip == RESET_CHIP
  {
    ArmingPass(START, m, now, emm, t);
  }

  /** And a limit that is raised while its alarm waits to be confirmed still latches it:
      the words judged by the pass that writes the new limit were read under the old. */
  lemma StaleVerdictLatches(m: Masks, n: Masks, now: u32, emm: Emm, fmm: Emm, t: nat, u: nat)
    requires m.ov && n.ov && emm.ov.a && fmm.ov.a
    requires Clock(t) != 0 && t <= u < t + CLOCK && u - t >= n.confirmMs
    ensures
      var w := Pass(Step(START, Configure(m, 0)), emm, t);
      var v := Pass(Step(w, Configure(n, now)), fmm, u);
      0 !in w.a.latched && 0 in v.a.latched && v.sample.chip == w.chip && v.version == 2 && w.chip[OV_TH] == 1
  {
    var w := Pass(Step(START, Configure(m, 0)), emm, t);
    ArmingPass(START, m, 0, emm, t);
    ArmingPass(w, n, now, fmm, u);
    ElapsedIsSafe(t, u);
    ArmingPassWrites(START, m, 0, emm, t);
  }

  lemma ArmingPassWrites(w: World, m: Masks, now: u32, emm: Emm, t: nat)
    ensures Pass(Step(w, Configure(m, now)), emm, t).chip[OV_TH] == w.version + 1
  {
    var c := Step(Step(Step(w, Configure(m, now)), Read(emm)), Fetch);
    assert Stores(c, WRITE_ALL, OV_TH) && c.copy.version == w.version + 1;
    assert Step(c, WRITE_ALL).chip[OV_TH] == w.version + 1;
  }

  /** A request that arrives between the copy of the configuration and the writing of
      its thresholds is taken for served: the gates open, no request is pending, and
      the chip has the thresholds of the configuration before. */
  lemma OvertakenRequestIsLost(m: Masks, now: u32)
    ensures
      var w := Step(Step(Step(START, Fetch), Configure(m, now)), WRITE_ALL);
      w.a.vArmed && !w.a.pending && w.version == 1 && w.chip[OV_TH] == 0
  {
    var c := Step(Step(START, Fetch), Configure(m, now));
    assert Stores(c, WRITE_ALL, OV_TH);
  }

  /* ---- what the outputs do, exactly ---- */

  ghost predicate FreshLatch(es: seq<Event>)
    requires es != []
  {
    exists b: nat :: b in Run(es).a.latched && b !in Run(es[..|es| - 1]).a.latched
  }

  /** Has the alarm switched the output on: at a fresh latch, with a role for it and the
      expander's consent, and not reset since? */
  ghost predicate SwitchedOn(es: seq<Event>, second: bool)
    decreases |es|
  {
    es != [] &&
    var (before, e) := (es[..|es| - 1], es[|es| - 1]);
    var m := Run(before).a.masks;
    !e.Reset? &&
    (SwitchedOn(before, second)
     || (e.Eval? && FreshLatch(es) && (if second then m.role1 != 0 && e.ok1 else m.role0 != 0 && e.ok0)))
  }

  lemma DrivenAfter(w: World, e: Event)
    ensures
      var (a, b) := (w.a, Step(w, e).a);
      var fresher := exists c: nat :: c in b.latched && c !in a.latched;
      && b.driven0 == (!e.Reset? && (a.driven0 || (e.Eval? && fresher && a.masks.role0 != 0 && e.ok0)))
      && b.driven1 == (!e.Reset? && (a.driven1 || (e.Eval? && fresher && a.masks.role1 != 0 && e.ok1)))
  {
    if e.Eval? {
      var seen := ActiveBits(w.a.masks, w.a.vArmed, w.a.ocAnchored, w.sample.emm, e.warn);
      var newly := Confirmed(w.a.since, seen, Clock(e.t), w.a.masks.confirmMs) - w.a.latched;
      if newly != {} {
        var c :| c in newly;
        assert c in Step(w, e).a.latched && c !in w.a.latched;
      }
    }
  }

  /** In every run an output is on, as far as the alarm knows, exactly when a fresh latch
      switched it on and no operator reset came since; a latch that was there before, a
      role that is not set and a refused command switch nothing. */
  lemma {:induction false} OutputsExactly(es: seq<Event>)
    ensures Run(es).a.driven0 == SwitchedOn(es, false) && Run(es).a.driven1 == SwitchedOn(es, true)
    decreases |es|
  {
    if es != [] {
      OutputsExactly(es[..|es| - 1]);
      DrivenAfter(Run(es[..|es| - 1]), es[|es| - 1]);
    }
  }
}
