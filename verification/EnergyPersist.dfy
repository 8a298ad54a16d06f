/** Crash-safe persistence of the energy counters: two alternating NVS slots,
    a check that rejects torn writes, and a wrapping 16-bit sequence number. */
module EnergyPersist {
  import opened CInt

  const THRESHOLD_WH := 50.0
  const PERIOD_US := 600 * 1_000_000

  datatype Counters = Counters(
    activeImport: real, activeExport: real,
    reactiveImport: real, reactiveExport: real,
    demandMax: real, windowMin: nat)
  {
    function Total(): real { activeImport + activeExport + reactiveImport + reactiveExport }
  }

  const POWER_ON := Counters(0.0, 0.0, 0.0, 0.0, 0.0, 15)

  /** One NVS key. `Invalid` is any content the loader rejects: wrong length,
      magic, version or checksum. */
  datatype Slot = Empty | Invalid | Blob(number: u16, data: Counters)

  /** What a write that did not report success left in the slot it targeted. */
  datatype Landing = Old | New | Torn

  datatype Outcome = Done | Failed(landing: Landing)

  datatype Dev = Dev(
    a: Slot, b: Slot,                          // flash
    number: u16, ram: Counters,                   // statics
    savedTotal: real, lastSaveUs: int, dirty: bool)

  /* ---- specification of the operations ---- */

  /** `(uint16_t)(x + 1)` and its inverse. */
  function Up(x: u16): u16 { if x == 0xffff then 0 else x + 1 }
  function Down(x: u16): u16 { if x == 0 then 0xffff else x - 1 }

  /** The signed difference that decides which of two slots is newer. */
  predicate Newer(x: u16, y: u16) { 0 < x - y < 0x8000 || x - y < -0x8000 }

  /** The casts in the source, spelled out. */
  lemma CastsAgree(x: u16, y: u16)
    ensures Up(x) == Wrap16(x + 1)
    ensures Newer(x, y) <==> AsI16(Wrap16(x - y)) > 0
  {}

  function Consider(best: Slot, s: Slot): Slot {
    if s.Blob? && (!best.Blob? || Newer(s.number, best.number)) then s else best
  }

  function Newest(a: Slot, b: Slot): Slot { Consider(Consider(Empty, a), b) }

  /** Statics after a reboot and `energy_accum_load`. */
  function Boot(d: Dev, now: int): Dev {
    var best := Newest(d.a, d.b);
    if best.Blob? then
      var c := best.data;
      var kept := if c.windowMin > 0 then c else c.(windowMin := POWER_ON.windowMin);
      Dev(d.a, d.b, best.number, kept, kept.Total(), now, false)
    else
      Dev(d.a, d.b, 0, POWER_ON, 0.0, now, false)
  }

  function Land(before: Slot, written: Slot, l: Landing): Slot {
    match l case Old => before case New => written case Torn => Invalid
  }

  function Save(d: Dev, o: Outcome, now: int): Dev {
    var next := Up(d.number);
    var blob := Blob(next, d.ram);
    var l := if o.Done? then New else o.landing;
    var d1 := if next % 2 == 1 then d.(a := Land(d.a, blob, l)) else d.(b := Land(d.b, blob, l));
    if o.Done? then d1.(number := next, savedTotal := d.ram.Total(), lastSaveUs := now, dirty := false)
    else d1
  }

  function Magnitude(x: real): real { if x < 0.0 then -x else x }

  predicate Triggers(d: Dev, now: int) {
    var delta := Magnitude(d.ram.Total() - d.savedTotal);
    delta >= THRESHOLD_WH || ((d.dirty || delta > 0.0) && now - d.lastSaveUs >= PERIOD_US)
  }

  function Service(d: Dev, o: Outcome, now: int): Dev {
    var d1 := d.(dirty := d.dirty || d.ram.Total() != d.savedTotal);
    if Triggers(d, now) then Save(d1, o, now) else d1
  }

  function Zero(c: Counters): Counters {
    c.(activeImport := 0.0, activeExport := 0.0, reactiveImport := 0.0, reactiveExport := 0.0)
  }

  function Reset(d: Dev, o: Outcome, now: int): Dev {
    Save(d.(ram := Zero(d.ram), dirty := true), o, now)
  }

  function ResetDemand(d: Dev, o: Outcome, now: int): Dev {
    Save(d.(ram := d.ram.(demandMax := 0.0), dirty := true), o, now)
  }

  /** A window of no minutes is refused; a new one is only marked for a later save. */
  function SetWindow(d: Dev, minutes: u16): Dev {
    if minutes == 0 then d else d.(ram := d.ram.(windowMin := minutes), dirty := true)
  }

  /* ---- the operations, field by field ---- */

  ghost predicate SameStatics(d: Dev, d': Dev) {
    d'.number == d.number && d'.savedTotal == d.savedTotal && d'.lastSaveUs == d.lastSaveUs
  }

  /** What a save reports and leaves behind: odd numbers go to slot A and even ones
      to slot B; a success moves every static, a failure none of them. */
  ghost predicate SaveEffects(d: Dev, o: Outcome, now: int, d': Dev) {
    var next := if d.number == 65535 then 0 else d.number + 1;
    && d'.ram == d.ram
    && (next % 2 == 1 ==> d'.b == d.b)
    && (next % 2 == 0 ==> d'.a == d.a)
    && (o.Done? ==>
          && (if next % 2 == 1 then d'.a else d'.b) == Blob(next, d.ram)
          && d'.number == next && d'.lastSaveUs == now && !d'.dirty
          && d'.savedTotal == d.ram.activeImport + d.ram.activeExport
                              + d.ram.reactiveImport + d.ram.reactiveExport)
    && (o.Failed? ==>
          && SameStatics(d, d') && d'.dirty == d.dirty
          && (o.landing == Old ==> d'.a == d.a && d'.b == d.b)
          && (o.landing == New ==> (if next % 2 == 1 then d'.a else d'.b) == Blob(next, d.ram))
          && (o.landing == Torn ==> (if next % 2 == 1 then d'.a else d'.b) == Invalid))
  }

  lemma SaveDoes(d: Dev, o: Outcome, now: int)
    ensures SaveEffects(d, o, now, Save(d, o, now))
  {}

  /** A boot leaves the flash alone, starts the period anew with nothing pending, and
      runs on a slot's counters, with the default window when that slot has none. */
  ghost predicate BootEffects(d: Dev, now: int, d': Dev) {
    && d'.a == d.a && d'.b == d.b && d'.lastSaveUs == now && !d'.dirty
    && d'.savedTotal == d'.ram.activeImport + d'.ram.activeExport
                        + d'.ram.reactiveImport + d'.ram.reactiveExport
    && (!d.a.Blob? && !d.b.Blob? ==> d'.number == 0 && d'.ram == Counters(0.0, 0.0, 0.0, 0.0, 0.0, 15))
    && (d.a.Blob? && !d.b.Blob? ==> Restored(d.a, d'))
    && (d.b.Blob? && !d.a.Blob? ==> Restored(d.b, d'))
    && (d.a.Blob? && d.b.Blob? ==>
          var ahead := (d.b.number - d.a.number) % 65536;
          if 0 < ahead < 32768 then Restored(d.b, d') else Restored(d.a, d'))
  }

  ghost predicate Restored(s: Slot, d': Dev)
    requires s.Blob?
  {
    && d'.number == s.number
    && d'.ram.activeImport == s.data.activeImport && d'.ram.activeExport == s.data.activeExport
    && d'.ram.reactiveImport == s.data.reactiveImport && d'.ram.reactiveExport == s.data.reactiveExport
    && d'.ram.demandMax == s.data.demandMax
    && d'.ram.windowMin == if s.data.windowMin > 0 then s.data.windowMin else 15
  }

  lemma BootDoes(d: Dev, now: int)
    ensures BootEffects(d, now, Boot(d, now))
  {}

  /** A reset is a save of counters with exactly the reset fields at zero; a failed
      one leaves its change pending. */
  ghost predicate ResetEffects(d: Dev, o: Outcome, now: int, energy: Dev, peak: Dev) {
    && energy.ram.activeImport == 0.0 && energy.ram.activeExport == 0.0
    && energy.ram.reactiveImport == 0.0 && energy.ram.reactiveExport == 0.0
    && energy.ram.demandMax == d.ram.demandMax && energy.ram.windowMin == d.ram.windowMin
    && peak.ram.activeImport == d.ram.activeImport && peak.ram.activeExport == d.ram.activeExport
    && peak.ram.reactiveImport == d.ram.reactiveImport && peak.ram.reactiveExport == d.ram.reactiveExport
    && peak.ram.demandMax == 0.0 && peak.ram.windowMin == d.ram.windowMin
    && SaveEffects(d.(ram := energy.ram, dirty := true), o, now, energy)
    && SaveEffects(d.(ram := peak.ram, dirty := true), o, now, peak)
  }

  lemma ResetsDo(d: Dev, o: Outcome, now: int)
    ensures ResetEffects(d, o, now, Reset(d, o, now), ResetDemand(d, o, now))
  {
    SaveDoes(d.(ram := Reset(d, o, now).ram, dirty := true), o, now);
    SaveDoes(d.(ram := ResetDemand(d, o, now).ram, dirty := true), o, now);
  }

  lemma WindowDoes(d: Dev, minutes: u16)
    ensures
      var d' := SetWindow(d, minutes);
      && d'.a == d.a && d'.b == d.b && SameStatics(d, d')
      && d'.dirty == (d.dirty || minutes > 0)
      && d'.ram.windowMin == (if minutes > 0 then minutes else d.ram.windowMin)
      && d'.ram.activeImport == d.ram.activeImport && d'.ram.activeExport == d.ram.activeExport
      && d'.ram.reactiveImport == d.ram.reactiveImport && d'.ram.reactiveExport == d.ram.reactiveExport
      && d'.ram.demandMax == d.ram.demandMax
  {}

  /* ---- the firmware's statics, updated in place ---- */

  class EnergyAccum {
    var slotA: Slot
    var slotB: Slot
    var number: u16
    var ram: Counters
    var savedTotal: real
    var lastSaveUs: int
    var dirty: bool

    ghost function State(): Dev
      reads this
    {
      Dev(slotA, slotB, number, ram, savedTotal, lastSaveUs, dirty)
    }

    constructor ()
      ensures State() == Dev(Empty, Empty, 0, POWER_ON, 0.0, 0, false)
    {
      slotA, slotB, number, ram := Empty, Empty, 0, POWER_ON;
      savedTotal, lastSaveUs, dirty := 0.0, 0, false;
    }

    /** Reboot: the statics start over, then the newest valid slot is loaded. */
    method Load(now: int)
      modifies this
      ensures State() == Boot(old(State()), now)
    {
      number, ram, savedTotal, dirty := 0, POWER_ON, 0.0, false;
      lastSaveUs := now;
      var keys := [slotA, slotB];
      var best := Empty;
      for i := 0 to 2
        invariant State() == old(State()).(number := 0, ram := POWER_ON, savedTotal := 0.0, dirty := false,
                                           lastSaveUs := now)
        invariant best == if i == 0 then Empty
                          else if i == 1 then Consider(Empty, slotA) else Newest(slotA, slotB)
      {
        var blob := keys[i];
        if !blob.Blob? {
          continue;
        }
        CastsAgree(blob.number, if best.Blob? then best.number else 0);
        if !best.Blob? || AsI16(Wrap16(blob.number - best.number)) > 0 {
          best := blob;
        }
      }
      if !best.Blob? {
        return;
      }
      var window := ram.windowMin;
      if best.data.windowMin > 0 {
        window := best.data.windowMin;
      }
      ram := best.data.(windowMin := window);
      number := best.number;
      savedTotal := ram.Total();
    }

    method SaveCounters(o: Outcome, now: int) returns (ok: bool)
      modifies this
      ensures State() == Save(old(State()), o, now)
      ensures ok == o.Done?
    {
      CastsAgree(number, 0);
      var blob := Blob(Wrap16(number + 1), ram);
      var total := ram.Total();
      var l := if o.Done? then New else o.landing;
      if blob.number % 2 == 1 {
        slotA := Land(slotA, blob, l);
      } else {
        slotB := Land(slotB, blob, l);
      }
      if o.Done? {
        number := blob.number;
        savedTotal := total;
        lastSaveUs := now;
        dirty := false;
      }
      return o.Done?;
    }

    method ServiceTick(o: Outcome, now: int)
      modifies this
      ensures State() == Service(old(State()), o, now)
    {
      var delta := ram.Total() - savedTotal;
      if delta < 0.0 {
        delta := -delta;
      }
      if delta > 0.0 {
        dirty := true;
      }
      if delta >= THRESHOLD_WH || (dirty && now - lastSaveUs >= PERIOD_US) {
        var _ := SaveCounters(o, now);
      }
    }

    method ResetEnergy(o: Outcome, now: int)
      modifies this
      ensures State() == Reset(old(State()), o, now)
    {
      ram := ram.(activeImport := 0.0, activeExport := 0.0, reactiveImport := 0.0, reactiveExport := 0.0);
      dirty := true;
      var _ := SaveCounters(o, now);
    }

    method ResetDemandPeak(o: Outcome, now: int)
      modifies this
      ensures State() == ResetDemand(old(State()), o, now)
    {
      ram := ram.(demandMax := 0.0);
      dirty := true;
      var _ := SaveCounters(o, now);
    }

    method SetDemandWindow(minutes: u16) returns (ok: bool)
      modifies `ram, `dirty
      ensures State() == SetWindow(old(State()), minutes) && ok == (minutes > 0)
    {
      ok := minutes > 0;
      if ok {
        ram := ram.(windowMin := minutes);
        dirty := true;
      }
    }
  }

  /* ---- runs, with the history that the promises speak about ---- */

  /** `Accrue` moves the energies and the peak; the window has its own event. */
  datatype Event =
    | Accrue(to: Counters)
    | SaveNow(o: Outcome, now: int)
    | Tick(o: Outcome, now: int)
    | Clear(o: Outcome, now: int)
    | ClearDemand(o: Outcome, now: int)
    | Window(minutes: u16)
    | Reboot(now: int)

  /** `log` lists every value a save ever tried to write; `done` is the index of
      the last save that reported success and `floor` the index of the newest
      copy known to be safe in flash (`done`, or a later one seen by a boot).
      `idA` and `idB` say which attempt a valid slot holds. `drift` bounds how
      far the counters moved since the last service tick, save or boot. */
  datatype World = World(
    dev: Dev, log: seq<Counters>, idA: int, idB: int,
    floor: int, done: int, drift: real)

  const FRESH := World(Dev(Empty, Empty, 0, POWER_ON, 0.0, 0, false), [], -1, -1, -1, -1, 0.0)

  /** A save of the current counters, recorded. */
  function Attempt(w: World, o: Outcome, now: int): World {
    var k := |w.log|;
    var toA := Up(w.dev.number) % 2 == 1;
    var wrote := o.Done? || o.landing == New;
    var w1 := w.(dev := Save(w.dev, o, now), log := w.log + [w.dev.ram],
                 idA := if toA && wrote then k else w.idA,
                 idB := if !toA && wrote then k else w.idB);
    if o.Done? then w1.(floor := k, done := k, drift := 0.0) else w1
  }

  /** The service tick has seen whether the counters moved. */
  function Noticed(w: World): World {
    w.(dev := w.dev.(dirty := w.dev.dirty || w.dev.ram.Total() != w.dev.savedTotal))
  }

  function Zeroed(w: World): World {
    w.(dev := w.dev.(ram := Zero(w.dev.ram), dirty := true))
  }

  function Unpeaked(w: World): World {
    w.(dev := w.dev.(ram := w.dev.ram.(demandMax := 0.0), dirty := true))
  }

  function Accrued(d: Dev, c: Counters): Dev { d.(ram := c.(windowMin := d.ram.windowMin)) }

  function BootWorld(w: World, now: int): World {
    var best := Newest(w.dev.a, w.dev.b);
    var k := if !best.Blob? then w.floor else if best == w.dev.a then w.idA else w.idB;
    w.(dev := Boot(w.dev, now), floor := k, drift := 0.0)
  }

  function Step(w: World, e: Event): World {
    match e
    case Accrue(c) =>
      w.(dev := Accrued(w.dev, c), drift := w.drift + Magnitude(c.Total() - w.dev.ram.Total()))
    case SaveNow(o, now) => Attempt(w, o, now)
    case Tick(o, now) =>
      (if Triggers(w.dev, now) then Attempt(Noticed(w), o, now) else Noticed(w)).(drift := 0.0)
    case Clear(o, now) => Attempt(Zeroed(w), o, now)
    case ClearDemand(o, now) => Attempt(Unpeaked(w), o, now)
    case Window(minutes) => w.(dev := SetWindow(w.dev, minutes))
    case Reboot(now) => BootWorld(w, now)
  }

  function Run(w: World, es: seq<Event>): World
    decreases |es|
  {
    if es == [] then w else Step(Run(w, es[..|es| - 1]), es[|es| - 1])
  }

  /** The world's device follows the operations above. */
  lemma StepFollowsDevice(w: World, e: Event)
    ensures Step(w, e).dev == match e
      case Accrue(c) => Accrued(w.dev, c)
      case SaveNow(o, now) => Save(w.dev, o, now)
      case Tick(o, now) => Service(w.dev, o, now)
      case Clear(o, now) => Reset(w.dev, o, now)
      case ClearDemand(o, now) => ResetDemand(w.dev, o, now)
      case Window(minutes) => SetWindow(w.dev, minutes)
      case Reboot(now) => Boot(w.dev, now)
  {}

  /* ---- the storage invariant ---- */

  predicate InA(x: u16) { x % 2 == 1 }

  function Current(d: Dev): Slot { if InA(d.number) then d.a else d.b }
  function Other(d: Dev): Slot { if InA(d.number) then d.b else d.a }
  function OtherId(w: World): int { if InA(w.dev.number) then w.idB else w.idA }
  function CurrentId(w: World): int { if InA(w.dev.number) then w.idA else w.idB }

  /** Neighbours on the 16-bit circle: they live in different slots, and the
      signed difference orders them across the wrap. */
  lemma Circle(x: u16)
    ensures Down(Up(x)) == x && Up(Down(x)) == x
    ensures Newer(Up(x), x) && !Newer(x, Up(x))
    ensures Newer(x, Down(x)) && !Newer(Down(x), x)
    ensures InA(Up(x)) == !InA(x) && InA(Down(x)) == !InA(x)
  {}

  ghost predicate Holds(s: Slot, id: int, log: seq<Counters>) {
    s.Blob? ==> 0 <= id < |log| && s.data == log[id]
  }

  /** The slot of the current number holds the safe copy. */
  ghost predicate SafeCopy(w: World) {
    if w.floor >= 0 then
      && w.floor < |w.log|
      && Current(w.dev) == Blob(w.dev.number, w.log[w.floor])
      && CurrentId(w) == w.floor
      && w.dev.savedTotal == w.log[w.floor].Total()
    else
      w.dev.number == 0 && !Current(w.dev).Blob? && w.dev.savedTotal == 0.0
  }

  /** The other slot is one older, or a newer attempt that reported failure. */
  ghost predicate Neighbour(w: World) {
    Other(w.dev).Blob? ==>
      || (Other(w.dev).number == Up(w.dev.number) && w.floor < OtherId(w))
      || (Other(w.dev).number == Down(w.dev.number) && 0 <= OtherId(w) < w.floor)
  }

  ghost predicate Inv(w: World) {
    && (forall i :: 0 <= i < |w.log| ==> w.log[i].windowMin > 0)
    && w.dev.ram.windowMin > 0
    && Holds(w.dev.a, w.idA, w.log) && Holds(w.dev.b, w.idB, w.log)
    && -1 <= w.done <= w.floor < |w.log|
    && SafeCopy(w) && Neighbour(w)
  }

  lemma DoneKeeps(w: World, now: int)
    requires Inv(w)
    ensures Inv(Attempt(w, Done, now))
  {
    Circle(w.dev.number);
  }

  lemma FailedKeeps(w: World, l: Landing, now: int)
    requires Inv(w)
    ensures Inv(Attempt(w, Failed(l), now))
  {
    Circle(w.dev.number);
  }

  lemma AttemptKeeps(w: World, o: Outcome, now: int)
    requires Inv(w)
    ensures Inv(Attempt(w, o, now))
  {
    match o
    case Done => DoneKeeps(w, now);
    case Failed(l) => FailedKeeps(w, l, now);
  }

  lemma BootKeeps(w: World, now: int)
    requires Inv(w)
    ensures Inv(BootWorld(w, now))
    ensures BootWorld(w, now).floor >= w.floor
    ensures BootWorld(w, now).floor < 0 ==>
      Boot(w.dev, now).ram == POWER_ON && !w.dev.a.Blob? && !w.dev.b.Blob?
    ensures BootWorld(w, now).floor >= 0 ==> Boot(w.dev, now).ram == w.log[BootWorld(w, now).floor]
  {
    Circle(w.dev.number);
  }

  lemma TickKeeps(w: World, o: Outcome, now: int)
    requires Inv(w)
    ensures Inv(Step(w, Tick(o, now)))
  {
    NoticedKeeps(w);
    AttemptKeeps(Noticed(w), o, now);
    DriftIsFree(Attempt(Noticed(w), o, now), 0.0);
    DriftIsFree(Noticed(w), 0.0);
  }

  lemma NoticedKeeps(w: World)
    requires Inv(w)
    ensures Inv(Noticed(w))
  {
  }

  lemma DriftIsFree(w: World, drift: real)
    requires Inv(w)
    ensures Inv(w.(drift := drift))
  {
  }

  lemma ClearKeeps(w: World, o: Outcome, now: int)
    requires Inv(w)
    ensures Inv(Step(w, Clear(o, now)))
  {
    assert Inv(Zeroed(w));
    AttemptKeeps(Zeroed(w), o, now);
  }

  lemma ClearDemandKeeps(w: World, o: Outcome, now: int)
    requires Inv(w)
    ensures Inv(Step(w, ClearDemand(o, now)))
  {
    assert Inv(Unpeaked(w));
    AttemptKeeps(Unpeaked(w), o, now);
  }

  lemma StepKeeps(w: World, e: Event)
    requires Inv(w)
    ensures Inv(Step(w, e))
  {
    match e
    case Accrue(c) =>
    case SaveNow(o, now) => AttemptKeeps(w, o, now);
    case Tick(o, now) => TickKeeps(w, o, now);
    case Clear(o, now) => ClearKeeps(w, o, now);
    case ClearDemand(o, now) => ClearDemandKeeps(w, o, now);
    case Window(minutes) =>
    case Reboot(now) => BootKeeps(w, now);
  }

  lemma {:induction false} RunKeeps(es: seq<Event>)
    ensures Inv(Run(FRESH, es))
    decreases |es|
  {
    if es != [] {
      RunKeeps(es[..|es| - 1]);
      StepKeeps(Run(FRESH, es[..|es| - 1]), es[|es| - 1]);
    }
  }

  /* ---- what the design promises ---- */

  /** One whole recorded value, at least as new as the last completed save. */
  ghost predicate RestoresDurable(w: World, now: int) {
    var c := Boot(w.dev, now).ram;
    || (w.done < 0 && !w.dev.a.Blob? && !w.dev.b.Blob? && c == POWER_ON)
    || (exists k :: w.done <= k < |w.log| && 0 <= k && c == w.log[k])
  }

  lemma InvRestoresDurable(w: World, now: int)
    requires Inv(w)
    ensures RestoresDurable(w, now)
  {
    BootKeeps(w, now);
    var k := BootWorld(w, now).floor;
    if k >= 0 { assert w.done <= k < |w.log| && Boot(w.dev, now).ram == w.log[k]; }
  }

  /** Whatever mixture of saves, failed or torn writes, resets and reboots came
      before, a boot restores one whole saved record, at least as new as the last
      save that reported success; with nothing ever saved it starts from zero. */
  lemma BootRestoresDurable(es: seq<Event>, now: int)
    ensures RestoresDurable(Run(FRESH, es), now)
  {
    RunKeeps(es);
    InvRestoresDurable(Run(FRESH, es), now);
  }

  /** Slot A only ever holds odd numbers and slot B even ones, two valid slots
      are neighbours on the 16-bit circle, and the signed difference picks the
      later attempt, however often the number has wrapped. */
  ghost predicate Alternating(w: World) {
    var a, b := w.dev.a, w.dev.b;
    && (a.Blob? ==> a.number % 2 == 1)
    && (b.Blob? ==> b.number % 2 == 0)
    && (a.Blob? && b.Blob? ==>
          && (a.number == Up(b.number) || b.number == Up(a.number))
          && w.idA != w.idB
          && Newest(a, b) == (if w.idB > w.idA then b else a))
  }

  lemma InvAlternates(w: World)
    requires Inv(w)
    ensures Alternating(w)
  {
    Circle(w.dev.number);
  }

  lemma SlotsAlternate(es: seq<Event>)
    ensures Alternating(Run(FRESH, es))
  {
    RunKeeps(es);
    InvAlternates(Run(FRESH, es));
  }

  /** A save, whatever comes of it, leaves the slot just loaded alone. */
  ghost predicate SparesLoaded(d: Dev, now: int, o: Outcome, later: int) {
    var best := Newest(d.a, d.b);
    var up := Boot(d, now);
    var saved := Save(up, o, later);
    best.Blob? ==>
      && (best == d.a || best == d.b)
      && (best == d.a ==> saved.a == d.a)
      && (best == d.b ==> saved.b == d.b)
      && (o.Done? ==> Newest(saved.a, saved.b) == Blob(Up(best.number), up.ram))
  }

  lemma InvSparesLoaded(w: World, now: int, o: Outcome, later: int)
    requires Inv(w)
    ensures SparesLoaded(w.dev, now, o, later)
  {
    InvAlternates(w);
    BootKeeps(w, now);
    Circle(Boot(w.dev, now).number);
  }

  lemma NextSaveSparesLoaded(es: seq<Event>, now: int, o: Outcome, later: int)
    ensures SparesLoaded(Run(FRESH, es).dev, now, o, later)
  {
    RunKeeps(es);
    InvSparesLoaded(Run(FRESH, es), now, o, later);
  }

  /* ---- failed saves, exactly ---- */

  /** Counters as they run: the window is never empty. */
  type Live = c: Counters | c.windowMin > 0 witness POWER_ON

  datatype Try = Try(value: Live, landing: Landing)

  /** Saves that all report failure, each of newer counters. */
  function Tried(w: World, ts: seq<Try>): World
    decreases |ts|
  {
    if ts == [] then w else
      var v, t := Tried(w, ts[..|ts| - 1]), ts[|ts| - 1];
      Attempt(v.(dev := v.dev.(ram := t.value)), Failed(t.landing), 0)
  }

  /** The last of them that changed the flash at all, or -1. */
  function LastWrite(ts: seq<Try>): (j: int)
    ensures -1 <= j < |ts|
    decreases |ts|
  {
    if ts == [] then -1
    else if ts[|ts| - 1].landing != Old then |ts| - 1
    else LastWrite(ts[..|ts| - 1])
  }

  function Remains(w: World, ts: seq<Try>): Slot {
    var j := LastWrite(ts);
    if j < 0 then Other(w.dev)
    else if ts[j].landing == New then Blob(Up(w.dev.number), ts[j].value)
    else Invalid
  }

  ghost predicate Left(w: World, ts: seq<Try>, d: Dev) {
    d.number == w.dev.number && Current(d) == Current(w.dev) && Other(d) == Remains(w, ts)
  }

  lemma {:induction false} FailedSavesKeepCurrent(w: World, ts: seq<Try>)
    requires Inv(w)
    ensures Left(w, ts, Tried(w, ts).dev)
    decreases |ts|
  {
    if ts != [] {
      FailedSavesKeepCurrent(w, ts[..|ts| - 1]);
      Circle(w.dev.number);
    }
  }

  /** The boot's choice between the slot of the current number and its neighbour. */
  lemma CurrentWins(d: Dev, now: int)
    requires Current(d).Blob? && Current(d).number == d.number && Current(d).data.windowMin > 0
    requires Other(d).Blob? ==> Other(d).data.windowMin > 0
    requires Other(d).Blob? ==> Other(d).number == Up(d.number) || Other(d).number == Down(d.number)
    ensures Boot(d, now).ram ==
            if Other(d).Blob? && Other(d).number == Up(d.number) then Other(d).data else Current(d).data
  {
    Circle(d.number);
  }

  lemma OnlyOther(d: Dev, now: int)
    requires !Current(d).Blob? && (Other(d).Blob? ==> Other(d).data.windowMin > 0)
    ensures Boot(d, now).ram == if Other(d).Blob? then Other(d).data else POWER_ON
  {
  }

  lemma SafeCopyHeld(w: World)
    requires Inv(w) && w.floor >= 0
    ensures w.floor < |w.log| && w.log[w.floor].windowMin > 0
    ensures Current(w.dev) == Blob(w.dev.number, w.log[w.floor])
    ensures w.dev.savedTotal == w.log[w.floor].Total()
  {}

  /** The newest copy known to be safe, or what a device starts with. */
  function SafeValue(w: World): Counters
    requires w.floor < |w.log|
  {
    if w.floor >= 0 then w.log[w.floor] else POWER_ON
  }

  /** No failed attempt newer than the safe copy is left over in the flash. */
  ghost predicate Synced(w: World) {
    Other(w.dev).Blob? ==> OtherId(w) < w.floor
  }

  lemma SyncedNeighbour(w: World)
    requires Inv(w) && Synced(w)
    ensures Other(w.dev).Blob? ==>
      && w.floor >= 0 && Other(w.dev).data.windowMin > 0
      && Other(w.dev).number == Down(w.dev.number) && Up(w.dev.number) != Other(w.dev).number
  {
    Circle(w.dev.number);
  }

  lemma NothingLanded(w: World, d: Dev, now: int)
    requires Inv(w) && d.number == w.dev.number && Current(d) == Current(w.dev) && Other(d) == Other(w.dev)
    ensures Boot(d, now).ram == Boot(w.dev, now).ram
  {
  }

  lemma SomethingLanded(w: World, ts: seq<Try>, d: Dev, now: int)
    requires Inv(w) && LastWrite(ts) >= 0 && Left(w, ts, d)
    ensures
      var t := ts[LastWrite(ts)];
      Boot(d, now).ram == if t.landing == New then t.value else SafeValue(w)
  {
    if w.floor >= 0 {
      SafeCopyHeld(w);
      CurrentWins(d, now);
    } else {
      OnlyOther(d, now);
    }
  }

  /** After any run, any series of failing saves leaves the device so that a boot
      restores the last attempt that changed the flash, if that write landed whole;
      the newest safe copy, if it was torn; and what a boot would have restored
      before, if none of them changed the flash. */
  lemma FailedSavesLeave(es: seq<Event>, ts: seq<Try>, now: int)
    ensures
      var (w, j) := (Run(FRESH, es), LastWrite(ts));
      && w.floor < |w.log|
      && Boot(Tried(w, ts).dev, now).ram
         == if j < 0 then Boot(w.dev, now).ram else if ts[j].landing == New then ts[j].value else SafeValue(w)
  {
    var w := Run(FRESH, es);
    RunKeeps(es);
    FailedSavesKeepCurrent(w, ts);
    if LastWrite(ts) < 0 {
      NothingLanded(w, Tried(w, ts).dev, now);
    } else {
      SomethingLanded(w, ts, Tried(w, ts).dev, now);
    }
  }

  lemma CompletedSave(w: World, t: int, now: int)
    requires Inv(w)
    ensures
      var v := Step(w, SaveNow(Done, t));
      && v.floor == |w.log| && v.log == w.log + [w.dev.ram]
      && SafeValue(v) == w.dev.ram && Boot(v.dev, now).ram == w.dev.ram
  {
    var v := Step(w, SaveNow(Done, t));
    AttemptKeeps(w, Done, t);
    SaveIsTight(w, t);
    SyncedNeighbour(v);
    SafeCopyHeld(v);
    CurrentWins(v.dev, now);
  }

  /** After any run that ends with a completed save: "the last completed save or the
      one in progress" is what a boot restores exactly when no earlier failed attempt
      is the last one that reached the flash whole. */
  lemma RestoresCompletedOrLatest(es: seq<Event>, t: int, ts: seq<Try>, now: int)
    requires
      var saved := Run(FRESH, es).dev.ram;
      ts != [] && forall i :: 0 <= i < |ts| - 1 ==> ts[i].value != ts[|ts| - 1].value && ts[i].value != saved
    ensures
      var saved := Run(FRESH, es).dev.ram;
      var restored := Boot(Tried(Run(FRESH, es + [SaveNow(Done, t)]), ts).dev, now).ram;
      var j := LastWrite(ts);
      (restored == saved || restored == ts[|ts| - 1].value)
        <==> (j < 0 || j == |ts| - 1 || ts[j].landing == Torn)
  {
    var saved := Run(FRESH, es).dev.ram;
    RunKeeps(es);
    assert (es + [SaveNow(Done, t)])[..|es|] == es;
    CompletedSave(Run(FRESH, es), t, now);
    FailedSavesLeave(es + [SaveNow(Done, t)], ts, now);
    CompletedOrLatest(ts, saved, Boot(Tried(Run(FRESH, es + [SaveNow(Done, t)]), ts).dev, now).ram);
  }

  lemma CompletedOrLatest(ts: seq<Try>, base: Counters, restored: Counters)
    requires ts != []
    requires var j := LastWrite(ts); restored == if j >= 0 && ts[j].landing == New then ts[j].value else base
    requires forall i :: 0 <= i < |ts| - 1 ==> ts[i].value != ts[|ts| - 1].value && ts[i].value != base
    ensures
      var j := LastWrite(ts);
      (restored == base || restored == ts[|ts| - 1].value)
        <==> (j < 0 || j == |ts| - 1 || ts[j].landing == Torn)
  {
    if 0 <= LastWrite(ts) { LastWriteLands(ts); }
  }

  lemma {:induction false} LastWriteLands(ts: seq<Try>)
    requires LastWrite(ts) >= 0
    ensures ts[LastWrite(ts)].landing != Old
    decreases |ts|
  {
    if ts[|ts| - 1].landing == Old {
      LastWriteLands(ts[..|ts| - 1]);
    }
  }

  /** Two failed saves after a good one: the boot brings back the first of them,
      which is neither the last completed save nor the one in progress. */
  lemma StaleAttemptComesBack(good: Counters, first: Counters, second: Counters, now: int)
    requires first.windowMin > 0
    ensures
      var d0 := FRESH.dev.(ram := good);
      var d1 := Save(d0, Done, 1);
      var d2 := Save(d1.(ram := first), Failed(New), 2);
      var d3 := Save(d2.(ram := second), Failed(Old), 3);
      Boot(d3, now).ram == first
  {
    Circle(1);
  }

  /* ---- when to save ---- */

  /** With a working flash, a service tick leaves less than the threshold unsaved,
      and nothing unsaved for as long as the period. */
  lemma ServiceBounds(d: Dev, now: int)
    ensures
      var d' := Service(d, Done, now);
      && Magnitude(d'.ram.Total() - d'.savedTotal) < THRESHOLD_WH
      && (d'.dirty ==> now - d'.lastSaveUs < PERIOD_US)
      && (d'.ram.Total() != d'.savedTotal ==> d'.dirty)
      && d'.ram == d.ram
  {}

  /** After a completed save no tick writes before the period is over, unless the
      counters have moved by the threshold. */
  lemma QuietAfterSave(d: Dev, t: int, c: Counters, o: Outcome, now: int)
    requires now < t + 600_000_000
    requires
      var (saved, had) := (Sum(d.ram), Sum(c));
      -50.0 < had - saved < 50.0
    ensures
      var s := Save(d, Done, t);
      var d' := Service(s.(ram := c), o, now);
      d'.a == s.a && d'.b == s.b && d'.number == s.number && d'.lastSaveUs == t
  {}

  /** The energy of a record: imports and exports, active and reactive. */
  ghost function Sum(c: Counters): real {
    c.activeImport + c.activeExport + c.reactiveImport + c.reactiveExport
  }

  ghost function Before(es: seq<Event>): seq<Event>
    requires es != []
  {
    es[..|es| - 1]
  }

  /** The counters' energy after a run. */
  ghost function Energy(es: seq<Event>): real { Sum(Run(FRESH, es).dev.ram) }

  /** An account of a run kept beside the device: when it last saved or booted, the
      energy it then knew to be safe, whether a change waits for the period; how often
      a write was tried, which of these tries reported success last, and how far the
      energy moved since the last tick, completed save or boot. */
  datatype Account = Account(stamp: int, safe: real, pending: bool, tries: nat, done: int, moved: real)

  ghost predicate IsDue(l: Account, energy: real, now: int) {
    || energy - l.safe >= 50.0 || l.safe - energy >= 50.0
    || ((l.pending || energy != l.safe) && now - l.stamp >= 600_000_000)
  }

  /** One more try, of a record with that much energy. */
  ghost function Tries(l: Account, energy: real, o: Outcome, now: int): Account {
    if o.Done? then Account(now, energy, false, l.tries + 1, l.tries, 0.0)
    else l.(pending := true, tries := l.tries + 1)
  }

  ghost function AccountOf(es: seq<Event>): Account
    decreases |es|
  {
    if es == [] then Account(0, 0.0, false, 0, -1, 0.0) else
      var (l, energy) := (AccountOf(Before(es)), Energy(Before(es)));
      match es[|es| - 1]
      case Accrue(_) => l.(moved := l.moved + Distance(energy, Energy(es)))
      case SaveNow(o, now) => Tries(l, energy, o, now).(pending := !o.Done? && l.pending)
      case Tick(o, now) =>
        if IsDue(l, energy, now) then Tries(l, energy, o, now).(moved := 0.0)
        else l.(pending := l.pending || energy != l.safe, moved := 0.0)
      case Clear(o, now) => Tries(l, 0.0, o, now)
      case ClearDemand(o, now) => Tries(l, energy, o, now)
      case Window(minutes) => l.(pending := l.pending || minutes > 0)
      case Reboot(now) => Account(now, Energy(es), false, l.tries, l.done, 0.0)
  }

  ghost function Distance(x: real, y: real): real { if x < y then y - x else x - y }

  ghost predicate Accounted(es: seq<Event>) {
    var (w, l) := (Run(FRESH, es), AccountOf(es));
    && w.dev.lastSaveUs == l.stamp && w.dev.savedTotal == l.safe && w.dev.dirty == l.pending
    && |w.log| == l.tries && w.done == l.done && w.drift == l.moved
  }

  /** Which attempts a run records, and of which counters. */
  lemma AttemptsAreLogged(w: World, e: Event)
    ensures
      var v := Step(w, e);
      && (e.SaveNow? || e.Clear? || e.ClearDemand? ==> v.log == w.log + [v.dev.ram])
      && (e.Accrue? || e.Window? || e.Reboot? ==> v.log == w.log)
      && (e.Accrue? ==> v.dev == w.dev.(ram := e.to.(windowMin := w.dev.ram.windowMin)))
  {}

  lemma {:induction false} RunIsAccounted(es: seq<Event>)
    ensures Accounted(es)
    decreases |es|
  {
    if es != [] {
      RunIsAccounted(Before(es));
      StepFollowsDevice(Run(FRESH, Before(es)), es[|es| - 1]);
    }
  }

  ghost predicate TickOutcome(w: World, due: bool, w': World) {
    if due then w'.log == w.log + [w.dev.ram]
    else w'.log == w.log && w'.dev.a == w.dev.a && w'.dev.b == w.dev.b
  }

  lemma TickDecides(w: World, l: Account, o: Outcome, now: int)
    requires w.dev.lastSaveUs == l.stamp && w.dev.savedTotal == l.safe && w.dev.dirty == l.pending
    ensures TickOutcome(w, IsDue(l, Sum(w.dev.ram), now), Step(w, Tick(o, now)))
  {}

  /** After any run, a tick attempts a write exactly when the counters differ from
      the safe value by 50 Wh or more, or a change is pending and ten minutes have
      passed since the last completed save or boot. What it then writes is the
      counters as they stand; otherwise both slots stay as they are. */
  lemma TickWritesExactly(es: seq<Event>, o: Outcome, now: int)
    ensures TickOutcome(Run(FRESH, es), IsDue(AccountOf(es), Energy(es), now), Run(FRESH, es + [Tick(o, now)]))
  {
    RunIsAccounted(es);
    RunExtends(es, Tick(o, now));
    TickDecides(Run(FRESH, es), AccountOf(es), o, now);
  }

  lemma RunExtends(es: seq<Event>, e: Event)
    ensures Run(FRESH, es + [e]) == Step(Run(FRESH, es), e)
  {
    assert (es + [e])[..|es + [e]| - 1] == es;
  }

  predicate Saves(e: Event) { e.SaveNow? || e.Tick? || e.Clear? || e.ClearDemand? }

  predicate FlashWorks(es: seq<Event>) {
    forall e <- es :: Saves(e) ==> e.o.Done?
  }

  ghost predicate Tight(w: World) {
    && Synced(w)
    && w.drift >= 0.0
    && Magnitude(w.dev.ram.Total() - w.dev.savedTotal) < THRESHOLD_WH + w.drift
  }

  lemma SaveIsTight(w: World, now: int)
    requires Inv(w)
    ensures Tight(Attempt(w, Done, now))
  {
    Circle(w.dev.number);
  }

  /** Whatever was left over, a boot settles it. */
  lemma BootSyncs(w: World, now: int)
    requires Inv(w)
    ensures Synced(BootWorld(w, now))
  {
    Circle(w.dev.number);
  }

  lemma BootIsTight(w: World, now: int)
    requires Inv(w)
    ensures Tight(BootWorld(w, now))
  {
    BootSyncs(w, now);
    BootTotals(w.dev, now);
    ZeroDrift(BootWorld(w, now));
  }

  lemma ZeroDrift(w: World)
    requires Synced(w) && w.drift == 0.0 && w.dev.ram.Total() == w.dev.savedTotal
    ensures Tight(w)
  {}

  lemma BootTotals(d: Dev, now: int)
    ensures Boot(d, now).ram.Total() == Boot(d, now).savedTotal
  {}

  lemma StepKeepsTight(w: World, e: Event)
    requires Inv(w) && Tight(w)
    requires Saves(e) ==> e.o.Done?
    ensures Tight(Step(w, e))
  {
    match e
    case Accrue(c) =>
    case SaveNow(o, now) => SaveIsTight(w, now);
    case Tick(o, now) =>
      assert Inv(Noticed(w));
      SaveIsTight(Noticed(w), now);
    case Clear(o, now) =>
      assert Inv(Zeroed(w));
      SaveIsTight(Zeroed(w), now);
    case ClearDemand(o, now) =>
      assert Inv(Unpeaked(w));
      SaveIsTight(Unpeaked(w), now);
    case Window(minutes) =>
    case Reboot(now) => BootIsTight(w, now);
  }

  lemma {:induction false} RunKeepsTight(es: seq<Event>)
    requires FlashWorks(es)
    ensures Tight(Run(FRESH, es))
    decreases |es|
  {
    if es != [] {
      assert forall e <- es[..|es| - 1] :: e in es;
      assert es[|es| - 1] in es;
      RunKeepsTight(es[..|es| - 1]);
      RunKeeps(es[..|es| - 1]);
      StepKeepsTight(Run(FRESH, es[..|es| - 1]), es[|es| - 1]);
    }
  }

  lemma TightRestores(w: World, now: int)
    requires Inv(w) && Synced(w)
    ensures Boot(w.dev, now).ram.Total() == w.dev.savedTotal
  {
    SyncedNeighbour(w);
    if w.floor >= 0 {
      SafeCopyHeld(w);
      CurrentWins(w.dev, now);
    }
  }

  lemma TightLosesLittle(w: World, restored: real)
    requires Tight(w) && restored == w.dev.savedTotal
    ensures Magnitude(w.dev.ram.Total() - restored) < THRESHOLD_WH + w.drift
  {}

  ghost predicate LosesLittle(w: World, now: int) {
    Magnitude(w.dev.ram.Total() - Boot(w.dev, now).ram.Total()) < THRESHOLD_WH + w.drift
  }

  lemma InvLosesLittle(w: World, now: int)
    requires Inv(w) && Tight(w)
    ensures LosesLittle(w, now)
  {
    TightRestores(w, now);
    TightLosesLittle(w, Boot(w.dev, now).ram.Total());
  }

  /** With a working flash, a crash at any moment costs less than the threshold
      plus what moved since the last service tick. */
  lemma CrashLosesLittle(es: seq<Event>, now: int)
    requires FlashWorks(es)
    ensures LosesLittle(Run(FRESH, es), now)
  {
    RunKeeps(es);
    RunKeepsTight(es);
    InvLosesLittle(Run(FRESH, es), now);
  }

  /** The trigger watches only the four energy counters: a new demand peak on its
      own is never written, however long the service runs. */
  lemma DemandPeakNeverTriggers(d: Dev, peak: real, o: Outcome, now: int)
    requires !d.dirty && d.ram.Total() == d.savedTotal
    ensures
      var d' := Service(d.(ram := d.ram.(demandMax := peak)), o, now);
      d'.a == d.a && d'.b == d.b && !d'.dirty
  {}
}
