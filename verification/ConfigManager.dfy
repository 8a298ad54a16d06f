/** The configuration in RAM against two stored copies: the full snapshot record,
    and the older per-domain records that other code still writes. Saving merges
    three ways, field by field, against a shadow of the last synchronisation. */
module ConfigManager {
  import opened CInt
  import opened Layout
  import opened ConfigCodec
  import opened Options

  const POLL_MIN_MS := 5000
  const POLL_MAX_MS := 60000
  const PUBLISH_MIN_MS := 5000

  /** The thirteen fields that live in both worlds. */
  datatype Wire = Wire(dhcp: bool, texts: Texts6)

  datatype Line = Line(baud: u8, parity: u8, device: u8, busOn: bool, pollMs: u32)

  datatype Shared = Shared(name: Text, wire: Wire, line: Line)

  /** The per-domain records, with the fields that only they own. */
  datatype System = System(name: Text, host: Text)

  datatype Network = Network(wire: Wire, mode: u8, apPass: Text)

  datatype ExtMeter = ExtMeter(line: Line, slaveAddr: u8)

  const DEFAULT_NAME: Text := [80, 111, 119, 101, 114, 32, 77, 101, 116, 101, 114]
  const DEFAULT_HOST: Text := [112, 111, 119, 101, 114, 45, 109, 101, 116, 101, 114]

  function DefaultTexts(): Texts6 { seq<Text>(6, i => NO_TEXT) }

  function DefaultSystem(): System { System(DEFAULT_NAME, DEFAULT_HOST) }

  function DefaultNetwork(): Network { Network(Wire(true, DefaultTexts()), 0, DEFAULT_PASS) }

  function DefaultExt(): ExtMeter { ExtMeter(Line(0, 0, 0, false, 10000), 0) }

  function DefaultShared(): Shared { Shared(DEFAULT_NAME, DefaultNetwork().wire, DefaultExt().line) }

  /** What the flash holds; an absent record reads as its defaults. */
  datatype Store = Store(sys: Option<System>, net: Option<Network>, ext: Option<ExtMeter>, snap: Option<Bytes>)

  const EMPTY := Store(None, None, None, None)

  function SystemOf(st: Store): System { if st.sys.Some? then st.sys.value else DefaultSystem() }

  function NetworkOf(st: Store): Network { if st.net.Some? then st.net.value else DefaultNetwork() }

  function ExtOf(st: Store): ExtMeter { if st.ext.Some? then st.ext.value else DefaultExt() }

  /** The effective per-domain value of every shared field. */
  function Effective(st: Store): Shared { Shared(SystemOf(st).name, NetworkOf(st).wire, ExtOf(st).line) }

  function SharedOf(c: Config): Shared {
    Shared(c.core.identity[0], Wire(c.core.dhcp, c.core.network),
           Line(c.core.bus.baud, c.core.bus.parity, c.run.device, c.run.busOn, c.run.pollMs))
  }

  function WithShared(c: Config, s: Shared): Config {
    c.(core := c.core.(identity := c.core.identity[0 := s.name], dhcp := s.wire.dhcp, network := s.wire.texts,
                       bus := c.core.bus.(baud := s.line.baud, parity := s.line.parity)),
       run := Runtime(s.line.device, s.line.busOn, s.line.pollMs))
  }

  lemma SharedLaws(c: Config, s: Shared)
    ensures SharedOf(WithShared(c, s)) == s && WithShared(c, SharedOf(c)) == c
  {
    assert c.core.identity[0 := c.core.identity[0]] == c.core.identity;
  }

  /* ---- the three-way merge ---- */

  /** A per-domain value that left the shadow was written last and wins; otherwise
      the value in RAM stands. */
  function Pick<T(==)>(cm: T, legacy: T, shadow: T): T { if legacy != shadow then legacy else cm }

  /** Did RAM alone move, so that the record must be written? */
  predicate Moved<T(==)>(cm: T, legacy: T, shadow: T) { legacy == shadow && cm != shadow }

  function PickWire(cm: Wire, legacy: Wire, shadow: Wire): Wire {
    Wire(Pick(cm.dhcp, legacy.dhcp, shadow.dhcp),
         seq(6, i requires 0 <= i < 6 => Pick(cm.texts[i], legacy.texts[i], shadow.texts[i])))
  }

  predicate WireMoved(cm: Wire, legacy: Wire, shadow: Wire) {
    Moved(cm.dhcp, legacy.dhcp, shadow.dhcp)
    || exists i :: 0 <= i < 6 && Moved(cm.texts[i], legacy.texts[i], shadow.texts[i])
  }

  function PickLine(cm: Line, legacy: Line, shadow: Line): Line {
    Line(Pick(cm.baud, legacy.baud, shadow.baud), Pick(cm.parity, legacy.parity, shadow.parity),
         Pick(cm.device, legacy.device, shadow.device), Pick(cm.busOn, legacy.busOn, shadow.busOn),
         Pick(cm.pollMs, legacy.pollMs, shadow.pollMs))
  }

  predicate LineMoved(cm: Line, legacy: Line, shadow: Line) {
    || Moved(cm.baud, legacy.baud, shadow.baud) || Moved(cm.parity, legacy.parity, shadow.parity)
    || Moved(cm.device, legacy.device, shadow.device) || Moved(cm.busOn, legacy.busOn, shadow.busOn)
    || Moved(cm.pollMs, legacy.pollMs, shadow.pollMs)
  }

  function Merge(cm: Shared, legacy: Shared, shadow: Shared): Shared {
    Shared(Pick(cm.name, legacy.name, shadow.name), PickWire(cm.wire, legacy.wire, shadow.wire),
           PickLine(cm.line, legacy.line, shadow.line))
  }

  /** A domain that did not move merges to what its record already says. */
  lemma UnmovedMatches(cm: Shared, legacy: Shared, shadow: Shared)
    ensures !Moved(cm.name, legacy.name, shadow.name) ==> Merge(cm, legacy, shadow).name == legacy.name
    ensures !WireMoved(cm.wire, legacy.wire, shadow.wire) ==> Merge(cm, legacy, shadow).wire == legacy.wire
    ensures !LineMoved(cm.line, legacy.line, shadow.line) ==> Merge(cm, legacy, shadow).line == legacy.line
  {
    if !WireMoved(cm.wire, legacy.wire, shadow.wire) {
      var merged := PickWire(cm.wire, legacy.wire, shadow.wire);
      forall i | 0 <= i < 6
        ensures merged.texts[i] == legacy.wire.texts[i]
      {
        assert !Moved(cm.wire.texts[i], legacy.wire.texts[i], shadow.wire.texts[i]);
      }
    }
  }

  /* ---- load, update, save ---- */

  datatype Manager = Manager(loaded: bool, cfg: Config, shadow: Shared)

  /** Which writes of a save reach the flash. */
  datatype Writes = Writes(sys: bool, net: bool, ext: bool, snap: bool)

  const ALL_WRITES := Writes(true, true, true, true)

  /** Which records can be read. The getters answer a fault with the defaults, as they
      answer an absent record. */
  datatype Reads = Reads(sys: bool, net: bool, ext: bool, snap: bool)

  const ALL_READS := Reads(true, true, true, true)

  /** The flash as a load sees it. */
  function Readable(st: Store, r: Reads): Store {
    Store(if r.sys then st.sys else None, if r.net then st.net else None, if r.ext then st.ext else None,
          if r.snap then st.snap else None)
  }

  /** The per-domain values as a save sees them. It tells a fault from an absent record
      and skips the domain, which comes to merging the shadow with itself. */
  function Seen(st: Store, shadow: Shared, r: Reads): Shared {
    Shared(if r.sys then SystemOf(st).name else shadow.name, if r.net then NetworkOf(st).wire else shadow.wire,
           if r.ext then ExtOf(st).line else shadow.line)
  }

  /** The running image's version and the meter's own line frequency and wiring. */
  datatype Platform = Platform(running: Text, freq: u8, wiring: u8)

  function Decodes(st: Store, running: Text): Decoded {
    if st.snap.Some? && |st.snap.value| <= TOTAL
    then Decode(Loaded(st.snap.value), |st.snap.value|, running)
    else Err(InvalidVersion)
  }

  function Overlaid(s: Shared, st: Store): Shared {
    Shared(if st.sys.Some? then st.sys.value.name else s.name, if st.net.Some? then st.net.value.wire else s.wire,
           if st.ext.Some? then st.ext.value.line else s.line)
  }

  function Clamp(x: u32, lo: u32, hi: u32): u32 { if x < lo then lo else if x > hi then hi else x }

  function Normalised(c: Config): Config {
    c.(core := c.core.(publishMs := if c.core.publishMs < PUBLISH_MIN_MS then PUBLISH_MIN_MS else c.core.publishMs),
       run := c.run.(pollMs := Clamp(c.run.pollMs, POLL_MIN_MS, POLL_MAX_MS)))
  }

  const HARDWARE: Text := [49, 46, 48]
  const NO_BUILD: Text := [48, 48, 48, 48, 48, 48, 45, 48, 48]
  const NO_OTA: Text := [48, 46, 48, 46, 48]

  /** First start, or no usable snapshot: the domain records and factory values. */
  function Migrated(st: Store, p: Platform): Config {
    var (x, line, addr) := (Effective(st), ExtOf(st).line, ExtOf(st).slaveAddr);
    var slots: Slots :=
      if 1 <= addr <= 247
      then NO_SLOTS[0 := Slot(true, line.busOn, line.device, addr, if line.device == 1 then EM07K_NAME else PM710_NAME)]
      else NO_SLOTS;
    var identity: seq<Text> := [x.name, Cut(p.running, 24), HARDWARE, NO_BUILD, NO_OTA];
    Config(
      Core(identity, x.wire.dhcp, 0, x.wire.texts, 5000,
           Mqtt(false, 0, 1883, 60, seq<Text>(10, i => NO_TEXT)), Bus(line.baud, line.parity, 1),
           p.freq, p.wiring, KCONFIG_CT, 1, Panel(true, true, true, 0)),
      3000, Runtime(line.device, line.busOn, line.pollMs), true, DefaultAlarm(p.freq), slots,
      Ct(KCONFIG_RATED, KCONFIG_EXPECTED), 0, Ap(DEFAULT_SSID, DEFAULT_PASS), line.baud, Roles(1, 1, 0), 0)
  }

  function Fetched(st: Store, p: Platform): Config {
    match Decodes(st, p.running)
    case Ok(c) => WithShared(c, Overlaid(SharedOf(c), st))
    case Err(_) => Migrated(st, p)
  }

  /** The shadow is taken before out-of-window periods are clamped. */
  function Load(st: Store, p: Platform): Manager {
    var c := Fetched(st, p);
    Manager(true, Normalised(c), SharedOf(c))
  }

  function Update(m: Manager, c: Config): Manager {
    if m.loaded && Accepted(c) then m.(cfg := Updated(c)) else m
  }

  /** The domain records after a save: each is rewritten, its own fields kept, when
      it was read, RAM moved one of its shared fields and the write goes through. */
  function Pushed(st: Store, cm: Shared, shadow: Shared, w: Writes, r: Reads): Store {
    var x := Seen(st, shadow, r);
    var merged := Merge(cm, x, shadow);
    st.(sys := if r.sys && w.sys && Moved(cm.name, x.name, shadow.name)
               then Some(SystemOf(st).(name := merged.name)) else st.sys,
        net := if r.net && w.net && WireMoved(cm.wire, x.wire, shadow.wire)
               then Some(NetworkOf(st).(wire := merged.wire)) else st.net,
        ext := if r.ext && w.ext && LineMoved(cm.line, x.line, shadow.line)
               then Some(ExtOf(st).(line := merged.line)) else st.ext)
  }

  function Save(m: Manager, st: Store, w: Writes, r: Reads): (Manager, Store) {
    if !m.loaded then (m, st)
    else
      var cm := SharedOf(m.cfg);
      var merged := Merge(cm, Seen(st, m.shadow, r), m.shadow);
      var c := WithShared(m.cfg, merged);
      var pushed := Pushed(st, cm, m.shadow, w, r);
      if w.snap then (Manager(true, c, merged), pushed.(snap := Some(Encode(c)))) else (m, pushed)
  }

  /** A save while another task may update the configuration: the lock is free between
      copying it out and publishing the merged copy over it. */
  function SaveDuring(m: Manager, st: Store, w: Writes, r: Reads, u: Option<Config>): (Manager, Store) {
    var (v, after) := Save(m, st, w, r);
    if u.None? || w.snap then (v, after) else (Update(m, u.value), after)
  }

  /** The four persistent records. */
  class ConfigStore {
    var sys: Option<System>
    var net: Option<Network>
    var ext: Option<ExtMeter>
    var snap: Option<Bytes>

    ghost function State(): Store
      reads this
    {
      Store(sys, net, ext, snap)
    }

    constructor ()
      ensures State() == EMPTY
    {
      sys, net, ext, snap := None, None, None, None;
    }
  }

  class ConfigManager {
    var loaded: bool
    var cfg: Config
    var shadow: Shared
    const store: ConfigStore

    ghost function State(): Manager
      reads this
    {
      Manager(loaded, cfg, shadow)
    }

    constructor (s: ConfigStore, blank: Config)
      ensures store == s && !loaded
    {
      store, loaded, cfg, shadow := s, false, blank, DefaultShared();
    }

    /** Only records that exist and can be read override the decoded snapshot. */
    static method OverlayDomains(c: Config, st: Store) returns (tmp: Config)
      ensures tmp == WithShared(c, Overlaid(SharedOf(c), st))
    {
      var s := SharedOf(c);
      if st.sys.Some? { s := s.(name := st.sys.value.name); }
      if st.net.Some? { s := s.(wire := st.net.value.wire); }
      if st.ext.Some? { s := s.(line := st.ext.value.line); }
      tmp := WithShared(c, s);
    }

    static method FetchConfig(st: Store, p: Platform) returns (tmp: Config)
      ensures tmp == Fetched(st, p)
    {
      var decoded := Decodes(st, p.running);
      if decoded.Ok? {
        tmp := OverlayDomains(decoded.config, st);
      } else {
        tmp := Migrated(st, p);
      }
    }

    /** `tmpFits` and `dtoFits`: whether the two heap buffers could be had. */
    method LoadConfig(p: Platform, r: Reads, tmpFits: bool, dtoFits: bool) returns (ok: bool)
      modifies this
      ensures ok == tmpFits
      ensures State() == if tmpFits
                         then Load(Readable(store.State(), r.(snap := r.snap && dtoFits)), p) else old(State())
    {
      if !tmpFits { return false; }
      var st := Readable(Store(store.sys, store.net, store.ext, store.snap), r.(snap := r.snap && dtoFits));
      var tmp := FetchConfig(st, p);
      shadow := SharedOf(tmp);
      cfg, loaded := Normalised(tmp), true;
      ok := true;
    }

    method UpdateConfig(c: Config) returns (ok: bool)
      modifies this
      ensures State() == Update(old(State()), c) && ok == (old(loaded) && Accepted(c))
    {
      ok := loaded && Accepted(c);
      if ok { cfg := Updated(c); }
    }

    /** One field both ways: `both` goes to RAM and to the record. */
    static method MergeField<T(==)>(cm: T, legacy: T, sh: T) returns (both: T, dirty: bool)
      ensures both == Pick(cm, legacy, sh) && dirty == Moved(cm, legacy, sh)
    {
      if legacy != sh { return legacy, false; }
      if cm != sh { return cm, true; }
      return cm, false;
    }

    static method MergeWire(cm: Wire, legacy: Wire, sh: Wire) returns (both: Wire, dirty: bool)
      ensures both == PickWire(cm, legacy, sh) && dirty == WireMoved(cm, legacy, sh)
    {
      var d;
      both := cm;
      d, dirty := MergeField(cm.dhcp, legacy.dhcp, sh.dhcp);
      both := both.(dhcp := d);
      for i := 0 to 6
        invariant both.dhcp == Pick(cm.dhcp, legacy.dhcp, sh.dhcp)
        invariant forall k :: 0 <= k < i ==> both.texts[k] == Pick(cm.texts[k], legacy.texts[k], sh.texts[k])
        invariant forall k :: i <= k < 6 ==> both.texts[k] == cm.texts[k]
        invariant dirty <==>
                  Moved(cm.dhcp, legacy.dhcp, sh.dhcp)
                  || exists k :: 0 <= k < i && Moved(cm.texts[k], legacy.texts[k], sh.texts[k])
      {
        var t, moved := MergeField(cm.texts[i], legacy.texts[i], sh.texts[i]);
        both := both.(texts := both.texts[i := t]);
        dirty := dirty || moved;
      }
      assert both.texts == PickWire(cm, legacy, sh).texts;
    }

    static method MergeLine(cm: Line, legacy: Line, sh: Line) returns (both: Line, dirty: bool)
      ensures both == PickLine(cm, legacy, sh) && dirty == LineMoved(cm, legacy, sh)
    {
      var baud, d0 := MergeField(cm.baud, legacy.baud, sh.baud);
      var parity, d1 := MergeField(cm.parity, legacy.parity, sh.parity);
      var device, d2 := MergeField(cm.device, legacy.device, sh.device);
      var busOn, d3 := MergeField(cm.busOn, legacy.busOn, sh.busOn);
      var pollMs, d4 := MergeField(cm.pollMs, legacy.pollMs, sh.pollMs);
      both, dirty := Line(baud, parity, device, busOn, pollMs), d0 || d1 || d2 || d3 || d4;
    }

    method PushSystem(cm: Text, writes: bool) returns (name: Text)
      modifies store`sys
      ensures name == Pick(cm, SystemOf(old(store.State())).name, shadow.name)
      ensures store.sys == if writes && Moved(cm, SystemOf(old(store.State())).name, shadow.name)
                           then Some(SystemOf(old(store.State())).(name := name)) else old(store.sys)
    {
      var sys := SystemOf(Store(store.sys, None, None, None));
      var dirty;
      name, dirty := MergeField(cm, sys.name, shadow.name);
      if dirty && writes { store.sys := Some(sys.(name := name)); }
    }

    method PushNetwork(cm: Wire, writes: bool) returns (wire: Wire)
      modifies store`net
      ensures wire == PickWire(cm, NetworkOf(old(store.State())).wire, shadow.wire)
      ensures store.net == if writes && WireMoved(cm, NetworkOf(old(store.State())).wire, shadow.wire)
                           then Some(NetworkOf(old(store.State())).(wire := wire)) else old(store.net)
    {
      var net := NetworkOf(Store(None, store.net, None, None));
      var dirty;
      wire, dirty := MergeWire(cm, net.wire, shadow.wire);
      if dirty && writes { store.net := Some(net.(wire := wire)); }
    }

    method PushExt(cm: Line, writes: bool) returns (line: Line)
      modifies store`ext
      ensures line == PickLine(cm, ExtOf(old(store.State())).line, shadow.line)
      ensures store.ext == if writes && LineMoved(cm, ExtOf(old(store.State())).line, shadow.line)
                           then Some(ExtOf(old(store.State())).(line := line)) else old(store.ext)
    {
      var ext := ExtOf(Store(None, None, store.ext, None));
      var dirty;
      line, dirty := MergeLine(cm, ext.line, shadow.line);
      if dirty && writes { store.ext := Some(ext.(line := line)); }
    }

    /** Merge the three domains into the copy, writing back each record that RAM alone
        moved; a record that cannot be read is left alone. */
    method PushDomains(cm: Shared, w: Writes, r: Reads) returns (merged: Shared)
      modifies store
      ensures merged == Merge(cm, Seen(old(store.State()), shadow, r), shadow)
      ensures store.State() == Pushed(old(store.State()), cm, shadow, w, r)
    {
      merged := cm;
      if r.sys {
        var name := PushSystem(cm.name, w.sys);
        merged := merged.(name := name);
      }
      if r.net {
        var wire := PushNetwork(cm.wire, w.net);
        merged := merged.(wire := wire);
      }
      if r.ext {
        var line := PushExt(cm.line, w.ext);
        merged := merged.(line := line);
      }
      SkippedDomains(cm, shadow);
    }

    /** `fits`: whether the heap buffer could be had; `during`: an update that arrives
        while the lock is free. */
    method SaveConfig(w: Writes, r: Reads, fits: bool, during: Option<Config>) returns (ok: bool)
      modifies this, store
      ensures ok == (old(loaded) && fits && w.snap)
      ensures (State(), store.State())
           == if fits then SaveDuring(old(State()), old(store.State()), w, r, during)
              else (old(State()), old(store.State()))
    {
      if !fits || !loaded { return false; }
      var tmp := cfg;
      var merged := PushDomains(SharedOf(tmp), w, r);
      SharedLaws(tmp, merged);
      tmp := WithShared(tmp, merged);
      if during.Some? { var accepted := UpdateConfig(during.value); }
      ok := w.snap;
      if w.snap {
        store.snap := Some(Encode(tmp));
        cfg, shadow := tmp, SharedOf(tmp);
      }
    }
  }

  lemma SkippedDomains(cm: Shared, shadow: Shared)
    ensures Merge(cm, shadow, shadow) == cm
  {
    assert PickWire(cm.wire, shadow.wire, shadow.wire).texts == cm.wire.texts;
  }

  /* ---- whole runs ---- */

  /** A start, an accepted or refused update, the older writers of each domain, a
      save whose writes all succeed, with or without an update that overtakes it, and a
      save cut off by a power loss after some of its writes, followed by a start. */
  datatype Event =
    | Boot(p: Platform)
    | UpdateEvent(c: Config)
    | SetSystem(x: System)
    | SetNetwork(y: Network)
    | SetExt(z: ExtMeter)
    | SaveEvent(during: Option<Config>)
    | PowerLoss(done: Writes, q: Platform)

  /** The manager, the flash, and the effective values when they last agreed. */
  datatype World = World(m: Manager, st: Store, synced: Shared)

  function Booted(st: Store, p: Platform): World { World(Load(st, p), st, Effective(st)) }

  function Step(w: World, e: Event): World {
    match e
    case Boot(p) => Booted(w.st, p)
    case UpdateEvent(c) => w.(m := Update(w.m, c))
    case SetSystem(x) => w.(st := w.st.(sys := Some(x)))
    case SetNetwork(y) => w.(st := w.st.(net := Some(y)))
    case SetExt(z) => w.(st := w.st.(ext := Some(z)))
    case SaveEvent(u) =>
      var (m, st) := SaveDuring(w.m, w.st, ALL_WRITES, ALL_READS, u);
      World(m, st, if w.m.loaded then Effective(st) else w.synced)
    case PowerLoss(done, q) =>
      Booted(Save(w.m, w.st, done.(snap := false), ALL_READS).1, q)
  }

  function Run(w: World, es: seq<Event>): World {
    if es == [] then w else Step(Run(w, es[..|es| - 1]), es[|es| - 1])
  }

  const NO_CONFIG: Config := Migrated(EMPTY, Platform([], 0, 0))

  /** Power-on with empty flash, before the first load. */
  function Fresh(): World { World(Manager(false, NO_CONFIG, DefaultShared()), EMPTY, DefaultShared()) }

  /* ---- an absent record still means its defaults ---- */

  /** Where a record is absent, the given shared values are its defaults. */
  ghost predicate DefaultWhereAbsent(st: Store, s: Shared) {
    && (st.sys.None? ==> s.name == DefaultShared().name)
    && (st.net.None? ==> s.wire == DefaultShared().wire)
    && (st.ext.None? ==> s.line == DefaultShared().line)
  }

  ghost predicate SnapSound(st: Store) {
    forall running: Text :: Decodes(st, running).Ok? ==> DefaultWhereAbsent(st, SharedOf(Decodes(st, running).config))
  }

  ghost predicate Inv(w: World) {
    && SnapSound(w.st)
    && (w.m.loaded ==>
          && w.m.shadow == w.synced && DefaultWhereAbsent(w.st, w.synced)
          && (w.st.ext.None? ==> Mirrored(w.m.cfg.run, w.m.cfg.slots) == w.m.cfg.run))
  }

  lemma OverlayIsEffective(st: Store, s: Shared)
    requires DefaultWhereAbsent(st, s)
    ensures Overlaid(s, st) == Effective(st)
  {
  }

  lemma DecodedIsMirrored(st: Store, running: Text)
    requires Decodes(st, running).Ok?
    ensures
      var c := Decodes(st, running).config;
      Mirrored(c.run, c.slots) == c.run
  {
  }

  lemma FetchedIsMirrored(st: Store, p: Platform)
    requires st.ext.None?
    ensures
      var c := Fetched(st, p);
      Mirrored(c.run, c.slots) == c.run
  {
    if Decodes(st, p.running).Ok? {
      var c := Decodes(st, p.running).config;
      DecodedIsMirrored(st, p.running);
      assert Overlaid(SharedOf(c), st).line == SharedOf(c).line;
      assert Fetched(st, p).run == c.run && Fetched(st, p).slots == c.slots;
    }
  }

  lemma FetchedIsEffective(st: Store, p: Platform)
    requires SnapSound(st)
    ensures SharedOf(Fetched(st, p)) == Effective(st)
  {
    if Decodes(st, p.running).Ok? {
      var c := Decodes(st, p.running).config;
      OverlayIsEffective(st, SharedOf(c));
      SharedLaws(c, Effective(st));
    }
  }

  lemma EffectiveDefaults(st: Store)
    ensures DefaultWhereAbsent(st, Effective(st))
  {
  }

  lemma BootKeeps(st: Store, p: Platform)
    requires SnapSound(st)
    ensures Inv(Booted(st, p))
  {
    FetchedIsEffective(st, p);
    EffectiveDefaults(st);
    if st.ext.None? {
      FetchedIsMirrored(st, p);
      var c := Fetched(st, p);
      assert Normalised(c).run == c.run.(pollMs := Clamp(c.run.pollMs, POLL_MIN_MS, POLL_MAX_MS));
    }
  }

  /* ---- a save ---- */

  /** With its writes done, the domain records say exactly what was merged. */
  lemma PushedIsMerged(st: Store, cm: Shared, shadow: Shared, w: Writes)
    requires w.sys && w.net && w.ext
    ensures Effective(Pushed(st, cm, shadow, w, ALL_READS)) == Merge(cm, Effective(st), shadow)
  {
    UnmovedMatches(cm, Effective(st), shadow);
  }

  lemma UnmovedLineStays(cm: Line, legacy: Line, shadow: Line)
    requires legacy == shadow && !LineMoved(cm, legacy, shadow)
    ensures cm == shadow && PickLine(cm, legacy, shadow) == shadow
  {
  }

  lemma MirroredIgnoresNames(r: Runtime, ss: Slots)
    ensures Mirrored(r, CanonSlots(ss)) == Mirrored(r, ss)
  {
  }

  /** What a stored configuration's shared fields decode to. */
  lemma CanonShared(c: Config, running: Text)
    ensures
      var (x, y) := (SharedOf(Canon(c, running)), SharedOf(c));
      && x.name == Cut(y.name, 33) && x.wire.dhcp == y.wire.dhcp
      && (forall i :: 0 <= i < 6 ==> |y.wire.texts[i]| < 16 ==> x.wire.texts[i] == y.wire.texts[i])
      && x.line == y.line.(device := Mirrored(c.run, c.slots).device)
  {
    TablesAreOffsets();
    MirroredIgnoresNames(c.run, c.slots);
    var k := CanonCore(c.core, TOTAL, running);
    assert k.identity[0] == Cut(c.core.identity[0], Width(ID_STARTS, 0));
    forall i: nat | i < 6 && |c.core.network[i]| < 16
      ensures k.network[i] == c.core.network[i]
    {
      assert k.network[i] == Cut(c.core.network[i], Width(NET_STARTS, i));
    }
  }

  lemma CanonDefaults(st: Store, c: Config, running: Text)
    requires DefaultWhereAbsent(st, SharedOf(c)) && (st.ext.None? ==> Mirrored(c.run, c.slots) == c.run)
    ensures DefaultWhereAbsent(st, SharedOf(Canon(c, running)))
  {
    CanonShared(c, running);
    var x, y := SharedOf(Canon(c, running)), SharedOf(c);
    if st.net.None? {
      assert y.wire.texts == DefaultTexts();
      assert forall i :: 0 <= i < 6 ==> x.wire.texts[i] == y.wire.texts[i];
      assert x.wire.texts == y.wire.texts;
    }
  }

  lemma EncodedIsSound(st: Store, c: Config)
    requires st.snap == Some(Encode(c))
    requires DefaultWhereAbsent(st, SharedOf(c)) && (st.ext.None? ==> Mirrored(c.run, c.slots) == c.run)
    ensures SnapSound(st)
  {
    forall running: Text | Decodes(st, running).Ok?
      ensures DefaultWhereAbsent(st, SharedOf(Decodes(st, running).config))
    {
      DecodeOfEncode(c, running);
      CanonDefaults(st, c, running);
    }
  }

  /** A per-domain value that changed since the last synchronisation wins; without
      such a change the value in RAM survives. */
  ghost predicate Settled<T>(saved: T, cm: T, legacy: T, synced: T) {
    (legacy != synced ==> saved == legacy) && (legacy == synced ==> saved == cm)
  }

  /** The rule for each of the thirteen shared fields. */
  ghost predicate EachSettled(saved: Shared, cm: Shared, legacy: Shared, synced: Shared) {
    && Settled(saved.name, cm.name, legacy.name, synced.name)
    && Settled(saved.wire.dhcp, cm.wire.dhcp, legacy.wire.dhcp, synced.wire.dhcp)
    && (forall i :: 0 <= i < 6 ==>
          Settled(saved.wire.texts[i], cm.wire.texts[i], legacy.wire.texts[i], synced.wire.texts[i]))
    && Settled(saved.line.baud, cm.line.baud, legacy.line.baud, synced.line.baud)
    && Settled(saved.line.parity, cm.line.parity, legacy.line.parity, synced.line.parity)
    && Settled(saved.line.device, cm.line.device, legacy.line.device, synced.line.device)
    && Settled(saved.line.busOn, cm.line.busOn, legacy.line.busOn, synced.line.busOn)
    && Settled(saved.line.pollMs, cm.line.pollMs, legacy.line.pollMs, synced.line.pollMs)
  }

  /** Everything a successful save leaves behind: RAM, domain records and shadow
      agree, each shared field is settled, every other field of the configuration is
      as it was in RAM, and that configuration is what the snapshot encodes. */
  ghost predicate Synchronised(w: World, v: World) {
    var saved := SharedOf(v.m.cfg);
    && Effective(v.st) == saved && v.m.shadow == saved
    && EachSettled(saved, SharedOf(w.m.cfg), Effective(w.st), w.synced)
    && v.m.cfg == WithShared(w.m.cfg, saved)
    && v.st.snap == Some(Encode(v.m.cfg))
  }

  lemma MergeSettles(cm: Shared, legacy: Shared, synced: Shared)
    ensures EachSettled(Merge(cm, legacy, synced), cm, legacy, synced)
  {
  }

  lemma SaveSynchronises(w: World, u: Option<Config>)
    requires Inv(w) && w.m.loaded
    ensures Synchronised(w, Step(w, SaveEvent(u)))
  {
    var merged := Merge(SharedOf(w.m.cfg), Effective(w.st), w.synced);
    MergeSettles(SharedOf(w.m.cfg), Effective(w.st), w.synced);
    SharedLaws(w.m.cfg, merged);
    PushedIsMerged(w.st, SharedOf(w.m.cfg), w.synced, ALL_WRITES);
    var pushed := Pushed(w.st, SharedOf(w.m.cfg), w.synced, ALL_WRITES, ALL_READS);
    EffectiveIgnoresSnap(pushed, Encode(WithShared(w.m.cfg, merged)));
  }

  lemma EffectiveIgnoresSnap(st: Store, b: Bytes)
    ensures Effective(st.(snap := Some(b))) == Effective(st)
  {
  }

  /** A save never removes a record, and one it did not write still means defaults. */
  lemma UnwrittenLine(w: World, u: Option<Config>)
    requires Inv(w) && w.m.loaded && Step(w, SaveEvent(u)).st.ext.None?
    ensures w.st.ext.None? && Step(w, SaveEvent(u)).m.cfg.run == w.m.cfg.run
  {
    UnmovedLineStays(SharedOf(w.m.cfg).line, Effective(w.st).line, w.synced.line);
  }

  lemma SaveKeeps(w: World, u: Option<Config>)
    requires Inv(w)
    ensures Inv(Step(w, SaveEvent(u)))
  {
    if w.m.loaded {
      var v := Step(w, SaveEvent(u));
      SaveSynchronises(w, u);
      EffectiveDefaults(v.st);
      if v.st.ext.None? { UnwrittenLine(w, u); }
      EncodedIsSound(v.st, v.m.cfg);
    }
  }

  lemma PushKeepsSound(st: Store, cm: Shared, shadow: Shared, w: Writes)
    requires SnapSound(st)
    ensures SnapSound(Pushed(st, cm, shadow, w, ALL_READS))
  {
    var after := Pushed(st, cm, shadow, w, ALL_READS);
    forall running: Text | Decodes(after, running).Ok?
      ensures DefaultWhereAbsent(after, SharedOf(Decodes(st, running).config))
    {
      assert Decodes(after, running) == Decodes(st, running);
    }
  }

  lemma UpdateKeeps(w: World, c: Config)
    requires Inv(w)
    ensures Inv(Step(w, UpdateEvent(c)))
  {
  }

  /** An older writer only makes a record present. */
  lemma WriterKeeps(w: World, e: Event)
    requires Inv(w) && (e.SetSystem? || e.SetNetwork? || e.SetExt?)
    ensures Inv(Step(w, e))
  {
    var v := Step(w, e);
    forall running: Text | Decodes(v.st, running).Ok?
      ensures DefaultWhereAbsent(v.st, SharedOf(Decodes(v.st, running).config))
    {
      assert Decodes(v.st, running) == Decodes(w.st, running);
    }
  }

  lemma StepKeeps(w: World, e: Event)
    requires Inv(w)
    ensures Inv(Step(w, e))
  {
    match e
    case Boot(p) => BootKeeps(w.st, p);
    case UpdateEvent(c) => UpdateKeeps(w, c);
    case SetSystem(_) => WriterKeeps(w, e);
    case SetNetwork(_) => WriterKeeps(w, e);
    case SetExt(_) => WriterKeeps(w, e);
    case SaveEvent(u) => SaveKeeps(w, u);
    case PowerLoss(done, q) =>
      if w.m.loaded { PushKeepsSound(w.st, SharedOf(w.m.cfg), w.m.shadow, done.(snap := false)); }
      BootKeeps(Save(w.m, w.st, done.(snap := false), ALL_READS).1, q);
  }

  lemma {:induction false} RunKeeps(es: seq<Event>)
    ensures Inv(Run(Fresh(), es))
    decreases |es|
  {
    if es != [] {
      RunKeeps(es[..|es| - 1]);
      StepKeeps(Run(Fresh(), es[..|es| - 1]), es[|es| - 1]);
    }
  }

  /* ---- what saving and loading promise ---- */

  /** After any run, a save with successful writes, whatever update arrives while it
      works, leaves the snapshot, the effective
      per-domain values and the shadow equal on all thirteen shared fields; field by
      field, a per-domain value that changed since the last synchronisation wins, and
      otherwise the value in RAM survives. */
  lemma SaveAfterAnyRun(es: seq<Event>, u: Option<Config>)
    requires Run(Fresh(), es).m.loaded
    ensures Synchronised(Run(Fresh(), es), Step(Run(Fresh(), es), SaveEvent(u)))
  {
    RunKeeps(es);
    SaveSynchronises(Run(Fresh(), es), u);
  }

  ghost predicate Reloads(v: World, p: Platform) {
    StorableAt(v.m.cfg, TOTAL) ==>
      var saved := SharedOf(v.m.cfg);
      Load(v.st, p) == Manager(true, Normalised(WithShared(Canon(v.m.cfg, p.running), saved)), saved)
  }

  lemma SavedReloads(w: World, u: Option<Config>, p: Platform)
    requires Inv(w) && w.m.loaded
    ensures Reloads(Step(w, SaveEvent(u)), p)
  {
    var v := Step(w, SaveEvent(u));
    SaveSynchronises(w, u);
    SaveKeeps(w, u);
    if StorableAt(v.m.cfg, TOTAL) {
      DecodeOfEncode(v.m.cfg, p.running);
      assert Decodes(v.st, p.running) == Ok(Canon(v.m.cfg, p.running));
      OverlayIsEffective(v.st, SharedOf(Canon(v.m.cfg, p.running)));
      SharedLaws(Canon(v.m.cfg, p.running), Effective(v.st));
    }
  }

  /** The next start returns the saved configuration: its canonical form, with the
      shared fields exactly as saved and the two periods clamped. */
  lemma SaveThenLoadRestores(es: seq<Event>, u: Option<Config>, p: Platform)
    requires Run(Fresh(), es).m.loaded
    ensures Reloads(Step(Run(Fresh(), es), SaveEvent(u)), p)
  {
    RunKeeps(es);
    SavedReloads(Run(Fresh(), es), u, p);
  }

  /** The periods of the next start: brought into their windows, and not touched inside. */
  ghost predicate PeriodsRestored(x: Config, y: Config) {
    && (y.core.publishMs >= 5000 ==> x.core.publishMs == y.core.publishMs)
    && (y.core.publishMs < 5000 ==> x.core.publishMs == 5000)
    && (5000 <= y.run.pollMs <= 60000 ==> x.run.pollMs == y.run.pollMs)
    && (y.run.pollMs < 5000 ==> x.run.pollMs == 5000)
    && (y.run.pollMs > 60000 ==> x.run.pollMs == 60000)
  }

  /** The next start `x` after `y` was saved: the fields that also live in the domain
      records exactly, the periods in their windows, and all else as a reload of the
      snapshot keeps it. */
  ghost predicate Restarted(x: Config, y: Config, running: Text) {
    && x.core.identity[0] == y.core.identity[0] && x.core.dhcp == y.core.dhcp && x.core.network == y.core.network
    && x.core.bus.baud == y.core.bus.baud && x.core.bus.parity == y.core.bus.parity
    && x.run.device == y.run.device && x.run.busOn == y.run.busOn
    && PeriodsRestored(x, y)
    && exists base: Config :: AllKept(base, y, running) && OnlySharedDiffers(x, base)
  }

  /** Two configurations that differ at most in the shared fields and the periods. */
  ghost predicate OnlySharedDiffers(x: Config, y: Config) {
    x == y.(core := y.core.(identity := y.core.identity[0 := x.core.identity[0]], dhcp := x.core.dhcp,
                            network := x.core.network, publishMs := x.core.publishMs,
                            bus := y.core.bus.(baud := x.core.bus.baud, parity := x.core.bus.parity)),
            run := x.run)
  }

  lemma NormalisedPeriods(c: Config)
    ensures PeriodsRestored(Normalised(c), c)
    ensures Normalised(c) == c.(core := c.core.(publishMs := Normalised(c).core.publishMs),
                                run := c.run.(pollMs := Normalised(c).run.pollMs))
  {
  }

  lemma RestartOf(base: Config, y: Config, running: Text)
    requires AllKept(base, y, running)
    ensures Restarted(Normalised(WithShared(base, SharedOf(y))), y, running)
  {
    var c := WithShared(base, SharedOf(y));
    NormalisedPeriods(c);
    assert OnlySharedDiffers(Normalised(c), base);
  }

  /** After any run and any successful save of a configuration that can be stored, the
      next start has every field of it. */
  lemma NextStartKeeps(es: seq<Event>, u: Option<Config>, p: Platform)
    requires Run(Fresh(), es).m.loaded && StorableAt(Step(Run(Fresh(), es), SaveEvent(u)).m.cfg, TOTAL)
    ensures
      var v := Step(Run(Fresh(), es), SaveEvent(u));
      Restarted(Load(v.st, p).cfg, v.m.cfg, p.running)
  {
    var v := Step(Run(Fresh(), es), SaveEvent(u));
    SaveThenLoadRestores(es, u, p);
    CanonKeepsAll(v.m.cfg, p.running);
    RestartOf(Canon(v.m.cfg, p.running), v.m.cfg, p.running);
  }

  /** What the domain records say of a configuration, record by record. */
  ghost predicate RecordsSay(st: Store, c: Config) {
    && SystemOf(st).name == c.core.identity[0]
    && NetworkOf(st).wire.dhcp == c.core.dhcp && NetworkOf(st).wire.texts == c.core.network
    && ExtOf(st).line.baud == c.core.bus.baud && ExtOf(st).line.parity == c.core.bus.parity
    && ExtOf(st).line.device == c.run.device && ExtOf(st).line.busOn == c.run.busOn
    && ExtOf(st).line.pollMs == c.run.pollMs
  }

  lemma SaveWritesRecords(es: seq<Event>, u: Option<Config>)
    requires Run(Fresh(), es).m.loaded
    ensures
      var v := Step(Run(Fresh(), es), SaveEvent(u));
      RecordsSay(v.st, v.m.cfg)
  {
    SaveAfterAnyRun(es, u);
  }

  /** A save, whatever fails in it, never changes what only the domain records own. */
  lemma SaveKeepsOwnFields(m: Manager, st: Store, w: Writes, r: Reads)
    ensures
      var after := Save(m, st, w, r).1;
      && SystemOf(after).host == SystemOf(st).host
      && NetworkOf(after).mode == NetworkOf(st).mode && NetworkOf(after).apPass == NetworkOf(st).apPass
      && ExtOf(after).slaveAddr == ExtOf(st).slaveAddr
  {
  }

  /** What the domain records give to a first start. */
  ghost predicate FromRecords(x: Config, st: Store) {
    && x.core.identity[0] == SystemOf(st).name && x.core.dhcp == NetworkOf(st).wire.dhcp
    && x.core.network == NetworkOf(st).wire.texts
    && x.core.bus.baud == ExtOf(st).line.baud == x.slaveBaud && x.core.bus.parity == ExtOf(st).line.parity
    && x.run.device == ExtOf(st).line.device && x.run.busOn == ExtOf(st).line.busOn
    && KnownDevice(x.slots, ExtOf(st))
  }

  /** Names and versions, and the factory values of the first record. */
  ghost predicate FactoryCore(x: Core, p: Platform) {
    && Kept(x.identity[1], p.running, 24) && Ascii(x.identity[2]) == "1.0"
    && Ascii(x.identity[3]) == "000000-00" && Ascii(x.identity[4]) == "0.0.0"
    && x.slaveId == 0 && x.publishMs == 5000
    && !x.mqtt.enable && x.mqtt.tls == 0 && x.mqtt.port == 1883 && x.mqtt.keepaliveS == 60
    && (forall i :: 0 <= i < 10 ==> x.mqtt.texts[i] == [])
    && x.bus.stopBits == 1 && x.freq == p.freq && x.wiring == p.wiring
    && x.ctRatio == 2000 && x.ptRatio == 1
    && x.panel.backlight && x.panel.buzzer && x.panel.autocycle && x.panel.sleepS == 0
  }

  /** The factory values of the groups that came later. */
  ghost predicate FactoryRest(x: Config, p: Platform) {
    && x.cycleMs == 3000 && x.buzzerAlarm && UsualAlarm(x.alarm, p.freq)
    && x.ct.rated == 100 && x.ct.expected == 75 && x.pga == 0
    && Ascii(x.ap.ssid) == "PowerMeter-AP" && Ascii(x.ap.pass) == "12345678"
    && x.roles.out0 == 1 && x.roles.out1 == 1 && x.roles.preset == 0 && x.ctRatioCalib == 0
  }

  /** A start without a usable snapshot: the domain records, one slot for a device that
      they know, and the factory values. */
  ghost predicate FirstStart(x: Config, st: Store, p: Platform) {
    FromRecords(x, st) && FactoryCore(x.core, p) && FactoryRest(x, p)
  }

  ghost predicate KnownDevice(ss: Slots, x: ExtMeter) {
    && (forall i: nat :: 0 < i < 5 ==> !ss[i].used)
    && (ss[0].used <==> 1 <= x.slaveAddr <= 247)
    && (ss[0].used ==>
          && ss[0].enabled == x.line.busOn && ss[0].kind == x.line.device && ss[0].id == x.slaveAddr
          && Ascii(ss[0].name) == if x.line.device == 1 then "EM-07K" else "PM710")
  }

  lemma MigratedFromRecords(st: Store, p: Platform)
    ensures FromRecords(Migrated(st, p), st)
  {}

  lemma MigratedCore(st: Store, p: Platform)
    ensures FactoryCore(Migrated(st, p).core, p)
  {}

  lemma MigratedRest(st: Store, p: Platform)
    ensures FactoryRest(Migrated(st, p), p)
  {}

  lemma NormalisedStaysFirst(c: Config, st: Store, p: Platform)
    requires FirstStart(c, st, p)
    ensures FirstStart(Normalised(c), st, p)
  {}

  lemma StartWithoutSnapshot(st: Store, p: Platform)
    requires Decodes(st, p.running).Err?
    ensures
      var x := Load(st, p).cfg;
      FirstStart(x, st, p) && PeriodsRestored(x, Migrated(st, p)) && Migrated(st, p).run.pollMs == ExtOf(st).line.pollMs
  {
    MigratedFromRecords(st, p);
    MigratedCore(st, p);
    MigratedRest(st, p);
    NormalisedStaysFirst(Migrated(st, p), st, p);
    NormalisedPeriods(Migrated(st, p));
  }

  /** The other writers replace their own record whole, behind the manager's back. */
  lemma OthersWrite(w: World, x: System, y: Network, z: ExtMeter)
    ensures Step(w, SetSystem(x)) == w.(st := w.st.(sys := Some(x)))
    ensures Step(w, SetNetwork(y)) == w.(st := w.st.(net := Some(y)))
    ensures Step(w, SetExt(z)) == w.(st := w.st.(ext := Some(z)))
  {}

  /** A snapshot that cannot be read is no snapshot; one that can is decoded as it is. */
  lemma StartUnderFaults(st: Store, p: Platform, r: Reads)
    ensures !r.snap ==> FirstStart(Load(Readable(st, r), p).cfg, Readable(st, r), p)
    ensures r.snap ==> Decodes(Readable(st, r), p.running) == Decodes(st, p.running)
  {
    if !r.snap { StartWithoutSnapshot(Readable(st, r), p); }
  }

  /** An update is taken, once something is loaded, unless one of its checks refuses it; it
      then replaces the whole configuration but not the shadow. */
  lemma UpdateTakesExactly(m: Manager, c: Config)
    ensures
      var v := Update(m, c);
      && v == m.(cfg := v.cfg)
      && (if m.loaded && !BadAlarm(c.alarm, c.roles) && !BadSlots(c.slots) && !BadRest(c)
          then v.cfg == c.(run := c.run.(device := v.cfg.run.device)) else v == m)
  {
    RefusedExactly(c);
    UpdateMirrors(c);
  }

  /** What an absent record stands for. */
  lemma AbsentRecords()
    ensures
      && Ascii(SystemOf(EMPTY).name) == "Power Meter" && Ascii(SystemOf(EMPTY).host) == "power-meter"
      && NetworkOf(EMPTY).wire.dhcp && (forall i :: 0 <= i < 6 ==> NetworkOf(EMPTY).wire.texts[i] == [])
      && NetworkOf(EMPTY).mode == 0 && Ascii(NetworkOf(EMPTY).apPass) == "12345678"
      && ExtOf(EMPTY).line.baud == 0 && ExtOf(EMPTY).line.parity == 0 && ExtOf(EMPTY).line.device == 0
      && !ExtOf(EMPTY).line.busOn && ExtOf(EMPTY).line.pollMs == 10000 && ExtOf(EMPTY).slaveAddr == 0
  {
  }

  /** At every moment of every run the shadow is what the domain records said when
      both sides last agreed, so the merge can tell which side moved since. */
  lemma ShadowIsLastSync(es: seq<Event>)
    ensures Run(Fresh(), es).m.loaded ==> Run(Fresh(), es).m.shadow == Run(Fresh(), es).synced
  {
    RunKeeps(es);
  }

  /* ---- when reads or writes fail ---- */

  /** What a load starts from before the domain records override it. */
  function Base(st: Store, running: Text): Shared {
    match Decodes(st, running)
    case Ok(c) => SharedOf(c)
    case Err(_) => DefaultShared()
  }

  lemma FetchedShared(st: Store, p: Platform)
    ensures SharedOf(Fetched(st, p)) == Overlaid(Base(st, p.running), st)
  {
    match Decodes(st, p.running)
    case Ok(c) => SharedLaws(c, Overlaid(SharedOf(c), st));
    case Err(_) => MigratedShared(st, p);
  }

  lemma MigratedShared(st: Store, p: Platform)
    ensures SharedOf(Migrated(st, p)) == Effective(st) == Overlaid(DefaultShared(), st)
  {
  }

  /** Does the record that holds the field exist? */
  predicate Present(f: Field, st: Store) {
    match f
    case DeviceName => st.sys.Some?
    case Dhcp | Address(_) => st.net.Some?
    case _ => st.ext.Some?
  }

  lemma GetOverlaid(base: Shared, st: Store, r: Reads, f: Field)
    ensures
      Get(Overlaid(base, Readable(st, r)), f)
      == if InReadable(f, r) && Present(f, st) then Get(Effective(st), f) else Get(base, f)
  {
  }

  lemma GetAbsent(st: Store, f: Field)
    requires !Present(f, st)
    ensures Get(Effective(st), f) == Get(DefaultShared(), f)
  {
  }

  lemma LoadedShadow(st: Store, p: Platform)
    ensures Load(st, p).shadow == SharedOf(Fetched(st, p))
  {
  }

  /** Whatever the flash holds and whatever of it can be read: a load starts from the
      effective per-domain value of a shared field exactly if its record exists and can
      be read, or a usable snapshot, or else the defaults, say the same. */
  lemma FaultyLoadAgrees(st: Store, p: Platform, r: Reads, f: Field)
    ensures
      Get(Load(Readable(st, r), p).shadow, f) == Get(Effective(st), f) <==>
        || (InReadable(f, r) && Present(f, st))
        || Get(Base(Readable(st, r), p.running), f) == Get(Effective(st), f)
  {
    LoadedShadow(Readable(st, r), p);
    FetchedShared(Readable(st, r), p);
    GetOverlaid(Base(Readable(st, r), p.running), st, r, f);
  }

  /** The period alone is changed by a load, and a default period is inside its window. */
  lemma GetLoaded(st: Store, p: Platform, f: Field)
    ensures
      var m := Load(st, p);
      && m.loaded
      && (f == PollMs ==> Get(SharedOf(m.cfg), f) == NumberValue(Clamp(m.shadow.line.pollMs, POLL_MIN_MS, POLL_MAX_MS)))
      && (f != PollMs ==> Get(SharedOf(m.cfg), f) == Get(m.shadow, f))
  {
  }

  lemma DefaultPeriod(x: u32)
    ensures Clamp(x, POLL_MIN_MS, POLL_MAX_MS) == DefaultShared().line.pollMs <==> x == DefaultShared().line.pollMs
  {
  }

  /** A load lets a value of the snapshot stand where the domain record is missing, but
      the next save takes the defaults of a missing record for a newer change. So what a
      start loads survives the first complete save, field by field, exactly if the
      record exists or the loaded value is the default anyway. */
  lemma LoadedSurvivesSave(st: Store, p: Platform, f: Field)
    ensures
      var m := Load(st, p);
      Get(SharedOf(Save(m, st, ALL_WRITES, ALL_READS).0.cfg), f) == Get(SharedOf(m.cfg), f) <==>
        Present(f, st) || Get(SharedOf(m.cfg), f) == Get(DefaultShared(), f)
  {
    var m := Load(st, p);
    GetSaved(m, st, ALL_WRITES, ALL_READS, f);
    GetLoaded(st, p, f);
    LoadedShadow(st, p);
    FetchedShared(st, p);
    GetOverlaid(Base(st, p.running), st, ALL_READS, f);
    assert Readable(st, ALL_READS) == st;
    DefaultPeriod(m.shadow.line.pollMs);
    if !Present(f, st) { GetAbsent(st, f); }
  }

  lemma UnwrittenNameLoads(m: Manager, st: Store, p: Platform)
    requires m.loaded && st.sys.None? && m.shadow.name == DEFAULT_NAME && |SharedOf(m.cfg).name| < 33
    requires StorableAt(Save(m, st, ALL_WRITES.(sys := false), ALL_READS).0.cfg, TOTAL)
    ensures
      var after := Save(m, st, ALL_WRITES.(sys := false), ALL_READS).1;
      after.sys.None? && Load(after, p).shadow.name == SharedOf(m.cfg).name
  {
    var (once, after) := Save(m, st, ALL_WRITES.(sys := false), ALL_READS);
    GetSaved(m, st, ALL_WRITES.(sys := false), ALL_READS, DeviceName);
    DecodeOfEncode(once.cfg, p.running);
    CanonShared(once.cfg, p.running);
    LoadedShadow(after, p);
    FetchedShared(after, p);
  }

  /** It happens: a renamed device whose first write of the system record failed keeps
      its name over the restart, and loses it to the default at the next save. */
  lemma MissingRecordLosesTheName(m: Manager, st: Store, p: Platform)
    requires m.loaded && st.sys.None? && m.shadow.name == DEFAULT_NAME
    requires SharedOf(m.cfg).name != DEFAULT_NAME && |SharedOf(m.cfg).name| < 33
    requires StorableAt(Save(m, st, ALL_WRITES.(sys := false), ALL_READS).0.cfg, TOTAL)
    ensures
      var after := Save(m, st, ALL_WRITES.(sys := false), ALL_READS).1;
      var up := Load(after, p);
      && SharedOf(up.cfg).name == SharedOf(m.cfg).name
      && SharedOf(Save(up, after, ALL_WRITES, ALL_READS).0.cfg).name == DEFAULT_NAME
  {
    var after := Save(m, st, ALL_WRITES.(sys := false), ALL_READS).1;
    UnwrittenNameLoads(m, st, p);
    NameOfNextSave(after, p);
  }

  lemma NameOfNextSave(st: Store, p: Platform)
    requires st.sys.None? && Load(st, p).shadow.name != DEFAULT_NAME
    ensures SharedOf(Load(st, p).cfg).name == Load(st, p).shadow.name
    ensures SharedOf(Save(Load(st, p), st, ALL_WRITES, ALL_READS).0.cfg).name == DEFAULT_NAME
  {
    GetLoaded(st, p, DeviceName);
    GetSaved(Load(st, p), st, ALL_WRITES, ALL_READS, DeviceName);
  }

  /** A save whose snapshot write succeeds leaves both copies equal exactly if every
      domain that could be read and that RAM alone had moved was written, and every
      domain that could not be read happens to say what RAM says. */
  lemma AgreesIffPushed(m: Manager, st: Store, w: Writes, r: Reads)
    requires m.loaded && w.snap
    ensures
      var (cm, x) := (SharedOf(m.cfg), Effective(st));
      var (v, after) := Save(m, st, w, r);
      Effective(after) == SharedOf(v.cfg) <==>
        && (if r.sys then Moved(cm.name, x.name, m.shadow.name) ==> w.sys else x.name == cm.name)
        && (if r.net then WireMoved(cm.wire, x.wire, m.shadow.wire) ==> w.net else x.wire == cm.wire)
        && (if r.ext then LineMoved(cm.line, x.line, m.shadow.line) ==> w.ext else x.line == cm.line)
  {
    var cm, x := SharedOf(m.cfg), Seen(st, m.shadow, r);
    var merged := Merge(cm, x, m.shadow);
    SharedLaws(m.cfg, merged);
    SkippedDomains(cm, m.shadow);
    UnmovedMatches(cm, x, m.shadow);
    MovedDiffers(cm, x, m.shadow);
    EffectiveIgnoresSnap(Pushed(st, cm, m.shadow, w, r), Encode(WithShared(m.cfg, merged)));
  }

  lemma MovedDiffers(cm: Shared, legacy: Shared, shadow: Shared)
    ensures Moved(cm.name, legacy.name, shadow.name) ==> Merge(cm, legacy, shadow).name != legacy.name
    ensures WireMoved(cm.wire, legacy.wire, shadow.wire) ==> Merge(cm, legacy, shadow).wire != legacy.wire
    ensures LineMoved(cm.line, legacy.line, shadow.line) ==> Merge(cm, legacy, shadow).line != legacy.line
  {
    if WireMoved(cm.wire, legacy.wire, shadow.wire) && !Moved(cm.wire.dhcp, legacy.wire.dhcp, shadow.wire.dhcp) {
      var i :| 0 <= i < 6 && Moved(cm.wire.texts[i], legacy.wire.texts[i], shadow.wire.texts[i]);
      assert PickWire(cm.wire, legacy.wire, shadow.wire).texts[i] != legacy.wire.texts[i];
    }
  }

  /** The thirteen shared fields one by one, and their values. */
  datatype Name = DeviceName | Dhcp | Address(i: nat) | Baud | Parity | Device | BusOn | PollMs

  type Field = f: Name | f.Address? ==> f.i < 6 witness DeviceName

  datatype Value = TextValue(t: Text) | FlagValue(b: bool) | NumberValue(n: u32)

  function Get(s: Shared, f: Field): Value {
    match f
    case DeviceName => TextValue(s.name)
    case Dhcp => FlagValue(s.wire.dhcp)
    case Address(i) => TextValue(s.wire.texts[i])
    case Baud => NumberValue(s.line.baud)
    case Parity => NumberValue(s.line.parity)
    case Device => NumberValue(s.line.device)
    case BusOn => FlagValue(s.line.busOn)
    case PollMs => NumberValue(s.line.pollMs)
  }

  /** Is the record that holds the field read, and would its write go through? */
  predicate InReadable(f: Field, r: Reads) {
    match f
    case DeviceName => r.sys
    case Dhcp | Address(_) => r.net
    case _ => r.ext
  }

  predicate InWritable(f: Field, w: Writes) {
    match f
    case DeviceName => w.sys
    case Dhcp | Address(_) => w.net
    case _ => w.ext
  }

  /** Did RAM alone move any field of the record that holds `f`? */
  predicate DomainMoved(f: Field, cm: Shared, legacy: Shared, shadow: Shared) {
    match f
    case DeviceName => Moved(cm.name, legacy.name, shadow.name)
    case Dhcp | Address(_) => WireMoved(cm.wire, legacy.wire, shadow.wire)
    case _ => LineMoved(cm.line, legacy.line, shadow.line)
  }

  /** A record is rewritten whole. */
  predicate Rewritten(f: Field, cm: Shared, legacy: Shared, shadow: Shared, w: Writes, r: Reads) {
    InReadable(f, r) && InWritable(f, w) && DomainMoved(f, cm, legacy, shadow)
  }

  lemma GetMerge(cm: Shared, legacy: Shared, shadow: Shared, f: Field)
    ensures Get(Merge(cm, legacy, shadow), f) == Pick(Get(cm, f), Get(legacy, f), Get(shadow, f))
  {
  }

  lemma FieldMoves(cm: Shared, legacy: Shared, shadow: Shared, f: Field)
    requires Moved(Get(cm, f), Get(legacy, f), Get(shadow, f))
    ensures DomainMoved(f, cm, legacy, shadow)
  {
    if f.Address? { assert Moved(cm.wire.texts[f.i], legacy.wire.texts[f.i], shadow.wire.texts[f.i]); }
  }

  lemma GetSeen(st: Store, shadow: Shared, r: Reads, f: Field)
    ensures Get(Seen(st, shadow, r), f) == if InReadable(f, r) then Get(Effective(st), f) else Get(shadow, f)
  {
  }

  lemma SeenDomain(f: Field, cm: Shared, st: Store, shadow: Shared, r: Reads)
    requires InReadable(f, r)
    ensures DomainMoved(f, cm, Seen(st, shadow, r), shadow) == DomainMoved(f, cm, Effective(st), shadow)
  {
  }

  /** What a record says after a save, field by field. */
  lemma GetPushed(st: Store, cm: Shared, shadow: Shared, w: Writes, r: Reads, f: Field)
    ensures
      Get(Effective(Pushed(st, cm, shadow, w, r)), f)
      == if Rewritten(f, cm, Effective(st), shadow, w, r)
         then Pick(Get(cm, f), Get(Effective(st), f), Get(shadow, f)) else Get(Effective(st), f)
  {
    var x := Seen(st, shadow, r);
    GetMerge(cm, x, shadow, f);
    GetSeen(st, shadow, r, f);
    if InReadable(f, r) { SeenDomain(f, cm, st, shadow, r); }
  }

  lemma GetSaved(m: Manager, st: Store, w: Writes, r: Reads, f: Field)
    requires m.loaded && w.snap
    ensures
      Get(SharedOf(Save(m, st, w, r).0.cfg), f)
      == if InReadable(f, r) then Pick(Get(SharedOf(m.cfg), f), Get(Effective(st), f), Get(m.shadow, f))
         else Get(SharedOf(m.cfg), f)
  {
    var x := Seen(st, m.shadow, r);
    SharedLaws(m.cfg, Merge(SharedOf(m.cfg), x, m.shadow));
    GetMerge(SharedOf(m.cfg), x, m.shadow, f);
    GetSeen(st, m.shadow, r, f);
  }

  /** After a save whose snapshot could not be written, whatever else of it went wrong:
      which of the values that RAM holds by then survive the next save. A field whose
      record was rewritten survives if it had not moved in RAM before, or moves to the
      value already written; any other field survives if its record had not moved, or
      says the same. */
  lemma SurvivesFailedSnapshot(m: Manager, st: Store, w: Writes, r: Reads, c: Config, v: Writes, q: Reads, f: Field)
    requires m.loaded && !w.snap && v.snap
    ensures
      var (cm, x, sh) := (SharedOf(m.cfg), Effective(st), m.shadow);
      var (once, after) := Save(m, st, w, r);
      && once == m
      && (Get(SharedOf(Save(once.(cfg := c), after, v, q).0.cfg), f) == Get(SharedOf(c), f) <==>
            || !InReadable(f, q)
            || if Rewritten(f, cm, x, sh, w, r) && Get(x, f) == Get(sh, f)
               then Get(cm, f) == Get(sh, f) || Get(cm, f) == Get(SharedOf(c), f)
               else Get(x, f) == Get(sh, f) || Get(x, f) == Get(SharedOf(c), f))
  {
    GetPushed(st, SharedOf(m.cfg), m.shadow, w, r, f);
    GetSaved(m.(cfg := c), Save(m, st, w, r).1, v, q, f);
  }

  /** After a save that wrote the snapshot, whatever else of it went wrong: a value that
      RAM holds by then survives the next save unless that save takes a stale record
      for a newer change. The record is stale in a field that RAM had moved and that
      could not be written, and in a field that could not be read and differed. */
  lemma SurvivesFailedPush(m: Manager, st: Store, w: Writes, r: Reads, c: Config, v: Writes, q: Reads, f: Field)
    requires m.loaded && w.snap && v.snap
    ensures
      var (cm, x, sh) := (SharedOf(m.cfg), Effective(st), m.shadow);
      var (once, after) := Save(m, st, w, r);
      Get(SharedOf(Save(once.(cfg := c), after, v, q).0.cfg), f) == Get(SharedOf(c), f) <==>
        || !InReadable(f, q)
        || (if InReadable(f, r)
            then InWritable(f, w) || !Moved(Get(cm, f), Get(x, f), Get(sh, f))
            else Get(x, f) == Get(cm, f))
        || Get(x, f) == Get(SharedOf(c), f)
  {
    var (cm, x, sh) := (SharedOf(m.cfg), Effective(st), m.shadow);
    var (once, after) := Save(m, st, w, r);
    var pushed := Pushed(st, cm, sh, w, r);
    EffectiveIgnoresSnap(pushed, Encode(once.cfg));
    GetPushed(st, cm, sh, w, r, f);
    GetMerge(cm, Seen(st, sh, r), sh, f);
    GetSeen(st, sh, r, f);
    GetSaved(once.(cfg := c), after, v, q, f);
    if Moved(Get(cm, f), Get(x, f), Get(sh, f)) { FieldMoves(cm, x, sh, f); }
  }

  /** A failed domain write is only logged, and the shadow moves on regardless: the
      next save takes the stale record for a newer change and undoes the rename. */
  lemma FailedPushIsReverted(m: Manager, st: Store)
    requires m.loaded && Effective(st).name == m.shadow.name != SharedOf(m.cfg).name
    ensures
      var (once, after) := Save(m, st, ALL_WRITES.(sys := false), ALL_READS);
      var (twice, _) := Save(once, after, ALL_WRITES, ALL_READS);
      SharedOf(once.cfg).name == SharedOf(m.cfg).name && SharedOf(twice.cfg).name == m.shadow.name
  {
    var (once, after) := Save(m, st, ALL_WRITES.(sys := false), ALL_READS);
    EffectiveIgnoresSnap(Pushed(st, SharedOf(m.cfg), m.shadow, ALL_WRITES.(sys := false), ALL_READS), Encode(once.cfg));
    GetPushed(st, SharedOf(m.cfg), m.shadow, ALL_WRITES.(sys := false), ALL_READS, DeviceName);
    GetSaved(m, st, ALL_WRITES.(sys := false), ALL_READS, DeviceName);
    GetSaved(once, after, ALL_WRITES, ALL_READS, DeviceName);
  }

  /** A failed snapshot write leaves the domain records ahead of the shadow: if RAM
      changes the field again before the next save, that later change is lost to the
      value that save had pushed. */
  lemma FailedSnapshotHidesLaterUpdate(m: Manager, st: Store, c: Config)
    requires m.loaded && Effective(st).name == m.shadow.name != SharedOf(m.cfg).name
    ensures
      var (once, after) := Save(m, st, ALL_WRITES.(snap := false), ALL_READS);
      var (twice, _) := Save(once.(cfg := c), after, ALL_WRITES, ALL_READS);
      once == m && SharedOf(twice.cfg).name == SharedOf(m.cfg).name
  {
    GetPushed(st, SharedOf(m.cfg), m.shadow, ALL_WRITES.(snap := false), ALL_READS, DeviceName);
    GetSaved(m.(cfg := c), Save(m, st, ALL_WRITES.(snap := false), ALL_READS).1, ALL_WRITES, ALL_READS, DeviceName);
  }

  /** An update that was accepted while a save was at work is in RAM afterwards exactly
      if the snapshot write failed, or it agrees with the merged copy in every field. */
  lemma OvertakingUpdateIsLost(m: Manager, st: Store, w: Writes, r: Reads, u: Config)
    requires m.loaded && Accepted(u)
    ensures
      SaveDuring(m, st, w, r, Some(u)).0.cfg == Updated(u) <==>
        !w.snap || Updated(u) == WithShared(m.cfg, Merge(SharedOf(m.cfg), Seen(st, m.shadow, r), m.shadow))
  {
  }

  /** Periods are brought into their windows by a load only: a save takes over what
      an older writer stored, however short. */
  lemma OnlyLoadClamps(m: Manager, st: Store, p: Platform)
    ensures POLL_MIN_MS <= Load(st, p).cfg.run.pollMs <= POLL_MAX_MS && Load(st, p).cfg.core.publishMs >= PUBLISH_MIN_MS
    ensures m.loaded && Effective(st).line.pollMs != m.shadow.line.pollMs ==>
              Save(m, st, ALL_WRITES, ALL_READS).0.cfg.run.pollMs == Effective(st).line.pollMs
  {
  }
}
