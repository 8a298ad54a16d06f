/** The persisted configuration snapshot: an append-only record of 1156 bytes that
    older firmware wrote as a shorter prefix. */
module ConfigCodec {
  import opened CInt
  import opened Layout

  const MAGIC := 0x43464753
  const VERSION := 2
  const CONFIG_VERSION := 7
  const HEADER_SIZE := 16
  const V1_SIZE: nat := 904
  const CYCLE_END: nat := 908
  const RUNTIME_END: nat := 916
  const BUZZER_END: nat := 917
  const ALARM_END: nat := 942
  const SLOTS_END: nat := 1042
  const CT_END: nat := 1046
  const PGA_END: nat := 1047
  const AP_END: nat := 1148
  const SLAVE_BAUD_END: nat := 1149
  const ROLES_END: nat := 1155
  const TOTAL: nat := 1156
  const SLOTS: nat := 5
  const PUBLISH_MAX_MS := 60000
  const KCONFIG_CT := 2000
  const KCONFIG_RATED := 100
  const KCONFIG_EXPECTED := 75
  const KCONFIG_PGA := 1

  /* ---- the configuration in RAM ---- */

  const NO_TEXT: Text := []

  type Texts5 = s: seq<Text> | |s| == 5 witness seq<Text>(5, i => NO_TEXT)
  type Texts6 = s: seq<Text> | |s| == 6 witness seq<Text>(6, i => NO_TEXT)
  type Texts10 = s: seq<Text> | |s| == 10 witness seq<Text>(10, i => NO_TEXT)

  /** A threshold is what a 16-bit count of tenths can hold. */
  type Level = r: real | 0.0 <= r <= 6553.5 witness 0.0

  datatype Mqtt = Mqtt(enable: bool, tls: u8, port: u16, keepaliveS: u16, texts: Texts10)

  datatype Bus = Bus(baud: u8, parity: u8, stopBits: u8)

  datatype Panel = Panel(backlight: bool, buzzer: bool, autocycle: bool, sleepS: u32)

  /** What every stored version carries. Identity: device name, firmware, hardware,
      OTA build, OTA version. Network: address, gateway, mask, DNS, SSID, password. */
  datatype Core = Core(
    identity: Texts5, dhcp: bool, slaveId: u8, network: Texts6, publishMs: u32, mqtt: Mqtt,
    bus: Bus, freq: u8, wiring: u8, ctRatio: u16, ptRatio: u16, panel: Panel)

  datatype Runtime = Runtime(device: u8, busOn: bool, pollMs: u32)

  datatype Enables = Enables(low: bool, high: bool, current: bool, loss: bool, freq: bool)

  datatype Alarm = Alarm(
    on: Enables, reference: u8, nominalHz: u8, voltLow: Level, voltHigh: Level, amps: Level,
    hzLow: Level, hzHigh: Level, triggerS: u16, clearS: u16, hysteresis: Level)

  datatype Slot = Slot(used: bool, enabled: bool, kind: u8, id: u8, name: Text)

  const NO_SLOT := Slot(false, false, 0, 0, [])

  type Slots = s: seq<Slot> | |s| == SLOTS witness [NO_SLOT, NO_SLOT, NO_SLOT, NO_SLOT, NO_SLOT]

  const NO_SLOTS: Slots := [NO_SLOT, NO_SLOT, NO_SLOT, NO_SLOT, NO_SLOT]

  datatype Ct = Ct(rated: u16, expected: u16)

  datatype Ap = Ap(ssid: Text, pass: Text)

  datatype Roles = Roles(out0: u8, out1: u8, preset: u8)

  datatype Config = Config(
    core: Core, cycleMs: u32, run: Runtime, buzzerAlarm: bool, alarm: Alarm, slots: Slots, ct: Ct, pga: u8,
    ap: Ap, slaveBaud: u8, roles: Roles, ctRatioCalib: u16)

  datatype Error = InvalidVersion | InvalidArg

  datatype Decoded = Ok(config: Config) | Err(error: Error)

  /* ---- writing ---- */

  function Bool(b: bool): u8 { if b then 1 else 0 }

  /** `(uint16_t)(v * 10 + 0.5)`: tenths, rounded. */
  function Tenths(v: Level): u16 { (v * 10.0 + 0.5).Floor }

  function FromTenths(t: u16): Level { t as real / 10.0 }

  const ID_STARTS: seq<nat> := [0, 33, 57, 81, 97, 113]
  const NET_STARTS: seq<nat> := [0, 16, 32, 48, 64, 97, 162]
  const MQTT_STARTS: seq<nat> := [0, 32, 96, 128, 192, 256, 320, 384, 448, 512, 576]
  const AP_STARTS: seq<nat> := [0, 33, 98]
  const NAME_LEN: nat := 16

  lemma TablesAreOffsets()
    ensures Offsets(ID_STARTS) && Offsets(NET_STARTS) && Offsets(MQTT_STARTS) && Offsets(AP_STARTS)
  {
  }

  function HeadBlock(declared: u32): (b: Bytes)
    ensures |b| == 16
  {
    Le32(MAGIC) + Le16(VERSION) + Le16(HEADER_SIZE) + Le32(declared) + Le32(CONFIG_VERSION)
  }

  function MqttBlock(m: Mqtt): (b: Bytes)
    ensures |b| == 8
  {
    [Bool(m.enable), m.tls, Lo(m.port), Hi(m.port), Lo(m.keepaliveS), Hi(m.keepaliveS), 0, 0]
  }

  function ScalarBlock(c: Core): (b: Bytes)
    ensures |b| == 20
  {
    [c.bus.baud, c.bus.parity, c.bus.stopBits, c.freq, c.wiring, 0, Lo(c.ctRatio), Hi(c.ctRatio), Lo(c.ptRatio),
     Hi(c.ptRatio), Bool(c.panel.backlight), Bool(c.panel.buzzer), Bool(c.panel.autocycle), 0, 0, 0]
    + Le32(c.panel.sleepS)
  }

  function RuntimeBlock(r: Runtime): (b: Bytes)
    ensures |b| == 8
  {
    [r.device, Bool(r.busOn), 0, 0] + Le32(r.pollMs)
  }

  function AlarmBlock(a: Alarm): (b: Bytes)
    ensures |b| == 25
  {
    [Bool(a.on.low), Bool(a.on.high), Bool(a.on.current), Bool(a.on.loss), Bool(a.on.freq), a.reference, a.nominalHz,
     0, 0]
    + LevelBlock([Tenths(a.voltLow), Tenths(a.voltHigh), Tenths(a.amps), Tenths(a.hzLow), Tenths(a.hzHigh),
                  a.triggerS, a.clearS, Tenths(a.hysteresis)])
  }

  function LevelBlock(ws: seq<u16>): (b: Bytes)
    ensures |b| == 2 * |ws|
  {
    seq(2 * |ws|, k requires 0 <= k < 2 * |ws| => if k % 2 == 0 then Lo(ws[k / 2]) else Hi(ws[k / 2]))
  }

  function SlotBlock(s: Slot): (b: Bytes)
    ensures |b| == 20
  {
    [Bool(s.used), Bool(s.enabled), s.kind, s.id] + Field(s.name, NAME_LEN)
  }

  function SlotBlocks(ss: Slots): (bs: seq<Bytes>)
    ensures |bs| == SLOTS && Fits(bs, SlotStarts())
  {
    seq(SLOTS, i requires 0 <= i < SLOTS => SlotBlock(ss[i]))
  }

  function SlotStarts(): (st: seq<nat>)
    ensures |st| == SLOTS + 1
  {
    seq(SLOTS + 1, i requires 0 <= i <= SLOTS => 20 * i)
  }

  const BLOCKS: nat := 19

  /** Where each block starts; the last entry is the end of the record. */
  function Start(i: nat): nat
    requires i <= BLOCKS
  {
    match i
    case 0 => 0
    case 1 => 16
    case 2 => 129
    case 3 => 131
    case 4 => 293
    case 5 => 296
    case 6 => 300
    case 7 => 308
    case 8 => 884
    case 9 => V1_SIZE
    case 10 => CYCLE_END
    case 11 => RUNTIME_END
    case 12 => BUZZER_END
    case 13 => ALARM_END
    case 14 => SLOTS_END
    case 15 => CT_END
    case 16 => 1050
    case 17 => AP_END
    case 18 => 1152
    case 19 => TOTAL
  }

  function TextBlock(ts: seq<Text>, starts: seq<nat>): (b: Bytes)
    requires Offsets(starts) && |starts| == |ts| + 1
    ensures |b| == starts[|ts|]
  {
    JoinLength(Fields(ts, starts), starts);
    Join(Fields(ts, starts))
  }

  function SlotsBlock(ss: Slots): (b: Bytes)
    ensures |b| == 100
  {
    JoinLength(SlotBlocks(ss), SlotStarts());
    Join(SlotBlocks(ss))
  }

  /** The blocks in their stored order, padding and reserved bytes zero. */
  function Block(c: Config, declared: u32, i: nat): (b: Bytes)
    requires i < BLOCKS
    ensures |b| == Start(i + 1) - Start(i)
  {
    TablesAreOffsets();
    match i
    case 0 => HeadBlock(declared)
    case 1 => TextBlock(c.core.identity, ID_STARTS)
    case 2 => [Bool(c.core.dhcp), c.core.slaveId]
    case 3 => TextBlock(c.core.network, NET_STARTS)
    case 4 => [0, 0, 0]
    case 5 => Le32(c.core.publishMs)
    case 6 => MqttBlock(c.core.mqtt)
    case 7 => TextBlock(c.core.mqtt.texts, MQTT_STARTS)
    case 8 => ScalarBlock(c.core)
    case 9 => Le32(c.cycleMs)
    case 10 => RuntimeBlock(c.run)
    case 11 => [Bool(c.buzzerAlarm)]
    case 12 => AlarmBlock(c.alarm)
    case 13 => SlotsBlock(c.slots)
    case 14 => Le16(c.ct.rated) + Le16(c.ct.expected)
    case 15 => [c.pga, 0, 0, 0]
    case 16 => TextBlock([c.ap.ssid, c.ap.pass], AP_STARTS)
    case 17 => [c.slaveBaud, 0, 0, 0]
    case 18 => [c.roles.out0, c.roles.out1, c.roles.preset, 0]
  }

  function Blocks(c: Config, declared: u32): (bs: seq<Bytes>)
    ensures |bs| == BLOCKS && Fits(bs, Starts())
  {
    seq(BLOCKS, i requires 0 <= i < BLOCKS => Block(c, declared, i))
  }

  function Starts(): (st: seq<nat>)
    ensures |st| == BLOCKS + 1
  {
    seq(BLOCKS + 1, i requires 0 <= i <= BLOCKS => Start(i))
  }

  /** The record as firmware whose record ends at `declared` names its own size. */
  function EncodeAs(c: Config, declared: u32): (b: Bytes)
    ensures |b| == TOTAL
  {
    JoinLength(Blocks(c, declared), Starts());
    Join(Blocks(c, declared))
  }

  function Encode(c: Config): (b: Bytes)
    ensures |b| == TOTAL
  {
    EncodeAs(c, TOTAL)
  }

  lemma BlockStored(c: Config, declared: u32, i: nat)
    requires i < BLOCKS
    ensures Holds(EncodeAs(c, declared), Start(i), Block(c, declared, i))
  {
    JoinHolds(Blocks(c, declared), Starts(), i);
  }

  /* ---- reading ---- */

  /** The reader's buffer is as large as the newest record. */
  type Buffer = b: Bytes | |b| == TOTAL witness Zeros(TOTAL)

  predicate HeadOk(b: Buffer, n: nat) {
    && U32(b, 0) == MAGIC && U16(b, 4) == VERSION && U16(b, 6) == HEADER_SIZE && U32(b, 8) == n
    && V1_SIZE <= n <= TOTAL
  }

  predicate CoreOk(b: Buffer) {
    && b[300] <= 1 && b[301] <= 3 && b[129] <= 1 && b[894] <= 1 && b[895] <= 1 && b[896] <= 1
    && b[887] <= 1 && b[888] <= 1 && U32(b, 296) <= PUBLISH_MAX_MS
  }

  predicate AlarmOk(b: Buffer) {
    && b[917] <= 1 && b[918] <= 1 && b[919] <= 1 && b[920] <= 1 && b[921] <= 1
    && b[922] <= 2 && (b[923] == 50 || b[923] == 60)
  }

  predicate SlotOk(b: Buffer, i: nat)
    requires i < SLOTS
  {
    b[ALARM_END + 20 * i] <= 1 && b[ALARM_END + 20 * i + 1] <= 1 && b[ALARM_END + 20 * i + 2] < 2
  }

  predicate SlotsOk(b: Buffer) { forall i: nat :: i < SLOTS ==> SlotOk(b, i) }

  /** Only groups that lie wholly inside the stored `n` bytes are judged. */
  predicate TailOk(b: Buffer, n: nat) {
    && (n >= RUNTIME_END ==> b[909] <= 1)
    && (n >= SLAVE_BAUD_END ==> b[1148] <= 4)
    && (n >= BUZZER_END ==> b[916] <= 1)
    && (n >= ALARM_END ==> AlarmOk(b))
    && (n >= SLOTS_END ==> SlotsOk(b))
  }

  function OrOne(x: u16): u16 { if x == 0 then 1 else x }

  /** The transformer ratio snapped into 1000..6000 in steps of 100; a smaller one
      is a leftover and becomes the product default. */
  function SnapCt(x: u16): u16 {
    var y := if x < 1000 then KCONFIG_CT else if x > 6000 then 6000 else x;
    if y % 100 != 0 then (y + 50) / 100 * 100 else y
  }

  function CtRatio(raw: u16, hasCt: bool): u16 {
    SnapCt(if !hasCt && OrOne(raw) <= 1 then KCONFIG_CT else OrOne(raw))
  }

  function CoreOf(b: Buffer, n: nat, running: Text): Core {
    TablesAreOffsets();
    Core(TextsAt(b, 16, ID_STARTS)[1 := Cut(running, 24)], b[129] != 0, b[130], TextsAt(b, 131, NET_STARTS),
         U32(b, 296),
         Mqtt(b[300] != 0, b[301], U16(b, 302), U16(b, 304), TextsAt(b, 308, MQTT_STARTS)),
         Bus(b[884], b[885], b[886]), b[887], b[888], CtRatio(U16(b, 890), n >= CT_END), OrOne(U16(b, 892)),
         Panel(b[894] != 0, b[895] != 0, b[896] != 0, U32(b, 900)))
  }

  function RuntimeOf(b: Buffer, n: nat): Runtime {
    if n >= RUNTIME_END then Runtime(b[908], b[909] != 0, U32(b, 912)) else Runtime(0, false, 0)
  }

  function DefaultAlarm(freq: u8): Alarm {
    if freq != 0
    then Alarm(Enables(true, true, true, true, true), 0, 60, 180.0, 250.0, 10.0, 57.0, 63.0, 2, 2, 5.0)
    else Alarm(Enables(true, true, true, true, true), 0, 50, 180.0, 250.0, 10.0, 47.0, 53.0, 2, 2, 5.0)
  }

  function AlarmOf(b: Buffer, n: nat, freq: u8): Alarm {
    if n >= ALARM_END
    then
      Alarm(Enables(b[917] != 0, b[918] != 0, b[919] != 0, b[920] != 0, b[921] != 0), b[922], b[923],
            FromTenths(U16(b, 926)), FromTenths(U16(b, 928)), FromTenths(U16(b, 930)), FromTenths(U16(b, 932)),
            FromTenths(U16(b, 934)), U16(b, 936), U16(b, 938), FromTenths(U16(b, 940)))
    else DefaultAlarm(freq)
  }

  function SlotOf(b: Buffer, i: nat): Slot
    requires i < SLOTS
  {
    var o := ALARM_END + 20 * i;
    Slot(b[o] != 0, b[o + 1] != 0, b[o + 2], b[o + 3], TextAt(b, o + 4, NAME_LEN))
  }

  const EM07K_NAME: Text := [69, 77, 45, 48, 55, 75]
  const PM710_NAME: Text := [80, 77, 55, 49, 48]

  /** A record without a slot table describes one older device. */
  function OlderSlots(hasRuntime: bool, r: Runtime, slaveId: u8): Slots {
    if hasRuntime && (slaveId != 0 || r.busOn)
    then NO_SLOTS[0 := Slot(true, r.busOn, r.device, if slaveId != 0 then slaveId else 1,
                            if r.device == 1 then EM07K_NAME else PM710_NAME)]
    else NO_SLOTS
  }

  function SlotsOf(b: Buffer, n: nat): Slots {
    if n >= SLOTS_END
    then seq(SLOTS, i requires 0 <= i < SLOTS => SlotOf(b, i))
    else OlderSlots(n >= RUNTIME_END, RuntimeOf(b, n), b[130])
  }

  /** The device type register mirrors the first used slot. */
  function Mirrored(r: Runtime, ss: Slots): Runtime {
    if ss[0].used then r.(device := ss[0].kind)
    else if ss[1].used then r.(device := ss[1].kind)
    else if ss[2].used then r.(device := ss[2].kind)
    else if ss[3].used then r.(device := ss[3].kind)
    else if ss[4].used then r.(device := ss[4].kind)
    else r
  }

  function PgaFrom(x: u8): u8 { if x == 1 || x == 2 || x == 4 then x else KCONFIG_PGA }

  const DEFAULT_SSID: Text := [80, 111, 119, 101, 114, 77, 101, 116, 101, 114, 45, 65, 80]
  const DEFAULT_PASS: Text := [49, 50, 51, 52, 53, 54, 55, 56]

  function Named(ap: Ap): Ap { if ap.ssid == [] then ap.(ssid := DEFAULT_SSID) else ap }

  function RolesFrom(out0: u8, out1: u8, preset: u8): Roles {
    Roles(if out0 > 1 then 1 else out0, if out1 > 1 then 1 else out1, if preset <= 3 then preset else 0)
  }

  function ConfigOf(b: Buffer, n: nat, running: Text): Config {
    Config(
      CoreOf(b, n, running), U32(b, V1_SIZE), Mirrored(RuntimeOf(b, n), SlotsOf(b, n)),
      if n >= BUZZER_END then b[916] != 0 else b[895] != 0,
      AlarmOf(b, n, b[887]), SlotsOf(b, n),
      if n >= CT_END then Ct(OrOne(U16(b, 1042)), OrOne(U16(b, 1044))) else Ct(KCONFIG_RATED, KCONFIG_EXPECTED),
      if n >= PGA_END then PgaFrom(b[1046]) else 0,
      if n >= AP_END then Named(Ap(TextAt(b, 1050, 33), TextAt(b, 1083, 65))) else Ap(DEFAULT_SSID, DEFAULT_PASS),
      if n >= SLAVE_BAUD_END then b[1148] else b[884],
      if n >= ROLES_END then RolesFrom(b[1152], b[1153], b[1154]) else Roles(1, 1, 0),
      0)
  }

  /** Decode what a buffer holds of a record stored with `n` bytes. */
  function Decode(b: Buffer, n: nat, running: Text): Decoded {
    if !HeadOk(b, n) then Err(InvalidVersion)
    else if !CoreOk(b) || !TailOk(b, n) then Err(InvalidArg)
    else Ok(ConfigOf(b, n, running))
  }

  /** Reading the store: the buffer is cleared, then the stored bytes copied in. */
  function Loaded(stored: Bytes): Buffer
    requires |stored| <= TOTAL
  {
    stored + Zeros(TOTAL - |stored|)
  }

  /* ---- the decoder and the end of the stored bytes ---- */

  ghost predicate SameUpTo(b: Buffer, d: Buffer, n: nat)
    requires n <= TOTAL
  {
    forall k :: 0 <= k < n ==> b[k] == d[k]
  }

  lemma SameText(b: Buffer, d: Buffer, n: nat, o: nat, w: nat)
    requires n <= TOTAL && SameUpTo(b, d, n) && w > 0 && o + w <= n
    ensures TextAt(b, o, w) == TextAt(d, o, w)
  {
    assert b[o..o + w] == d[o..o + w];
  }

  lemma SameTexts(b: Buffer, d: Buffer, n: nat, o: nat, starts: seq<nat>)
    requires n <= TOTAL && SameUpTo(b, d, n) && Offsets(starts) && o + starts[|starts| - 1] <= n
    requires forall i :: 0 <= i < |starts| ==> starts[i] <= starts[|starts| - 1]
    ensures TextsAt(b, o, starts) == TextsAt(d, o, starts)
  {
    forall i: nat | i < |starts| - 1
      ensures FieldAt(b, o, starts, i) == FieldAt(d, o, starts, i)
    {
      SameText(b, d, n, o + starts[i], Width(starts, i));
    }
  }

  lemma SameCore(b: Buffer, d: Buffer, n: nat, running: Text)
    requires V1_SIZE <= n <= TOTAL && SameUpTo(b, d, n)
    ensures CoreOf(b, n, running) == CoreOf(d, n, running)
    ensures (HeadOk(b, n) <==> HeadOk(d, n)) && (CoreOk(b) <==> CoreOk(d))
  {
    TablesAreOffsets();
    SameTexts(b, d, n, 16, ID_STARTS);
    SameTexts(b, d, n, 131, NET_STARTS);
    SameTexts(b, d, n, 308, MQTT_STARTS);
  }

  lemma SameSlots(b: Buffer, d: Buffer, n: nat)
    requires V1_SIZE <= n <= TOTAL && SameUpTo(b, d, n)
    ensures SlotsOf(b, n) == SlotsOf(d, n) && (n >= SLOTS_END ==> (SlotsOk(b) <==> SlotsOk(d)))
  {
    if n >= SLOTS_END {
      forall i: nat | i < SLOTS
        ensures SlotOf(b, i) == SlotOf(d, i) && (SlotOk(b, i) <==> SlotOk(d, i))
      {
        SameText(b, d, n, ALARM_END + 20 * i + 4, NAME_LEN);
      }
    }
  }

  lemma SameAccess(b: Buffer, d: Buffer, n: nat)
    requires V1_SIZE <= n <= TOTAL && SameUpTo(b, d, n) && n >= AP_END
    ensures TextAt(b, 1050, 33) == TextAt(d, 1050, 33) && TextAt(b, 1083, 65) == TextAt(d, 1083, 65)
  {
    SameText(b, d, n, 1050, 33);
    SameText(b, d, n, 1083, 65);
  }

  lemma SameTail(b: Buffer, d: Buffer, n: nat, freq: u8)
    requires V1_SIZE <= n <= TOTAL && SameUpTo(b, d, n)
    ensures RuntimeOf(b, n) == RuntimeOf(d, n) && AlarmOf(b, n, freq) == AlarmOf(d, n, freq)
    ensures TailOk(b, n) <==> TailOk(d, n)
  {
    SameSlots(b, d, n);
  }

  lemma SameConfig(b: Buffer, d: Buffer, n: nat, running: Text)
    requires V1_SIZE <= n <= TOTAL && SameUpTo(b, d, n)
    ensures ConfigOf(b, n, running) == ConfigOf(d, n, running).(cycleMs := U32(b, V1_SIZE))
  {
    SameCore(b, d, n, running);
    SameSlots(b, d, n);
    SameTail(b, d, n, b[887]);
    if n >= AP_END { SameAccess(b, d, n); }
  }

  /** Two buffers that agree on the stored bytes are both refused or decode to the
      same configuration up to the display cycle time. */
  lemma DecodesAlike(b: Buffer, d: Buffer, n: nat, running: Text)
    requires V1_SIZE <= n <= TOTAL && SameUpTo(b, d, n)
    ensures
      Decode(d, n, running)
      == match Decode(b, n, running)
         case Err(e) => Err(e)
         case Ok(c) => Ok(c.(cycleMs := U32(d, V1_SIZE)))
  {
    SameCore(b, d, n, running);
    SameTail(b, d, n, b[887]);
    SameConfig(d, b, n, running);
  }

  /** A record of `n` bytes decodes from those bytes alone, whatever lies behind
      them in the buffer, as soon as `n` covers the display cycle time, the one late
      field that is read without a presence check. */
  lemma DecodeReadsOnlyStored(b: Buffer, d: Buffer, n: nat, running: Text)
    requires CYCLE_END <= n <= TOTAL && SameUpTo(b, d, n)
    ensures Decode(b, n, running) == Decode(d, n, running)
  {
    DecodesAlike(b, d, n, running);
  }

  /** The bound is exact: a record that ends before that field decodes to a cycle
      time taken from bytes nobody stored, so only the cleared buffer fixes it. */
  lemma CycleTimeReadsPastShortRecord(b: Buffer, n: nat, running: Text)
    requires n < CYCLE_END && Decode(b, n, running).Ok?
    ensures exists d: Buffer :: SameUpTo(b, d, n) && Decode(d, n, running) != Decode(b, n, running)
  {
    var x: u8 := if b[907] == 0 then 1 else 0;
    var d: Buffer := b[907 := x];
    assert SameUpTo(b, d, n);
    SameCore(b, d, V1_SIZE, running);
    assert Decode(d, n, running) == Ok(ConfigOf(d, n, running));
    assert U32(b, V1_SIZE) != U32(d, V1_SIZE) by {
      assert High16(U32(b, V1_SIZE)) == U16(b, 906) && High16(U32(d, V1_SIZE)) == U16(d, 906);
    }
    assert ConfigOf(b, n, running).cycleMs != ConfigOf(d, n, running).cycleMs;
  }

  /* ---- the canonical form ---- */

  function Quantised(v: Level): Level { FromTenths(Tenths(v)) }

  function CanonCore(c: Core, n: nat, running: Text): Core {
    TablesAreOffsets();
    c.(identity := Cuts(c.identity, ID_STARTS)[1 := Cut(running, 24)],
       network := Cuts(c.network, NET_STARTS),
       mqtt := c.mqtt.(texts := Cuts(c.mqtt.texts, MQTT_STARTS)),
       ctRatio := CtRatio(c.ctRatio, n >= CT_END),
       ptRatio := OrOne(c.ptRatio))
  }

  function CanonAlarm(a: Alarm): Alarm {
    a.(voltLow := Quantised(a.voltLow), voltHigh := Quantised(a.voltHigh), amps := Quantised(a.amps),
       hzLow := Quantised(a.hzLow), hzHigh := Quantised(a.hzHigh), hysteresis := Quantised(a.hysteresis))
  }

  function CanonSlots(ss: Slots): Slots {
    seq(SLOTS, i requires 0 <= i < SLOTS => ss[i].(name := Cut(ss[i].name, NAME_LEN)))
  }

  /** The display cycle time when only its bytes below `n` were stored. */
  function CycleAt(v: u32, n: nat): u32 {
    if n >= CYCLE_END then v
    else if n == V1_SIZE + 3 then v % 0x100_0000
    else if n == V1_SIZE + 2 then v % 0x1_0000
    else if n == V1_SIZE + 1 then v % 0x100
    else 0
  }

  /** What a reader gets back of `c` when `n` bytes of its record were stored: each
      group wholly inside the prefix in canonical form, each missing group its
      documented fallback, and of the display cycle time the bytes that were there. */
  function CanonAt(c: Config, n: nat, running: Text): Config {
    var run := if n >= RUNTIME_END then c.run else Runtime(0, false, 0);
    var slots := if n >= SLOTS_END then CanonSlots(c.slots) else OlderSlots(n >= RUNTIME_END, run, c.core.slaveId);
    Config(
      CanonCore(c.core, n, running), CycleAt(c.cycleMs, n), Mirrored(run, slots),
      if n >= BUZZER_END then c.buzzerAlarm else c.core.panel.buzzer,
      if n >= ALARM_END then CanonAlarm(c.alarm) else DefaultAlarm(c.core.freq),
      slots,
      if n >= CT_END then Ct(OrOne(c.ct.rated), OrOne(c.ct.expected)) else Ct(KCONFIG_RATED, KCONFIG_EXPECTED),
      if n >= PGA_END then PgaFrom(c.pga) else 0,
      if n >= AP_END then Named(Ap(Cut(c.ap.ssid, 33), Cut(c.ap.pass, 65))) else Ap(DEFAULT_SSID, DEFAULT_PASS),
      if n >= SLAVE_BAUD_END then c.slaveBaud else c.core.bus.baud,
      if n >= ROLES_END then RolesFrom(c.roles.out0, c.roles.out1, c.roles.preset) else Roles(1, 1, 0),
      0)
  }

  function Canon(c: Config, running: Text): Config { CanonAt(c, TOTAL, running) }

  predicate StorableCore(c: Core) {
    c.mqtt.tls <= 3 && c.freq <= 1 && c.wiring <= 1 && c.publishMs <= PUBLISH_MAX_MS
  }

  predicate StorableAlarm(a: Alarm) { a.reference <= 2 && (a.nominalHz == 50 || a.nominalHz == 60) }

  predicate StorableSlots(ss: Slots) { forall i: nat :: i < SLOTS ==> ss[i].kind < 2 }

  /** Exactly the configurations whose record the decoder accepts. */
  predicate StorableAt(c: Config, n: nat) {
    && StorableCore(c.core)
    && (n >= ALARM_END ==> StorableAlarm(c.alarm))
    && (n >= SLOTS_END ==> StorableSlots(c.slots))
    && (n >= SLAVE_BAUD_END ==> c.slaveBaud <= 4)
  }

  /* ---- reading each group of a stored record ---- */

  lemma ReadHead(c: Config, n: nat)
    requires V1_SIZE <= n <= TOTAL
    ensures HeadOk(EncodeAs(c, n), n)
  {
    var b := EncodeAs(c, n);
    BlockStored(c, n, 0);
    var h := HeadBlock(n);
    assert Holds(h, 0, Le32(MAGIC)) && Holds(h, 4, Le16(VERSION));
    assert Holds(h, 6, Le16(HEADER_SIZE)) && Holds(h, 8, Le32(n));
    HoldsInside(b, 0, h, 0, Le32(MAGIC));
    HoldsInside(b, 0, h, 4, Le16(VERSION));
    HoldsInside(b, 0, h, 6, Le16(HEADER_SIZE));
    HoldsInside(b, 0, h, 8, Le32(n));
    Read32(b, 0, MAGIC);
    Read16(b, 4, VERSION);
    Read16(b, 6, HEADER_SIZE);
    Read32(b, 8, n);
  }

  lemma ReadIdentity(c: Config, n: u32)
    ensures
      var b := EncodeAs(c, n);
      && Offsets(ID_STARTS) && TextsAt(b, 16, ID_STARTS) == Cuts(c.core.identity, ID_STARTS)
      && b[129] == Bool(c.core.dhcp) && b[130] == c.core.slaveId
  {
    TablesAreOffsets();
    var b := EncodeAs(c, n);
    BlockStored(c, n, 1);
    ReadTexts(b, 16, c.core.identity, ID_STARTS);
    BlockStored(c, n, 2);
    HoldsAt(b, 129, Block(c, n, 2), 0);
    HoldsAt(b, 129, Block(c, n, 2), 1);
  }

  lemma ReadNetwork(c: Config, n: u32)
    ensures
      var b := EncodeAs(c, n);
      && Offsets(NET_STARTS) && TextsAt(b, 131, NET_STARTS) == Cuts(c.core.network, NET_STARTS)
      && U32(b, 296) == c.core.publishMs
  {
    TablesAreOffsets();
    var b := EncodeAs(c, n);
    BlockStored(c, n, 3);
    ReadTexts(b, 131, c.core.network, NET_STARTS);
    BlockStored(c, n, 5);
    Read32(b, 296, c.core.publishMs);
  }

  lemma ReadMqtt(c: Config, n: u32)
    ensures
      var (b, m) := (EncodeAs(c, n), c.core.mqtt);
      && Offsets(MQTT_STARTS) && TextsAt(b, 308, MQTT_STARTS) == Cuts(m.texts, MQTT_STARTS)
      && b[300] == Bool(m.enable) && b[301] == m.tls && U16(b, 302) == m.port && U16(b, 304) == m.keepaliveS
  {
    TablesAreOffsets();
    var b, m := EncodeAs(c, n), c.core.mqtt;
    BlockStored(c, n, 7);
    ReadTexts(b, 308, m.texts, MQTT_STARTS);
    BlockStored(c, n, 6);
    var x := MqttBlock(m);
    HoldsAt(b, 300, x, 0);
    HoldsAt(b, 300, x, 1);
    HoldsAt(b, 300, x, 2);
    HoldsAt(b, 300, x, 3);
    HoldsAt(b, 300, x, 4);
    HoldsAt(b, 300, x, 5);
    WordParts(m.port);
    WordParts(m.keepaliveS);
  }

  lemma ReadScalars(c: Config, n: u32)
    ensures
      var (b, k) := (EncodeAs(c, n), c.core);
      && b[884] == k.bus.baud && b[885] == k.bus.parity && b[886] == k.bus.stopBits
      && b[887] == k.freq && b[888] == k.wiring
      && U16(b, 890) == k.ctRatio && U16(b, 892) == k.ptRatio
      && b[894] == Bool(k.panel.backlight) && b[895] == Bool(k.panel.buzzer) && b[896] == Bool(k.panel.autocycle)
      && U32(b, 900) == k.panel.sleepS
  {
    var b, k := EncodeAs(c, n), c.core;
    BlockStored(c, n, 8);
    var x := ScalarBlock(k);
    forall i: nat | i < 16
      ensures b[884 + i] == x[i]
    {
      HoldsAt(b, 884, x, i);
    }
    assert Holds(x, 16, Le32(k.panel.sleepS));
    HoldsInside(b, 884, x, 16, Le32(k.panel.sleepS));
    Read32(b, 900, k.panel.sleepS);
    WordParts(k.ctRatio);
    WordParts(k.ptRatio);
    assert b[884 + 0] == x[0] && b[884 + 1] == x[1] && b[884 + 2] == x[2] && b[884 + 3] == x[3] && b[884 + 4] == x[4];
    assert b[884 + 6] == x[6] && b[884 + 7] == x[7] && b[884 + 8] == x[8] && b[884 + 9] == x[9];
    assert b[884 + 10] == x[10] && b[884 + 11] == x[11] && b[884 + 12] == x[12];
  }

  lemma ReadRuntime(c: Config, n: u32)
    ensures
      var b := EncodeAs(c, n);
      && U32(b, V1_SIZE) == c.cycleMs
      && b[908] == c.run.device && b[909] == Bool(c.run.busOn) && U32(b, 912) == c.run.pollMs
      && b[916] == Bool(c.buzzerAlarm)
  {
    var b := EncodeAs(c, n);
    BlockStored(c, n, 9);
    Read32(b, V1_SIZE, c.cycleMs);
    BlockStored(c, n, 10);
    var x := RuntimeBlock(c.run);
    HoldsAt(b, CYCLE_END, x, 0);
    HoldsAt(b, CYCLE_END, x, 1);
    assert Holds(x, 4, Le32(c.run.pollMs));
    HoldsInside(b, CYCLE_END, x, 4, Le32(c.run.pollMs));
    Read32(b, 912, c.run.pollMs);
    BlockStored(c, n, 11);
    HoldsAt(b, RUNTIME_END, Block(c, n, 11), 0);
  }

  lemma ReadLevels(b: Bytes, o: nat, ws: seq<u16>, i: nat)
    requires Holds(b, o, LevelBlock(ws)) && i < |ws|
    ensures o + 2 * i + 2 <= |b| && U16(b, o + 2 * i) == ws[i]
  {
    HoldsAt(b, o, LevelBlock(ws), 2 * i);
    HoldsAt(b, o, LevelBlock(ws), 2 * i + 1);
    assert (2 * i) / 2 == i && (2 * i + 1) / 2 == i && (2 * i) % 2 == 0 && (2 * i + 1) % 2 == 1;
    WordParts(ws[i]);
  }

  function Levels(a: Alarm): seq<u16> {
    [Tenths(a.voltLow), Tenths(a.voltHigh), Tenths(a.amps), Tenths(a.hzLow), Tenths(a.hzHigh), a.triggerS, a.clearS,
     Tenths(a.hysteresis)]
  }

  lemma ReadAlarmFlags(c: Config, n: u32)
    ensures
      var (b, a) := (EncodeAs(c, n), c.alarm);
      && b[917] == Bool(a.on.low) && b[918] == Bool(a.on.high)
      && b[919] == Bool(a.on.current) && b[920] == Bool(a.on.loss)
      && b[921] == Bool(a.on.freq) && b[922] == a.reference && b[923] == a.nominalHz
      && Holds(b, 926, LevelBlock(Levels(a)))
  {
    var b := EncodeAs(c, n);
    BlockStored(c, n, 12);
    var x := AlarmBlock(c.alarm);
    HoldsAt(b, BUZZER_END, x, 0);
    HoldsAt(b, BUZZER_END, x, 1);
    HoldsAt(b, BUZZER_END, x, 2);
    HoldsAt(b, BUZZER_END, x, 3);
    HoldsAt(b, BUZZER_END, x, 4);
    HoldsAt(b, BUZZER_END, x, 5);
    HoldsAt(b, BUZZER_END, x, 6);
    assert Holds(x, 9, LevelBlock(Levels(c.alarm)));
    HoldsInside(b, BUZZER_END, x, 9, LevelBlock(Levels(c.alarm)));
  }

  lemma ReadAlarm(c: Config, n: u32)
    requires n >= ALARM_END
    ensures AlarmOf(EncodeAs(c, n), n, c.core.freq) == CanonAlarm(c.alarm)
    ensures AlarmOk(EncodeAs(c, n)) <==> StorableAlarm(c.alarm)
  {
    var b, ws := EncodeAs(c, n), Levels(c.alarm);
    ReadAlarmFlags(c, n);
    ReadLevels(b, 926, ws, 0);
    ReadLevels(b, 926, ws, 1);
    ReadLevels(b, 926, ws, 2);
    ReadLevels(b, 926, ws, 3);
    ReadLevels(b, 926, ws, 4);
    ReadLevels(b, 926, ws, 5);
    ReadLevels(b, 926, ws, 6);
    ReadLevels(b, 926, ws, 7);
  }

  lemma ReadSlot(c: Config, n: u32, i: nat)
    requires i < SLOTS
    ensures SlotOf(EncodeAs(c, n), i) == c.slots[i].(name := Cut(c.slots[i].name, NAME_LEN))
    ensures SlotOk(EncodeAs(c, n), i) <==> c.slots[i].kind < 2
  {
    var b, x := EncodeAs(c, n), SlotBlock(c.slots[i]);
    BlockStored(c, n, 13);
    JoinHolds(SlotBlocks(c.slots), SlotStarts(), i);
    HoldsInside(b, ALARM_END, SlotsBlock(c.slots), 20 * i, x);
    var o := ALARM_END + 20 * i;
    HoldsAt(b, o, x, 0);
    HoldsAt(b, o, x, 1);
    HoldsAt(b, o, x, 2);
    HoldsAt(b, o, x, 3);
    assert Holds(x, 4, Field(c.slots[i].name, NAME_LEN));
    HoldsInside(b, o, x, 4, Field(c.slots[i].name, NAME_LEN));
    ReadText(b, o + 4, c.slots[i].name, NAME_LEN);
  }

  lemma ReadSlots(c: Config, n: u32)
    requires n >= SLOTS_END
    ensures SlotsOf(EncodeAs(c, n), n) == CanonSlots(c.slots)
    ensures SlotsOk(EncodeAs(c, n)) <==> StorableSlots(c.slots)
  {
    forall i: nat | i < SLOTS { ReadSlot(c, n, i); }
  }

  lemma ReadCt(c: Config, n: u32)
    ensures
      var b := EncodeAs(c, n);
      U16(b, 1042) == c.ct.rated && U16(b, 1044) == c.ct.expected && b[1046] == c.pga
  {
    var b := EncodeAs(c, n);
    BlockStored(c, n, 14);
    var x := Block(c, n, 14);
    assert Holds(x, 0, Le16(c.ct.rated)) && Holds(x, 2, Le16(c.ct.expected));
    HoldsInside(b, SLOTS_END, x, 0, Le16(c.ct.rated));
    HoldsInside(b, SLOTS_END, x, 2, Le16(c.ct.expected));
    Read16(b, 1042, c.ct.rated);
    Read16(b, 1044, c.ct.expected);
    BlockStored(c, n, 15);
    HoldsAt(b, CT_END, Block(c, n, 15), 0);
  }

  lemma ReadAccess(c: Config, n: u32)
    ensures
      var b := EncodeAs(c, n);
      TextAt(b, 1050, 33) == Cut(c.ap.ssid, 33) && TextAt(b, 1083, 65) == Cut(c.ap.pass, 65)
  {
    TablesAreOffsets();
    var b, ts: seq<Text> := EncodeAs(c, n), [c.ap.ssid, c.ap.pass];
    BlockStored(c, n, 16);
    ReadField(b, 1050, ts, AP_STARTS, 0);
    ReadField(b, 1050, ts, AP_STARTS, 1);
  }

  lemma ReadLast(c: Config, n: u32)
    ensures
      var b := EncodeAs(c, n);
      b[1148] == c.slaveBaud && b[1152] == c.roles.out0 && b[1153] == c.roles.out1 && b[1154] == c.roles.preset
  {
    var b := EncodeAs(c, n);
    BlockStored(c, n, 17);
    HoldsAt(b, AP_END, Block(c, n, 17), 0);
    BlockStored(c, n, 18);
    HoldsAt(b, 1152, Block(c, n, 18), 0);
    HoldsAt(b, 1152, Block(c, n, 18), 1);
    HoldsAt(b, 1152, Block(c, n, 18), 2);
  }

  lemma ReadCore(c: Config, n: u32, running: Text)
    ensures CoreOf(EncodeAs(c, n), n, running) == CanonCore(c.core, n, running)
    ensures CoreOk(EncodeAs(c, n)) <==> StorableCore(c.core)
  {
    ReadIdentity(c, n);
    ReadNetwork(c, n);
    ReadMqtt(c, n);
    ReadScalars(c, n);
  }

  lemma ReadTailOk(c: Config, n: u32)
    ensures TailOk(EncodeAs(c, n), n) <==>
      && (n >= ALARM_END ==> StorableAlarm(c.alarm))
      && (n >= SLOTS_END ==> StorableSlots(c.slots))
      && (n >= SLAVE_BAUD_END ==> c.slaveBaud <= 4)
  {
    ReadRuntime(c, n);
    ReadLast(c, n);
    if n >= ALARM_END { ReadAlarm(c, n); }
    if n >= SLOTS_END { ReadSlots(c, n); }
  }

  lemma ReadConfig(c: Config, n: u32, running: Text)
    ensures ConfigOf(EncodeAs(c, n), n, running) == CanonAt(c, n, running).(cycleMs := c.cycleMs)
  {
    ReadCore(c, n, running);
    ReadIdentity(c, n);
    ReadScalars(c, n);
    ReadRuntime(c, n);
    ReadCt(c, n);
    ReadAccess(c, n);
    ReadLast(c, n);
    if n >= ALARM_END { ReadAlarm(c, n); }
    if n >= SLOTS_END { ReadSlots(c, n); }
  }

  lemma LoadedAgrees(b: Buffer, n: nat)
    requires n <= TOTAL
    ensures SameUpTo(Loaded(b[..n]), b, n)
  {
  }

  lemma Remainder(v: int, h: int, m: int, r: int)
    requires m > 0 && 0 <= r < m && v == h * m + r
    ensures v % m == r
  {
    assert v / m * m + v % m == v;
    DivisionIsUnique(v / m, h, m, v % m, r);
  }

  lemma CutBytes(v: int, b0: u8, b1: u8, b2: u8, b3: u8)
    requires v == Long(Word(b0, b1), Word(b2, b3))
    ensures v % 0x100 == b0 && v % 0x1_0000 == Word(b0, b1) && v % 0x100_0000 == Long(Word(b0, b1), Word(b2, 0))
  {
    Remainder(v, b1 + 0x100 * b2 + 0x1_0000 * b3, 0x100, b0);
    Remainder(v, b2 + 0x100 * b3, 0x1_0000, Word(b0, b1));
    Remainder(v, b3, 0x100_0000, Long(Word(b0, b1), b2));
  }

  lemma CutLong(v: u32, n: nat, b0: u8, b1: u8, b2: u8, b3: u8)
    requires V1_SIZE <= n && v == Long(Word(b0, b1), Word(b2, b3))
    ensures
      CycleAt(v, n)
      == Long(Word(if n > V1_SIZE then b0 else 0, if n > V1_SIZE + 1 then b1 else 0),
              Word(if n > V1_SIZE + 2 then b2 else 0, if n > V1_SIZE + 3 then b3 else 0))
  {
    CutBytes(v, b0, b1, b2, b3);
  }

  lemma LongParts(v: u32)
    ensures Long(Low16(v), High16(v)) == v
  {
  }

  lemma LoadedByte(b: Buffer, n: nat, k: nat)
    requires n <= TOTAL && k < TOTAL
    ensures Loaded(b[..n])[k] == if k < n then b[k] else 0
  {
  }

  /** The cleared buffer completes a cut cycle time with zeros. */
  lemma LoadedCycle(c: Config, n: nat)
    requires V1_SIZE <= n <= TOTAL
    ensures U32(Loaded(EncodeAs(c, n)[..n]), V1_SIZE) == CycleAt(c.cycleMs, n)
  {
    var b: Buffer := EncodeAs(c, n);
    ReadRuntime(c, n);
    LoadedByte(b, n, V1_SIZE);
    LoadedByte(b, n, V1_SIZE + 1);
    LoadedByte(b, n, V1_SIZE + 2);
    LoadedByte(b, n, V1_SIZE + 3);
    CutLong(c.cycleMs, n, b[V1_SIZE], b[V1_SIZE + 1], b[V1_SIZE + 2], b[V1_SIZE + 3]);
  }

  /** Firmware of any age: a record cut to the `n` bytes its writer knew decodes to
      the canonical form of the groups it holds and to the fallbacks of the others,
      and is refused exactly when a stored group carries a value out of range. A
      record that ends inside the display cycle time, or before it as the first
      firmware's did, brings back the stored low bytes of it. */
  lemma DecodeOfStored(c: Config, n: nat, running: Text)
    requires V1_SIZE <= n <= TOTAL
    ensures
      Decode(Loaded(EncodeAs(c, n)[..n]), n, running)
      == if StorableAt(c, n) then Ok(CanonAt(c, n, running)) else Err(InvalidArg)
  {
    var b: Buffer := EncodeAs(c, n);
    LoadedAgrees(b, n);
    DecodesAlike(b, Loaded(b[..n]), n, running);
    LoadedCycle(c, n);
    ReadHead(c, n);
    ReadCore(c, n, running);
    ReadTailOk(c, n);
    ReadConfig(c, n, running);
  }

  /** What an old record decodes to can be stored again exactly if what the decoder made
      up from older fields is in range: the link speed taken over from the bus, and the
      type of the one device that stands for a missing slot table. */
  lemma RestoredIsStorable(c: Config, n: nat, running: Text)
    requires V1_SIZE <= n <= TOTAL && StorableAt(c, n)
    ensures
      StorableAt(CanonAt(c, n, running), TOTAL) <==>
        && (n >= SLAVE_BAUD_END || c.core.bus.baud <= 4)
        && (n >= SLOTS_END || n < RUNTIME_END || (c.core.slaveId == 0 && !c.run.busOn) || c.run.device < 2)
  {
    var slots := CanonAt(c, n, running).slots;
    if SLOTS_END <= n {
      assert forall i: nat :: i < SLOTS ==> slots[i].kind == c.slots[i].kind;
    } else {
      var run := if n >= RUNTIME_END then c.run else Runtime(0, false, 0);
      assert slots == OlderSlots(n >= RUNTIME_END, run, c.core.slaveId);
      OlderSlotsStorable(n >= RUNTIME_END, run, c.core.slaveId);
    }
  }

  lemma OlderSlotsStorable(hasRuntime: bool, r: Runtime, slaveId: u8)
    ensures StorableSlots(OlderSlots(hasRuntime, r, slaveId)) <==>
              !hasRuntime || (slaveId == 0 && !r.busOn) || r.device < 2
  {
    var ss := OlderSlots(hasRuntime, r, slaveId);
    assert forall i: nat :: 0 < i < SLOTS ==> ss[i].kind == 0;
    assert StorableSlots(ss) <==> ss[0].kind < 2;
  }

  /** Otherwise saving what was loaded leaves a record that cannot be loaded. */
  lemma ResavedOldRecordSpoils(c: Config, running: Text)
    requires StorableAt(c, V1_SIZE) && c.core.bus.baud > 4
    ensures
      && Decode(Loaded(EncodeAs(c, V1_SIZE)[..V1_SIZE]), V1_SIZE, running) == Ok(CanonAt(c, V1_SIZE, running))
      && Decode(Loaded(Encode(CanonAt(c, V1_SIZE, running))), TOTAL, running) == Err(InvalidArg)
  {
    DecodeOfStored(c, V1_SIZE, running);
    RestoredIsStorable(c, V1_SIZE, running);
    DecodeOfEncode(CanonAt(c, V1_SIZE, running), running);
  }

  /** Decoding what was just encoded is the identity up to the canonical form, for
      exactly the storable configurations. */
  lemma DecodeOfEncode(c: Config, running: Text)
    ensures
      Decode(Loaded(Encode(c)), TOTAL, running)
      == if StorableAt(c, TOTAL) then Ok(Canon(c, running)) else Err(InvalidArg)
  {
    assert Encode(c)[..TOTAL] == Encode(c);
    DecodeOfStored(c, TOTAL, running);
  }

  /** A longer prefix only adds groups: what a shorter one already held in full
      decodes the same from the longer. */
  lemma LongerPrefixKeepsGroups(c: Config, n: nat, m: nat, running: Text)
    requires V1_SIZE <= n <= m <= TOTAL
    ensures
      var (x, y) := (CanonAt(c, n, running), CanonAt(c, m, running));
      && x.cycleMs == CycleAt(y.cycleMs, n) && (n >= CYCLE_END ==> x.cycleMs == y.cycleMs)
      && x.core.(ctRatio := 0) == y.core.(ctRatio := 0)
      && (n >= RUNTIME_END ==> x.run.(device := 0) == y.run.(device := 0))
      && (n >= BUZZER_END ==> x.buzzerAlarm == y.buzzerAlarm)
      && (n >= ALARM_END ==> x.alarm == y.alarm)
      && (n >= SLOTS_END ==> x.slots == y.slots && x.run == y.run)
      && (n >= CT_END ==> x.ct == y.ct && x.core == y.core)
      && (n >= PGA_END ==> x.pga == y.pga)
      && (n >= AP_END ==> x.ap == y.ap)
      && (n >= SLAVE_BAUD_END ==> x.slaveBaud == y.slaveBaud)
      && (n >= ROLES_END ==> x.roles == y.roles)
    ensures StorableAt(c, m) ==> StorableAt(c, n)
  {
    CycleCutTwice(c.cycleMs, n, m);
  }

  lemma CutAgain(v: u32)
    ensures v % 0x100_0000 % 0x1_0000 == v % 0x1_0000 && v % 0x100_0000 % 0x100 == v % 0x100
    ensures v % 0x1_0000 % 0x100 == v % 0x100
  {
    WordParts(Low16(v));
    WordParts(High16(v));
    LongParts(v);
    var b0, b1, b2 := Lo(Low16(v)), Hi(Low16(v)), Lo(High16(v));
    CutBytes(v, b0, b1, b2, Hi(High16(v)));
    CutBytes(Long(Word(b0, b1), Word(b2, 0)), b0, b1, b2, 0);
    CutBytes(Long(Word(b0, b1), Word(0, 0)), b0, b1, 0, 0);
  }

  lemma CycleCutTwice(v: u32, n: nat, m: nat)
    requires n <= m
    ensures CycleAt(CycleAt(v, m), n) == CycleAt(v, n)
  {
    CutAgain(v);
    if n == m { CutSame(v); }
  }

  lemma CutSame(v: u32)
    ensures v % 0x100_0000 % 0x100_0000 == v % 0x100_0000 && v % 0x1_0000 % 0x1_0000 == v % 0x1_0000
    ensures v % 0x100 % 0x100 == v % 0x100
  {
  }

  /* ---- the canonical form is a fixed point ---- */

  lemma CutTwice(t: Text, w: nat)
    requires w > 0
    ensures Cut(Cut(t, w), w) == Cut(t, w)
  {
  }

  lemma CutsTwice(ts: seq<Text>, starts: seq<nat>)
    requires Offsets(starts) && |starts| == |ts| + 1
    ensures Cuts(Cuts(ts, starts), starts) == Cuts(ts, starts)
  {
    forall i: nat | i < |ts| { CutTwice(ts[i], Width(starts, i)); }
  }

  /** Storing a level moves it by at most half a tenth, and storing it again moves
      it no further. */
  lemma QuantisedIsClose(v: Level)
    ensures v - 0.05 <= Quantised(v) <= v + 0.05
    ensures Tenths(Quantised(v)) == Tenths(v) && Quantised(Quantised(v)) == Quantised(v)
  {
    var t := Tenths(v);
    assert t as real <= v * 10.0 + 0.5 < t as real + 1.0;
    assert FromTenths(t) * 10.0 == t as real;
  }

  lemma SnapCtTwice(x: u16)
    ensures 1000 <= SnapCt(x) <= 6000 && SnapCt(x) % 100 == 0 && SnapCt(SnapCt(x)) == SnapCt(x)
    ensures 1000 <= x <= 6000 ==> Abs(x - SnapCt(x)) <= 50
  {
  }

  lemma CanonAlarmTwice(a: Alarm)
    ensures CanonAlarm(CanonAlarm(a)) == CanonAlarm(a)
  {
    QuantisedIsClose(a.voltLow);
    QuantisedIsClose(a.voltHigh);
    QuantisedIsClose(a.amps);
    QuantisedIsClose(a.hzLow);
    QuantisedIsClose(a.hzHigh);
    QuantisedIsClose(a.hysteresis);
  }

  lemma CanonCoreTwice(c: Core, running: Text)
    ensures CanonCore(CanonCore(c, TOTAL, running), TOTAL, running) == CanonCore(c, TOTAL, running)
  {
    TablesAreOffsets();
    CutsTwice(c.identity, ID_STARTS);
    CutsTwice(c.network, NET_STARTS);
    CutsTwice(c.mqtt.texts, MQTT_STARTS);
    SnapCtTwice(OrOne(c.ctRatio));
    var x := Cuts(c.identity, ID_STARTS)[1 := Cut(running, 24)];
    assert Cuts(x, ID_STARTS)[1 := Cut(running, 24)] == x by {
      forall i: nat | i < 5
        ensures Cuts(x, ID_STARTS)[1 := Cut(running, 24)][i] == x[i]
      {
        if i != 1 { CutTwice(c.identity[i], Width(ID_STARTS, i)); }
      }
    }
  }

  lemma CanonSlotsTwice(ss: Slots)
    ensures CanonSlots(CanonSlots(ss)) == CanonSlots(ss)
  {
    forall i: nat | i < SLOTS { CutTwice(ss[i].name, NAME_LEN); }
  }

  lemma NamedTwice(ap: Ap)
    ensures
      var once := Named(Ap(Cut(ap.ssid, 33), Cut(ap.pass, 65)));
      Named(Ap(Cut(once.ssid, 33), Cut(once.pass, 65))) == once
  {
    CutTwice(ap.ssid, 33);
    CutTwice(ap.pass, 65);
  }

  /** Saving and reloading a second time changes nothing more. */
  lemma CanonIsIdempotent(c: Config, running: Text)
    ensures Canon(Canon(c, running), running) == Canon(c, running)
    ensures StorableAt(c, TOTAL) ==> StorableAt(Canon(c, running), TOTAL)
  {
    CanonCoreTwice(c.core, running);
    CanonAlarmTwice(c.alarm);
    CanonSlotsTwice(c.slots);
    NamedTwice(c.ap);
  }

  /* ---- the record, byte by byte ---- */

  ghost function Pair(lo: int, hi: int): int { lo + 0x100 * hi }

  /** A number of two bytes, and one of four, the low ones first. */
  ghost predicate Two(b: Buffer, o: nat, v: int) { o + 1 < TOTAL && Pair(b[o], b[o + 1]) == v }

  ghost predicate Four(b: Buffer, o: nat, v: int) {
    o + 3 < TOTAL && Pair(b[o], b[o + 1]) + 0x1_0000 * Pair(b[o + 2], b[o + 3]) == v
  }

  ghost predicate Flag(b: Buffer, o: nat, on: bool) { o < TOTAL && b[o] == if on then 1 else 0 }

  /** A text in a field of `w` bytes: as many of its own as leave room for a zero. */
  ghost predicate TextIn(b: Buffer, o: nat, w: nat, t: Text) {
    o + w <= TOTAL && forall k: nat :: k < w ==> b[o + k] == if k < |t| && k + 1 < w then t[k] else 0
  }

  ghost predicate IdentityAt(b: Buffer, k: Core) {
    && TextIn(b, 16, 33, k.identity[0]) && TextIn(b, 49, 24, k.identity[1]) && TextIn(b, 73, 24, k.identity[2])
    && TextIn(b, 97, 16, k.identity[3]) && TextIn(b, 113, 16, k.identity[4])
  }

  ghost predicate NetworkAt(b: Buffer, k: Core) {
    && TextIn(b, 131, 16, k.network[0]) && TextIn(b, 147, 16, k.network[1]) && TextIn(b, 163, 16, k.network[2])
    && TextIn(b, 179, 16, k.network[3]) && TextIn(b, 195, 33, k.network[4]) && TextIn(b, 228, 65, k.network[5])
  }

  ghost predicate MqttAt(b: Buffer, m: Mqtt) {
    Flag(b, 300, m.enable) && b[301] == m.tls && Two(b, 302, m.port) && Two(b, 304, m.keepaliveS)
  }

  ghost predicate MqttTextsAt(b: Buffer, ts: Texts10) {
    && TextIn(b, 308, 32, ts[0]) && TextIn(b, 340, 64, ts[1]) && TextIn(b, 404, 32, ts[2])
    && TextIn(b, 436, 64, ts[3]) && TextIn(b, 500, 64, ts[4]) && TextIn(b, 564, 64, ts[5])
    && TextIn(b, 628, 64, ts[6]) && TextIn(b, 692, 64, ts[7]) && TextIn(b, 756, 64, ts[8])
    && TextIn(b, 820, 64, ts[9])
  }

  ghost predicate ScalarsAt(b: Buffer, k: Core) {
    && Flag(b, 129, k.dhcp) && b[130] == k.slaveId && Four(b, 296, k.publishMs)
    && b[884] == k.bus.baud && b[885] == k.bus.parity && b[886] == k.bus.stopBits && b[887] == k.freq
    && b[888] == k.wiring && Two(b, 890, k.ctRatio) && Two(b, 892, k.ptRatio)
    && Flag(b, 894, k.panel.backlight) && Flag(b, 895, k.panel.buzzer) && Flag(b, 896, k.panel.autocycle)
    && Four(b, 900, k.panel.sleepS)
  }

  /** A level is stored in tenths, to the nearest. */
  ghost predicate LevelAt(b: Buffer, o: nat, v: Level) {
    o + 1 < TOTAL && v * 10.0 - 0.5 < Pair(b[o], b[o + 1]) as real <= v * 10.0 + 0.5
  }

  ghost predicate AlarmAt(b: Buffer, a: Alarm) {
    && Flag(b, 917, a.on.low) && Flag(b, 918, a.on.high) && Flag(b, 919, a.on.current) && Flag(b, 920, a.on.loss)
    && Flag(b, 921, a.on.freq) && b[922] == a.reference && b[923] == a.nominalHz
    && LevelAt(b, 926, a.voltLow) && LevelAt(b, 928, a.voltHigh) && LevelAt(b, 930, a.amps)
    && LevelAt(b, 932, a.hzLow) && LevelAt(b, 934, a.hzHigh) && Two(b, 936, a.triggerS) && Two(b, 938, a.clearS)
    && LevelAt(b, 940, a.hysteresis)
  }

  ghost predicate SlotAt(b: Buffer, o: nat, s: Slot) {
    && o + 20 <= TOTAL && Flag(b, o, s.used) && Flag(b, o + 1, s.enabled) && b[o + 2] == s.kind && b[o + 3] == s.id
    && TextIn(b, o + 4, 16, s.name)
  }

  ghost predicate TailAt(b: Buffer, c: Config) {
    && Four(b, 904, c.cycleMs) && b[908] == c.run.device && Flag(b, 909, c.run.busOn) && Four(b, 912, c.run.pollMs)
    && Flag(b, 916, c.buzzerAlarm)
    && (forall i: nat :: i < 5 ==> SlotAt(b, 942 + 20 * i, c.slots[i]))
    && Two(b, 1042, c.ct.rated) && Two(b, 1044, c.ct.expected) && b[1046] == c.pga
    && TextIn(b, 1050, 33, c.ap.ssid) && TextIn(b, 1083, 65, c.ap.pass)
    && b[1148] == c.slaveBaud && b[1152] == c.roles.out0 && b[1153] == c.roles.out1 && b[1154] == c.roles.preset
  }

  lemma TwoAt(b: Buffer, o: nat)
    requires o + 2 <= TOTAL
    ensures Two(b, o, U16(b, o))
  {}

  lemma FourAt(b: Buffer, o: nat)
    requires o + 4 <= TOTAL
    ensures Four(b, o, U32(b, o))
  {}

  lemma TextStored(b: Buffer, o: nat, t: Text, w: nat)
    requires w > 0 && Holds(b, o, Field(t, w))
    ensures TextIn(b, o, w, t)
  {
    forall k: nat | k < w
      ensures b[o + k] == if k < |t| && k + 1 < w then t[k] else 0
    {
      HoldsAt(b, o, Field(t, w), k);
    }
  }

  /** Field `i` of a table that starts at `o`: its place and its width. */
  lemma TableStored(b: Buffer, o: nat, ts: seq<Text>, starts: seq<nat>, i: nat, at: nat, w: nat)
    requires Offsets(starts) && |starts| == |ts| + 1 && i < |ts| && Holds(b, o, Join(Fields(ts, starts)))
    requires at == o + starts[i] && w == starts[i + 1] - starts[i]
    ensures TextIn(b, at, w, ts[i])
  {
    var blocks := Fields(ts, starts);
    JoinHolds(blocks, starts, i);
    HoldsInside(b, o, Join(blocks), starts[i], blocks[i]);
    TextStored(b, at, ts[i], w);
  }

  lemma IdentityStored(c: Config)
    ensures IdentityAt(Encode(c), c.core)
  {
    TablesAreOffsets();
    var b := Encode(c);
    BlockStored(c, TOTAL, 1);
    TableStored(b, 16, c.core.identity, ID_STARTS, 0, 16, 33);
    TableStored(b, 16, c.core.identity, ID_STARTS, 1, 49, 24);
    TableStored(b, 16, c.core.identity, ID_STARTS, 2, 73, 24);
    TableStored(b, 16, c.core.identity, ID_STARTS, 3, 97, 16);
    TableStored(b, 16, c.core.identity, ID_STARTS, 4, 113, 16);
  }

  lemma NetworkStored(c: Config)
    ensures NetworkAt(Encode(c), c.core)
  {
    TablesAreOffsets();
    var b := Encode(c);
    BlockStored(c, TOTAL, 3);
    TableStored(b, 131, c.core.network, NET_STARTS, 0, 131, 16);
    TableStored(b, 131, c.core.network, NET_STARTS, 1, 147, 16);
    TableStored(b, 131, c.core.network, NET_STARTS, 2, 163, 16);
    TableStored(b, 131, c.core.network, NET_STARTS, 3, 179, 16);
    TableStored(b, 131, c.core.network, NET_STARTS, 4, 195, 33);
    TableStored(b, 131, c.core.network, NET_STARTS, 5, 228, 65);
  }

  lemma FirstMqttTexts(c: Config)
    ensures
      var (b, ts) := (Encode(c), c.core.mqtt.texts);
      && TextIn(b, 308, 32, ts[0]) && TextIn(b, 340, 64, ts[1]) && TextIn(b, 404, 32, ts[2])
      && TextIn(b, 436, 64, ts[3]) && TextIn(b, 500, 64, ts[4])
  {
    TablesAreOffsets();
    BlockStored(c, TOTAL, 7);
    TableStored(Encode(c), 308, c.core.mqtt.texts, MQTT_STARTS, 0, 308, 32);
    TableStored(Encode(c), 308, c.core.mqtt.texts, MQTT_STARTS, 1, 340, 64);
    TableStored(Encode(c), 308, c.core.mqtt.texts, MQTT_STARTS, 2, 404, 32);
    TableStored(Encode(c), 308, c.core.mqtt.texts, MQTT_STARTS, 3, 436, 64);
    TableStored(Encode(c), 308, c.core.mqtt.texts, MQTT_STARTS, 4, 500, 64);
  }

  lemma LastMqttTexts(c: Config)
    ensures
      var (b, ts) := (Encode(c), c.core.mqtt.texts);
      && TextIn(b, 564, 64, ts[5]) && TextIn(b, 628, 64, ts[6]) && TextIn(b, 692, 64, ts[7])
      && TextIn(b, 756, 64, ts[8]) && TextIn(b, 820, 64, ts[9])
  {
    TablesAreOffsets();
    BlockStored(c, TOTAL, 7);
    TableStored(Encode(c), 308, c.core.mqtt.texts, MQTT_STARTS, 5, 564, 64);
    TableStored(Encode(c), 308, c.core.mqtt.texts, MQTT_STARTS, 6, 628, 64);
    TableStored(Encode(c), 308, c.core.mqtt.texts, MQTT_STARTS, 7, 692, 64);
    TableStored(Encode(c), 308, c.core.mqtt.texts, MQTT_STARTS, 8, 756, 64);
    TableStored(Encode(c), 308, c.core.mqtt.texts, MQTT_STARTS, 9, 820, 64);
  }

  lemma MqttTextsStored(c: Config)
    ensures MqttTextsAt(Encode(c), c.core.mqtt.texts)
  {
    FirstMqttTexts(c);
    LastMqttTexts(c);
  }

  lemma MqttStored(c: Config)
    ensures MqttAt(Encode(c), c.core.mqtt)
  {
    ReadMqtt(c, TOTAL);
    TwoAt(Encode(c), 302);
    TwoAt(Encode(c), 304);
  }

  lemma ScalarsStored(c: Config)
    ensures ScalarsAt(Encode(c), c.core)
  {
    var b := Encode(c);
    ReadIdentity(c, TOTAL);
    ReadNetwork(c, TOTAL);
    ReadScalars(c, TOTAL);
    FourAt(b, 296);
    TwoAt(b, 890);
    TwoAt(b, 892);
    FourAt(b, 900);
  }

  lemma LevelWord(c: Config, i: nat, o: nat)
    requires i < 8 && o == 926 + 2 * i
    ensures Two(Encode(c), o, Levels(c.alarm)[i])
  {
    ReadAlarmFlags(c, TOTAL);
    ReadLevels(Encode(c), 926, Levels(c.alarm), i);
    TwoAt(Encode(c), o);
  }

  lemma LevelStored(b: Buffer, o: nat, v: Level)
    requires Two(b, o, Tenths(v))
    ensures LevelAt(b, o, v)
  {}

  lemma AlarmStored(c: Config)
    ensures AlarmAt(Encode(c), c.alarm)
  {
    var (b, a) := (Encode(c), c.alarm);
    ReadAlarmFlags(c, TOTAL);
    LevelWord(c, 0, 926);
    LevelWord(c, 1, 928);
    LevelWord(c, 2, 930);
    LevelWord(c, 3, 932);
    LevelWord(c, 4, 934);
    LevelWord(c, 5, 936);
    LevelWord(c, 6, 938);
    LevelWord(c, 7, 940);
    LevelStored(b, 926, a.voltLow);
    LevelStored(b, 928, a.voltHigh);
    LevelStored(b, 930, a.amps);
    LevelStored(b, 932, a.hzLow);
    LevelStored(b, 934, a.hzHigh);
    LevelStored(b, 940, a.hysteresis);
  }

  lemma SlotStored(c: Config, i: nat)
    requires i < SLOTS
    ensures SlotAt(Encode(c), 942 + 20 * i, c.slots[i])
  {
    var b, x := Encode(c), SlotBlock(c.slots[i]);
    BlockStored(c, TOTAL, 13);
    JoinHolds(SlotBlocks(c.slots), SlotStarts(), i);
    HoldsInside(b, 942, SlotsBlock(c.slots), 20 * i, x);
    var o := 942 + 20 * i;
    HoldsAt(b, o, x, 0);
    HoldsAt(b, o, x, 1);
    HoldsAt(b, o, x, 2);
    HoldsAt(b, o, x, 3);
    assert Holds(x, 4, Field(c.slots[i].name, 16));
    HoldsInside(b, o, x, 4, Field(c.slots[i].name, 16));
    TextStored(b, o + 4, c.slots[i].name, 16);
  }

  lemma TailStored(c: Config)
    ensures TailAt(Encode(c), c)
  {
    TablesAreOffsets();
    var b, ts: seq<Text> := Encode(c), [c.ap.ssid, c.ap.pass];
    ReadRuntime(c, TOTAL);
    FourAt(b, 904);
    FourAt(b, 912);
    forall i: nat | i < 5 { SlotStored(c, i); }
    ReadCt(c, TOTAL);
    TwoAt(b, 1042);
    TwoAt(b, 1044);
    BlockStored(c, TOTAL, 16);
    TableStored(b, 1050, ts, AP_STARTS, 0, 1050, 33);
    TableStored(b, 1050, ts, AP_STARTS, 1, 1083, 65);
    ReadLast(c, TOTAL);
  }

  /** Firmware of every age finds each field at its own place: the whole record, by byte
      offsets that must never move. */
  lemma RecordByNumber(c: Config)
    ensures
      var b := Encode(c);
      && |b| == 1156 && Four(b, 0, 0x4346_4753) && Two(b, 4, 2) && Two(b, 6, 16) && Four(b, 8, 1156) && Four(b, 12, 7)
      && IdentityAt(b, c.core) && NetworkAt(b, c.core) && MqttAt(b, c.core.mqtt) && MqttTextsAt(b, c.core.mqtt.texts)
      && ScalarsAt(b, c.core) && AlarmAt(b, c.alarm) && TailAt(b, c)
  {
    var b := Encode(c);
    ReadHead(c, TOTAL);
    FourAt(b, 0);
    TwoAt(b, 4);
    TwoAt(b, 6);
    FourAt(b, 8);
    BlockStored(c, TOTAL, 0);
    assert Holds(HeadBlock(TOTAL), 12, Le32(CONFIG_VERSION));
    HoldsInside(b, 0, HeadBlock(TOTAL), 12, Le32(CONFIG_VERSION));
    Read32(b, 12, CONFIG_VERSION);
    FourAt(b, 12);
    IdentityStored(c);
    NetworkStored(c);
    MqttStored(c);
    MqttTextsStored(c);
    ScalarsStored(c);
    AlarmStored(c);
    TailStored(c);
  }

  /** A byte that is no flag, by offset; groups beyond the stored `n` bytes are not looked at. */
  ghost predicate BadFlag(b: Buffer, n: nat) {
    || b[129] > 1 || b[300] > 1 || b[894] > 1 || b[895] > 1 || b[896] > 1
    || (n >= 916 && b[909] > 1) || (n >= 917 && b[916] > 1)
    || (n >= 942 && (b[917] > 1 || b[918] > 1 || b[919] > 1 || b[920] > 1 || b[921] > 1))
    || (n >= 1042 && exists i: nat :: i < 5 && (b[942 + 20 * i] > 1 || b[943 + 20 * i] > 1))
  }

  /** A choice that does not exist: TLS mode, line frequency, wiring, reference, nominal
      frequency, type of a slot or link speed; or a publish period beyond a minute. */
  ghost predicate BadChoice(b: Buffer, n: nat) {
    || b[301] > 3 || b[887] > 1 || b[888] > 1 || U32(b, 296) > 60000
    || (n >= 942 && (b[922] > 2 || (b[923] != 50 && b[923] != 60)))
    || (n >= 1042 && exists i: nat :: i < 5 && b[944 + 20 * i] > 1)
    || (n >= 1149 && b[1148] > 4)
  }

  /** Which records are refused, whatever bytes they are made of: a foreign head or a size that
      is not its own, and then any bad flag or choice in a stored group; and nothing else. */
  lemma RecordRefusedExactly(b: Buffer, n: nat, running: Text)
    ensures
      var head := Four(b, 0, 0x4346_4753) && Two(b, 4, 2) && Two(b, 6, 16) && Four(b, 8, n) && 904 <= n <= 1156;
      var d := Decode(b, n, running);
      && (d == Err(InvalidVersion) <==> !head)
      && (d == Err(InvalidArg) <==> head && (BadFlag(b, n) || BadChoice(b, n)))
  {
    FourAt(b, 0);
    TwoAt(b, 4);
    TwoAt(b, 6);
    FourAt(b, 8);
    SlotsRefusedAt(b);
  }

  lemma SlotsRefusedAt(b: Buffer)
    ensures !SlotsOk(b) <==>
      exists i: nat :: i < 5 && (b[942 + 20 * i] > 1 || b[943 + 20 * i] > 1 || b[944 + 20 * i] > 1)
  {
    if i: nat :| i < 5 && (b[942 + 20 * i] > 1 || b[943 + 20 * i] > 1 || b[944 + 20 * i] > 1) {
      assert !SlotOk(b, i);
    }
    if !SlotsOk(b) {
      var i: nat :| i < SLOTS && !SlotOk(b, i);
      assert b[942 + 20 * i] > 1 || b[943 + 20 * i] > 1 || b[944 + 20 * i] > 1;
    }
  }

  /* ---- what a reload keeps, field by field ---- */

  /** What a field of `w` bytes brings back of a text. */
  ghost predicate Kept(got: Text, t: Text, w: nat)
    requires w > 0
  {
    if |t| < w then got == t else got == t[..w - 1]
  }

  /** Text as a reader of the record sees it. */
  function Ascii(t: Text): string { seq(|t|, i requires 0 <= i < |t| => t[i] as char) }

  /** The widths of the text fields. */
  const ID_WIDTHS: seq<nat> := [33, 24, 24, 16, 16]
  const NET_WIDTHS: seq<nat> := [16, 16, 16, 16, 33, 65]
  const MQTT_WIDTHS: seq<nat> := [32, 64, 32, 64, 64, 64, 64, 64, 64, 64]

  lemma WidthsAre()
    ensures Offsets(ID_STARTS) && forall i: nat :: i < 5 ==> Width(ID_STARTS, i) == ID_WIDTHS[i]
    ensures Offsets(NET_STARTS) && forall i: nat :: i < 6 ==> Width(NET_STARTS, i) == NET_WIDTHS[i]
    ensures Offsets(MQTT_STARTS) && forall i: nat :: i < 10 ==> Width(MQTT_STARTS, i) == MQTT_WIDTHS[i]
  {
  }

  /** Names, network and MQTT settings keep what their fields hold; the firmware version
      alone is replaced by the running one. */
  ghost predicate TextsKept(x: Core, y: Core, running: Text) {
    && (forall i: nat :: i < 5 && i != 1 ==> Kept(x.identity[i], y.identity[i], ID_WIDTHS[i]))
    && Kept(x.identity[1], running, 24)
    && (forall i: nat :: i < 6 ==> Kept(x.network[i], y.network[i], NET_WIDTHS[i]))
    && (forall i: nat :: i < 10 ==> Kept(x.mqtt.texts[i], y.mqtt.texts[i], MQTT_WIDTHS[i]))
  }

  ghost predicate ValuesKept(x: Core, y: Core) {
    && x.dhcp == y.dhcp && x.slaveId == y.slaveId && x.publishMs == y.publishMs
    && x.mqtt.enable == y.mqtt.enable && x.mqtt.tls == y.mqtt.tls && x.mqtt.port == y.mqtt.port
    && x.mqtt.keepaliveS == y.mqtt.keepaliveS
    && x.bus == y.bus && x.freq == y.freq && x.wiring == y.wiring && x.panel == y.panel
  }

  /** A zero reads as one, anything else as it was stored. */
  ghost predicate KeptOrOne(x: u16, y: u16) { if y == 0 then x == 1 else x == y }

  /** A transformer ratio on the product's steps stays, one between them moves to the
      nearest, a smaller one becomes the default and a larger one the limit. */
  ghost predicate RatioKept(x: u16, y: u16) {
    && (y < 1000 ==> x == 2000)
    && (1000 <= y <= 6000 && y % 100 == 0 ==> x == y)
    && (1000 <= y <= 6000 ==> x % 100 == 0 && -50 < x - y <= 50)
    && (y > 6000 ==> x == 6000)
  }

  ghost predicate ChoicesKept(x: Config, y: Config) {
    && x.pga == (if y.pga == 2 || y.pga == 4 then y.pga else 1)
    && x.roles.out0 == (if y.roles.out0 == 0 then 0 else 1) && x.roles.out1 == (if y.roles.out1 == 0 then 0 else 1)
    && x.roles.preset == (if y.roles.preset < 4 then y.roles.preset else 0)
    && (if y.ap.ssid == [] then Ascii(x.ap.ssid) == "PowerMeter-AP" else Kept(x.ap.ssid, y.ap.ssid, 33))
    && Kept(x.ap.pass, y.ap.pass, 65)
    && x.buzzerAlarm == y.buzzerAlarm && x.slaveBaud == y.slaveBaud && x.ctRatioCalib == 0
  }

  /** Half a tenth at most, and a whole number of tenths not at all. */
  ghost predicate NearLevel(x: Level, y: Level) {
    y - 0.05 <= x <= y + 0.05 && ((y * 10.0).Floor as real == y * 10.0 ==> x == y)
  }

  ghost predicate AlarmKept(x: Alarm, y: Alarm) {
    && x.on == y.on && x.reference == y.reference && x.nominalHz == y.nominalHz
    && x.triggerS == y.triggerS && x.clearS == y.clearS
    && NearLevel(x.voltLow, y.voltLow) && NearLevel(x.voltHigh, y.voltHigh) && NearLevel(x.amps, y.amps)
    && NearLevel(x.hzLow, y.hzLow) && NearLevel(x.hzHigh, y.hzHigh) && NearLevel(x.hysteresis, y.hysteresis)
  }

  ghost predicate SlotKept(x: Slot, y: Slot) {
    x.used == y.used && x.enabled == y.enabled && x.kind == y.kind && x.id == y.id && Kept(x.name, y.name, 16)
  }

  /** The device register names the type of the first used slot. */
  ghost predicate DeviceKept(x: Runtime, y: Runtime, ss: Slots) {
    && x.busOn == y.busOn && x.pollMs == y.pollMs
    && (forall i: nat :: i < 5 && ss[i].used && (forall j: nat :: j < i ==> !ss[j].used) ==> x.device == ss[i].kind)
    && ((forall i: nat :: i < 5 ==> !ss[i].used) ==> x.device == y.device)
  }

  /** All that a reload keeps of `y`. */
  ghost predicate AllKept(x: Config, y: Config, running: Text) {
    && TextsKept(x.core, y.core, running) && ValuesKept(x.core, y.core) && x.cycleMs == y.cycleMs
    && KeptOrOne(x.core.ptRatio, y.core.ptRatio) && KeptOrOne(x.ct.rated, y.ct.rated)
    && KeptOrOne(x.ct.expected, y.ct.expected) && RatioKept(x.core.ctRatio, y.core.ctRatio)
    && ChoicesKept(x, y) && AlarmKept(x.alarm, y.alarm)
    && (forall i: nat :: i < 5 ==> SlotKept(x.slots[i], y.slots[i])) && DeviceKept(x.run, y.run, y.slots)
  }

  lemma CanonKeepsTexts(c: Core, n: nat, running: Text)
    ensures TextsKept(CanonCore(c, n, running), c, running) && ValuesKept(CanonCore(c, n, running), c)
  {
    WidthsAre();
  }

  lemma CanonKeepsRatios(y: u16, hasCt: bool)
    ensures KeptOrOne(OrOne(y), y) && RatioKept(CtRatio(y, hasCt), y)
  {
  }

  lemma WholeTenths(v: Level, t: u16)
    requires v * 10.0 == t as real
    ensures Quantised(v) == v
  {
    assert Tenths(v) == t;
  }

  lemma QuantisedIsNear(v: Level)
    ensures NearLevel(Quantised(v), v)
  {
    QuantisedIsClose(v);
    var t := (v * 10.0).Floor;
    if t as real == v * 10.0 { WholeTenths(v, t); }
  }

  lemma CanonKeepsAlarm(a: Alarm)
    ensures AlarmKept(CanonAlarm(a), a)
  {
    QuantisedIsNear(a.voltLow);
    QuantisedIsNear(a.voltHigh);
    QuantisedIsNear(a.amps);
    QuantisedIsNear(a.hzLow);
    QuantisedIsNear(a.hzHigh);
    QuantisedIsNear(a.hysteresis);
  }

  lemma CanonKeepsDevice(r: Runtime, ss: Slots)
    ensures DeviceKept(Mirrored(r, CanonSlots(ss)), r, ss)
    ensures forall i: nat :: i < 5 ==> SlotKept(CanonSlots(ss)[i], ss[i])
  {
  }

  lemma CanonKeepsChoices(c: Config, running: Text)
    ensures ChoicesKept(Canon(c, running), c)
  {
  }

  /** Saving and loading keeps every field of a storable configuration: texts as far as
      they fit, numbers and choices that are in range, alarm levels to the tenth. */
  lemma ReloadKeeps(c: Config, running: Text)
    requires StorableAt(c, TOTAL)
    ensures
      var d := Decode(Loaded(Encode(c)), TOTAL, running);
      d.Ok? && AllKept(d.config, c, running)
  {
    DecodeOfEncode(c, running);
    CanonKeepsAll(c, running);
  }

  lemma CanonKeepsAll(c: Config, running: Text)
    ensures AllKept(Canon(c, running), c, running)
  {
    CanonKeepsTexts(c.core, TOTAL, running);
    CanonKeepsRatios(c.core.ptRatio, true);
    CanonKeepsRatios(c.ct.rated, true);
    CanonKeepsRatios(c.ct.expected, true);
    CanonKeepsRatios(c.core.ctRatio, true);
    CanonKeepsAlarm(c.alarm);
    CanonKeepsDevice(c.run, c.slots);
    CanonKeepsChoices(c, running);
  }

  /* ---- what stands for the groups an old record lacks ---- */

  ghost predicate UsualAlarm(x: Alarm, freq: u8) {
    && x.on.low && x.on.high && x.on.current && x.on.loss && x.on.freq && x.reference == 0
    && x.voltLow == 180.0 && x.voltHigh == 250.0 && x.amps == 10.0 && x.hysteresis == 5.0
    && x.triggerS == 2 && x.clearS == 2
    && (freq == 0 ==> x.nominalHz == 50 && x.hzLow == 47.0 && x.hzHigh == 53.0)
    && (freq == 1 ==> x.nominalHz == 60 && x.hzLow == 57.0 && x.hzHigh == 63.0)
  }

  /** The one device of the older fields, or none. */
  ghost predicate OneDevice(ss: Slots, present: bool, slaveId: u8, r: Runtime) {
    && (forall i: nat :: 0 < i < 5 || (i == 0 && !present) ==> !ss[i].used)
    && (present ==>
          && ss[0].used && ss[0].enabled == r.busOn && ss[0].kind == r.device
          && ss[0].id == (if slaveId == 0 then 1 else slaveId)
          && Ascii(ss[0].name) == if r.device == 1 then "EM-07K" else "PM710")
  }

  /** What a record of `n` bytes brings back for the groups it ends before. */
  ghost predicate MissingFilled(x: Config, c: Config, n: nat) {
    && (n < 916 ==> x.run.device == 0 && !x.run.busOn && x.run.pollMs == 0)
    && (916 <= n < 1042 ==> x.run == c.run)
    && (n < 917 ==> x.buzzerAlarm == c.core.panel.buzzer)
    && (n < 942 ==> UsualAlarm(x.alarm, c.core.freq))
    && (n < 1042 ==> OneDevice(x.slots, n >= 916 && (c.core.slaveId != 0 || c.run.busOn), c.core.slaveId, c.run))
    && (n < 1046 ==> x.ct.rated == 100 && x.ct.expected == 75)
    && (n < 1047 ==> x.pga == 0)
    && (n < 1148 ==> Ascii(x.ap.ssid) == "PowerMeter-AP" && Ascii(x.ap.pass) == "12345678")
    && (n < 1149 ==> x.slaveBaud == c.core.bus.baud)
    && (n < 1155 ==> x.roles.out0 == 1 && x.roles.out1 == 1 && x.roles.preset == 0)
  }

  lemma OlderSlotsAre(hasRuntime: bool, r: Runtime, slaveId: u8)
    ensures OneDevice(OlderSlots(hasRuntime, r, slaveId), hasRuntime && (slaveId != 0 || r.busOn), slaveId, r)
    ensures hasRuntime || r == Runtime(0, false, 0) ==> Mirrored(r, OlderSlots(hasRuntime, r, slaveId)) == r
  {
    var ss := OlderSlots(hasRuntime, r, slaveId);
    assert forall i: nat :: 0 < i < 5 ==> ss[i] == NO_SLOT;
  }

  lemma UsualLimits(freq: u8)
    requires freq <= 1
    ensures UsualAlarm(DefaultAlarm(freq), freq)
  {}

  lemma CanonFillsMissing(c: Config, n: nat, running: Text)
    requires V1_SIZE <= n <= TOTAL && c.core.freq <= 1
    ensures MissingFilled(CanonAt(c, n, running), c, n)
  {
    OlderSlotsAre(n >= RUNTIME_END, if n >= RUNTIME_END then c.run else Runtime(0, false, 0), c.core.slaveId);
    UsualLimits(c.core.freq);
  }

  /** The first group of an old record is kept like that of a new one, and what it lacks
      is filled with these values. */
  lemma OldRecordIsFilled(c: Config, n: nat, running: Text)
    requires V1_SIZE <= n <= TOTAL && StorableAt(c, n)
    ensures
      var d := Decode(Loaded(EncodeAs(c, n)[..n]), n, running);
      && d.Ok? && MissingFilled(d.config, c, n)
      && TextsKept(d.config.core, c.core, running) && ValuesKept(d.config.core, c.core)
      && KeptOrOne(d.config.core.ptRatio, c.core.ptRatio) && RatioKept(d.config.core.ctRatio, c.core.ctRatio)
  {
    DecodeOfStored(c, n, running);
    CanonFillsMissing(c, n, running);
    CanonKeepsTexts(c.core, n, running);
    CanonKeepsRatios(c.core.ptRatio, true);
    CanonKeepsRatios(c.core.ctRatio, n >= CT_END);
  }

  /* ---- the record filled and read in place ---- */

  /** `memcpy` into the record. */
  method CopyIn(buf: array<u8>, o: nat, x: Bytes)
    requires o + |x| <= buf.Length
    modifies buf
    ensures buf[..] == old(buf[..o]) + x + old(buf[o + |x|..])
  {
    for k := 0 to |x|
      invariant buf[..o] == old(buf[..o])
      invariant buf[o..o + k] == x[..k]
      invariant buf[o + k..] == old(buf[o + k..])
    {
      buf[o + k] := x[k];
      assert buf[o..o + k + 1] == buf[o..o + k] + [x[k]];
    }
    assert buf[..] == buf[..o] + buf[o..o + |x|] + buf[o + |x|..];
  }

  lemma CopiedPrefix(was: Bytes, now: Bytes, o: nat, x: Bytes)
    requires o + |x| <= |was| && now == was[..o] + x + was[o + |x|..]
    ensures now[..o + |x|] == was[..o] + x
  {
  }

  /** The record is built block by block over a cleared buffer. */
  method EncodeInto(buf: array<u8>, c: Config)
    requires buf.Length == TOTAL
    modifies buf
    ensures buf[..] == Encode(c)
  {
    var blocks := Blocks(c, TOTAL);
    for i: nat := 0 to BLOCKS
      invariant buf[..][..Start(i)] == Join(blocks[..i])
    {
      ghost var was := buf[..];
      BlockFits(c, i);
      JoinGrows(blocks, i);
      CopyIn(buf, Start(i), blocks[i]);
      CopiedPrefix(was, buf[..], Start(i), blocks[i]);
    }
    assert blocks[..BLOCKS] == blocks;
    assert buf[..][..TOTAL] == buf[..];
  }

  lemma JoinGrows(blocks: seq<Bytes>, i: nat)
    requires i < |blocks|
    ensures Join(blocks[..i + 1]) == Join(blocks[..i]) + blocks[i]
  {
    assert blocks[..i + 1][..i] == blocks[..i];
  }

  lemma BlockFits(c: Config, i: nat)
    requires i < BLOCKS
    ensures Start(i) + |Block(c, TOTAL, i)| == Start(i + 1) <= TOTAL
  {
  }

  /** The slot table, slot by slot; one bad slot refuses the record. */
  method ReadSlotTable(b: Buffer) returns (ok: bool, ss: Slots)
    ensures ok <==> SlotsOk(b)
    ensures ok ==> ss == SlotsOf(b, TOTAL)
  {
    ss := NO_SLOTS;
    for i: nat := 0 to SLOTS
      invariant forall k: nat :: k < i ==> SlotOk(b, k) && ss[k] == SlotOf(b, k)
    {
      var o := ALARM_END + 20 * i;
      if b[o] > 1 || b[o + 1] > 1 || b[o + 2] >= 2 {
        assert !SlotOk(b, i);
        return false, ss;
      }
      ss := ss[i := Slot(b[o] != 0, b[o + 1] != 0, b[o + 2], b[o + 3], TextAt(b, o + 4, NAME_LEN))];
    }
    assert ss == SlotsOf(b, TOTAL);
    ok := true;
  }

  /* ---- what an update accepts, and what a reload makes of it ---- */

  predicate AcceptedAlarm(a: Alarm, r: Roles) {
    && a.reference <= 2 && (a.nominalHz == 50 || a.nominalHz == 60)
    && a.voltLow >= 1.0 && a.voltHigh <= 1000.0 && a.voltLow < a.voltHigh
    && 0.1 <= a.amps <= 1000.0
    && a.hzLow >= 40.0 && a.hzHigh <= 70.0 && a.hzLow < a.hzHigh
    && a.triggerS <= 300 && a.clearS <= 300 && a.hysteresis <= 100.0
    && r.out0 <= 1 && r.out1 <= 1 && r.preset <= 3
  }

  predicate AcceptedSlot(s: Slot) { s.used ==> s.kind < 2 && 1 <= s.id <= 247 }

  predicate Clash(s: Slot, t: Slot) { s.used && t.used && s.id == t.id }

  predicate AcceptedSlots(ss: Slots) {
    && (forall i: nat :: i < SLOTS ==> AcceptedSlot(ss[i]))
    && forall i: nat, j: nat :: i < j < SLOTS ==> !Clash(ss[i], ss[j])
  }

  method ValidateSlots(ss: Slots) returns (ok: bool)
    ensures ok == AcceptedSlots(ss)
  {
    for i: nat := 0 to SLOTS
      invariant forall k: nat :: k < i ==> AcceptedSlot(ss[k])
      invariant forall k: nat, j: nat :: k < i && k < j < SLOTS ==> !Clash(ss[k], ss[j])
    {
      if ss[i].used {
        if ss[i].kind >= 2 || ss[i].id < 1 || ss[i].id > 247 {
          assert !AcceptedSlot(ss[i]);
          return false;
        }
        for j: nat := i + 1 to SLOTS
          invariant forall l: nat :: i < l < j ==> !Clash(ss[i], ss[l])
        {
          if ss[j].used && ss[j].id == ss[i].id {
            assert Clash(ss[i], ss[j]);
            return false;
          }
        }
      }
    }
    ok := true;
  }

  predicate Accepted(c: Config) {
    && AcceptedAlarm(c.alarm, c.roles)
    && c.core.bus.baud <= 4 && c.core.bus.parity <= 2 && c.slaveBaud <= 4 && 5000 <= c.run.pollMs <= 60000
    && AcceptedSlots(c.slots)
    && c.pga in {0, 1, 2, 4}
    && 1000 <= c.core.ctRatio <= 6000 && c.core.ctRatio % 100 == 0
    && 1 <= |c.ap.ssid| <= 32 && (|c.ap.pass| == 0 || 8 <= |c.ap.pass| <= 63)
    && 5000 <= c.core.publishMs <= 60000
  }

  function FirstUsedKind(ss: Slots): u8 { Mirrored(Runtime(0, false, 0), ss).device }

  /** An accepted update, with the device register mirrored again. */
  function Updated(c: Config): Config { c.(run := c.run.(device := FirstUsedKind(c.slots))) }

  /** Limits out of order or out of range, a frequency that is no line frequency, or a role
      or preset that does not exist. */
  ghost predicate BadAlarm(a: Alarm, r: Roles) {
    || a.reference > 2 || (a.nominalHz != 50 && a.nominalHz != 60)
    || a.voltLow < 1.0 || a.voltHigh > 1000.0 || a.voltHigh <= a.voltLow
    || a.hzLow < 40.0 || a.hzHigh > 70.0 || a.hzHigh <= a.hzLow
    || a.amps < 0.1 || a.amps > 1000.0 || a.triggerS > 300 || a.clearS > 300 || a.hysteresis > 100.0
    || r.out0 > 1 || r.out1 > 1 || r.preset > 3
  }

  /** A used slot of an unknown type or without a slave's address, or two at one address. */
  ghost predicate BadSlots(ss: Slots) {
    || (exists i: nat :: i < 5 && ss[i].used && (ss[i].kind > 1 || ss[i].id == 0 || ss[i].id > 247))
    || (exists i: nat, j: nat :: i < j < 5 && ss[i].used && ss[j].used && ss[i].id == ss[j].id)
  }

  ghost predicate BadRest(c: Config) {
    || c.run.pollMs < 5000 || c.run.pollMs > 60000 || c.core.publishMs < 5000 || c.core.publishMs > 60000
    || c.core.bus.baud > 4 || c.core.bus.parity > 2 || c.slaveBaud > 4
    || c.pga == 3 || c.pga > 4
    || c.core.ctRatio < 1000 || c.core.ctRatio > 6000 || c.core.ctRatio % 100 > 0
    || c.ap.ssid == [] || |c.ap.ssid| > 32 || 0 < |c.ap.pass| < 8 || |c.ap.pass| > 63
  }

  /** An update is refused for these reasons and for no other. */
  lemma RefusedExactly(c: Config)
    ensures !Accepted(c) <==> BadAlarm(c.alarm, c.roles) || BadSlots(c.slots) || BadRest(c)
  {
    SlotsRefused(c.slots);
  }

  lemma SlotsRefused(ss: Slots)
    ensures !AcceptedSlots(ss) <==> BadSlots(ss)
  {
    if BadSlots(ss) {
      if i: nat :| i < 5 && ss[i].used && (ss[i].kind > 1 || ss[i].id == 0 || ss[i].id > 247) {
        assert !AcceptedSlot(ss[i]);
      } else {
        var i: nat, j: nat :| i < j < 5 && ss[i].used && ss[j].used && ss[i].id == ss[j].id;
        assert Clash(ss[i], ss[j]);
      }
    }
  }

  /** An accepted update is taken as it is, but for the device register: the type of the
      first used slot, or none. */
  lemma UpdateMirrors(c: Config)
    ensures
      var u := Updated(c);
      && u == c.(run := c.run.(device := u.run.device))
      && (forall i: nat :: i < 5 && c.slots[i].used && (forall j: nat :: j < i ==> !c.slots[j].used) ==>
            u.run.device == c.slots[i].kind)
      && ((forall i: nat :: i < 5 ==> !c.slots[i].used) ==> u.run.device == 0)
  {}

  /** The checks of an update and of the decoder differ: an accepted update can be
      saved and loaded again exactly if the fields the update does not look at are
      in range, and those include the type of every slot, even an unused one. */
  lemma AcceptedIsLoadable(c: Config, running: Text)
    requires Accepted(c)
    ensures
      Decode(Loaded(Encode(Updated(c))), TOTAL, running).Ok? <==>
        && c.core.freq <= 1 && c.core.wiring <= 1 && c.core.mqtt.tls <= 3
        && forall i: nat :: i < SLOTS && !c.slots[i].used ==> c.slots[i].kind < 2
  {
    DecodeOfEncode(Updated(c), running);
    assert forall i: nat :: i < SLOTS && c.slots[i].used ==> AcceptedSlot(c.slots[i]);
  }

  lemma LevelBounds(v: Level, lo: nat, hi: nat)
    requires lo as real <= v * 10.0 <= hi as real && hi <= 65535
    ensures lo as real / 10.0 <= Quantised(v) <= hi as real / 10.0
  {
    assert lo <= Tenths(v) <= hi;
  }

  lemma CanonAlarmAccepted(a: Alarm, r: Roles)
    requires AcceptedAlarm(a, r)
    ensures AcceptedAlarm(CanonAlarm(a), r) <==>
              Tenths(a.voltLow) < Tenths(a.voltHigh) && Tenths(a.hzLow) < Tenths(a.hzHigh)
  {
    LevelBounds(a.voltLow, 10, 10000);
    LevelBounds(a.voltHigh, 10, 10000);
    LevelBounds(a.amps, 1, 10000);
    LevelBounds(a.hzLow, 400, 700);
    LevelBounds(a.hzHigh, 400, 700);
    LevelBounds(a.hysteresis, 0, 1000);
  }

  lemma CanonSlotsAccepted(ss: Slots)
    ensures AcceptedSlots(CanonSlots(ss)) <==> AcceptedSlots(ss)
  {
    forall i: nat, j: nat | i < SLOTS && j < SLOTS
      ensures AcceptedSlot(CanonSlots(ss)[i]) <==> AcceptedSlot(ss[i])
      ensures Clash(CanonSlots(ss)[i], CanonSlots(ss)[j]) <==> Clash(ss[i], ss[j])
    {
    }
    if AcceptedSlots(CanonSlots(ss)) {
      assert forall i: nat :: i < SLOTS ==> AcceptedSlot(CanonSlots(ss)[i]);
      forall i: nat, j: nat | i < j < SLOTS
        ensures !Clash(ss[i], ss[j])
      {
        assert !Clash(CanonSlots(ss)[i], CanonSlots(ss)[j]);
      }
    }
  }

  /** What a reload returns passes an update again exactly if rounding to tenths
      kept each lower threshold below its upper one. */
  lemma ReloadedIsAcceptable(c: Config, running: Text)
    requires Accepted(c)
    ensures Accepted(Canon(Updated(c), running)) <==>
              Tenths(c.alarm.voltLow) < Tenths(c.alarm.voltHigh) && Tenths(c.alarm.hzLow) < Tenths(c.alarm.hzHigh)
  {
    CanonAlarmAccepted(c.alarm, c.roles);
    CanonSlotsAccepted(c.slots);
    assert SnapCt(c.core.ctRatio) == c.core.ctRatio;
  }

  /** Rounding can merge them: 229.98 V and 230.01 V are accepted as a pair and come
      back as 230.0 V twice. */
  lemma ThresholdsCanMerge()
    ensures 229.98 < 230.01 && Quantised(229.98) == Quantised(230.01) == 230.0
  {
    assert Tenths(229.98) == 2300 && Tenths(230.01) == 2300;
  }

  /* ---- one configuration that shows each gap ---- */

  const NO_TEXTS10: Texts10 := [[], [], [], [], [], [], [], [], [], []]

  const ORDINARY := Config(
    Core([[], [], [], [], []], true, 1, [[], [], [], [], [], []], 5000, Mqtt(false, 0, 1883, 60, NO_TEXTS10),
         Bus(0, 0, 0), 0, 0, 2000, 1, Panel(true, true, false, 0)),
    5000, Runtime(0, false, 5000), true, DefaultAlarm(0), NO_SLOTS, Ct(KCONFIG_RATED, KCONFIG_EXPECTED), KCONFIG_PGA,
    Ap(DEFAULT_SSID, DEFAULT_PASS), 0, Roles(1, 1, 0), 0)

  lemma OrdinaryIsAccepted()
    ensures Accepted(ORDINARY)
  {
  }

  /** An update that leaves an unknown type in an unused slot is accepted and saved,
      and the record it leaves cannot be loaded. */
  lemma UnusedSlotSpoilsTheRecord(running: Text)
    ensures
      var c := ORDINARY.(slots := NO_SLOTS[4 := NO_SLOT.(kind := 2)]);
      Accepted(c) && Decode(Loaded(Encode(Updated(c))), TOTAL, running) == Err(InvalidArg)
  {
    var c := ORDINARY.(slots := NO_SLOTS[4 := NO_SLOT.(kind := 2)]);
    OrdinaryIsAccepted();
    assert !c.slots[4].used && c.slots[4].kind == 2;
    AcceptedIsLoadable(c, running);
    DecodeOfEncode(Updated(c), running);
  }

  /** An update with voltage limits closer than a tenth is accepted, saved and loaded,
      and what was loaded is refused when it is submitted again. */
  lemma CloseLimitsSpoilTheReload(running: Text)
    ensures
      var c := ORDINARY.(alarm := ORDINARY.alarm.(voltLow := 229.98, voltHigh := 230.01));
      && Accepted(c) && Decode(Loaded(Encode(Updated(c))), TOTAL, running) == Ok(Canon(Updated(c), running))
      && !Accepted(Canon(Updated(c), running))
  {
    var c := ORDINARY.(alarm := ORDINARY.alarm.(voltLow := 229.98, voltHigh := 230.01));
    OrdinaryIsAccepted();
    AcceptedIsLoadable(c, running);
    DecodeOfEncode(Updated(c), running);
    ReloadedIsAcceptable(c, running);
    ThresholdsCanMerge();
  }
}
