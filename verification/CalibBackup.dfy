/** The calibration backup file: an 18-byte header and 54 bytes of phase values,
    all little-endian words, packed from a running meter and unpacked into one; and
    the older files that are still read. */
module CalibBackup {
  import opened CInt
  import opened CalibChip
  import opened CalibControl
  import opened Options
  import Layout

  const MAGIC_LO := 0x4143
  const MAGIC_HI := 0x424C
  const HEADER_LEN: nat := 18
  const PAYLOAD_LEN: nat := 54
  const FILE_LEN: nat := 72
  const OLD_HEADER_LEN: nat := 20
  /** The driver's own structure, and that structure behind a magic number. */
  const RECORD_LEN: nat := 96
  const BLOB_LEN: nat := 100
  const BLOB_MAGIC := 0x9032_CA1B

  datatype Refusal = TooSmall | BadMagic | BadHeader | BadVersion | BadLength | BadCrc | ZeroGain

  /** Phase values with the wiring they were taken in, or a whole calibration. */
  datatype Parsed = Good(phases: Phases, mode: u32) | Blob(c: Calib) | Bad(why: Refusal)

  /* ---- words and bytes ---- */

  function Bytes(ws: seq<u16>): (bs: seq<u8>)
    ensures |bs| == 2 * |ws|
  {
    seq(2 * |ws|, k requires 0 <= k < 2 * |ws| => if k % 2 == 0 then ws[k / 2] % 0x100 else ws[k / 2] / 0x100)
  }

  function WordAt(bs: seq<u8>, k: nat): u16
    requires 2 * k + 1 < |bs|
  {
    Layout.Word(bs[2 * k], bs[2 * k + 1])
  }

  lemma WordOfBytes(ws: seq<u16>, k: nat)
    requires k < |ws|
    ensures WordAt(Bytes(ws), k) == ws[k]
  {
    assert Bytes(ws)[2 * k] == ws[k] % 0x100;
    assert (2 * k + 1) / 2 == k && (2 * k + 1) % 2 == 1;
    assert Bytes(ws)[2 * k + 1] == ws[k] / 0x100;
  }

  lemma BytesOfWords(bs: seq<u8>, ws: seq<u16>)
    requires |bs| == 2 * |ws| && forall k :: 0 <= k < |ws| ==> ws[k] == WordAt(bs, k)
    ensures Bytes(ws) == bs
  {
    forall k | 0 <= k < |bs|
      ensures Bytes(ws)[k] == bs[k]
    {
      var h := k / 2;
      assert ws[h] == WordAt(bs, h);
      assert k == 2 * h || k == 2 * h + 1;
    }
  }

  /* ---- the file ---- */

  /** Nine words a phase; signed values go as two's complement. */
  function PhaseWord(p: Phase, j: nat): u16
    requires j < 9
  {
    match j
    case 0 => p.vGain
    case 1 => p.iGain
    case 2 => AsU16(p.vOff)
    case 3 => AsU16(p.iOff)
    case 4 => AsU16(p.pOff)
    case 5 => AsU16(p.qOff)
    case 6 => AsU16(p.pq)
    case 7 => AsU16(p.phi)
    case 8 => AsU16(p.fund)
  }

  function PhaseFrom(bs: seq<u8>, base: nat): Phase
    requires 2 * (base + 8) + 1 < |bs|
  {
    Phase(WordAt(bs, base), WordAt(bs, base + 1), AsI16(WordAt(bs, base + 2)), AsI16(WordAt(bs, base + 3)),
          AsI16(WordAt(bs, base + 4)), AsI16(WordAt(bs, base + 5)), AsI16(WordAt(bs, base + 6)),
          AsI16(WordAt(bs, base + 7)), AsI16(WordAt(bs, base + 8)))
  }

  /** Do nine words from `base` on hold phase `p`? */
  predicate PhaseAt(p: Phase, bs: seq<u8>, base: nat)
    requires 2 * (base + 8) + 1 < |bs|
  {
    forall j: nat :: j < 9 ==> WordAt(bs, base + j) == PhaseWord(p, j)
  }

  lemma PhaseReads(p: Phase, bs: seq<u8>, base: nat)
    requires 2 * (base + 8) + 1 < |bs| && PhaseAt(p, bs, base)
    ensures PhaseFrom(bs, base) == p
  {
    assert WordAt(bs, base + 0) == PhaseWord(p, 0) && WordAt(bs, base + 1) == PhaseWord(p, 1);
    assert WordAt(bs, base + 2) == PhaseWord(p, 2) && WordAt(bs, base + 3) == PhaseWord(p, 3);
    assert WordAt(bs, base + 4) == PhaseWord(p, 4) && WordAt(bs, base + 5) == PhaseWord(p, 5);
    assert WordAt(bs, base + 6) == PhaseWord(p, 6) && WordAt(bs, base + 7) == PhaseWord(p, 7);
    assert WordAt(bs, base + 8) == PhaseWord(p, 8);
  }

  lemma PhaseWrites(bs: seq<u8>, base: nat)
    requires 2 * (base + 8) + 1 < |bs|
    ensures PhaseAt(PhaseFrom(bs, base), bs, base)
  {
  }

  function Payload(phases: Phases): (bs: seq<u8>)
    ensures |bs| == PAYLOAD_LEN
  {
    Bytes(PayloadWords(phases))
  }

  function PayloadWords(phases: Phases): (ws: seq<u16>)
    ensures |ws| == 27
  {
    seq(27, k requires 0 <= k < 27 => PhaseWord(phases[k / 9], k % 9))
  }

  function HeaderWords(mode: u16, crc: u32): (ws: seq<u16>)
    ensures |ws| == 9
  {
    [MAGIC_LO, MAGIC_HI, HEADER_LEN, mode, 0, PAYLOAD_LEN, 0, crc % 0x1_0000, crc / 0x1_0000]
  }

  function Header(mode: u16, crc: u32): (bs: seq<u8>)
    ensures |bs| == HEADER_LEN
  {
    Bytes(HeaderWords(mode, crc))
  }

  function FileOf(c: Calib, crc: seq<u8> -> u32): (file: seq<u8>)
    ensures |file| == FILE_LEN
  {
    Header(Wrap16(c.wiring), crc(Payload(c.phases))) + Payload(c.phases)
  }

  function LongAt(bs: seq<u8>, k: nat): u32
    requires 2 * k + 3 < |bs|
  {
    Layout.Long(WordAt(bs, k), WordAt(bs, k + 1))
  }

  /** The header fields as they are read back; only old headers carry a version. */
  datatype Head = Head(magicLo: u16, magicHi: u16, len: u16, version: u16, mode: u16, payloadLen: u32, crc: u32)

  function HeadOf(file: seq<u8>): Head
    requires |file| >= HEADER_LEN
  {
    if WordAt(file, 2) == OLD_HEADER_LEN
    then
      Head(WordAt(file, 0), WordAt(file, 1), WordAt(file, 2), WordAt(file, 3), WordAt(file, 4), LongAt(file, 6),
           if |file| >= OLD_HEADER_LEN then LongAt(file, 8) else 0)
    else
      Head(WordAt(file, 0), WordAt(file, 1), WordAt(file, 2), 0, WordAt(file, 3), LongAt(file, 5), LongAt(file, 7))
  }

  /** What follows a header of `len` bytes. */
  function BodyOf(file: seq<u8>, len: nat): seq<u8> { if len <= |file| then file[len..] else [] }

  predicate HasZeroGain(phases: Phases) {
    exists i :: 0 <= i < 3 && (phases[i].vGain == 0 || phases[i].iGain == 0)
  }

  /** Three phases, `stride` words apart. */
  function PhasesAt(payload: seq<u8>, base: nat, stride: nat): Phases
    requires 2 * (base + 2 * stride + 8) + 1 < |payload|
  {
    [PhaseFrom(payload, base), PhaseFrom(payload, base + stride), PhaseFrom(payload, base + 2 * stride)]
  }

  function PhasesFrom(payload: seq<u8>): Phases
    requires |payload| == PAYLOAD_LEN
  {
    PhasesAt(payload, 0, 9)
  }

  function ModeFrom(raw: u16): u32 { if raw <= W3P3 then raw else W3P4 }

  function Gained(phases: Phases, raw: u16): Parsed {
    if HasZeroGain(phases) then Bad(ZeroGain) else Good(phases, ModeFrom(raw))
  }

  function ParseBlob(payload: seq<u8>): Parsed {
    if |payload| != BLOB_LEN then Bad(BadLength)
    else if LongAt(payload, 0) != BLOB_MAGIC then Bad(BadMagic)
    else Blob(Calib(LongAt(payload, 2), LongAt(payload, 4), LongAt(payload, 6), PhasesAt(payload, 8, 14)))
  }

  /** An old header with an old version, or with a blob's length, carries a blob. */
  predicate CarriesBlob(h: Head) { h.len == OLD_HEADER_LEN && (h.version == 1 || h.payloadLen == BLOB_LEN) }

  function ParsePayload(h: Head, payload: seq<u8>): Parsed {
    if CarriesBlob(h) then ParseBlob(payload)
    else if |payload| == PAYLOAD_LEN then Gained(PhasesFrom(payload), h.mode)
    else if |payload| == RECORD_LEN then Gained(PhasesAt(payload, 6, 14), h.mode)
    else Bad(BadLength)
  }

  function ParseBody(h: Head, total: nat, payload: seq<u8>, crc: seq<u8> -> u32): Parsed {
    if h.magicLo != MAGIC_LO || h.magicHi != MAGIC_HI then Bad(BadMagic)
    else if h.len != HEADER_LEN && h.len != OLD_HEADER_LEN then Bad(BadHeader)
    else if h.len == OLD_HEADER_LEN && !(1 <= h.version <= 3) then Bad(BadVersion)
    else if total != h.len + h.payloadLen then Bad(BadLength)
    else if crc(payload) != h.crc then Bad(BadCrc)
    else ParsePayload(h, payload)
  }

  function Parse(file: seq<u8>, crc: seq<u8> -> u32): Parsed {
    if |file| < HEADER_LEN then Bad(TooSmall)
    else ParseBody(HeadOf(file), |file|, BodyOf(file, HeadOf(file).len), crc)
  }

  function Unpack(m: Meter, file: seq<u8>, crc: seq<u8> -> u32, apply: bool): (Meter, Parsed, Error) {
    match Parse(file, crc)
    case Good(phases, mode) =>
      var (v, err) := Install(m, phases, mode, apply);
      (v, Good(phases, mode), err)
    case Blob(c) =>
      var (v, err) := ImportBlob(m, c, apply);
      (v, Blob(c), err)
    case Bad(why) => (m, Bad(why), Fine)
  }

  /* ---- packing and unpacking a running meter ---- */

  method Pack(meter: EnergyMeter, crc: seq<u8> -> u32) returns (file: seq<u8>)
    ensures file == FileOf(meter.current, crc)
  {
    var c := meter.current;
    var words: seq<u16> := [];
    for i: nat := 0 to 3
      invariant |words| == 9 * i
      invariant forall k: nat :: k < 9 * i ==> words[k] == PhaseWord(c.phases[k / 9], k % 9)
    {
      var p := c.phases[i];
      var add := [p.vGain, p.iGain, AsU16(p.vOff), AsU16(p.iOff), AsU16(p.pOff), AsU16(p.qOff), AsU16(p.pq),
                  AsU16(p.phi), AsU16(p.fund)];
      assert forall j: nat :: j < 9 ==> add[j] == PhaseWord(p, j);
      words := words + add;
    }
    assert words == PayloadWords(c.phases);
    var payload := Bytes(words);
    file := Header(Wrap16(c.wiring), crc(payload)) + payload;
  }

  method UnpackPhases(payload: seq<u8>, base: nat, stride: nat) returns (ok: bool, phases: Phases)
    requires 2 * (base + 2 * stride + 8) + 1 < |payload|
    ensures ok == !HasZeroGain(PhasesAt(payload, base, stride))
    ensures ok ==> phases == PhasesAt(payload, base, stride)
  {
    ghost var all := PhasesAt(payload, base, stride);
    phases := [UNITY, UNITY, UNITY];
    for i: nat := 0 to 3
      invariant forall k: nat :: k < i ==> phases[k] == all[k] && phases[k].vGain != 0 && phases[k].iGain != 0
    {
      var at := if i == 0 then base else if i == 1 then base + stride else base + 2 * stride;
      var read := PhaseFrom(payload, at);
      assert read == all[i];
      if read.vGain == 0 || read.iGain == 0 { return false, phases; }
      phases := phases[i := read];
    }
    ok := true;
  }

  /** The header's checks, in the code's order. */
  method CheckHeader(file: seq<u8>, crc: seq<u8> -> u32) returns (why: Option<Refusal>, h: Head, payload: seq<u8>)
    ensures why.Some? ==> Parse(file, crc) == Bad(why.value)
    ensures why.None? ==> Parse(file, crc) == ParsePayload(h, payload) && |payload| == h.payloadLen
  {
    h, payload := Head(0, 0, 0, 0, 0, 0, 0), [];
    if |file| < HEADER_LEN { return Some(TooSmall), h, payload; }
    h := HeadOf(file);
    if h.magicLo != MAGIC_LO || h.magicHi != MAGIC_HI { return Some(BadMagic), h, payload; }
    if h.len != HEADER_LEN && h.len != OLD_HEADER_LEN { return Some(BadHeader), h, payload; }
    if h.len == OLD_HEADER_LEN && (h.version < 1 || h.version > 3) { return Some(BadVersion), h, payload; }
    if |file| != h.len + h.payloadLen { return Some(BadLength), h, payload; }
    payload := file[h.len..];
    if crc(payload) != h.crc { return Some(BadCrc), h, payload; }
    why := None;
  }

  method UnpackInto(meter: EnergyMeter, file: seq<u8>, crc: seq<u8> -> u32, apply: bool)
    returns (p: Parsed, err: Error)
    modifies meter, meter.chip
    ensures (meter.State(), p, err) == Unpack(old(meter.State()), file, crc, apply)
  {
    err := Fine;
    var why, h, payload := CheckHeader(file, crc);
    if why.Some? { return Bad(why.value), Fine; }
    var fileMode: u32 := if h.mode == W3P4 || h.mode == W3P3 then h.mode else W3P4;
    if CarriesBlob(h) {
      p := ParseBlob(payload);
      if p.Blob? { err := meter.ImportCalib(p.c, apply); }
      return;
    }
    if h.payloadLen != PAYLOAD_LEN && h.payloadLen != RECORD_LEN { return Bad(BadLength), Fine; }
    var ok, phases := UnpackPhases(payload, if h.payloadLen == PAYLOAD_LEN then 0 else 6,
                                   if h.payloadLen == PAYLOAD_LEN then 9 else 14);
    if !ok { return Bad(ZeroGain), Fine; }
    p := Good(phases, fileMode);
    err := meter.InstallPhases(phases, fileMode, apply);
  }

  /* ---- round trips ---- */

  lemma PayloadWord(phases: Phases, i: nat, j: nat)
    requires i < 3 && j < 9
    ensures WordAt(Payload(phases), 9 * i + j) == PhaseWord(phases[i], j)
  {
    var ws := PayloadWords(phases);
    assert (9 * i + j) / 9 == i && (9 * i + j) % 9 == j;
    WordOfBytes(ws, 9 * i + j);
  }

  lemma PhaseArrives(phases: Phases, i: nat)
    requires i < 3
    ensures PhaseFrom(Payload(phases), 9 * i) == phases[i]
  {
    forall j: nat | j < 9 { PayloadWord(phases, i, j); }
    PhaseReads(phases[i], Payload(phases), 9 * i);
  }

  /** Reading the payload gives back every field of every phase. */
  lemma PayloadRoundTrip(phases: Phases)
    ensures PhasesFrom(Payload(phases)) == phases
  {
    PhaseArrives(phases, 0);
    PhaseArrives(phases, 1);
    PhaseArrives(phases, 2);
  }

  lemma HeadWords(ws: seq<u16>, rest: seq<u8>)
    requires |ws| == 9 && ws[2] == HEADER_LEN
    ensures HeadOf(Bytes(ws) + rest) ==
      Head(ws[0], ws[1], ws[2], 0, ws[3], Layout.Long(ws[5], ws[6]), Layout.Long(ws[7], ws[8]))
  {
    var file := Bytes(ws) + rest;
    forall k: nat | k < 9
      ensures WordAt(file, k) == ws[k]
    {
      WordOfBytes(ws, k);
      assert file[2 * k] == Bytes(ws)[2 * k] && file[2 * k + 1] == Bytes(ws)[2 * k + 1];
    }
  }

  /** Parsing a packed file gives the phases back, and is refused exactly when a
      packed gain is zero, whatever the checksum function. */
  lemma ParseOfPack(c: Calib, crc: seq<u8> -> u32)
    ensures
      Parse(FileOf(c, crc), crc)
      == if HasZeroGain(c.phases) then Bad(ZeroGain) else Good(c.phases, ModeFrom(Wrap16(c.wiring)))
  {
    var payload := Payload(c.phases);
    var sum := crc(payload);
    HeadWords(HeaderWords(Wrap16(c.wiring), sum), payload);
    PayloadRoundTrip(c.phases);
    assert FileOf(c, crc)[HEADER_LEN..] == payload;
  }

  /** A backup taken from one meter and restored with apply into another: all nine
      fields of all three phases arrive, while gain stage, line frequency and wiring
      stay as the second meter runs them; on success its chip holds that image. */
  lemma RestoreFromBackup(m: Meter, n: Meter, crc: seq<u8> -> u32)
    requires InStep(n) && !HasZeroGain(m.current.phases)
    ensures
      var (v, p, err) := Unpack(n, FileOf(m.current, crc), crc, true);
      var c := Calib(n.current.freq, n.current.wiring, n.current.pga, m.current.phases);
      && p.Good? && v.current == v.stored == c
      && (err == Fine ==> v.applied == c && AllHeld(v.drv.bus, c))
      && (err != Fine ==> v.applied == n.applied && v.relay == n.relay)
  {
    ParseOfPack(m.current, crc);
    var c := Calib(n.current.freq, n.current.wiring, n.current.pga, m.current.phases);
    ApplyIsAtomic(n.(stored := c, current := c), c);
  }

  lemma TagSurvives(wiring: u32)
    requires wiring <= W3P3
    ensures Wrap16(wiring) == wiring && ModeFrom(Wrap16(wiring)) == wiring
  {
  }

  lemma InstallStashes(n: Meter, phases: Phases, mode: u32)
    ensures Install(n, phases, mode, false) == (n.(stored := Calib(n.current.freq, mode, n.current.pga, phases)), Fine)
  {
  }

  /** Without apply, only the stored profile changes: the phases of the backup, the
      wiring it was taken in, and the running chip-wide settings. */
  lemma StashFromBackup(m: Meter, n: Meter, crc: seq<u8> -> u32)
    requires !HasZeroGain(m.current.phases) && m.current.wiring <= W3P3
    ensures
      Unpack(n, FileOf(m.current, crc), crc, false).0
      == n.(stored := Calib(n.current.freq, m.current.wiring, n.current.pga, m.current.phases))
  {
    ParseOfPack(m.current, crc);
    TagSurvives(m.current.wiring);
    InstallStashes(n, m.current.phases, m.current.wiring);
  }

  /** A refused file changes nothing, be it refused for its form or for an invalid
      calibration inside it. */
  lemma RefusedFileLeavesMeter(m: Meter, file: seq<u8>, crc: seq<u8> -> u32, apply: bool)
    requires var p := Parse(file, crc); p.Bad? || (p.Blob? && !Validated(p.c))
    ensures Unpack(m, file, crc, apply).0 == m
  {
  }

  /** Gain stage and line frequency stay as the meter runs them. */
  ghost predicate ChipwideKept(m: Meter, v: Meter) {
    && v.current.pga == m.current.pga && v.current.freq == m.current.freq
    && (v.stored == m.stored || (v.stored.pga == m.current.pga && v.stored.freq == m.current.freq))
  }

  lemma ApplyKeepsChipwide(m: Meter, n: Meter, c: Calib)
    requires ChipwideKept(m, n) && c.pga == m.current.pga && c.freq == m.current.freq
    ensures ChipwideKept(m, ApplyLocked(n, c).0)
  {
  }

  lemma ImportKeepsChipwide(m: Meter, c: Calib, apply: bool)
    ensures ChipwideKept(m, ImportBlob(m, c, apply).0)
  {
    if Validated(c) && apply {
      var next := Stamped(c, m.current.pga, m.current.freq);
      var n := m.(stored := next, current := next);
      ApplyKeepsChipwide(m, n, Stamped(next, next.pga, next.freq).(wiring := next.wiring));
    }
  }

  lemma InstallKeepsChipwide(m: Meter, phases: Phases, mode: u32, apply: bool)
    ensures ChipwideKept(m, Install(m, phases, mode, apply).0)
  {
    var c := Calib(m.current.freq, m.current.wiring, m.current.pga, phases);
    if apply { ApplyKeepsChipwide(m, m.(stored := c, current := c), c); }
  }

  /** Whatever a file of whatever age carries, gain stage and line frequency stay as
      the meter runs them. */
  lemma NoFileChangesChipwide(m: Meter, file: seq<u8>, crc: seq<u8> -> u32, apply: bool)
    ensures ChipwideKept(m, Unpack(m, file, crc, apply).0)
  {
    match Parse(file, crc)
    case Good(phases, mode) => InstallKeepsChipwide(m, phases, mode, apply);
    case Blob(c) => ImportKeepsChipwide(m, c, apply);
    case Bad(_) =>
  }

  lemma PayloadOfPhases(payload: seq<u8>)
    requires |payload| == PAYLOAD_LEN
    ensures Payload(PhasesFrom(payload)) == payload
  {
    var phases := PhasesFrom(payload);
    PhaseWrites(payload, 0);
    PhaseWrites(payload, 9);
    PhaseWrites(payload, 18);
    var ws := PayloadWords(phases);
    forall k | 0 <= k < 27
      ensures ws[k] == WordAt(payload, k)
    {
      var i: nat, j: nat := k / 9, k % 9;
      assert k == 9 * i + j;
      assert PhaseAt(phases[i], payload, 9 * i);
      assert WordAt(payload, 9 * i + j) == PhaseWord(phases[i], j);
    }
    BytesOfWords(payload, ws);
  }

  lemma LongParts(lo: u16, hi: u16)
    ensures Layout.Long(lo, hi) % 0x1_0000 == lo && Layout.Long(lo, hi) / 0x1_0000 == hi
  {
  }

  lemma LongIs(lo: u16, hi: u16, v: u16)
    requires Layout.Long(lo, hi) == v
    ensures lo == v && hi == 0
  {
  }

  /** Nine words that read as a packed header are the packed header. */
  lemma HeaderWordsAre(ws: seq<u16>)
    requires |ws| == 9 && ws[0] == MAGIC_LO && ws[1] == MAGIC_HI && ws[2] == HEADER_LEN && ws[4] == 0
    requires Layout.Long(ws[5], ws[6]) == PAYLOAD_LEN
    ensures ws == HeaderWords(ws[3], Layout.Long(ws[7], ws[8]))
  {
    LongIs(ws[5], ws[6], PAYLOAD_LEN);
    LongParts(ws[7], ws[8]);
  }

  function WordsOf(bs: seq<u8>, n: nat): (ws: seq<u16>)
    requires |bs| == 2 * n
    ensures |ws| == n
  {
    seq(n, k requires 0 <= k < n => WordAt(bs, k))
  }

  lemma HeaderOfHead(file: seq<u8>)
    requires |file| >= HEADER_LEN && WordAt(file, 4) == 0
    requires HeadOf(file).magicLo == MAGIC_LO && HeadOf(file).magicHi == MAGIC_HI
    requires HeadOf(file).len == HEADER_LEN && HeadOf(file).payloadLen == PAYLOAD_LEN
    ensures file[..HEADER_LEN] == Header(HeadOf(file).mode, HeadOf(file).crc)
  {
    var front := file[..HEADER_LEN];
    assert forall k: nat :: k < 9 ==> WordAt(front, k) == WordAt(file, k);
    var ws := WordsOf(front, 9);
    HeaderWordsAre(ws);
    BytesOfWords(front, ws);
  }

  /** Is this a file of the present format? */
  predicate Present(file: seq<u8>) {
    |file| == FILE_LEN && WordAt(file, 2) == HEADER_LEN
  }

  lemma PresentParses(file: seq<u8>, crc: seq<u8> -> u32)
    requires Present(file)
    ensures Parse(file, crc) == ParseBody(HeadOf(file), FILE_LEN, file[HEADER_LEN..], crc)
    ensures HeadOf(file).len == HEADER_LEN && HeadOf(file).mode == WordAt(file, 3)
  {
  }

  lemma FileIs(file: seq<u8>, mode: u16, sum: u32, phases: Phases, crc: seq<u8> -> u32)
    requires |file| == FILE_LEN && file[..HEADER_LEN] == Header(mode, sum) && file[HEADER_LEN..] == Payload(phases)
    requires mode <= W3P3 && sum == crc(Payload(phases))
    ensures file == FileOf(Calib(HZ50, mode, PGA_4X, phases), crc)
  {
    TagSurvives(mode);
    assert file == file[..HEADER_LEN] + file[HEADER_LEN..];
  }

  /** The other direction: every accepted file of the present format with a zero
      reserved word and a known wiring tag is, byte for byte, the backup of what it
      parses to. So no two such files carry the same calibration. */
  lemma PackOfParse(file: seq<u8>, crc: seq<u8> -> u32)
    requires Present(file) && Parse(file, crc).Good? && WordAt(file, 3) <= W3P3 && WordAt(file, 4) == 0
    ensures
      var p := Parse(file, crc);
      file == FileOf(Calib(HZ50, p.mode, PGA_4X, p.phases), crc)
  {
    var h, payload := HeadOf(file), file[HEADER_LEN..];
    PresentParses(file, crc);
    GoodBody(h, payload, crc);
    PayloadOfPhases(payload);
    HeaderOfHead(file);
    FileIs(file, h.mode, h.crc, PhasesFrom(payload), crc);
  }

  lemma GoodBody(h: Head, payload: seq<u8>, crc: seq<u8> -> u32)
    requires h.len == HEADER_LEN && |payload| == PAYLOAD_LEN && ParseBody(h, FILE_LEN, payload, crc).Good?
    ensures h.magicLo == MAGIC_LO && h.magicHi == MAGIC_HI && h.payloadLen == PAYLOAD_LEN && crc(payload) == h.crc
    ensures ParseBody(h, FILE_LEN, payload, crc) == Good(PhasesFrom(payload), ModeFrom(h.mode))
  {
  }

  lemma GoodIsGained(file: seq<u8>, crc: seq<u8> -> u32)
    requires Parse(file, crc).Good?
    ensures !HasZeroGain(Parse(file, crc).phases) && Parse(file, crc).mode <= W3P3
  {
  }

  /** An accepted file of phase values, however old, can be replaced by a present one:
      packed again it parses to the same phases and wiring. */
  lemma RepackReads(file: seq<u8>, crc: seq<u8> -> u32, freq: u32, pga: u32)
    requires Parse(file, crc).Good?
    ensures
      var p := Parse(file, crc);
      Parse(FileOf(Calib(freq, p.mode, pga, p.phases), crc), crc) == p
  {
    var p := Parse(file, crc);
    GoodIsGained(file, crc);
    TagSurvives(p.mode);
    ParseOfPack(Calib(freq, p.mode, pga, p.phases), crc);
  }

  /* ---- the file, byte by byte ---- */

  ghost function Pair(lo: int, hi: int): int { lo + 0x100 * hi }

  /** Two bytes at `at`, the low one first; a negative value in two's complement. */
  ghost predicate Little(bs: seq<u8>, at: nat, v: int) {
    at + 1 < |bs| && Pair(bs[at], bs[at + 1]) == if v < 0 then v + 0x1_0000 else v
  }

  ghost predicate LittleLong(bs: seq<u8>, at: nat, v: int) {
    at + 3 < |bs| && Pair(bs[at], bs[at + 1]) + 0x1_0000 * Pair(bs[at + 2], bs[at + 3]) == v
  }

  /** The nine fields of a phase, from byte `at` on. */
  ghost predicate PhaseBytes(p: Phase, bs: seq<u8>, at: nat) {
    && Little(bs, at, p.vGain) && Little(bs, at + 2, p.iGain)
    && Little(bs, at + 4, p.vOff) && Little(bs, at + 6, p.iOff)
    && Little(bs, at + 8, p.pOff) && Little(bs, at + 10, p.qOff) && Little(bs, at + 12, p.pq)
    && Little(bs, at + 14, p.phi) && Little(bs, at + 16, p.fund)
  }

  ghost predicate ThreePhases(ps: Phases, bs: seq<u8>, at: nat, stride: nat) {
    PhaseBytes(ps[0], bs, at) && PhaseBytes(ps[1], bs, at + stride) && PhaseBytes(ps[2], bs, at + 2 * stride)
  }

  /** "CALB", the lengths of both parts, the wiring and the checksum. */
  ghost predicate HeaderBytes(file: seq<u8>, mode: u16, crc: u32) {
    && |file| >= 18 && file[..4] == [0x43, 0x41, 0x4C, 0x42]
    && Little(file, 4, 18) && Little(file, 6, mode) && Little(file, 8, 0) && LittleLong(file, 10, 54)
    && LittleLong(file, 14, crc)
  }

  lemma PhaseIn(bs: seq<u8>, base: nat)
    requires 2 * (base + 8) + 1 < |bs|
    ensures PhaseBytes(PhaseFrom(bs, base), bs, 2 * base)
  {}

  lemma ShiftedPhase(p: Phase, bs: seq<u8>, at: nat, file: seq<u8>, len: nat)
    requires PhaseBytes(p, bs, at) && len <= |file| && bs == file[len..]
    ensures PhaseBytes(p, file, len + at)
  {
    assert forall k :: 0 <= k < |bs| ==> bs[k] == file[len + k];
  }

  lemma ShiftedPhases(ps: Phases, bs: seq<u8>, at: nat, stride: nat, file: seq<u8>, len: nat)
    requires ThreePhases(ps, bs, at, stride) && len <= |file| && bs == file[len..]
    ensures ThreePhases(ps, file, len + at, stride)
  {
    ShiftedPhase(ps[0], bs, at, file, len);
    ShiftedPhase(ps[1], bs, at + stride, file, len);
    ShiftedPhase(ps[2], bs, at + 2 * stride, file, len);
  }

  lemma PhaseInside(ps: Phases, i: nat, bs: seq<u8>, base: nat, at: nat)
    requires i < 3 && 2 * (base + 8) + 1 < |bs| && ps[i] == PhaseFrom(bs, base) && at == 2 * base
    ensures PhaseBytes(ps[i], bs, at)
  {
    PhaseIn(bs, base);
  }

  lemma PhasesIn(bs: seq<u8>, base: nat, stride: nat)
    requires 2 * (base + 2 * stride + 8) + 1 < |bs|
    ensures ThreePhases(PhasesAt(bs, base, stride), bs, 2 * base, 2 * stride)
  {
    var ps := PhasesAt(bs, base, stride);
    PhaseInside(ps, 0, bs, base, 2 * base);
    PhaseInside(ps, 1, bs, base + stride, 2 * base + 2 * stride);
    PhaseInside(ps, 2, bs, base + 2 * stride, 2 * base + 2 * (2 * stride));
  }

  lemma WordBytes(bs: seq<u8>, k: nat)
    requires 2 * k + 1 < |bs|
    ensures Little(bs, 2 * k, WordAt(bs, k))
  {}

  lemma HeaderIn(mode: u16, crc: u32, rest: seq<u8>)
    ensures HeaderBytes(Header(mode, crc) + rest, mode, crc)
  {
    var (ws, file) := (HeaderWords(mode, crc), Header(mode, crc) + rest);
    forall k: nat | k < 9
      ensures WordAt(file, k) == ws[k] && Little(file, 2 * k, ws[k])
    {
      WordOfBytes(ws, k);
      assert file[2 * k] == Bytes(ws)[2 * k] && file[2 * k + 1] == Bytes(ws)[2 * k + 1];
    }
    assert Little(file, 2 * 0, 0x4143) && Little(file, 2 * 1, 0x424C) && Little(file, 2 * 2, 18);
    assert Little(file, 2 * 3, mode) && Little(file, 2 * 4, 0) && Little(file, 2 * 5, 54) && Little(file, 2 * 6, 0);
    assert Little(file, 2 * 7, crc % 0x1_0000) && Little(file, 2 * 8, crc / 0x1_0000);
    FourBytes(file);
  }

  lemma FourBytes(file: seq<u8>)
    requires |file| >= 4 && Little(file, 0, 0x4143) && Little(file, 2, 0x424C)
    ensures file[..4] == [0x43, 0x41, 0x4C, 0x42]
  {}

  /** A backup, byte by byte: 72 of them, a header and three times nine little-endian
      words in the order of the phases, behind the checksum of exactly those words. */
  lemma FileByNumber(c: Calib, crc: seq<u8> -> u32)
    ensures
      var file := FileOf(c, crc);
      && |file| == 72 && HeaderBytes(file, c.wiring % 0x1_0000, crc(file[18..]))
      && ThreePhases(c.phases, file, 18, 18)
  {
    var (file, payload) := (FileOf(c, crc), Payload(c.phases));
    assert file[18..] == payload;
    HeaderIn(c.wiring % 0x1_0000, crc(payload), payload);
    PayloadRoundTrip(c.phases);
    PhasesIn(payload, 0, 9);
    ShiftedPhases(c.phases, payload, 0, 18, file, 18);
  }

  /** Where an accepted file of phase values, whose header is `len` bytes long, has them:
      packed, or in the driver's structure of a whole calibration, 28 bytes a phase. */
  ghost predicate GoodByNumber(file: seq<u8>, len: nat, phases: Phases, mode: u32) {
    && (|file| == len + 54 || |file| == len + 96)
    && ThreePhases(phases, file, if |file| == len + 54 then len else len + 12, if |file| == len + 54 then 18 else 28)
    && phases[0].vGain != 0 && phases[1].vGain != 0 && phases[2].vGain != 0
    && phases[0].iGain != 0 && phases[1].iGain != 0 && phases[2].iGain != 0
    && (mode == 1 <==> Little(file, if len == 18 then 6 else 8, 1)) && mode <= 1
  }

  /** A whole calibration behind its own magic number. */
  ghost predicate BlobByNumber(file: seq<u8>, len: nat, c: Calib) {
    && |file| == len + 100 && LittleLong(file, len, 0x9032_CA1B)
    && LittleLong(file, len + 4, c.freq) && LittleLong(file, len + 8, c.wiring) && LittleLong(file, len + 12, c.pga)
    && ThreePhases(c.phases, file, len + 16, 28)
  }

  lemma PhasesOfFile(file: seq<u8>, len: nat, payload: seq<u8>, base: nat, stride: nat, phases: Phases)
    requires len <= |file| && payload == file[len..] && 2 * (base + 2 * stride + 8) + 1 < |payload|
    requires phases == PhasesAt(payload, base, stride)
    ensures ThreePhases(phases, file, len + 2 * base, 2 * stride)
  {
    PhasesIn(payload, base, stride);
    ShiftedPhases(phases, payload, 2 * base, 2 * stride, file, len);
  }

  lemma GainedBytes(file: seq<u8>, len: nat, phases: Phases, raw: u16)
    requires |file| == len + 54 || |file| == len + 96
    requires
      var packed := |file| == len + 54;
      ThreePhases(phases, file, if packed then len else len + 12, if packed then 18 else 28)
    requires Gained(phases, raw).Good? && Little(file, if len == 18 then 6 else 8, raw)
    ensures GoodByNumber(file, len, phases, ModeFrom(raw))
  {}

  lemma GoodIs(h: Head, payload: seq<u8>)
    requires ParsePayload(h, payload).Good?
    ensures |payload| == 54 || |payload| == 96
    ensures |payload| == 54 ==> ParsePayload(h, payload) == Gained(PhasesAt(payload, 0, 9), h.mode)
    ensures |payload| == 96 ==> ParsePayload(h, payload) == Gained(PhasesAt(payload, 6, 14), h.mode)
  {}

  lemma GoodParts(phases: Phases, raw: u16)
    requires Gained(phases, raw).Good?
    ensures Gained(phases, raw) == Good(phases, ModeFrom(raw))
  {}

  lemma PackedGood(file: seq<u8>, len: nat, payload: seq<u8>, raw: u16)
    requires len <= |file| && payload == file[len..] && |payload| == 54
    requires Gained(PhasesAt(payload, 0, 9), raw).Good? && Little(file, if len == 18 then 6 else 8, raw)
    ensures GoodByNumber(file, len, PhasesAt(payload, 0, 9), ModeFrom(raw))
  {
    PhasesOfFile(file, len, payload, 0, 9, PhasesAt(payload, 0, 9));
    GainedBytes(file, len, PhasesAt(payload, 0, 9), raw);
  }

  lemma RecordGood(file: seq<u8>, len: nat, payload: seq<u8>, raw: u16)
    requires len <= |file| && payload == file[len..] && |payload| == 96
    requires Gained(PhasesAt(payload, 6, 14), raw).Good? && Little(file, if len == 18 then 6 else 8, raw)
    ensures GoodByNumber(file, len, PhasesAt(payload, 6, 14), ModeFrom(raw))
  {
    PhasesOfFile(file, len, payload, 6, 14, PhasesAt(payload, 6, 14));
    GainedBytes(file, len, PhasesAt(payload, 6, 14), raw);
  }

  lemma GoodBytes(file: seq<u8>, h: Head, payload: seq<u8>, p: Parsed)
    requires h.len <= |file| && payload == file[h.len..] && p == ParsePayload(h, payload) && p.Good?
    requires Little(file, if h.len == 18 then 6 else 8, h.mode)
    ensures GoodByNumber(file, h.len, p.phases, p.mode)
  {
    GoodIs(h, payload);
    if |payload| == 54 {
      PackedGood(file, h.len, payload, h.mode);
      GoodParts(PhasesAt(payload, 0, 9), h.mode);
    } else {
      RecordGood(file, h.len, payload, h.mode);
      GoodParts(PhasesAt(payload, 6, 14), h.mode);
    }
  }

  lemma LongIn(payload: seq<u8>, k: nat, file: seq<u8>, len: nat)
    requires len <= |file| && payload == file[len..] && 2 * k + 3 < |payload|
    ensures LittleLong(file, len + 2 * k, LongAt(payload, k))
  {
    assert payload[2 * k] == file[len + 2 * k] && payload[2 * k + 1] == file[len + 2 * k + 1];
    assert payload[2 * k + 2] == file[len + 2 * k + 2] && payload[2 * k + 3] == file[len + 2 * k + 3];
  }

  lemma BlobIs(h: Head, payload: seq<u8>)
    requires ParsePayload(h, payload).Blob?
    ensures |payload| == 100 && LongAt(payload, 0) == 0x9032_CA1B
    ensures
      ParsePayload(h, payload)
      == Blob(Calib(LongAt(payload, 2), LongAt(payload, 4), LongAt(payload, 6), PhasesAt(payload, 8, 14)))
  {}

  lemma BlobStands(file: seq<u8>, len: nat, payload: seq<u8>, c: Calib)
    requires len <= |file| && payload == file[len..] && |payload| == 100 && LongAt(payload, 0) == 0x9032_CA1B
    requires c.freq == LongAt(payload, 2) && c.wiring == LongAt(payload, 4) && c.pga == LongAt(payload, 6)
    requires ThreePhases(c.phases, file, len + 16, 28)
    ensures BlobByNumber(file, len, c)
  {
    LongIn(payload, 0, file, len);
    LongIn(payload, 2, file, len);
    LongIn(payload, 4, file, len);
    LongIn(payload, 6, file, len);
  }

  lemma BlobBytes(file: seq<u8>, h: Head, payload: seq<u8>, p: Parsed)
    requires h.len <= |file| && payload == file[h.len..] && p == ParsePayload(h, payload) && p.Blob?
    ensures BlobByNumber(file, h.len, p.c)
  {
    BlobIs(h, payload);
    PhasesOfFile(file, h.len, payload, 8, 14, PhasesAt(payload, 8, 14));
    BlobStands(file, h.len, payload, p.c);
  }

  /** Every accepted file names itself, has a header of 18 or 20 bytes that gives its length,
      and the checksum of what follows; and what it parses to stands in it, byte by byte. */
  ghost predicate AcceptedByNumber(file: seq<u8>, crc: seq<u8> -> u32, p: Parsed) {
    && |file| >= 18 && file[..4] == [0x43, 0x41, 0x4C, 0x42]
    && (Little(file, 4, 18) || (|file| >= 20 && Little(file, 4, 20)))
    && (var len := if Little(file, 4, 18) then 18 else 20;
        && len <= |file| && LittleLong(file, len - 8, |file| - len) && LittleLong(file, len - 4, crc(file[len..]))
        && (p.Good? ==> GoodByNumber(file, len, p.phases, p.mode))
        && (p.Blob? <==> len == 20 && |file| == 120) && (len == 20 && Little(file, 6, 1) ==> p.Blob?)
        && (p.Blob? ==> BlobByNumber(file, len, p.c)))
  }

  lemma HeadBytes(file: seq<u8>)
    requires |file| >= 18 && HeadOf(file).len == 18
    ensures
      var h := HeadOf(file);
      && Little(file, 0, h.magicLo) && Little(file, 2, h.magicHi) && Little(file, 4, 18) && Little(file, 6, h.mode)
      && LittleLong(file, 10, h.payloadLen) && LittleLong(file, 14, h.crc)
  {
    LongIn(file, 5, file, 0);
    LongIn(file, 7, file, 0);
  }

  lemma OldHeadBytes(file: seq<u8>)
    requires |file| >= 20 && HeadOf(file).len == 20
    ensures
      var h := HeadOf(file);
      && Little(file, 0, h.magicLo) && Little(file, 2, h.magicHi) && Little(file, 4, 20)
      && Little(file, 6, h.version) && Little(file, 8, h.mode)
      && LittleLong(file, 12, h.payloadLen) && LittleLong(file, 16, h.crc)
  {
    LongIn(file, 6, file, 0);
    LongIn(file, 8, file, 0);
  }

  lemma ParsedByNumber(file: seq<u8>, crc: seq<u8> -> u32)
    requires !Parse(file, crc).Bad?
    ensures AcceptedByNumber(file, crc, Parse(file, crc))
  {
    var h := HeadOf(file);
    var payload := file[h.len..];
    if h.len == 18 { HeadBytes(file); } else { OldHeadBytes(file); }
    FourBytes(file);
    assert Parse(file, crc) == ParsePayload(h, payload);
    match Parse(file, crc)
    case Good(_, _) => GoodBytes(file, h, payload, Parse(file, crc));
    case Blob(_) => BlobBytes(file, h, payload, Parse(file, crc));
  }

  /** Why a file is refused, in the order of the checks: fewer than 18 bytes, another name, a
      header of another length, an unknown version in an old header, a length that does
      not add up, a wrong checksum. */
  lemma RefusedInOrder(file: seq<u8>, crc: seq<u8> -> u32)
    ensures |file| < 18 <==> Parse(file, crc) == Bad(TooSmall)
    ensures |file| >= 18 && file[..4] != [0x43, 0x41, 0x4C, 0x42] ==> Parse(file, crc) == Bad(BadMagic)
    ensures |file| >= 18 && file[..4] == [0x43, 0x41, 0x4C, 0x42] ==>
      (Parse(file, crc) == Bad(BadHeader) <==> !Little(file, 4, 18) && !Little(file, 4, 20))
    ensures |file| >= 18 && file[..4] == [0x43, 0x41, 0x4C, 0x42] && Little(file, 4, 20) ==>
      (Parse(file, crc) == Bad(BadVersion) <==> !Little(file, 6, 1) && !Little(file, 6, 2) && !Little(file, 6, 3))
    ensures Parse(file, crc) == Bad(BadCrc) ==>
      var len := if Little(file, 4, 18) then 18 else 20;
      len <= |file| && !LittleLong(file, len - 4, crc(file[len..]))
  {
    if |file| >= 18 {
      var h := HeadOf(file);
      if h.len == 18 { HeadBytes(file); }
      if h.len == 20 && |file| >= 20 { OldHeadBytes(file); }
      WordBytes(file, 0);
      WordBytes(file, 1);
      WordBytes(file, 2);
      WordBytes(file, 3);
      if Little(file, 0, 0x4143) && Little(file, 2, 0x424C) { FourBytes(file); }
    }
  }
}
