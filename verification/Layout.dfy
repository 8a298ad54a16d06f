/** Byte layouts: blocks laid end to end at known offsets, fixed-width text fields
    and little-endian numbers inside them. */
module Layout {
  import opened CInt

  type Bytes = seq<u8>

  /** Text as C sees it: it ends before the first zero byte. */
  type Text = s: Bytes | 0 !in s

  function Zeros(n: nat): (z: Bytes)
    ensures |z| == n
  {
    seq(n, i => 0)
  }

  /* ---- blocks end to end ---- */

  function Join(blocks: seq<Bytes>): Bytes {
    if blocks == [] then [] else Join(blocks[..|blocks| - 1]) + blocks[|blocks| - 1]
  }

  /** Block `i` runs from `starts[i]` to `starts[i + 1]`. */
  ghost predicate Fits(blocks: seq<Bytes>, starts: seq<nat>) {
    && |starts| == |blocks| + 1 && starts[0] == 0
    && forall i :: 0 <= i < |blocks| ==> starts[i + 1] == starts[i] + |blocks[i]|
  }

  /** `b` holds `x` at offset `o`. */
  ghost predicate Holds(b: Bytes, o: nat, x: Bytes) {
    o + |x| <= |b| && b[o..o + |x|] == x
  }

  lemma HoldsAt(b: Bytes, o: nat, x: Bytes, k: nat)
    requires Holds(b, o, x) && k < |x|
    ensures b[o + k] == x[k]
  {
    assert b[o..o + |x|][k] == x[k];
  }

  lemma HoldsInside(b: Bytes, o: nat, x: Bytes, p: nat, y: Bytes)
    requires Holds(b, o, x) && Holds(x, p, y)
    ensures Holds(b, o + p, y)
  {
    forall k | 0 <= k < |y|
      ensures b[o + p + k] == y[k]
    {
      HoldsAt(b, o, x, p + k);
      HoldsAt(x, p, y, k);
    }
  }

  lemma {:induction false} JoinLength(blocks: seq<Bytes>, starts: seq<nat>)
    requires Fits(blocks, starts)
    ensures |Join(blocks)| == starts[|blocks|]
    decreases |blocks|
  {
    if blocks != [] { JoinLength(blocks[..|blocks| - 1], starts[..|blocks|]); }
  }

  /** Every block is found at its own offset. */
  lemma {:induction false} JoinHolds(blocks: seq<Bytes>, starts: seq<nat>, i: nat)
    requires Fits(blocks, starts) && i < |blocks|
    ensures Holds(Join(blocks), starts[i], blocks[i])
    decreases |blocks|
  {
    var n := |blocks| - 1;
    JoinLength(blocks[..n], starts[..n + 1]);
    if i < n {
      JoinHolds(blocks[..n], starts[..n + 1], i);
      var front := Join(blocks[..n]);
      assert Join(blocks)[starts[i]..starts[i] + |blocks[i]|] == front[starts[i]..starts[i] + |blocks[i]|];
    }
  }

  /* ---- numbers ---- */

  function Word(lo: int, hi: int): u16
    requires 0 <= lo < 0x100 && 0 <= hi < 0x100
  {
    lo + 0x100 * hi
  }

  function Lo(x: u16): u8 { x % 0x100 }

  function Hi(x: u16): u8 { x / 0x100 }

  lemma WordParts(x: u16)
    ensures Word(Lo(x), Hi(x)) == x
  {
  }

  function U16(b: Bytes, o: nat): u16
    requires o + 2 <= |b|
  {
    Word(b[o], b[o + 1])
  }

  function Long(lo: int, hi: int): u32
    requires 0 <= lo < 0x1_0000 && 0 <= hi < 0x1_0000
  {
    lo + 0x1_0000 * hi
  }

  function U32(b: Bytes, o: nat): u32
    requires o + 4 <= |b|
  {
    Long(U16(b, o), U16(b, o + 2))
  }

  function Low16(x: u32): u16 { x % 0x1_0000 }

  function High16(x: u32): u16 { x / 0x1_0000 }

  function Le16(x: u16): (bs: Bytes)
    ensures |bs| == 2
  {
    [Lo(x), Hi(x)]
  }

  function Le32(x: u32): (bs: Bytes)
    ensures |bs| == 4
  {
    [Lo(Low16(x)), Hi(Low16(x)), Lo(High16(x)), Hi(High16(x))]
  }

  lemma Read16(b: Bytes, o: nat, x: u16)
    requires Holds(b, o, Le16(x))
    ensures U16(b, o) == x
  {
    HoldsAt(b, o, Le16(x), 0);
    HoldsAt(b, o, Le16(x), 1);
    WordParts(x);
  }

  lemma Read32(b: Bytes, o: nat, x: u32)
    requires Holds(b, o, Le32(x))
    ensures U32(b, o) == x
  {
    HoldsAt(b, o, Le32(x), 0);
    HoldsAt(b, o, Le32(x), 1);
    HoldsAt(b, o, Le32(x), 2);
    HoldsAt(b, o, Le32(x), 3);
    WordParts(Low16(x));
    WordParts(High16(x));
  }

  /* ---- text fields ---- */

  /** At most `w - 1` bytes of a text survive a field of `w`. */
  function Cut(t: Text, w: nat): Text
    requires w > 0
  {
    if |t| < w then t else t[..w - 1]
  }

  /** The text, then zeros to the end of the field. */
  function Field(t: Text, w: nat): (bs: Bytes)
    requires w > 0
    ensures |bs| == w
  {
    Cut(t, w) + Zeros(w - |Cut(t, w)|)
  }

  /** The bytes before the first zero. */
  function Until(bs: Bytes): (t: Text)
    ensures |t| <= |bs|
  {
    if bs == [] || bs[0] == 0 then [] else [bs[0]] + Until(bs[1..])
  }

  function TextAt(b: Bytes, o: nat, w: nat): Text
    requires w > 0 && o + w <= |b|
  {
    Cut(Until(b[o..o + w]), w)
  }

  lemma {:induction false} UntilStops(t: Text, z: Bytes)
    requires z == [] || z[0] == 0
    ensures Until(t + z) == t
    decreases |t|
  {
    if t == [] {
      assert t + z == z;
    } else {
      assert (t + z)[1..] == t[1..] + z;
      UntilStops(t[1..], z);
    }
  }

  lemma ReadText(b: Bytes, o: nat, t: Text, w: nat)
    requires w > 0 && Holds(b, o, Field(t, w))
    ensures TextAt(b, o, w) == Cut(t, w)
  {
    UntilStops(Cut(t, w), Zeros(w - |Cut(t, w)|));
  }

  /** Offsets of a table of text fields, and its end. */
  ghost predicate Offsets(starts: seq<nat>) {
    |starts| > 0 && starts[0] == 0 && forall i :: 0 <= i < |starts| - 1 ==> starts[i] < starts[i + 1]
  }

  function Width(starts: seq<nat>, i: nat): nat
    requires i < |starts| - 1 && starts[i] < starts[i + 1]
    ensures Width(starts, i) > 0
  {
    starts[i + 1] - starts[i]
  }

  function Fields(ts: seq<Text>, starts: seq<nat>): (fs: seq<Bytes>)
    requires Offsets(starts) && |starts| == |ts| + 1
    ensures |fs| == |ts| && Fits(fs, starts)
  {
    seq(|ts|, i requires 0 <= i < |ts| => Field(ts[i], Width(starts, i)))
  }

  function Cuts(ts: seq<Text>, starts: seq<nat>): (cs: seq<Text>)
    requires Offsets(starts) && |starts| == |ts| + 1
    ensures |cs| == |ts|
  {
    seq(|ts|, i requires 0 <= i < |ts| => Cut(ts[i], Width(starts, i)))
  }

  function FieldAt(b: Bytes, o: nat, starts: seq<nat>, i: nat): Text
    requires Offsets(starts) && i < |starts| - 1
  {
    if o + starts[i + 1] <= |b| then TextAt(b, o + starts[i], Width(starts, i)) else []
  }

  function TextsAt(b: Bytes, o: nat, starts: seq<nat>): (ts: seq<Text>)
    requires Offsets(starts)
    ensures |ts| == |starts| - 1
  {
    seq(|starts| - 1, i requires 0 <= i < |starts| - 1 => FieldAt(b, o, starts, i))
  }

  lemma ReadField(b: Bytes, o: nat, ts: seq<Text>, starts: seq<nat>, i: nat)
    requires Offsets(starts) && |starts| == |ts| + 1 && i < |ts|
    requires Holds(b, o, Join(Fields(ts, starts)))
    ensures FieldAt(b, o, starts, i) == Cut(ts[i], Width(starts, i))
  {
    var blocks := Fields(ts, starts);
    JoinHolds(blocks, starts, i);
    HoldsInside(b, o, Join(blocks), starts[i], blocks[i]);
    ReadText(b, o + starts[i], ts[i], Width(starts, i));
  }

  /** A table of texts reads back as the texts, each cut to its field. */
  lemma ReadTexts(b: Bytes, o: nat, ts: seq<Text>, starts: seq<nat>)
    requires Offsets(starts) && |starts| == |ts| + 1
    requires Holds(b, o, Join(Fields(ts, starts)))
    ensures TextsAt(b, o, starts) == Cuts(ts, starts)
  {
    forall i: nat | i < |ts| { ReadField(b, o, ts, starts, i); }
  }
}
