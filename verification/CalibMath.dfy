/** The four open-coded roundings of the calibration: voltage and current gain,
    PQ gain, phase compensation and the averaged power. All are 64-bit integer
    divisions that round to the nearest integer. */
module CalibMath {
  import opened CInt
  import opened Options

  datatype Error = InvalidArg | InvalidSize | InvalidResponse

  datatype Result<T> = Ok(value: T) | Err(error: Error)

  /** The value a 64-bit signed register holds for `x`. */
  function Wrap64(x: int): i64 {
    (x + 0x8000_0000_0000_0000) % 0x1_0000_0000_0000_0000 - 0x8000_0000_0000_0000
  }

  lemma Wrap64Keeps(x: int)
    ensures Wrap64(x) == x <==> -INT64_MAX - 1 <= x <= INT64_MAX
  {
  }

  /** `q` is the integer nearest to `n / d`; of two equally near ones, the one
      farther from zero. */
  predicate IsNearest(q: int, n: int, d: int)
    requires d > 0
  {
    || 2 * Abs(n - q * d) < d
    || (2 * Abs(n - q * d) == d && Abs(q) * d > Abs(n))
  }

  /** The quotient moved one away from zero when the remainder weighs half the
      divisor or more: `q += n >= 0 ? 1 : -1`. */
  function RoundDiv(n: int, d: int): int
    requires d > 0
  {
    if 2 * Abs(CMod(n, d)) >= d then CDiv(n, d) + (if n >= 0 then 1 else -1) else CDiv(n, d)
  }

  lemma Opposite(n: int, d: int)
    requires d > 0
    ensures CDiv(-n, d) == -CDiv(n, d) && CMod(-n, d) == -CMod(n, d)
    ensures RoundDiv(-n, d) == -RoundDiv(n, d)
  {
  }

  lemma RoundsUp(n: int, d: int, q: int, r: int)
    requires d > 0 && q >= 0 && n == q * d + r && 0 <= r < d
    ensures IsNearest(if 2 * r >= d then q + 1 else q, n, d)
  {
    assert q * d >= 0;
    if 2 * r >= d {
      assert (q + 1) * d == q * d + d;
      assert n - (q + 1) * d == r - d;
    }
  }

  lemma QuotientOfNonNegative(n: int, d: int)
    requires d > 0 && n >= 0
    ensures CDiv(n, d) >= 0 && 0 <= CMod(n, d) < d && n == CDiv(n, d) * d + CMod(n, d)
  {
    CDivTruncates(n, d);
  }

  lemma RoundsNonNegative(n: int, d: int)
    requires d > 0 && n >= 0
    ensures IsNearest(RoundDiv(n, d), n, d) && RoundDiv(n, d) >= 0
  {
    QuotientOfNonNegative(n, d);
    RoundsUp(n, d, CDiv(n, d), CMod(n, d));
  }

  lemma Mirror(q: int, n: int, d: int)
    requires d > 0 && IsNearest(q, n, d)
    ensures IsNearest(-q, -n, d)
  {
    assert (-q) * d == -(q * d);
  }

  /** Rounding is symmetric about zero and always lands on the nearest integer. */
  lemma RoundDivIsNearest(n: int, d: int)
    requires d > 0
    ensures IsNearest(RoundDiv(n, d), n, d)
    ensures RoundDiv(-n, d) == -RoundDiv(n, d)
  {
    Opposite(n, d);
    if n >= 0 {
      RoundsNonNegative(n, d);
    } else {
      RoundsNonNegative(-n, d);
      Mirror(RoundDiv(-n, d), -n, d);
    }
  }

  /** Two integers can only be equally near half-way between them, and then just
      one of the two is farther from zero. */
  lemma NotBothNearest(p: int, q: int, n: int, d: int)
    requires d > 0 && p < q && IsNearest(p, n, d)
    ensures !IsNearest(q, n, d)
  {
    assert q * d - p * d == (q - p) * d;
    MulAtLeast(q - p, d);
    if p >= 0 {
      assert p * d >= 0;
    } else if q <= 0 {
      assert q * d <= 0 && Abs(q) * d == -(q * d);
    } else {
      assert p * d <= -d && q * d >= d;
    }
  }

  lemma NearestIsUnique(p: int, q: int, n: int, d: int)
    requires d > 0 && IsNearest(p, n, d) && IsNearest(q, n, d)
    ensures p == q
  {
    if p < q { NotBothNearest(p, q, n, d); }
    if q < p { NotBothNearest(q, p, n, d); }
  }

  lemma NearestIff(q: int, n: int, d: int)
    requires d > 0
    ensures IsNearest(q, n, d) <==> q == RoundDiv(n, d)
  {
    RoundDivIsNearest(n, d);
    if IsNearest(q, n, d) { NearestIsUnique(q, RoundDiv(n, d), n, d); }
  }

  /* ---- voltage and current gain ---- */

  /** The new gain from micro-unit integers, in 64-bit arithmetic as the code
      does it, with the range check on the result. */
  function Gain(oldGain: u16, refU: i64, measU: i64): Result<u16> {
    if oldGain == 0 || refU <= 0 || measU <= 0 then Err(InvalidArg)
    else
      var numerator := Wrap64(oldGain * refU);
      var quotient := CDiv(numerator, measU);
      var rounded := if Wrap64(2 * CMod(numerator, measU)) >= measU then quotient + 1 else quotient;
      if 1 <= rounded <= 0xFFFF then Ok(rounded) else Err(InvalidSize)
  }

  /** While the product and the doubled remainder fit 64 bits, the gain is the
      nearest integer to `oldGain * ref / meas`, and is refused exactly when that
      integer is not a gain between 1 and 65535. */
  lemma GainIsNearest(oldGain: u16, refU: i64, measU: i64, g: int)
    requires oldGain > 0 && refU > 0 && measU > 0
    requires oldGain * refU <= INT64_MAX && 2 * measU <= INT64_MAX
    ensures Gain(oldGain, refU, measU) == Ok(g) <==> 1 <= g <= 0xFFFF && IsNearest(g, oldGain * refU, measU)
    ensures Gain(oldGain, refU, measU) == Err(InvalidSize) <==> !(1 <= RoundDiv(oldGain * refU, measU) <= 0xFFFF)
  {
    var n := oldGain * refU;
    assert n >= 0;
    CDivTruncates(n, measU);
    Wrap64Keeps(n);
    Wrap64Keeps(2 * CMod(n, measU));
    NearestIff(g, n, measU);
  }

  lemma Wrap64Moves(x: int)
    ensures Wrap64(x) == x || Abs(Wrap64(x) - x) >= 0x1_0000_0000_0000_0000
  {
  }

  /** Numbers a whole divisor apart or more do not round alike. */
  lemma FarApart(q: int, n: int, m: int, d: int)
    requires d > 0 && IsNearest(q, n, d) && Abs(n - m) > d
    ensures !IsNearest(q, m, d)
  {
  }

  lemma RoundsNonPositive(n: int, d: int)
    requires d > 0 && n < 0
    ensures RoundDiv(n, d) <= 0 && CDiv(n, d) <= 0 && CMod(n, d) <= 0
  {
    Opposite(-n, d);
    RoundsNonNegative(-n, d);
    CDivTruncates(n, d);
    assert CDiv(-n, d) >= 0;
  }

  /** What the code accepts, for any gain and reference and any reading whose double
      fits 64 bits: the rounding of the wrapped product, when that is a gain. */
  lemma GainOfWrapped(oldGain: u16, refU: i64, measU: i64, g: int)
    requires oldGain > 0 && refU > 0 && measU > 0 && 2 * measU <= INT64_MAX
    ensures Gain(oldGain, refU, measU) == Ok(g) <==>
              1 <= g <= 0xFFFF && g == RoundDiv(Wrap64(oldGain * refU), measU)
  {
    var n := Wrap64(oldGain * refU);
    CDivTruncates(n, measU);
    Wrap64Keeps(2 * CMod(n, measU));
    if n < 0 { RoundsNonPositive(n, measU); }
  }

  lemma RoundsInRange(n: int, d: int, top: nat)
    requires d > 0
    ensures 1 <= RoundDiv(n, d) <= top <==> d <= 2 * n < (2 * top + 1) * d
  {
    if n < 0 {
      RoundsNonPositive(n, d);
    } else {
      QuotientOfNonNegative(n, d);
      var q, r := CDiv(n, d), CMod(n, d);
      InRange(q, r, n, d, top);
    }
  }

  /** A quotient and remainder on either side of the bounds. */
  lemma InRange(q: int, r: int, n: int, d: int, top: nat)
    requires d > 0 && q >= 0 && n == q * d + r && 0 <= r < d
    ensures 1 <= (if 2 * r >= d then q + 1 else q) <= top <==> d <= 2 * n < (2 * top + 1) * d
  {
    assert (2 * top + 1) * d == 2 * (top * d) + d;
    if q >= 1 { MulAtLeast(q, d); }
    if q < top { MulAtLeast(top - q, d); } else if q > top { MulAtLeast(q - top, d); }
    assert (top - q) * d == top * d - q * d && (q - top) * d == q * d - top * d;
  }

  /** When the code is right, exactly. A gain that exists is found if and only if
      the product fits 64 bits; and where no gain exists, the code refuses if and only
      if the wrapped product is below half a reading or no less than 65535.5 readings. */
  lemma GainIsRightExactly(oldGain: u16, refU: i64, measU: i64)
    requires oldGain > 0 && refU > 0 && measU > 0 && 2 * measU <= INT64_MAX
    ensures
      var (n, q) := (oldGain * refU, RoundDiv(oldGain * refU, measU));
      && (1 <= q <= 0xFFFF ==> (Gain(oldGain, refU, measU) == Ok(q) <==> n <= INT64_MAX))
      && (!(1 <= q <= 0xFFFF) ==>
            (Gain(oldGain, refU, measU).Err? <==> 2 * Wrap64(n) < measU || 2 * Wrap64(n) >= 131071 * measU))
  {
    var n := oldGain * refU;
    var q := RoundDiv(n, measU);
    assert n >= 0;
    Wrap64Keeps(n);
    Wrap64Moves(n);
    GainOfWrapped(oldGain, refU, measU, q);
    GainOfWrapped(oldGain, refU, measU, RoundDiv(Wrap64(n), measU));
    RoundDivIsNearest(n, measU);
    RoundDivIsNearest(Wrap64(n), measU);
    if n > INT64_MAX { FarApart(q, n, Wrap64(n), measU); }
    GainRefusesOtherwise(oldGain, refU, measU);
    RoundsInRange(Wrap64(n), measU, 0xFFFF);
  }

  lemma GainRefusesOtherwise(oldGain: u16, refU: i64, measU: i64)
    requires oldGain > 0 && refU > 0 && measU > 0 && 2 * measU <= INT64_MAX
    ensures Gain(oldGain, refU, measU).Err? <==> !(1 <= RoundDiv(Wrap64(oldGain * refU), measU) <= 0xFFFF)
  {
    var g := Gain(oldGain, refU, measU);
    if g.Ok? { GainOfWrapped(oldGain, refU, measU, g.value); }
    GainOfWrapped(oldGain, refU, measU, RoundDiv(Wrap64(oldGain * refU), measU));
  }

  lemma QuotientIs(n: nat, d: int, q: int, r: int)
    requires d > 0 && n == q * d + r && 0 <= r < d
    ensures CDiv(n, d) == q && CMod(n, d) == r
  {
    CDivTruncates(n, d);
    DivisionIsUnique(CDiv(n, d), q, d, CMod(n, d), r);
  }

  /** A reference typed too large is caught by the range check only by luck: 562950016
      units against a reading of 230 come out as gain 8916, while the true quotient
      is far beyond any gain. */
  lemma HugeReferenceIsAccepted()
    ensures Gain(0x8000, 562_950_016_000_000, 230_000_000) == Ok(8916)
    ensures RoundDiv(0x8000 * 562_950_016_000_000, 230_000_000) > 0xFFFF
  {
    QuotientIs(2_050_578_448_384, 230_000_000, 8915, 128_448_384);
    QuotientIs(18_446_746_124_288_000_000, 230_000_000, 80_203_244_018, 148_000_000);
  }

  /** The opposite failure needs a reading just as large: there a reference of 2^49
      micro-units overflows the product, and a perfectly good gain is refused. */
  lemma HugeReferenceOverflows()
    ensures
      var u := 0x2_0000_0000_0000;
      && Gain(0x8000, u, u) == Err(InvalidSize)
      && IsNearest(0x8000, 0x8000 * u, u)
      && 0x8000 * u > INT64_MAX
  {
  }

  /** References up to 140 million volts or amperes never overflow, for any gain. */
  lemma OrdinaryReferencesFit(oldGain: u16, refU: int)
    requires 0 <= refU <= 140_000_000 * 1_000_000
    ensures oldGain * refU <= INT64_MAX
  {
    assert oldGain * refU <= 0xFFFF * refU;
  }

  /** What the channel samples once the gain is `g`, if it is linear in its gain. */
  function Sampled(measU: int, oldGain: u16, g: int): real
    requires oldGain > 0
  {
    (measU * g) as real / oldGain as real
  }

  lemma Scaled(a: int, b: int, o: int)
    requires o > 0
    ensures a as real / o as real - b as real == (a - b * o) as real / o as real
  {
    assert (a - b * o) as real == a as real - b as real * o as real;
    assert b as real * o as real / o as real == b as real;
  }

  lemma DivMono(a: int, b: int, o: int)
    requires o > 0 && a <= b
    ensures a as real / o as real <= b as real / o as real
  {
  }

  function RealAbs(x: real): real { if x < 0.0 then -x else x }

  lemma AbsOfQuotient(a: int, o: int)
    requires o > 0
    ensures RealAbs(a as real / o as real) == Abs(a) as real / o as real
  {
    if a >= 0 { assert a as real / o as real >= 0.0; } else { assert a as real / o as real < 0.0; }
  }

  /** On a linear channel one shot of the formula leaves a residual of at most
      half a gain step, and no other gain leaves less. */
  lemma ResidualIsLeast(oldGain: u16, refU: int, measU: int, g: int, other: int)
    requires oldGain > 0 && measU > 0 && IsNearest(g, oldGain * refU, measU)
    ensures RealAbs(Sampled(measU, oldGain, g) - refU as real) <= measU as real / (2 * oldGain) as real
    ensures RealAbs(Sampled(measU, oldGain, g) - refU as real) <= RealAbs(Sampled(measU, oldGain, other) - refU as real)
  {
    var n := oldGain * refU;
    Scaled(measU * g, refU, oldGain);
    Scaled(measU * other, refU, oldGain);
    AbsOfQuotient(measU * g - refU * oldGain, oldGain);
    AbsOfQuotient(measU * other - refU * oldGain, oldGain);
    assert Abs(measU * g - refU * oldGain) == Abs(n - g * measU);
    assert Abs(measU * other - refU * oldGain) == Abs(n - other * measU);
    NearestIsLeast(g, other, n, measU);
    DivMono(Abs(n - g * measU), Abs(n - other * measU), oldGain);
    DivMono(2 * Abs(n - g * measU), measU, 2 * oldGain);
    Doubled(Abs(n - g * measU), oldGain);
  }

  lemma Doubled(a: int, o: int)
    requires o > 0
    ensures (2 * a) as real / (2 * o) as real == a as real / o as real
  {
  }

  lemma NearestIsLeast(q: int, other: int, n: int, d: int)
    requires d > 0 && IsNearest(q, n, d)
    ensures Abs(n - q * d) <= Abs(n - other * d)
  {
    if other < q {
      assert q * d - other * d == (q - other) * d;
      MulAtLeast(q - other, d);
    } else if other > q {
      assert other * d - q * d == (other - q) * d;
      MulAtLeast(other - q, d);
    }
  }

  /* ---- from readings to micro-units ---- */

  /** Readings and references whose micro-units fit 64 bits. */
  type Reading = r: real | -9.0e12 <= r <= 9.0e12 witness 0.0

  /** `llround`: to the nearest integer, half away from zero. */
  function LlRound(x: real): int {
    if x >= 0.0 then (x + 0.5).Floor else -((-x + 0.5).Floor)
  }

  lemma LlRoundIsNearest(x: real)
    ensures LlRound(x) as real - 0.5 <= x <= LlRound(x) as real + 0.5
    ensures LlRound(-x) == -LlRound(x)
  {
  }

  function Micro(x: Reading): i64 { LlRound(x * 1000000.0) }

  /** The whole gain calculation, from a reference and a reading in units. */
  function CalculateGain(oldGain: u16, reference: Reading, measured: Reading): Result<u16> {
    if oldGain == 0 || reference <= 0.0 || measured <= 0.0 then Err(InvalidArg)
    else Gain(oldGain, Micro(reference), Micro(measured))
  }

  lemma MicroIsNearest(x: Reading)
    ensures Micro(x) as real - 0.5 <= x * 1000000.0 <= Micro(x) as real + 0.5
    ensures Micro(x) > 0 <==> x * 1000000.0 >= 0.5
    ensures x <= 4.0e12 ==> 2 * Micro(x) <= INT64_MAX
  {
    LlRoundIsNearest(x * 1000000.0);
  }

  /** The whole calculation, for every reference and reading: either below half a
      micro-unit is refused as no reading at all, and otherwise, while the product
      fits 64 bits, the gain is the nearest to the quotient of two numbers that lie
      within half a micro-unit of reference and reading. */
  lemma CalculatedGainIsNearest(oldGain: u16, reference: Reading, measured: Reading, g: int)
    requires oldGain > 0 && measured <= 4.0e12
    ensures CalculateGain(oldGain, reference, measured) == Err(InvalidArg) <==>
              reference * 1000000.0 < 0.5 || measured * 1000000.0 < 0.5
    ensures
      var (r, m) := (Micro(reference), Micro(measured));
      && r as real - 0.5 <= reference * 1000000.0 <= r as real + 0.5
      && m as real - 0.5 <= measured * 1000000.0 <= m as real + 0.5
      && (r > 0 && m > 0 && oldGain * r <= INT64_MAX ==>
            (CalculateGain(oldGain, reference, measured) == Ok(g) <==>
               1 <= g <= 0xFFFF && IsNearest(g, oldGain * r, m)))
  {
    MicroIsNearest(reference);
    MicroIsNearest(measured);
    var (r, m) := (Micro(reference), Micro(measured));
    if r > 0 && m > 0 && oldGain * r <= INT64_MAX { GainIsNearest(oldGain, r, m, g); }
  }

  /* ---- PQ gain ---- */

  const MAX_REF_MW := 1_000_000_000

  /** The power gain register for a reference and a reading in milliwatts. */
  function PqGain(old16: i16, prefMw: int, pchipMw: i64): Result<i16>
    requires 0 < prefMw <= MAX_REF_MW
  {
    if pchipMw <= 0 then Err(InvalidResponse)
    else
      var numerator := Wrap64((32768 + old16) * prefMw);
      var quotient := CDiv(numerator, pchipMw);
      var rounded :=
        if Wrap64(2 * Abs(CMod(numerator, pchipMw))) >= pchipMw
        then quotient + (if numerator >= 0 then 1 else -1) else quotient;
      var new64 := rounded - 32768;
      if -0x8000 <= new64 < 0x8000 then Ok(new64) else Err(InvalidSize)
  }

  lemma PqProductFits(old16: i16, prefMw: int)
    requires 0 < prefMw <= MAX_REF_MW
    ensures 0 <= (32768 + old16) * prefMw <= 65535 * MAX_REF_MW
  {
    assert (32768 + old16) * prefMw <= 65535 * prefMw;
  }

  /** A remainder never outweighs its dividend. */
  lemma RemainderIsSmall(n: int, d: int)
    requires n >= 0 && d > 0
    ensures 0 <= CMod(n, d) <= n
  {
    CDivTruncates(n, d);
    assert n / d >= 0;
    assert n / d * d >= 0;
  }

  /** For every register value, reference up to 1 MW and positive reading the PQ
      gain composes the old factor with `ref / chip`, rounded to the nearest
      step; only a factor of two or more is refused. No 64-bit step overflows. */
  lemma PqGainIsNearest(old16: i16, prefMw: int, pchipMw: i64, v: int)
    requires 0 < prefMw <= MAX_REF_MW && pchipMw > 0
    ensures PqGain(old16, prefMw, pchipMw) == Ok(v) <==>
      v < 0x8000 && IsNearest(v + 32768, (32768 + old16) * prefMw, pchipMw)
    ensures PqGain(old16, prefMw, pchipMw).Err? <==> RoundDiv((32768 + old16) * prefMw, pchipMw) > 0xFFFF
  {
    var n := (32768 + old16) * prefMw;
    PqProductFits(old16, prefMw);
    RemainderIsSmall(n, pchipMw);
    Wrap64Keeps(n);
    Wrap64Keeps(2 * CMod(n, pchipMw));
    NearestIff(v + 32768, n, pchipMw);
    RoundsNonNegative(n, pchipMw);
  }

  /* ---- phase compensation ---- */

  const GPHASE_50HZ := 3_763_739
  const GPHASE_60HZ := 3_136_449

  function Gphase(is60Hz: bool): int { if is60Hz then GPHASE_60HZ else GPHASE_50HZ }

  /** 2.048 MHz over the line's angular frequency and the root of three, in thousandths:
      2 pi sqrt(3) is 10.8827961854. The constant is the closest whole number, so one
      relative error means a smaller delay at the higher frequency. */
  lemma GphaseFollowsFrequency(is60Hz: bool)
    ensures
      var hz := if is60Hz then 60.0 else 50.0;
      var ideal := Gphase(is60Hz) as real * hz * 10.8827961854;
      -0.5 * hz * 10.8827961854 <= ideal - 2_048_000_000.0 <= 0.5 * hz * 10.8827961854
    ensures Abs(60 * Gphase(true) - 50 * Gphase(false)) <= 55
  {}

  /** A chip that reads too much asks for a positive delay, one that reads too little
      for a negative one. */
  lemma DelayFollowsError(is60Hz: bool, prefMw: int, pchipMw: int)
    requires 0 < prefMw <= MAX_REF_MW && 0 < pchipMw <= 2_400_000_000_000 && Phi(is60Hz, prefMw, pchipMw).Ok?
    ensures
      var v := Phi(is60Hz, prefMw, pchipMw).value;
      (pchipMw >= prefMw ==> v >= 0) && (pchipMw <= prefMw ==> v <= 0)
  {
    ChipReadingsFit(is60Hz, prefMw, pchipMw);
    Wrap64Keeps((pchipMw - prefMw) * Gphase(is60Hz));
    SignOfRound((pchipMw - prefMw) * Gphase(is60Hz), prefMw * 1000);
  }

  lemma SignOfRound(n: int, d: int)
    requires d > 0
    ensures (n >= 0 ==> RoundDiv(n, d) >= 0) && (n <= 0 ==> RoundDiv(n, d) <= 0)
  {
    if n >= 0 { RoundsNonNegative(n, d); }
    if n < 0 { RoundsNonPositive(n, d); }
    if n == 0 { Opposite(0, d); }
  }

  /** The phase delay for a relative power error, in cycles of 2.048 MHz. */
  function Phi(is60Hz: bool, prefMw: int, pchipMw: i64): Result<i16>
    requires 0 < prefMw <= MAX_REF_MW
  {
    if pchipMw <= 0 then Err(InvalidResponse)
    else
      var num := Wrap64((pchipMw - prefMw) * Gphase(is60Hz));
      var den := prefMw * 1000;
      var q := CDiv(num, den);
      var rounded := if 2 * Abs(CMod(num, den)) >= den then q + (if num >= 0 then 1 else -1) else q;
      if -255 <= rounded <= 255 then Ok(rounded) else Err(InvalidSize)
  }

  /** As long as the product of deviation and phase constant fits 64 bits, the
      delay is the nearest whole cycle, of either sign, and is refused exactly when
      it leaves the register's +/-255. */
  lemma PhiIsNearest(is60Hz: bool, prefMw: int, pchipMw: i64, v: int)
    requires 0 < prefMw <= MAX_REF_MW && pchipMw > 0
    requires Abs(pchipMw - prefMw) * Gphase(is60Hz) <= INT64_MAX
    ensures Phi(is60Hz, prefMw, pchipMw) == Ok(v) <==>
      -255 <= v <= 255 && IsNearest(v, (pchipMw - prefMw) * Gphase(is60Hz), prefMw * 1000)
    ensures Phi(is60Hz, prefMw, pchipMw).Err? <==>
      !(-255 <= RoundDiv((pchipMw - prefMw) * Gphase(is60Hz), prefMw * 1000) <= 255)
  {
    Wrap64Keeps((pchipMw - prefMw) * Gphase(is60Hz));
    NearestIff(v, (pchipMw - prefMw) * Gphase(is60Hz), prefMw * 1000);
  }

  /** Readings up to 2.4 gigawatts, far beyond what the chip's 32-bit power
      registers can show, fit for either line frequency. */
  lemma ChipReadingsFit(is60Hz: bool, prefMw: int, pchipMw: int)
    requires 0 < prefMw <= MAX_REF_MW && 0 < pchipMw <= 2_400_000_000_000
    ensures Abs(pchipMw - prefMw) * Gphase(is60Hz) <= INT64_MAX
  {
    assert Abs(pchipMw - prefMw) <= 2_400_000_000_000;
  }

  /* ---- averaged power ---- */

  function Sum(xs: seq<int>): int {
    if xs == [] then 0 else Sum(xs[..|xs| - 1]) + xs[|xs| - 1]
  }

  lemma Distribute(a: int, n: int)
    ensures a * n == a * (n - 1) + a
  {
  }

  lemma {:induction false} SumBetween(xs: seq<int>, lo: int, hi: int)
    requires forall i :: 0 <= i < |xs| ==> lo <= xs[i] <= hi
    ensures lo * |xs| <= Sum(xs) <= hi * |xs|
    decreases |xs|
  {
    if xs != [] {
      SumBetween(xs[..|xs| - 1], lo, hi);
      Distribute(lo, |xs|);
      Distribute(hi, |xs|);
    }
  }

  /** The running sum of 16-bit many samples of up to 140 gigawatts never leaves 64
      bits, however they are signed and wherever the loop stands. */
  lemma RunningSumFits(xs: seq<int>, n: nat)
    requires n <= |xs| <= 0xFFFF
    requires forall i :: 0 <= i < |xs| ==> Abs(xs[i]) <= 140_737_488_355_327
    ensures Abs(Sum(xs[..n])) <= INT64_MAX
  {
    SumBetween(xs[..n], -140_737_488_355_327, 140_737_488_355_327);
  }

  lemma TooLow(q: int, n: int, d: int, lo: int)
    requires d > 0 && q < lo && lo * d <= n
    ensures !IsNearest(q, n, d)
  {
    assert (lo - q) * d == lo * d - q * d;
    MulAtLeast(lo - q, d);
  }

  lemma NearestAtLeast(q: int, n: int, d: int, lo: int)
    requires d > 0 && IsNearest(q, n, d) && lo * d <= n
    ensures lo <= q
  {
    if q < lo { TooLow(q, n, d, lo); }
  }

  predicate AllRead(samples: seq<Option<int>>) {
    forall i :: 0 <= i < |samples| ==> samples[i].Some?
  }

  function Values(samples: seq<Option<int>>): seq<int>
    requires AllRead(samples)
  {
    seq(|samples|, i requires 0 <= i < |samples| => samples[i].value)
  }

  lemma ValuesGrow(samples: seq<Option<int>>, n: nat)
    requires n < |samples| && AllRead(samples[..n + 1])
    ensures AllRead(samples[..n])
    ensures Sum(Values(samples[..n + 1])) == Sum(Values(samples[..n])) + samples[n].value
  {
    assert forall i :: 0 <= i < n ==> samples[..n][i] == samples[..n + 1][i];
    assert Values(samples[..n + 1])[..n] == Values(samples[..n]);
  }

  /** One reading per sample in whole milliwatts: a single bad reading fails the
      call, otherwise the average is the nearest whole milliwatt to the mean. */
  method AveragePower(samples: seq<Option<int>>) returns (average: Result<int>)
    requires 0 < |samples| <= 0xFFFF
    ensures average.Ok? <==> AllRead(samples)
    ensures average.Ok? ==> IsNearest(average.value, Sum(Values(samples)), |samples|)
  {
    var sum := 0;
    for n := 0 to |samples|
      invariant AllRead(samples[..n])
      invariant sum == Sum(Values(samples[..n]))
    {
      if samples[n].None? { return Err(InvalidResponse); }
      assert forall i :: 0 <= i <= n ==> samples[..n + 1][i] == samples[i];
      assert forall i :: 0 <= i < n ==> samples[..n][i] == samples[i];
      ValuesGrow(samples, n);
      sum := sum + samples[n].value;
    }
    assert samples[..|samples|] == samples;
    var q, r := CDiv(sum, |samples|), CMod(sum, |samples|);
    if 2 * Abs(r) >= |samples| {
      q := q + if sum >= 0 then 1 else -1;
    }
    RoundDivIsNearest(sum, |samples|);
    average := Ok(q);
  }

  /** A rounded mean lies between any bounds on its samples. */
  lemma AverageIsBetween(xs: seq<int>, average: int, lo: int, hi: int)
    requires xs != [] && IsNearest(average, Sum(xs), |xs|)
    requires forall i :: 0 <= i < |xs| ==> lo <= xs[i] <= hi
    ensures lo <= average <= hi
  {
    SumBetween(xs, lo, hi);
    NearestAtLeast(average, Sum(xs), |xs|, lo);
    Mirror(average, Sum(xs), |xs|);
    assert (-hi) * |xs| == -(hi * |xs|);
    NearestAtLeast(-average, -Sum(xs), |xs|, -hi);
  }
}
