/** The EDID 1.4 base block of the virtual display (crates/svd-daemon/src/strategy/kwin/edid.rs). */
module Edid {
  import opened Bits
  import opened Proto
  import KScreen

  function Max(a: nat, b: nat): nat { if a < b then b else a }

  function Min(a: nat, b: nat): nat { if a < b then a else b }

  // ---------------------------------------------------------------------------
  // Timing arithmetic
  // ---------------------------------------------------------------------------

  function HBlank(width: nat): nat { Max(80, width * 8 / 100) }

  function HTotal(width: nat): (t: nat)
    ensures t >= width + 80
  {
    width + HBlank(width)
  }

  function VBlankEstimate(height: nat): nat { Max(23, height / 40) }

  /** The first of the two pixel clock computations, from the estimated blanking. */
  function EstimatedClock(mode: Mode): nat {
    HTotal(mode.width) * (mode.height + VBlankEstimate(mode.height)) * mode.refresh
  }

  /** The blanking recomputed from the estimated clock; the subtraction saturates at zero. */
  function VBlank(mode: Mode): nat
    requires mode.refresh > 0
  {
    var lines := EstimatedClock(mode) / (HTotal(mode.width) * mode.refresh);
    Max(23, if lines < mode.height then 0 else lines - mode.height)
  }

  function VTotal(mode: Mode): nat
    requires mode.refresh > 0
  {
    mode.height + VBlank(mode)
  }

  /** The second pixel clock computation, in hertz. */
  function ClockHz(mode: Mode): nat
    requires mode.refresh > 0
  {
    HTotal(mode.width) * VTotal(mode) * mode.refresh
  }

  /** The clock as the descriptor stores it: units of 10 kHz, saturated at 16 bits. */
  function PixelClock(mode: Mode): (c: nat)
    requires mode.refresh > 0
    ensures c < 65536
  {
    Min(ClockHz(mode) / 10_000, 65_535)
  }

  function HSyncOffset(width: nat): nat { HBlank(width) * 2 / 10 }

  function HSyncWidth(width: nat): nat { HBlank(width) * 4 / 10 }

  const V_SYNC_OFFSET: nat := 2
  const V_SYNC_WIDTH: nat := 6

  lemma MulIsMonotone(a: nat, b: nat, c: nat)
    requires a <= b
    ensures a * c <= b * c
  {
  }

  lemma MulKeepsSign(n: int, d: int)
    requires d >= 0
    ensures n >= 1 ==> n * d >= d
    ensures n <= -1 ==> n * d <= -d
  {
    if n >= 1 {
      MulIsMonotone(1, n, d);
    } else if n <= -1 {
      MulIsMonotone(1, -n, d);
      assert (-n) * d == -(n * d);
    }
  }

  lemma DivCancels(v: nat, d: nat)
    requires d > 0
    ensures (v * d) / d == v
  {
    var q := (v * d) / d;
    assert v * d == q * d + (v * d) % d;
    assert (v - q) * d == v * d - q * d;
    MulKeepsSign(v - q, d);
  }

  lemma ProductOverFactor(t: nat, v: nat, r: nat)
    requires t > 0 && r > 0
    ensures t * r > 0
    ensures (t * v * r) / (t * r) == v
  {
    assert t * v * r == v * (t * r);
    MulKeepsSign(t, r);
    DivCancels(v, t * r);
  }

  lemma ClockIsBounded(t: nat, v: nat, r: nat)
    requires t <= 17_694 && v <= 16_793 && r <= 480
    ensures t * v * r <= 17_694 * 16_793 * 480
  {
    MulIsMonotone(t, 17_694, v);
    MulIsMonotone(t * v, 17_694 * 16_793, r);
  }

  /**
   * The recomputed vertical blanking is the estimate, so both clock computations agree; and for
   * every request within the validated bounds every 32-bit intermediate stays below 2^32 and every
   * 64-bit product below 2^64.
   */
  lemma TimingFixpoint(mode: Mode)
    requires InRange(mode)
    ensures VBlank(mode) == Max(23, mode.height / 40)
    ensures ClockHz(mode) == EstimatedClock(mode)
    ensures mode.width * 8 < 0x1_0000_0000 && HTotal(mode.width) <= 17_694 && VTotal(mode) <= 16_793
    ensures HBlank(mode.width) < 4096 && VBlank(mode) < 4096
    ensures ClockHz(mode) < 0x1_0000_0000_0000_0000
  {
    var t, v, r := HTotal(mode.width), mode.height + VBlankEstimate(mode.height), mode.refresh;
    ProductOverFactor(t, v, r);
    assert VBlank(mode) == VBlankEstimate(mode.height);
    ClockIsBounded(t, v, r);
  }

  // ---------------------------------------------------------------------------
  // Refresh rate
  // ---------------------------------------------------------------------------

  /** Frames per second of a detailed timing whose clock field is `clock` (in units of 10 kHz). */
  function FrameRate(clock: nat, hTotal: nat, vTotal: nat): real
    requires hTotal * vTotal > 0
  {
    (clock * 10_000) as real / (hTotal * vTotal) as real
  }

  /** Clock cycles per second the descriptor loses by rounding down and by saturating. */
  function LostClock(mode: Mode): nat
    requires mode.refresh > 0
  {
    if ClockHz(mode) < 655_360_000 then ClockHz(mode) % 10_000 else ClockHz(mode) - 655_350_000
  }

  lemma LossExplainsClock(mode: Mode)
    requires mode.refresh > 0
    ensures PixelClock(mode) * 10_000 + LostClock(mode) == ClockHz(mode)
  {
  }

  lemma TotalsArePositive(mode: Mode)
    requires InRange(mode)
    ensures HTotal(mode.width) * VTotal(mode) >= 1944
  {
    MulIsMonotone(81, HTotal(mode.width), VTotal(mode));
  }

  /** The rate a display decodes from the clock and the totals that are emitted for a request. */
  function EmittedRate(mode: Mode): real
    requires InRange(mode)
  {
    TotalsArePositive(mode);
    FrameRate(PixelClock(mode), HTotal(mode.width), VTotal(mode))
  }

  lemma ScalingKeepsSign(a: real, t: real)
    requires t > 0.0
    ensures a >= 0.0 <==> a * t >= 0.0
    ensures a <= 0.0 <==> a * t <= 0.0
  {
  }

  lemma ScaledBound(d: real, t: real, scaled: real)
    requires t > 0.0 && scaled == d * t
    ensures (d <= 0.0 <==> scaled <= 0.0) && (d < 0.0 <==> scaled < 0.0)
    ensures -0.5 <= d <==> -t <= 2.0 * scaled
    ensures d <= 0.5 <==> 2.0 * scaled <= t
  {
    ScalingKeepsSign(d, t);
    ScalingKeepsSign(d + 0.5, t);
    ScalingKeepsSign(d - 0.5, t);
    assert (d + 0.5) * t == scaled + 0.5 * t;
    assert (d - 0.5) * t == scaled - 0.5 * t;
  }

  /** The distance of a quotient from a number, measured in units of the divisor. */
  lemma QuotientMinus(x: real, t: real, r: real)
    requires t > 0.0
    ensures (x / t - r) * t == x - r * t
  {
    assert (x / t) * t == x;
    assert (x / t - r) * t == (x / t) * t - r * t;
  }

  lemma ScaledDecision(d: real, t: int, n: int)
    requires t > 0 && d * t as real == n as real
    ensures (d <= 0.0 <==> n <= 0) && (d < 0.0 <==> n < 0)
    ensures -0.5 <= d <= 0.5 <==> -t <= 2 * n <= t
  {
    var scaled := n as real;
    ScaledBound(d, t as real, scaled);
    IntegerBound(n, t, scaled);
  }

  lemma QuotientAgainstInteger(x: nat, t: int, r: nat, product: int)
    requires t > 0 && product == r * t
    ensures x as real / t as real <= r as real <==> x <= product
    ensures x as real / t as real < r as real <==> x < product
    ensures KScreen.RateMatches(x as real / t as real, r) <==> -t <= 2 * (x - product) <= t
  {
    var d := x as real / t as real - r as real;
    assert d * t as real == (x - product) as real by {
      ProductAsReal(r, t);
      QuotientMinus(x as real, t as real, r as real);
    }
    ScaledDecision(d, t, x - product);
  }

  lemma ProductAsReal(a: int, b: int)
    ensures (a * b) as real == a as real * b as real
  {
  }

  lemma IntegerBound(n: int, t: int, scaled: real)
    requires scaled == n as real
    ensures (scaled <= 0.0 <==> n <= 0) && (scaled < 0.0 <==> n < 0)
    ensures -(t as real) <= 2.0 * scaled <==> -t <= 2 * n
    ensures 2.0 * scaled <= t as real <==> 2 * n <= t
  {
    assert (2 * n) as real == 2.0 * n as real;
  }

  /**
   * The emitted rate never exceeds the request, meets it exactly when no clock is lost, and is accepted
   * by the verifier's tolerance exactly when the clock lost per second is at most half a frame.
   */
  lemma RateIsAcceptedIff(mode: Mode)
    requires InRange(mode)
    ensures EmittedRate(mode) <= mode.refresh as real
    ensures EmittedRate(mode) < mode.refresh as real <==> LostClock(mode) > 0
    ensures KScreen.RateMatches(EmittedRate(mode), mode.refresh)
            <==> 2 * LostClock(mode) <= HTotal(mode.width) * VTotal(mode)
  {
    TotalsArePositive(mode);
    LossExplainsClock(mode);
    QuotientAgainstInteger(PixelClock(mode) * 10_000, HTotal(mode.width) * VTotal(mode), mode.refresh,
      ClockHz(mode));
  }

  /** Below the saturation point, 20000 pixels a frame are enough for the tolerance. */
  lemma UnsaturatedRateIsAccepted(mode: Mode)
    requires InRange(mode)
    requires ClockHz(mode) < 655_360_000 && HTotal(mode.width) * VTotal(mode) >= 20_000
    ensures KScreen.RateMatches(EmittedRate(mode), mode.refresh)
  {
    RateIsAcceptedIff(mode);
  }

  /** From the saturation point on the decoded rate is strictly below the requested one. */
  lemma SaturatedRateIsLower(mode: Mode)
    requires InRange(mode) && ClockHz(mode) >= 655_360_000
    ensures EmittedRate(mode) < mode.refresh as real
  {
    RateIsAcceptedIff(mode);
  }

  /** The same decision for a mode whose frame size `t` is known. */
  predicate IsAcceptedAt(mode: Mode, t: nat) {
    var clock := t * mode.refresh;
    2 * (if clock < 655_360_000 then clock % 10_000 else clock - 655_350_000) <= t
  }

  lemma RateOfConcreteMode(mode: Mode, hTotal: nat, vTotal: nat, t: nat)
    requires InRange(mode) && t == hTotal * vTotal
    requires hTotal == HTotal(mode.width) && vTotal == mode.height + VBlankEstimate(mode.height)
    ensures KScreen.RateMatches(EmittedRate(mode), mode.refresh) <==> IsAcceptedAt(mode, t)
  {
    TimingFixpoint(mode);
    RateIsAcceptedIff(mode);
  }

  /** Every built-in mode is emitted with a rate its own verification accepts. */
  lemma BuiltInModesAreAccepted(mode: Mode)
    requires mode in VIC_TABLE
    ensures InRange(mode) && KScreen.RateMatches(EmittedRate(mode), mode.refresh)
  {
    if mode.width == 1280 {
      RateOfConcreteMode(mode, 1382, 743, 1_026_826);
    } else if mode.width == 1920 {
      RateOfConcreteMode(mode, 2073, 1107, 2_294_811);
    } else if mode.width == 2560 {
      RateOfConcreteMode(mode, 2764, 1476, 4_079_664);
    } else {
      RateOfConcreteMode(mode, 4147, 2214, 9_181_458);
    }
  }

  /**
   * Two modes the documentation offers for the allowlist, 2560x1440@165 and 3840x2160@120, saturate
   * the clock so far that the timing emitted for them fails the verification of the same request.
   */
  lemma DocumentedExtraModesAreRejected(mode: Mode)
    requires mode == Mode(2560, 1440, 165) || mode == Mode(3840, 2160, 120)
    ensures InRange(mode) && !KScreen.RateMatches(EmittedRate(mode), mode.refresh)
  {
    if mode.width == 2560 {
      RateOfConcreteMode(mode, 2764, 1476, 4_079_664);
    } else {
      RateOfConcreteMode(mode, 4147, 2214, 9_181_458);
    }
  }

  // ---------------------------------------------------------------------------
  // The 128 bytes
  // ---------------------------------------------------------------------------

  /** Three letters packed into five bits each. */
  function ManufacturerId(c1: char, c2: char, c3: char): nat
    requires 'A' <= c1 <= 'Z' && 'A' <= c2 <= 'Z' && 'A' <= c3 <= 'Z'
  {
    Or(Or((c1 as int - 64) * 1024, (c2 as int - 64) * 32), c3 as int - 64)
  }

  function Serial(mode: Mode): nat {
    Or(Or(mode.width * 65_536, mode.height * 16), mode.refresh % 16)
  }

  function Checksum(data: seq<byte>): byte { (256 - Sum(data) % 256) % 256 }

  function MinVRate(refresh: nat): byte { Min(Max(24, if refresh < 20 then 0 else refresh - 20), 255) }

  function MaxVRate(refresh: nat): byte { Min(refresh + 20, 255) }

  // The sections of the block, as predicates on any 128 bytes.

  /** Bytes 0 to 19: magic, manufacturer, product, serial, date, version 1.4. */
  ghost predicate HasIdentity(b: seq<byte>, id: nat, serial: nat)
    requires |b| == 128
  {
    && b[0] == 0 && (forall k | 1 <= k < 7 :: b[k] == 255) && b[7] == 0
    && b[8] == id / 256 % 256 && b[9] == id % 256 && b[10] == 0x44 && b[11] == 0x53
    && b[12] == serial % 256 && b[13] == serial / 256 % 256
    && b[14] == serial / 65_536 % 256 && b[15] == serial / 16_777_216 % 256
    && b[16] == 1 && b[17] == 33 && b[18] == 1 && b[19] == 4
  }

  /** Bytes 20 to 37: video input, size, gamma, features, colour, established timings. */
  ghost predicate HasDisplayParameters(b: seq<byte>, hCm: nat, vCm: nat)
    requires |b| == 128
  {
    && b[20] == 0xA5 && b[21] == Min(hCm, 255) && b[22] == Min(vCm, 255) && b[23] == 220 && b[24] == 0x1E
    && b[25] == 0xEE && b[26] == 0x91 && b[27] == 0xA3 && b[28] == 0x54 && b[29] == 0x4C
    && b[30] == 0x99 && b[31] == 0x26 && b[32] == 0x0F && b[33] == 0x50 && b[34] == 0x54
    && b[35] == 0 && b[36] == 0 && b[37] == 0
  }

  /** Bytes 38 to 53: eight standard timings, all marked unused. */
  ghost predicate HasNoStandardTimings(b: seq<byte>)
    requires |b| == 128
  {
    forall k | 38 <= k < 54 :: b[k] == 1
  }

  /** Bytes 54 to 61: pixel clock, active sizes, blanking. */
  ghost predicate HasActiveTiming(b: seq<byte>, width: nat, height: nat, clock: nat, hb: nat, vb: nat)
    requires |b| == 128
  {
    && b[54] == clock % 256 && b[55] == clock / 256
    && b[56] == width % 256 && b[57] == hb % 256
    && b[58] == Or(width / 256 * 16, hb / 256) % 256
    && b[59] == height % 256 && b[60] == vb % 256
    && b[61] == Or(height / 256 * 16, vb / 256) % 256
  }

  /** Bytes 62 to 71: sync pulses, image size in millimetres, borders, signal type. */
  ghost predicate HasSyncTiming(b: seq<byte>, ho: nat, hw: nat, hMm: nat, vMm: nat)
    requires |b| == 128
  {
    && b[62] == ho % 256 && b[63] == hw % 256
    && b[64] == Or(V_SYNC_OFFSET % 16 * 16, V_SYNC_WIDTH % 16) % 256
    && b[65] == Or(Or(Or(ho / 256 % 4 * 64, hw / 256 % 4 * 16), V_SYNC_OFFSET / 16 % 4 * 4),
                   V_SYNC_WIDTH / 16 % 4) % 256
    && b[66] == hMm % 256 && b[67] == vMm % 256 && b[68] == Or(hMm / 256 * 16, vMm / 256) % 256
    && b[69] == 0 && b[70] == 0 && b[71] == 0x18
  }

  /** Bytes 72 to 89: the product name, "Display", ended by a line feed and padded. */
  ghost predicate HasProductName(b: seq<byte>)
    requires |b| == 128
  {
    && b[72] == 0 && b[73] == 0 && b[74] == 0 && b[75] == 0xFC && b[76] == 0
    && b[77] == 0x44 && b[78] == 0x69 && b[79] == 0x73 && b[80] == 0x70 && b[81] == 0x6C
    && b[82] == 0x61 && b[83] == 0x79 && b[84] == 0x0A
    && forall k | 85 <= k < 90 :: b[k] == 0x20
  }

  /** Bytes 90 to 107: the range limits. */
  ghost predicate HasRangeLimits(b: seq<byte>, refresh: nat)
    requires |b| == 128
  {
    && b[90] == 0 && b[91] == 0 && b[92] == 0 && b[93] == 0xFD && b[94] == 0
    && b[95] == MinVRate(refresh) && b[96] == MaxVRate(refresh)
    && b[97] == 30 && b[98] == 160 && b[99] == 220 && b[100] == 0 && b[101] == 0x0A
    && forall k | 102 <= k < 108 :: b[k] == 0x20
  }

  /** Bytes 108 to 126: the dummy descriptor and no extension block. */
  ghost predicate HasDummyDescriptor(b: seq<byte>)
    requires |b| == 128
  {
    && b[108] == 0 && b[109] == 0 && b[110] == 0 && b[111] == 0x10
    && forall k | 112 <= k < 127 :: b[k] == 0
  }

  datatype Section =
    | Identity
    | DisplayParameters
    | StandardTimings
    | ActiveTiming
    | SyncTiming
    | ProductName
    | RangeLimits
    | DummyDescriptor

  ghost predicate HasSection(b: seq<byte>, section: Section, mode: Mode, hCm: nat, vCm: nat)
    requires |b| == 128 && mode.refresh > 0
  {
    match section
    case Identity => HasIdentity(b, ManufacturerId('V', 'R', 'T'), Serial(mode))
    case DisplayParameters => HasDisplayParameters(b, hCm, vCm)
    case StandardTimings => HasNoStandardTimings(b)
    case ActiveTiming => HasActiveTiming(b, mode.width, mode.height, PixelClock(mode), HBlank(mode.width), VBlank(mode))
    case SyncTiming => HasSyncTiming(b, HSyncOffset(mode.width), HSyncWidth(mode.width), hCm * 10, vCm * 10)
    case ProductName => HasProductName(b)
    case RangeLimits => HasRangeLimits(b, mode.refresh)
    case DummyDescriptor => HasDummyDescriptor(b)
  }

  /** The block that is emitted for a request; the size in centimetres is whatever was estimated. */
  ghost predicate IsBlock(b: seq<byte>, mode: Mode, hCm: nat, vCm: nat)
    requires mode.refresh > 0
  {
    && |b| == 128 && (forall section: Section :: HasSection(b, section, mode, hCm, vCm))
    && b[127] == Checksum(b[..127])
  }

  /** Everything outside the positions from `lo` to `hi` is as it was. */
  twostate predicate OnlyChanged(edid: array<byte>, lo: nat, hi: nat)
    reads edid
  {
    forall k | 0 <= k < edid.Length && !(lo <= k < hi) :: edid[k] == old(edid[k])
  }

  method FillIdentity(edid: array<byte>, id: nat, serial: nat)
    requires edid.Length == 128
    modifies edid
    ensures HasIdentity(edid[..], id, serial) && OnlyChanged(edid, 0, 20)
  {
    edid[0], edid[1], edid[2], edid[3] := 0, 255, 255, 255;
    edid[4], edid[5], edid[6], edid[7] := 255, 255, 255, 0;
    edid[8], edid[9] := id / 256 % 256, id % 256;
    edid[10], edid[11] := 0x44, 0x53;
    edid[12], edid[13] := serial % 256, serial / 256 % 256;
    edid[14], edid[15] := serial / 65_536 % 256, serial / 16_777_216 % 256;
    edid[16], edid[17], edid[18], edid[19] := 1, 33, 1, 4;
  }

  method FillDisplayParameters(edid: array<byte>, hCm: nat, vCm: nat)
    requires edid.Length == 128
    modifies edid
    ensures HasDisplayParameters(edid[..], hCm, vCm) && OnlyChanged(edid, 20, 38)
  {
    edid[20], edid[21], edid[22] := 0xA5, Min(hCm, 255), Min(vCm, 255);
    edid[23], edid[24] := 220, 0x1E;
    edid[25], edid[26], edid[27], edid[28], edid[29] := 0xEE, 0x91, 0xA3, 0x54, 0x4C;
    edid[30], edid[31], edid[32], edid[33], edid[34] := 0x99, 0x26, 0x0F, 0x50, 0x54;
    edid[35], edid[36], edid[37] := 0, 0, 0;
  }

  method FillStandardTimings(edid: array<byte>)
    requires edid.Length == 128
    modifies edid
    ensures HasNoStandardTimings(edid[..]) && OnlyChanged(edid, 38, 54)
  {
    for i := 0 to 8
      invariant OnlyChanged(edid, 38, 54)
      invariant forall k | 38 <= k < 38 + 2 * i :: edid[k] == 1
    {
      edid[38 + i * 2] := 1;
      edid[38 + i * 2 + 1] := 1;
    }
  }

  method FillActiveTiming(edid: array<byte>, width: nat, height: nat, clock: nat, hBlank: nat, vBlank: nat)
    requires edid.Length == 128 && clock < 65_536
    modifies edid
    ensures HasActiveTiming(edid[..], width, height, clock, hBlank, vBlank) && OnlyChanged(edid, 54, 62)
  {
    edid[54], edid[55] := clock % 256, clock / 256;
    edid[56], edid[57] := width % 256, hBlank % 256;
    edid[58] := Or(width / 256 * 16, hBlank / 256) % 256;
    edid[59], edid[60] := height % 256, vBlank % 256;
    edid[61] := Or(height / 256 * 16, vBlank / 256) % 256;
  }

  method FillSyncTiming(edid: array<byte>, hSyncOffset: nat, hSyncWidth: nat, hMm: nat, vMm: nat)
    requires edid.Length == 128
    modifies edid
    ensures HasSyncTiming(edid[..], hSyncOffset, hSyncWidth, hMm, vMm) && OnlyChanged(edid, 62, 72)
  {
    edid[62], edid[63] := hSyncOffset % 256, hSyncWidth % 256;
    edid[64] := Or(V_SYNC_OFFSET % 16 * 16, V_SYNC_WIDTH % 16) % 256;
    edid[65] := Or(Or(Or(hSyncOffset / 256 % 4 * 64, hSyncWidth / 256 % 4 * 16), V_SYNC_OFFSET / 16 % 4 * 4),
                   V_SYNC_WIDTH / 16 % 4) % 256;
    edid[66], edid[67], edid[68] := hMm % 256, vMm % 256, Or(hMm / 256 * 16, vMm / 256) % 256;
    edid[69], edid[70], edid[71] := 0, 0, 0x18;
  }

  method FillProductName(edid: array<byte>)
    requires edid.Length == 128
    modifies edid
    ensures HasProductName(edid[..]) && OnlyChanged(edid, 72, 90)
  {
    edid[72], edid[73], edid[74], edid[75], edid[76] := 0, 0, 0, 0xFC, 0;
    edid[77], edid[78], edid[79], edid[80], edid[81] := 0x44, 0x69, 0x73, 0x70, 0x6C;
    edid[82], edid[83], edid[84] := 0x61, 0x79, 0x0A;
    edid[85], edid[86], edid[87], edid[88], edid[89] := 0x20, 0x20, 0x20, 0x20, 0x20;
  }

  method FillRangeLimits(edid: array<byte>, refresh: nat)
    requires edid.Length == 128
    modifies edid
    ensures HasRangeLimits(edid[..], refresh) && OnlyChanged(edid, 90, 108)
  {
    edid[90], edid[91], edid[92], edid[93], edid[94] := 0, 0, 0, 0xFD, 0;
    edid[95], edid[96] := MinVRate(refresh), MaxVRate(refresh);
    edid[97], edid[98], edid[99], edid[100], edid[101] := 30, 160, 220, 0, 0x0A;
    edid[102], edid[103], edid[104] := 0x20, 0x20, 0x20;
    edid[105], edid[106], edid[107] := 0x20, 0x20, 0x20;
  }

  method FillDummyDescriptor(edid: array<byte>)
    requires edid.Length == 128
    requires forall k | 112 < k < 126 :: edid[k] == 0
    modifies edid
    ensures HasDummyDescriptor(edid[..]) && OnlyChanged(edid, 108, 127)
  {
    edid[108], edid[109], edid[110], edid[111], edid[112] := 0, 0, 0, 0x10, 0;
    edid[126] := 0;
  }

  /** Bytes 0 to 53. */
  method FillFront(edid: array<byte>, id: nat, serial: nat, hCm: nat, vCm: nat)
    requires edid.Length == 128
    modifies edid
    ensures HasIdentity(edid[..], id, serial) && HasDisplayParameters(edid[..], hCm, vCm)
    ensures HasNoStandardTimings(edid[..]) && OnlyChanged(edid, 0, 54)
  {
    FillIdentity(edid, id, serial);
    FillDisplayParameters(edid, hCm, vCm);
    FillStandardTimings(edid);
  }

  /** Bytes 72 to 126. */
  method FillDescriptors(edid: array<byte>, refresh: nat)
    requires edid.Length == 128
    requires forall k | 112 < k < 126 :: edid[k] == 0
    modifies edid
    ensures HasProductName(edid[..]) && HasRangeLimits(edid[..], refresh)
    ensures HasDummyDescriptor(edid[..]) && OnlyChanged(edid, 72, 127)
  {
    FillProductName(edid);
    FillRangeLimits(edid, refresh);
    FillDummyDescriptor(edid);
  }

  method FillTiming(edid: array<byte>, mode: Mode, hMm: nat, vMm: nat)
    requires edid.Length == 128 && InRange(mode)
    modifies edid
    ensures HasActiveTiming(edid[..], mode.width, mode.height, PixelClock(mode), HBlank(mode.width), VBlank(mode))
    ensures HasSyncTiming(edid[..], HSyncOffset(mode.width), HSyncWidth(mode.width), hMm, vMm)
    ensures OnlyChanged(edid, 54, 72)
  {
    FillActiveTiming(edid, mode.width, mode.height, PixelClock(mode), HBlank(mode.width), VBlank(mode));
    FillSyncTiming(edid, HSyncOffset(mode.width), HSyncWidth(mode.width), hMm, vMm);
  }

  method FillSections(edid: array<byte>, mode: Mode, hCm: nat, vCm: nat)
    requires edid.Length == 128 && InRange(mode)
    requires forall k | 112 < k < 126 :: edid[k] == 0
    modifies edid
    ensures forall section: Section :: HasSection(edid[..], section, mode, hCm, vCm)
  {
    FillFront(edid, ManufacturerId('V', 'R', 'T'), Serial(mode), hCm, vCm);
    FillTiming(edid, mode, hCm * 10, vCm * 10);
    FillDescriptors(edid, mode.refresh);
  }

  method Seal(edid: array<byte>)
    requires edid.Length == 128
    modifies edid
    ensures edid[127] == Checksum(edid[..127]) && OnlyChanged(edid, 127, 128)
  {
    ghost var body := edid[..127];
    edid[127] := Checksum(edid[..127]);
    assert edid[..127] == body;
  }

  lemma SectionsIgnoreChecksum(b: seq<byte>, c: seq<byte>, section: Section, mode: Mode, hCm: nat, vCm: nat)
    requires |b| == |c| == 128 && mode.refresh > 0 && forall k | 0 <= k < 127 :: c[k] == b[k]
    requires HasSection(b, section, mode, hCm, vCm)
    ensures HasSection(c, section, mode, hCm, vCm)
  {
  }

  /** `generate`: fills a zeroed buffer section by section and closes it with the checksum. */
  method Generate(mode: Mode, hCm: nat, vCm: nat) returns (edid: array<byte>)
    requires InRange(mode)
    ensures fresh(edid) && IsBlock(edid[..], mode, hCm, vCm)
  {
    edid := new byte[128](_ => 0);
    FillSections(edid, mode, hCm, vCm);
    ghost var unsealed := edid[..];
    Seal(edid);
    assert edid[..][..127] == edid[..127];
    forall section: Section
      ensures HasSection(edid[..], section, mode, hCm, vCm)
    {
      SectionsIgnoreChecksum(unsealed, edid[..], section, mode, hCm, vCm);
    }
  }

  // ---------------------------------------------------------------------------
  // What a display reads back (VESA E-EDID Standard, Release A, Revision 2)
  // ---------------------------------------------------------------------------

  datatype Timing = Timing(clock: nat, hActive: nat, hBlank: nat, vActive: nat, vBlank: nat,
                           hSyncOffset: nat, hSyncWidth: nat, vSyncOffset: nat, vSyncWidth: nat)

  /** The first detailed timing descriptor, section 3.10.2. */
  function DecodeTiming(edid: seq<byte>): Timing
    requires |edid| == 128
  {
    var b: seq<int> := edid;
    Timing(
      b[54] + b[55] * 256,
      b[56] + b[58] / 16 * 256, b[57] + b[58] % 16 * 256,
      b[59] + b[61] / 16 * 256, b[60] + b[61] % 16 * 256,
      b[62] + b[65] / 64 * 256, b[63] + b[65] / 16 % 4 * 256,
      b[64] / 16 + b[65] / 4 % 4 * 16, b[64] % 16 + b[65] % 4 * 16)
  }

  /** The serial number, least significant byte first. */
  function DecodeSerial(edid: seq<byte>): nat
    requires |edid| == 128
  {
    var b: seq<int> := edid;
    b[12] + b[13] * 256 + b[14] * 65_536 + b[15] * 16_777_216
  }

  // Quotients and remainders of numbers that are given by both.

  lemma Split4(q: nat, r: nat)
    requires r < 4
    ensures (q * 4 + r) / 4 == q && (q * 4 + r) % 4 == r
  {
  }

  lemma Split16(q: nat, r: nat)
    requires r < 16
    ensures (q * 16 + r) / 16 == q && (q * 16 + r) % 16 == r
  {
  }

  lemma Split32(q: nat, r: nat)
    requires r < 32
    ensures (q * 32 + r) / 32 == q && (q * 32 + r) % 32 == r
  {
  }

  lemma Split256(q: nat, r: nat)
    requires r < 256
    ensures (q * 256 + r) / 256 == q && (q * 256 + r) % 256 == r
  {
  }

  lemma Split1024(q: nat, r: nat)
    requires r < 1024
    ensures (q * 1024 + r) / 1024 == q && (q * 1024 + r) % 1024 == r
  {
  }

  lemma Split4096(q: nat, r: nat)
    requires r < 4096
    ensures (q * 4096 + r) / 4096 == q && (q * 4096 + r) % 4096 == r
  {
  }

  lemma NibblesInByte(q: nat, r: nat, lower: nat)
    requires r < 16 && lower < 16
    ensures ((q * 16 + r) * 16 + lower) % 256 == r * 16 + lower
  {
    Split256(q, r * 16 + lower);
    assert (q * 16 + r) * 16 + lower == q * 256 + (r * 16 + lower);
  }

  /** Two four-bit fields sharing a byte, the upper one truncated to what the byte holds. */
  lemma NibblePair(upper: nat, lower: nat)
    requires lower < 16
    ensures Or(upper * 16, lower) % 256 == upper % 16 * 16 + lower
  {
    OrBelow16(upper, lower);
    NibblesInByte(upper / 16, upper % 16, lower);
    assert upper == upper / 16 * 16 + upper % 16;
  }

  /** Four two-bit fields sharing a byte, the two lower ones zero. */
  lemma CrumbPair(upper: nat, lower: nat, a: nat, b: nat)
    requires upper < 4 && lower < 4 && a == upper * 64 && b == lower * 16
    ensures Or(a, b) == a + b && Or(Or(Or(a, b), 0), 0) == a + b
  {
    OrBelow4(upper, lower);
    OrSplits4(upper * 4, 0, lower, 0);
    assert Or(upper * 4 * 16 + 0, lower * 16 + 0) == Or(a, b);
  }

  lemma LowTwelveBits(u: nat, v: nat, r: nat)
    requires v < 16 && r < 256
    ensures ((u * 16 + v) * 256 + r) % 4096 == v * 256 + r
  {
    Split4096(u, v * 256 + r);
    assert (u * 16 + v) * 256 + r == u * 4096 + (v * 256 + r);
  }

  lemma TwelveBits(size: nat)
    ensures size % 4096 == size / 256 % 16 * 256 + size % 256
  {
    var q := size / 256;
    assert q == q / 16 * 16 + q % 16 && size == q * 256 + size % 256;
    LowTwelveBits(q / 16, q % 16, size % 256);
  }

  /** A size of up to fifteen bits and a blanking of twelve, spread over three bytes. */
  lemma SizeAndBlanking(size: nat, blank: nat, b0: nat, b1: nat, b2: nat)
    requires blank < 4096
    requires b0 == size % 256 && b1 == blank % 256 && b2 == size / 256 % 16 * 16 + blank / 256
    ensures b0 + b2 / 16 * 256 == size % 4096 && b1 + b2 % 16 * 256 == blank
  {
    Split16(size / 256 % 16, blank / 256);
    TwelveBits(size);
  }

  lemma ActiveTimingRoundTrip(b: seq<byte>, width: nat, height: nat, clock: nat, hBlank: nat, vBlank: nat)
    requires |b| == 128 && HasActiveTiming(b, width, height, clock, hBlank, vBlank)
    requires clock < 65_536 && hBlank < 4096 && vBlank < 4096
    ensures var t := DecodeTiming(b);
            && t.clock == clock
            && t.hActive == width % 4096 && t.vActive == height % 4096
            && t.hBlank == hBlank && t.vBlank == vBlank
  {
    NibblePair(width / 256, hBlank / 256);
    NibblePair(height / 256, vBlank / 256);
    SizeAndBlanking(width, hBlank, b[56], b[57], b[58]);
    SizeAndBlanking(height, vBlank, b[59], b[60], b[61]);
  }

  lemma CrumbsOf(o: nat, w: nat)
    requires o < 4 && w < 4
    ensures var b := o * 64 + w * 16; b / 64 == o && b / 16 % 4 == w && b / 4 % 4 == 0 && b % 4 == 0
  {
    Split16(o * 4 + w, 0);
    Split4(o, w);
    Split4(o * 16 + w * 4, 0);
    Split4(o * 4 + w, 0);
  }

  /** Two ten-bit pulse positions whose upper bits share a byte. */
  lemma PulsePositions(offset: nat, width: nat, b0: nat, b1: nat, b3: nat)
    requires offset < 1024 && width < 1024
    requires b0 == offset % 256 && b1 == width % 256 && b3 == offset / 256 * 64 + width / 256 * 16
    ensures b0 + b3 / 64 * 256 == offset && b1 + b3 / 16 % 4 * 256 == width
    ensures b3 / 4 % 4 == 0 && b3 % 4 == 0
  {
    CrumbsOf(offset / 256, width / 256);
  }

  lemma SyncNibbles()
    ensures Or(V_SYNC_OFFSET % 16 * 16, V_SYNC_WIDTH % 16) % 256 == 38
  {
    OrBelow16(2, 6);
  }

  lemma SyncCrumbs(o: nat, w: nat, a: nat, b: nat)
    requires o < 4 && w < 4 && a == o * 64 && b == w * 16
    ensures Or(Or(Or(a, b), V_SYNC_OFFSET / 16 % 4 * 4), V_SYNC_WIDTH / 16 % 4) % 256 == a + b
  {
    CrumbPair(o, w, a, b);
    assert V_SYNC_OFFSET / 16 % 4 * 4 == 0 && V_SYNC_WIDTH / 16 % 4 == 0;
    SmallRemainder(a + b, 256);
  }

  lemma SmallRemainder(n: nat, d: nat)
    requires n < d
    ensures n % d == n
  {
  }

  /** The two bytes in which the sync fields share bits. */
  lemma SharedSyncBytes(b: seq<byte>, hSyncOffset: nat, hSyncWidth: nat, hMm: nat, vMm: nat)
    requires |b| == 128 && HasSyncTiming(b, hSyncOffset, hSyncWidth, hMm, vMm)
    requires hSyncOffset < 1024 && hSyncWidth < 1024
    ensures b[64] == 38 && b[65] == hSyncOffset / 256 * 64 + hSyncWidth / 256 * 16
  {
    var o, w := hSyncOffset / 256, hSyncWidth / 256;
    SmallRemainder(o, 4);
    SmallRemainder(w, 4);
    SyncNibbles();
    SyncCrumbs(o, w, o % 4 * 64, w % 4 * 16);
  }

  lemma SyncTimingRoundTrip(b: seq<byte>, hSyncOffset: nat, hSyncWidth: nat)
    requires |b| == 128 && hSyncOffset < 1024 && hSyncWidth < 1024
    requires b[62] == hSyncOffset % 256 && b[63] == hSyncWidth % 256
    requires b[64] == 38 && b[65] == hSyncOffset / 256 * 64 + hSyncWidth / 256 * 16
    ensures var t := DecodeTiming(b);
            && t.hSyncOffset == hSyncOffset && t.hSyncWidth == hSyncWidth
            && t.vSyncOffset == 2 && t.vSyncWidth == 6
  {
    PulsePositions(hSyncOffset, hSyncWidth, b[62], b[63], b[65]);
  }

  /**
   * Detailed timing round trip: clock, blanking and sync decode to exactly what was computed, the
   * active sizes modulo the twelve bits the format has for them, and the sync pulse lies strictly
   * inside the blanking on both axes.
   */
  lemma TimingRoundTrip(b: seq<byte>, mode: Mode, hCm: nat, vCm: nat)
    requires InRange(mode) && IsBlock(b, mode, hCm, vCm)
    ensures DecodeTiming(b) == Timing(
              PixelClock(mode),
              mode.width % 4096, Max(80, mode.width * 8 / 100), mode.height % 4096, Max(23, mode.height / 40),
              HBlank(mode.width) / 5, HBlank(mode.width) * 2 / 5, 2, 6)
    ensures var t := DecodeTiming(b);
            0 < t.hSyncOffset < t.hSyncOffset + t.hSyncWidth < t.hBlank &&
            0 < t.vSyncOffset < t.vSyncOffset + t.vSyncWidth < t.vBlank
  {
    TimingFixpoint(mode);
    assert HasSection(b, ActiveTiming, mode, hCm, vCm) && HasSection(b, SyncTiming, mode, hCm, vCm);
    ActiveTimingRoundTrip(b, mode.width, mode.height, PixelClock(mode), HBlank(mode.width), VBlank(mode));
    SharedSyncBytes(b, HSyncOffset(mode.width), HSyncWidth(mode.width), hCm * 10, vCm * 10);
    SyncTimingRoundTrip(b, HSyncOffset(mode.width), HSyncWidth(mode.width));
  }

  lemma FitsTwelveBits(n: nat)
    ensures n % 4096 == n <==> n < 4096
  {
  }

  /** The decoded picture is the requested one exactly up to 4095 pixels on either axis. */
  lemma ActiveSizeIsExactIff(b: seq<byte>, mode: Mode, hCm: nat, vCm: nat)
    requires InRange(mode) && IsBlock(b, mode, hCm, vCm)
    ensures var t := DecodeTiming(b);
            (t.hActive == mode.width && t.vActive == mode.height) <==> (mode.width < 4096 && mode.height < 4096)
  {
    TimingRoundTrip(b, mode, hCm, vCm);
    FitsTwelveBits(mode.width);
    FitsTwelveBits(mode.height);
  }

  lemma RateOfTotals(mode: Mode, clock: nat, hTotal: nat, vTotal: nat)
    requires InRange(mode)
    requires clock == PixelClock(mode) && hTotal == HTotal(mode.width) && vTotal == VTotal(mode)
    ensures hTotal * vTotal > 0 && FrameRate(clock, hTotal, vTotal) == EmittedRate(mode)
  {
    TotalsArePositive(mode);
  }

  /**
   * From the bytes alone: up to 4095 pixels on either axis, the frame rate of the decoded descriptor
   * is the emitted rate, so `RateIsAcceptedIff` speaks about what a display really sees.
   */
  lemma DecodedRate(b: seq<byte>, mode: Mode, hCm: nat, vCm: nat)
    requires InRange(mode) && mode.width < 4096 && mode.height < 4096 && IsBlock(b, mode, hCm, vCm)
    ensures var t := DecodeTiming(b);
            && (t.hActive + t.hBlank) * (t.vActive + t.vBlank) > 0
            && FrameRate(t.clock, t.hActive + t.hBlank, t.vActive + t.vBlank) == EmittedRate(mode)
  {
    TimingRoundTrip(b, mode, hCm, vCm);
    FitsTwelveBits(mode.width);
    FitsTwelveBits(mode.height);
    TimingFixpoint(mode);
    var t := DecodeTiming(b);
    RateOfTotals(mode, t.clock, t.hActive + t.hBlank, t.vActive + t.vBlank);
  }

  /** Section 3.11: the 128 bytes of the block add up to zero modulo 256. */
  lemma ChecksumCloses(b: seq<byte>, mode: Mode, hCm: nat, vCm: nat)
    requires InRange(mode) && IsBlock(b, mode, hCm, vCm)
    ensures Sum(b) % 256 == 0
  {
    ChecksumClosesAny(b[..127]);
    assert b == b[..127] + [b[127]];
  }

  lemma ChecksumClosesAny(data: seq<byte>)
    ensures Sum(data + [Checksum(data)]) % 256 == 0
  {
    assert (data + [Checksum(data)])[..|data|] == data;
    ComplementOf(Sum(data));
  }

  lemma ComplementOf(n: nat)
    ensures (n + (256 - n % 256) % 256) % 256 == 0
  {
    var q, r := n / 256, n % 256;
    assert n + (256 - r) == 256 * (q + 1);
  }

  lemma LettersPack(v1: nat, v2: nat, v3: nat)
    requires v2 < 32 && v3 < 32
    ensures Or(Or(v1 * 1024, v2 * 32), v3) == (v1 * 32 + v2) * 32 + v3
  {
    OrBelow1024(v1, v2 * 32);
    OrBelow32(v1 * 32 + v2, v3);
    assert v1 * 1024 + v2 * 32 == (v1 * 32 + v2) * 32;
  }

  lemma LettersUnpack(v1: nat, v2: nat, v3: nat, id: nat)
    requires v2 < 32 && v3 < 32 && id == (v1 * 32 + v2) * 32 + v3
    ensures id / 1024 == v1 && id / 32 % 32 == v2 && id % 32 == v3
  {
    Split32(v1 * 32 + v2, v3);
    Split32(v1, v2);
    Split1024(v1, v2 * 32 + v3);
    assert id == v1 * 1024 + (v2 * 32 + v3);
  }

  /** The packed letters decode to themselves. */
  lemma ManufacturerRoundTrip(c1: char, c2: char, c3: char)
    requires 'A' <= c1 <= 'Z' && 'A' <= c2 <= 'Z' && 'A' <= c3 <= 'Z'
    ensures var id := ManufacturerId(c1, c2, c3);
            id / 1024 == c1 as int - 64 && id / 32 % 32 == c2 as int - 64 && id % 32 == c3 as int - 64
  {
    LettersPack(c1 as int - 64, c2 as int - 64, c3 as int - 64);
    LettersUnpack(c1 as int - 64, c2 as int - 64, c3 as int - 64, ManufacturerId(c1, c2, c3));
  }

  lemma SerialHigh(width: nat, spill: nat, rest: nat)
    requires rest < 65_536
    ensures Or(width * 65_536, spill * 65_536 + rest) == Or(width, spill) * 65_536 + rest
  {
    OrSplits16(width, 0, spill, rest);
    assert Or(0, rest) == rest;
  }

  lemma SerialPacks(width: nat, spill: nat, low: nat, c: nat)
    requires low < 4096 && c < 16
    ensures Or(Or(width * 65_536, spill * 65_536 + low * 16), c) == Or(width, spill) * 65_536 + low * 16 + c
  {
    var high := Or(width, spill);
    SerialHigh(width, spill, low * 16);
    OrBelow16(high * 4096 + low, c);
    assert (high * 4096 + low) * 16 == high * 65_536 + low * 16;
  }

  /** The three fields of the serial: heights from 4096 up spill into the width. */
  lemma SerialFields(mode: Mode)
    requires InRange(mode)
    ensures Serial(mode) == Or(mode.width, mode.height / 4096) * 65_536 + mode.height % 4096 * 16 + mode.refresh % 16
    ensures Serial(mode) < 0x1_0000_0000
  {
    var spill, low := mode.height / 4096, mode.height % 4096;
    assert mode.height * 16 == spill * 65_536 + low * 16;
    SerialPacks(mode.width, spill, low, mode.refresh % 16);
    SpilledWidth(mode.width, spill);
  }

  lemma SpilledWidth(width: nat, spill: nat)
    requires width <= 16_384 && spill <= 4
    ensures Or(width, spill) < 65_536
  {
    PowersOfTwo();
    OrStaysBelow(width, spill, 16);
  }

  /** The four serial bytes hold the whole serial. */
  lemma SerialRoundTrip(b: seq<byte>, mode: Mode, hCm: nat, vCm: nat)
    requires InRange(mode) && IsBlock(b, mode, hCm, vCm)
    ensures DecodeSerial(b) == Serial(mode)
  {
    SerialFields(mode);
    assert HasSection(b, Identity, mode, hCm, vCm);
    FourBytes(b, ManufacturerId('V', 'R', 'T'), Serial(mode));
  }

  lemma FourBytes(b: seq<byte>, id: nat, serial: nat)
    requires |b| == 128 && HasIdentity(b, id, serial) && serial < 0x1_0000_0000
    ensures DecodeSerial(b) == serial
  {
    assert serial / 256 / 256 == serial / 65_536 && serial / 65_536 / 256 == serial / 16_777_216;
  }

  /**
   * The extent of the promise that the serial is unique per resolution and refresh rate: two requests
   * share a serial exactly when these three numbers agree.  Below 4096 lines the first is the width.
   */
  lemma SerialsCollideIff(m: Mode, n: Mode)
    requires InRange(m) && InRange(n)
    ensures Serial(m) == Serial(n) <==>
            && Or(m.width, m.height / 4096) == Or(n.width, n.height / 4096)
            && m.height % 4096 == n.height % 4096
            && m.refresh % 16 == n.refresh % 16
    ensures m.height < 4096 ==> Or(m.width, m.height / 4096) == m.width
  {
    SerialFields(m);
    SerialFields(n);
    MixedRadix(Or(m.width, m.height / 4096), m.height % 4096, m.refresh % 16,
      Or(n.width, n.height / 4096), n.height % 4096, n.refresh % 16);
  }

  lemma MixedRadix(a: nat, b: nat, c: nat, x: nat, y: nat, z: nat)
    requires b < 4096 && c < 16 && y < 4096 && z < 16
    ensures a * 65_536 + b * 16 + c == x * 65_536 + y * 16 + z <==> a == x && b == y && c == z
  {
  }

  /** The advertised vertical rates contain the requested rate exactly up to 255 Hz. */
  lemma RangeLimitsContainRequestIff(b: seq<byte>, mode: Mode, hCm: nat, vCm: nat)
    requires InRange(mode) && IsBlock(b, mode, hCm, vCm)
    ensures b[95] == (if mode.refresh < 44 then 24 else if mode.refresh > 275 then 255 else mode.refresh - 20)
    ensures b[96] == (if mode.refresh > 235 then 255 else mode.refresh + 20)
    ensures b[95] <= mode.refresh <= b[96] <==> mode.refresh <= 255
  {
    assert HasSection(b, RangeLimits, mode, hCm, vCm);
  }

  /** The advertised horizontal rate, in kilohertz, is at least the least one and at most the greatest. */
  ghost predicate AdvertisesLineRate(b: seq<byte>, mode: Mode)
    requires |b| == 128 && mode.refresh > 0
  {
    b[97] * 1000 * HTotal(mode.width) <= PixelClock(mode) * 10_000 <= b[98] * 1000 * HTotal(mode.width)
  }

  /**
   * The advertised horizontal rates contain the one that is emitted, the clock over the total width, exactly if
   * the lines per second that were asked for do, up to what the clock is rounded down by; or, on the one side, if
   * the clock is too wide for the limit to be reached.
   */
  lemma RangeLimitsContainLineRateIff(b: seq<byte>, mode: Mode, hCm: nat, vCm: nat)
    requires InRange(mode) && IsBlock(b, mode, hCm, vCm)
    ensures var h, lines := HTotal(mode.width), VTotal(mode) * mode.refresh;
            AdvertisesLineRate(b, mode)
            <==> 30_000 <= lines && (lines * h < 160_000 * h + 10_000 || h >= 4096)
  {
    TotalWidthIsBounded(mode);
    assert HasSection(b, RangeLimits, mode, hCm, vCm);
    AdvertisedLineRates(b, mode.refresh);
    LineRateIff(HTotal(mode.width), VTotal(mode), mode.refresh, PixelClock(mode), b[97], b[98]);
  }

  lemma LineRateIff(h: nat, v: nat, r: nat, clock: nat, least: nat, greatest: nat)
    requires 0 < h <= 17_694 && clock == Min(h * v * r / 10_000, 65_535) && least == 30 && greatest == 160
    ensures least * 1000 * h <= clock * 10_000 <= greatest * 1000 * h
            <==> 30_000 <= v * r && (v * r * h < 160_000 * h + 10_000 || h >= 4096)
  {
    ProductOfThree(h, v, r);
    ClockOverWidth(v * r, h, h * v * r);
  }

  lemma ProductOfThree(h: nat, v: nat, r: nat)
    ensures h * v * r == v * r * h
  {
  }

  lemma AdvertisedLineRates(b: seq<byte>, refresh: nat)
    requires |b| == 128 && HasRangeLimits(b, refresh)
    ensures b[97] == 30 && b[98] == 160
  {
  }

  lemma TotalWidthIsBounded(mode: Mode)
    requires InRange(mode)
    ensures 0 < HTotal(mode.width) <= 17_694
  {
  }

  lemma ClockOverWidth(lines: nat, h: nat, hz: nat)
    requires 0 < h <= 17_694 && hz == lines * h
    ensures 30 * 1000 * h <= Min(hz / 10_000, 65_535) * 10_000 <==> 30_000 <= lines
    ensures Min(hz / 10_000, 65_535) * 10_000 <= 160 * 1000 * h <==> hz < 160_000 * h + 10_000 || h >= 4096
  {
    if lines >= 30_000 {
      MulIsMonotone(30_000, lines, h);
    } else {
      MulIsMonotone(lines, 29_999, h);
    }
  }

  /** Two of the built-in modes are outside: one below, one above. */
  lemma BuiltInModesExceedLineRates(b: seq<byte>, c: seq<byte>, hCm: nat, vCm: nat)
    requires IsBlock(b, Mode(1280, 720, 30), hCm, vCm) && IsBlock(c, Mode(2560, 1440, 120), hCm, vCm)
    ensures Mode(1280, 720, 30) in VIC_TABLE && !AdvertisesLineRate(b, Mode(1280, 720, 30))
    ensures Mode(2560, 1440, 120) in VIC_TABLE && !AdvertisesLineRate(c, Mode(2560, 1440, 120))
  {
    assert VIC_TABLE[0] == Mode(1280, 720, 30) && VIC_TABLE[6] == Mode(2560, 1440, 120);
    TooFewLines(b, Mode(1280, 720, 30), hCm, vCm);
    TooManyLines(c, Mode(2560, 1440, 120), hCm, vCm);
  }

  lemma TooFewLines(b: seq<byte>, mode: Mode, hCm: nat, vCm: nat)
    requires mode == Mode(1280, 720, 30) && IsBlock(b, mode, hCm, vCm)
    ensures !AdvertisesLineRate(b, mode)
  {
    TimingFixpoint(mode);
    assert VTotal(mode) * mode.refresh == 743 * 30;
    RangeLimitsContainLineRateIff(b, mode, hCm, vCm);
  }

  lemma TooManyLines(b: seq<byte>, mode: Mode, hCm: nat, vCm: nat)
    requires mode == Mode(2560, 1440, 120) && IsBlock(b, mode, hCm, vCm)
    ensures !AdvertisesLineRate(b, mode)
  {
    TimingFixpoint(mode);
    assert VTotal(mode) * mode.refresh == 1476 * 120 && HTotal(mode.width) == 2764;
    RangeLimitsContainLineRateIff(b, mode, hCm, vCm);
  }
}
