/**
 * The MISOL WH65LP weather-station frame: 17 bytes (sync 0x24, sensor id,
 * bit-packed measurements, a checksum at byte 16), or 21 bytes when the
 * station also reports air pressure. Bytes are Python ints 0..255; the
 * bit operators the decoder applies are written arithmetically. Where it
 * ORs a low byte with bits shifted above bit 7 the two never overlap, so
 * the OR is a sum.
 */
module Wh65lp {
  import opened Json

  type Byte = b: int | 0 <= b < 256

  const SyncByte: Byte := 0x24
  const FrameLenBase := 17
  const FrameLenExt := 21

  const SentinelWindDir := 0x1FF
  const SentinelTemp := 0x7FF
  const SentinelWind := 0x1FF
  const SentinelGust := 0xFF
  const SentinelUv := 0xFFFF
  const SentinelLight := 0xFF_FFFF

  function Pow2(k: nat): (r: nat)
    ensures r >= 1
  {
    if k == 0 then 1 else 2 * Pow2(k - 1)
  }

  /** `x & (1 << k) != 0` for a non-negative int. */
  predicate TestBit(x: nat, k: nat) {
    (x / Pow2(k)) % 2 == 1
  }

  /** `sum(s)` over bytes. */
  function Sum(s: seq<Byte>): (r: nat)
    ensures r <= 255 * |s|
  {
    if s == [] then 0 else Sum(s[..|s| - 1]) + s[|s| - 1]
  }

  /** An 8-bit accumulator: each byte is added with wrap-around at 256. */
  function ByteSum(s: seq<Byte>): Byte {
    if s == [] then 0 else (ByteSum(s[..|s| - 1]) + s[|s| - 1]) % 256
  }

  /** Wrapping at every step leaves the same low byte as wrapping once at the end. */
  lemma {:induction false} ByteSumIsLowByte(s: seq<Byte>)
    ensures ByteSum(s) == Sum(s) % 256
    decreases |s|
  {
    if s != [] {
      ByteSumIsLowByte(s[..|s| - 1]);
    }
  }

  /**
   * `verify_checksum`: too short fails; otherwise byte 16 must equal the
   * low byte of the sum of bytes 0..15 (`sum(data[0:16]) & 0xFF`), which
   * is what an 8-bit wrapping accumulator over those bytes holds.
   */
  predicate VerifyChecksum(data: seq<Byte>): (ok: bool)
    ensures ok <==> |data| >= FrameLenBase && ByteSum(data[..16]) == data[16]
  {
    ByteSumIsLowByte(data[..if |data| >= 16 then 16 else |data|]);
    |data| >= FrameLenBase && Sum(data[0..16]) % 256 == data[16]
  }

  /** The bit fields of a frame, before scaling and before the sentinels are applied. */
  datatype RawFields = RawFields(windDir: int, temp: int, humidity: int, wind: int, gust: int, rain: int,
                                 uv: int, light: int, batteryLow: bool, pressure: Option<int>)

  /** The fields `parse_frame` extracts from a frame of at least 17 bytes. */
  function Raw(data: seq<Byte>): (f: RawFields)
    requires |data| >= FrameLenBase
    ensures 0 <= f.windDir <= 0x1FF && 0 <= f.temp <= 0x7FF && 0 <= f.wind <= 0x1FF
    ensures f.humidity == data[5] && f.batteryLow == TestBit(data[3], 3)
    ensures f.pressure.Some? <==> |data| >= FrameLenExt
  {
    var b3: int := data[3];
    RawFields(
      (data[2] as int) + (if TestBit(b3, 7) then 0x100 else 0),
      (data[4] as int) + (b3 % 8) * 0x100,
      (data[5] as int),
      (data[6] as int) + (if TestBit(b3, 4) then 0x100 else 0),
      (data[7] as int),
      (data[8] as int) * 0x100 + (data[9] as int),
      (data[10] as int) * 0x100 + (data[11] as int),
      (data[12] as int) * 0x1_0000 + (data[13] as int) * 0x100 + (data[14] as int),
      TestBit(b3, 3),
      if |data| >= FrameLenExt then Some((data[17] as int) * 0x1_0000 + (data[18] as int) * 0x100 + (data[19] as int)) else None)
  }

  /** A decoded reading; None marks a sentinel (no valid measurement). */
  datatype Reading = Reading(windDirDeg: Option<int>, temperatureC: Option<real>, humidityPct: int,
                             windSpeedMs: Option<real>, gustSpeedMs: Option<real>, rainfallMm: real,
                             uvWm2: Option<real>, lightLux: Option<real>, pressureHpa: Option<real>,
                             batteryLow: bool)

  /** The scaled reading of a frame's fields. */
  function Scale(f: RawFields): (r: Reading)
    ensures r.windDirDeg.None? <==> f.windDir == SentinelWindDir
    ensures r.windDirDeg.Some? ==> r.windDirDeg.value == f.windDir
    ensures r.temperatureC.None? <==> f.temp == SentinelTemp
    ensures r.temperatureC.Some? ==> r.temperatureC.value * 10.0 == (f.temp - 400) as real
    ensures r.windSpeedMs.None? <==> f.wind == SentinelWind
    ensures r.gustSpeedMs.None? <==> f.gust == SentinelGust
    ensures r.uvWm2.None? <==> f.uv == SentinelUv
    ensures r.lightLux.None? <==> f.light == SentinelLight
    ensures r.pressureHpa.Some? <==> f.pressure.Some?
    ensures r.humidityPct == f.humidity && r.batteryLow == f.batteryLow
  {
    Reading(
      if f.windDir == SentinelWindDir then None else Some(f.windDir),
      if f.temp == SentinelTemp then None else Some((f.temp - 400) as real / 10.0),
      f.humidity,
      if f.wind == SentinelWind then None else Some(f.wind as real / 8.0 * 1.12),
      if f.gust == SentinelGust then None else Some(f.gust as real * 1.12),
      f.rain as real * 0.3,
      if f.uv == SentinelUv then None else Some(f.uv as real / 10.0),
      if f.light == SentinelLight then None else Some(f.light as real / 10.0),
      if f.pressure.Some? then Some(f.pressure.value as real / 100.0) else None,
      f.batteryLow)
  }

  /** `parse_frame`: ValueError (Raised) for a frame shorter than 17 bytes. */
  function ParseFrame(data: seq<Byte>): (r: Fallible<Reading>)
    ensures r.Raised? <==> |data| < FrameLenBase
    ensures r.Ok? ==> r.value == Scale(Raw(data))
  {
    if |data| < FrameLenBase then Raised else Ok(Scale(Raw(data)))
  }

  /** The fields the station can encode: each within its bit width. */
  predicate Encodable(f: RawFields) {
    0 <= f.windDir < 0x200 && 0 <= f.temp < 0x800 && 0 <= f.humidity < 0x100 && 0 <= f.wind < 0x200
    && 0 <= f.gust < 0x100 && 0 <= f.rain < 0x1_0000 && 0 <= f.uv < 0x1_0000 && 0 <= f.light < 0x100_0000
    && (f.pressure.Some? ==> 0 <= f.pressure.value < 0x100_0000)
  }

  /** The composite byte 3: wind direction bit 8, temperature bits 10..8, wind bit 8, battery flag. */
  function Byte3(f: RawFields): (b: Byte)
    requires Encodable(f)
    ensures TestBit(b, 7) <==> f.windDir >= 0x100
    ensures TestBit(b, 4) <==> f.wind >= 0x100
    ensures TestBit(b, 3) <==> f.batteryLow
    ensures b % 8 == f.temp / 0x100
  {
    var d := if f.windDir >= 0x100 then 1 else 0;
    var w := if f.wind >= 0x100 then 1 else 0;
    var c := if f.batteryLow then 1 else 0;
    var b := 0x80 * d + 0x10 * w + 0x08 * c + f.temp / 0x100;
    assert Pow2(3) == 0x08 && Pow2(4) == 0x10 && Pow2(7) == 0x80;
    assert b / 0x80 == d && b / 0x10 == 8 * d + w && b / 0x08 == 16 * d + 2 * w + c;
    b
  }

  /** The frame the station sends for some fields: what the protocol tests build by hand. */
  function Encode(f: RawFields): (data: seq<Byte>)
    requires Encodable(f)
    ensures |data| == (if f.pressure.Some? then FrameLenExt else FrameLenBase) && data[0] == SyncByte
  {
    var body: seq<Byte> := [SyncByte, 0x00, f.windDir % 0x100, Byte3(f), f.temp % 0x100, f.humidity, f.wind % 0x100,
                            f.gust, f.rain / 0x100, f.rain % 0x100, f.uv / 0x100, f.uv % 0x100,
                            f.light / 0x1_0000, (f.light / 0x100) % 0x100, f.light % 0x100, 0x00];
    var base := body + [Sum(body) % 256];
    match f.pressure
    case None => base
    case Some(p) => base + [p / 0x1_0000, (p / 0x100) % 0x100, p % 0x100, 0x00]
  }

  /** A frame built from valid fields passes the checksum, and decoding recovers every field. */
  lemma EncodeRoundTrip(f: RawFields)
    requires Encodable(f)
    ensures VerifyChecksum(Encode(f))
    ensures Raw(Encode(f)) == f
  {
    EncodeChecksum(f);
    EncodeFields(f);
  }

  lemma EncodeChecksum(f: RawFields)
    requires Encodable(f)
    ensures VerifyChecksum(Encode(f))
  {
    var data := Encode(f);
    assert data[0..16] == data[..17][..16];
  }

  lemma EncodeFields(f: RawFields)
    requires Encodable(f)
    ensures Raw(Encode(f)) == f
  {
    var data := Encode(f);
    EncodeBytes(f);
    var g := Raw(data);
    NinthBit(f.windDir);
    NinthBit(f.wind);
    Digits2(f.temp);
    Digits2(f.rain);
    Digits2(f.uv);
    Digits3(f.light);
    if f.pressure.Some? {
      Digits3(f.pressure.value);
    }
    assert g.windDir == f.windDir && g.temp == f.temp && g.wind == f.wind;
    assert g.rain == f.rain && g.uv == f.uv && g.light == f.light && g.pressure == f.pressure;
  }

  /** Where `Encode` puts each field. */
  lemma EncodeBytes(f: RawFields)
    requires Encodable(f)
    ensures var data := Encode(f);
      data[2] == f.windDir % 0x100 && data[3] == Byte3(f) && data[4] == f.temp % 0x100
      && data[5] == f.humidity && data[6] == f.wind % 0x100 && data[7] == f.gust
      && data[8] == f.rain / 0x100 && data[9] == f.rain % 0x100
      && data[10] == f.uv / 0x100 && data[11] == f.uv % 0x100
      && data[12] == f.light / 0x1_0000 && data[13] == (f.light / 0x100) % 0x100 && data[14] == f.light % 0x100
      && (f.pressure.Some? ==>
            data[17] == f.pressure.value / 0x1_0000 && data[18] == (f.pressure.value / 0x100) % 0x100
            && data[19] == f.pressure.value % 0x100)
  {
  }

  lemma NinthBit(x: int)
    requires 0 <= x < 0x200
    ensures x % 0x100 + (if x >= 0x100 then 0x100 else 0) == x
  {
  }

  lemma Digits2(x: int)
    requires 0 <= x
    ensures x % 0x100 + (x / 0x100) * 0x100 == x && (x / 0x100) * 0x100 + x % 0x100 == x
  {
  }

  lemma Digits3(x: int)
    requires 0 <= x < 0x100_0000
    ensures (x / 0x1_0000) * 0x1_0000 + ((x / 0x100) % 0x100) * 0x100 + x % 0x100 == x
  {
    assert x / 0x1_0000 == (x / 0x100) / 0x100;
  }



  /** The sum of a sequence after one byte is replaced changes by exactly the difference. */
  lemma {:induction false} SumUpdate(s: seq<Byte>, i: int, v: Byte)
    requires 0 <= i < |s|
    ensures Sum(s[i := v]) == Sum(s) - s[i] + v
    decreases |s|
  {
    var t := s[i := v];
    if i < |s| - 1 {
      assert t[..|t| - 1] == s[..|s| - 1][i := v];
      SumUpdate(s[..|s| - 1], i, v);
    } else {
      assert t[..|t| - 1] == s[..|s| - 1];
    }
  }

  /** The checksum catches every change to a single byte among bytes 0..15. */
  lemma ChecksumDetectsSingleByteChange(data: seq<Byte>, i: int, v: Byte)
    requires VerifyChecksum(data) && 0 <= i < 16 && v != data[i]
    ensures !VerifyChecksum(data[i := v])
  {
    var corrupted := data[i := v];
    assert corrupted[0..16] == data[0..16][i := v];
    SumUpdate(data[0..16], i, v);
    LowByteMoves(Sum(data[0..16]), v - data[i]);
    assert corrupted[16] == data[16];
  }

  /** Adding a non-zero amount smaller than 256 in magnitude changes the low byte. */
  lemma LowByteMoves(a: int, d: int)
    requires d != 0 && -256 < d < 256
    ensures (a + d) % 256 != a % 256
  {
  }
}
