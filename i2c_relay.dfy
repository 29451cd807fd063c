/**
 * The MCP23008 8-channel relay driver. The chip's eight outputs are wired
 * in reverse (channel 1 is bit 7, channel 8 is bit 0); the driver keeps a
 * shadow copy of the output latch and writes the whole byte on every
 * change. Bus transactions are given as `busOk`: false when the I2C
 * transfer raises.
 */
module I2cRelay {
  import opened Json

  const IODIR: bv8 := 0x00
  const GPIO: bv8 := 0x09
  const OLAT: bv8 := 0x0A

  /** A register write that reached the chip. */
  datatype Write = Write(register: bv8, value: bv8)

  /** Why a call raised: `ValueError` for a channel outside 1..8, or an I2C transfer error. */
  datatype Fault = BadChannel | BusError

  datatype Outcome<T> = Done(value: T) | Failed(fault: Fault)

  predicate ValidChannel(channel: int) {
    1 <= channel <= 8
  }

  function Pow2(k: nat): nat {
    if k == 0 then 1 else 2 * Pow2(k - 1)
  }

  /** `ch_to_bit`: None where it raises ValueError. */
  function ChToBit(channel: int): (r: Option<bv8>)
    ensures r.Some? <==> ValidChannel(channel)
  {
    if ValidChannel(channel) then Some((1 as bv8) << (8 - channel)) else None
  }

  /** The bit of a channel is 2^(8 - channel): one bit, counted from the top. */
  lemma ChToBitValue(channel: int)
    requires ValidChannel(channel)
    ensures ChToBit(channel).value as int == Pow2(8 - channel)
  {
    assert Pow2(0) == 1 && Pow2(1) == 2 && Pow2(2) == 4 && Pow2(3) == 8;
    assert Pow2(4) == 16 && Pow2(5) == 32 && Pow2(6) == 64 && Pow2(7) == 128;
  }

  /** Distinct channels have disjoint bits; channel 1 is 0x80 and channel 8 is 0x01. */
  lemma ChToBitDistinct(c1: int, c2: int)
    requires ValidChannel(c1) && ValidChannel(c2) && c1 != c2
    ensures ChToBit(c1).value & ChToBit(c2).value == 0
    ensures ChToBit(1) == Some(0x80) && ChToBit(8) == Some(0x01)
  {
  }

  /** `f"ch{n}"`: the name a channel goes by in the status documents. */
  function ChannelKey(n: int): (key: string)
    requires ValidChannel(n)
    ensures |key| == 3 && key[..2] == "ch" && key[2] as int == '0' as int + n
  {
    "ch" + [('0' as int + n) as char]
  }

  /** Distinct channels have distinct keys, none of them "ts". */
  lemma ChannelKeysDistinct()
    ensures forall a, b :: ValidChannel(a) && ValidChannel(b) && a != b ==> ChannelKey(a) != ChannelKey(b)
    ensures forall a :: ValidChannel(a) ==> ChannelKey(a) != "ts"
  {
    forall a, b | ValidChannel(a) && ValidChannel(b) && a != b
      ensures ChannelKey(a) != ChannelKey(b)
    {
      assert ChannelKey(a)[2] != ChannelKey(b)[2];
    }
    forall a | ValidChannel(a)
      ensures ChannelKey(a) != "ts"
    {
      assert ChannelKey(a)[0] == 'c';
    }
  }

  /** Is the channel's bit set in a latch value? */
  predicate IsOn(raw: bv8, channel: int)
    requires ValidChannel(channel)
  {
    raw & ChToBit(channel).value != 0
  }

  /** The latch value `set_relay` computes. */
  function WithChannel(olat: bv8, channel: int, on: bool): bv8
    requires ValidChannel(channel)
  {
    var bit := ChToBit(channel).value;
    if on then olat | bit else olat & !bit
  }

  /** `set_relay` sets or clears exactly that channel's bit and leaves the other seven as they were. */
  lemma WithChannelSpec(olat: bv8, channel: int, on: bool)
    requires ValidChannel(channel)
    ensures IsOn(WithChannel(olat, channel, on), channel) == on
    ensures forall c :: ValidChannel(c) && c != channel ==>
      IsOn(WithChannel(olat, channel, on), c) == IsOn(olat, c)
  {
    forall c | ValidChannel(c) && c != channel
      ensures IsOn(WithChannel(olat, channel, on), c) == IsOn(olat, c)
    {
      ChToBitDistinct(c, channel);
    }
  }

  /** The byte whose value is `m`, built bit by bit from the top. */
  function ByteOf(m: int): (b: bv8)
    requires 0 <= m < 256
    ensures b as int == m
    decreases m
  {
    if m == 0 then 0
    else
      var high := ByteOf(m / 2);
      var low: bv8 := if m % 2 == 1 then 1 else 0;
      assert high < 128;
      (high << 1) | low
  }

  /** `bitmask & 0xFF` for a Python int, two's complement for negative ones. */
  function LowByte(bitmask: int): (b: bv8)
    ensures b as int == bitmask % 256
  {
    ByteOf(bitmask % 256)
  }

  /** The relay board. */
  class Relay {
    /** `_olat`, the driver's shadow copy of the output latch. */
    var olat: bv8
    /** The chip's OLAT register, which `get_state` reads back. */
    var latch: bv8
    /** The register writes that reached the chip, in order. */
    var writes: seq<Write>

    /** Opens the board: the shadow starts at 0 and all pins become outputs. */
    constructor (latched: bv8)
      ensures olat == 0 && latch == latched && writes == [Write(IODIR, 0)]
    {
      olat := 0;
      latch := latched;
      writes := [Write(IODIR, 0)];
    }

    /** Writes the shadow to OLAT. */
    method Flush(busOk: bool) returns (out: Outcome<()>)
      modifies this
      ensures olat == old(olat)
      ensures busOk ==> out == Done(()) && latch == olat && writes == old(writes) + [Write(OLAT, olat)]
      ensures !busOk ==> out == Failed(BusError) && latch == old(latch) && writes == old(writes)
    {
      if !busOk {
        return Failed(BusError);
      }
      latch := olat;
      writes := writes + [Write(OLAT, olat)];
      out := Done(());
    }

    /** `set_relay`: the shadow changes even when the write then fails. */
    method SetRelay(channel: int, on: bool, busOk: bool) returns (out: Outcome<()>)
      modifies this
      ensures !ValidChannel(channel) ==> out == Failed(BadChannel) && unchanged(this)
      ensures ValidChannel(channel) ==> olat == WithChannel(old(olat), channel, on)
      ensures ValidChannel(channel) && busOk ==>
        out == Done(()) && latch == olat && writes == old(writes) + [Write(OLAT, olat)]
      ensures ValidChannel(channel) && !busOk ==>
        out == Failed(BusError) && latch == old(latch) && writes == old(writes)
    {
      if !ValidChannel(channel) {
        return Failed(BadChannel);
      }
      olat := WithChannel(olat, channel, on);
      out := Flush(busOk);
    }

    /** `set_all`: the shadow becomes the mask's low byte. */
    method SetAll(bitmask: int, busOk: bool) returns (out: Outcome<()>)
      modifies this
      ensures olat == LowByte(bitmask)
      ensures busOk ==> out == Done(()) && latch == olat && writes == old(writes) + [Write(OLAT, olat)]
      ensures !busOk ==> out == Failed(BusError) && latch == old(latch) && writes == old(writes)
    {
      olat := LowByte(bitmask);
      out := Flush(busOk);
    }

    /** `all_off`. */
    method AllOff(busOk: bool) returns (out: Outcome<()>)
      modifies this
      ensures olat == 0
      ensures busOk ==> out == Done(()) && latch == 0 && writes == old(writes) + [Write(OLAT, 0)]
      ensures !busOk ==> out == Failed(BusError) && latch == old(latch) && writes == old(writes)
    {
      out := SetAll(0, busOk);
    }

    /** `get_state`: reads OLAT back from the chip. */
    method GetState(busOk: bool) returns (out: Outcome<bv8>)
      ensures busOk ==> out == Done(latch)
      ensures !busOk ==> out == Failed(BusError)
    {
      if !busOk {
        return Failed(BusError);
      }
      out := Done(latch);
    }

    /** `get_relay`: the channel is checked before the chip is read. */
    method GetRelay(channel: int, busOk: bool) returns (out: Outcome<bool>)
      ensures !ValidChannel(channel) ==> out == Failed(BadChannel)
      ensures ValidChannel(channel) && busOk ==> out == Done(IsOn(latch, channel))
      ensures ValidChannel(channel) && !busOk ==> out == Failed(BusError)
    {
      if !ValidChannel(channel) {
        return Failed(BadChannel);
      }
      var bit := ChToBit(channel).value;
      var raw := GetState(busOk);
      if raw.Failed? {
        return Failed(BusError);
      }
      out := Done(raw.value & bit != 0);
    }
  }

  /** `all_off` leaves every channel off. */
  lemma AllOffClearsEveryChannel(c: int)
    requires ValidChannel(c)
    ensures !IsOn(LowByte(0), c)
  {
  }
}
