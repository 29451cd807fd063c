/**
 * The MQTT relay bridge: relay commands arrive on
 * `agriha/{house_id}/relay/{ch}/set`, are applied to the relay board, and
 * the board's state is republished, retained, on
 * `agriha/{house_id}/relay/state`. A command that switches a channel on
 * for a positive duration arms an auto-off timer for that channel; the
 * timer table holds, per channel, the monotonic time the timer is due.
 * Bus transactions are given as flags (`writeOk` for the latch write,
 * `readOk` for the read-back `publish_state` does).
 */
module MqttRelayBridge {
  import opened Json
  import opened I2cRelay
  import opened Mqtt

  /**
   * The channel a command topic addresses: at least five '/'-separated
   * parts, the last one "set", the one before it an integer in 1..8.
   * None where `_on_message` gives up on the topic.
   */
  function TopicChannel(topic: string): (ch: Option<int>)
    ensures ch.Some? ==> CommandParts(Split(topic, '/'), ch.value)
    ensures ch.None? ==> forall n :: !CommandParts(Split(topic, '/'), n)
  {
    PartsChannel(Split(topic, '/'))
  }

  /** The parts of a topic that addresses channel `ch`. */
  predicate CommandParts(parts: seq<string>, ch: int) {
    ValidChannel(ch) && |parts| >= 5 && parts[|parts| - 1] == "set" && ParseInt(parts[|parts| - 2]) == Some(ch)
  }

  /** The channel named by the parts of a command topic. */
  function PartsChannel(parts: seq<string>): (ch: Option<int>)
    ensures ch.Some? ==> CommandParts(parts, ch.value)
    ensures ch.None? ==> forall n :: !CommandParts(parts, n)
  {
    if |parts| < 5 || parts[|parts| - 1] != "set" then None
    else
      var n := ParseInt(parts[|parts| - 2]);
      if n.Some? && ValidChannel(n.value) then n else None
  }

  /**
   * Whatever the house id, the bridge reads a command sent to a
   * channel's set topic as addressed to that channel.
   */
  lemma SetTopicChannel(houseId: string, ch: int)
    requires ValidChannel(ch)
    ensures TopicChannel(SetTopic(houseId, ch)) == Some(ch)
  {
    var d := IntToString(ch);
    DigitsHaveNoSlash(ch);
    SetTopicParts(houseId, d);
    ParseIntOfIntToString(ch);
    PartsOfChannel(Split(SetTopic(houseId, ch), '/'), ch);
  }

  lemma DigitsHaveNoSlash(ch: int)
    requires ValidChannel(ch)
    ensures '/' !in IntToString(ch)
  {
    var d := IntToString(ch);
    assert d == NatToString(ch);
    forall k | 0 <= k < |d| ensures d[k] != '/' {
      assert IsDigit(d[k]);
    }
  }

  /** Parts ending in a channel's text and "set" name that channel. */
  lemma PartsOfChannel(parts: seq<string>, ch: int)
    requires ValidChannel(ch) && |parts| >= 5 && parts[|parts| - 1] == "set"
    requires ParseInt(parts[|parts| - 2]) == Some(ch)
    ensures PartsChannel(parts) == Some(ch)
  {
  }

  /** A set topic splits into at least five parts, the last two the channel text and "set". */
  lemma SetTopicParts(houseId: string, d: string)
    requires '/' !in d
    ensures var parts := Split("agriha/" + houseId + "/relay/" + d + "/set", '/');
      |parts| >= 5 && parts[|parts| - 1] == "set" && parts[|parts| - 2] == d
  {
    var x := "agriha/" + houseId + "/relay";
    assert "agriha/" + houseId + "/relay/" + d + "/set" == x + ['/'] + (d + ['/'] + "set");
    HousePrefixParts(houseId);
    SplitLastTwo(x, d);
  }

  /** Appending `/{d}/set` to a path adds the two parts `d` and "set" at its end. */
  lemma SplitLastTwo(x: string, d: string)
    requires '/' !in d
    ensures var parts := Split(x + ['/'] + (d + ['/'] + "set"), '/');
      parts == Split(x, '/') + [d, "set"]
  {
    var tail := d + ['/'] + "set";
    SplitConcat(x, '/', tail);
    SplitConcat(d, '/', "set");
    SplitWhole(d, '/');
    SplitWhole("set", '/');
    assert Split(tail, '/') == [d, "set"];
  }

  /** `agriha/{house_id}/relay` has at least three parts, whatever the house id. */
  lemma HousePrefixParts(houseId: string)
    ensures |Split("agriha/" + houseId + "/relay", '/')| >= 3
  {
    var rest := houseId + ['/'] + "relay";
    assert "agriha/" + houseId + "/relay" == "agriha" + ['/'] + rest;
    SplitConcat("agriha", '/', rest);
    SplitConcat(houseId, '/', "relay");
  }

  /** An accepted command: the channel, `int(value)` and `float(duration_sec)`. */
  datatype Command = Command(ch: int, value: int, durationSec: real)

  /**
   * What `_on_message` makes of a message before it touches anything: the
   * command, or None when the topic, the payload (`payload` is None when
   * it is not JSON) or one of the conversions is rejected.
   */
  function Decode(topic: string, payload: Option<Json>, p: Parsers): (c: Option<Command>)
    ensures c.Some? <==> (TopicChannel(topic).Some? && payload.Some? && payload.value.JObj?
                          && PyInt(FieldOr(payload.value.fields, "value", JInt(0))).Ok?
                          && ToFloat(FieldOr(payload.value.fields, "duration_sec", JInt(0)), p).Ok?)
    ensures c.Some? ==> TopicChannel(topic) == Some(c.value.ch) && ValidChannel(c.value.ch)
    ensures c.Some? ==> (payload.Some? && payload.value.JObj?
      && c.value.value == PyInt(FieldOr(payload.value.fields, "value", JInt(0))).value
      && c.value.durationSec == ToFloat(FieldOr(payload.value.fields, "duration_sec", JInt(0)), p).value)
    ensures (TopicChannel(topic).Some? && payload.Some? && payload.value.JObj? && "value" !in payload.value.fields
             && "duration_sec" !in payload.value.fields) ==> c == Some(Command(TopicChannel(topic).value, 0, 0.0))
  {
    match TopicChannel(topic)
    case None => None
    case Some(ch) =>
      if payload.None? || !payload.value.JObj? then None
      else
        var fields := payload.value.fields;
        match PyInt(FieldOr(fields, "value", JInt(0)))
        case Raised => None
        case Ok(value) =>
          match ToFloat(FieldOr(fields, "duration_sec", JInt(0)), p)
          case Raised => None
          case Ok(duration) => Some(Command(ch, value, duration))
  }

  /** The `publish_state` payload: each channel as 0 or 1, and the whole-second wall-clock time. */
  function StatePayload(raw: bv8, ts: int): (j: Json)
    ensures j.JObj? && "ts" in j.fields && j.fields["ts"] == JInt(ts)
    ensures forall n :: ValidChannel(n) ==>
      ChannelKey(n) in j.fields && j.fields[ChannelKey(n)] == JInt(if IsOn(raw, n) then 1 else 0)
  {
    ChannelKeysDistinct();
    var channels := map n | 1 <= n <= 8 :: ChannelKey(n) := JInt(if IsOn(raw, n) then 1 else 0);
    JObj(channels["ts" := JInt(ts)])
  }

  function StateMessage(houseId: string, raw: bv8, wallNow: real): Message {
    Message("agriha/" + houseId + "/relay/state", StatePayload(raw, Truncate(wallNow)), 1, true)
  }

  /** `MqttRelayBridge`. */
  class Bridge {
    const relay: Relay
    const houseId: string
    /** `_timers`: per channel, the monotonic time its auto-off is due. */
    var timers: map<int, real>
    /** The state messages published. */
    var published: seq<Message>

    /** Only channels 1..8 ever have a timer. */
    predicate Valid()
      reads this
    {
      forall ch :: ch in timers ==> ValidChannel(ch)
    }

    constructor (relay: Relay, houseId: string)
      ensures this.relay == relay && this.houseId == houseId
      ensures timers == map[] && published == [] && Valid()
    {
      this.relay := relay;
      this.houseId := houseId;
      timers := map[];
      published := [];
    }

    /** `publish_state`: reads the latch back and publishes it; fails when the read does. */
    method PublishState(readOk: bool, wallNow: real) returns (out: Outcome<()>)
      modifies this
      ensures timers == old(timers)
      ensures readOk ==> out == Done(()) && published == old(published) + [StateMessage(houseId, relay.latch, wallNow)]
      ensures !readOk ==> out == Failed(BusError) && published == old(published)
    {
      var raw := relay.GetState(readOk);
      if raw.Failed? {
        return Failed(BusError);
      }
      published := published + [StateMessage(houseId, raw.value, wallNow)];
      out := Done(());
    }

    /**
     * `_on_message`. A rejected message changes nothing. An accepted one
     * is carried out by `Apply`.
     */
    method OnMessage(topic: string, payload: Option<Json>, p: Parsers, now: real, wallNow: real,
                     writeOk: bool, readOk: bool)
      requires Valid()
      modifies this, relay
      ensures Valid()
      ensures match Decode(topic, payload, p)
        case None => unchanged(this) && unchanged(relay)
        case Some(c) => Applied(c, now, wallNow, writeOk, readOk)
    {
      var decoded := Decode(topic, payload, p);
      if decoded.None? {
        return;
      }
      Apply(decoded.value, now, wallNow, writeOk, readOk);
    }

    /** What carrying out the accepted command `c` does to the bridge and the relay board. */
    twostate predicate Applied(c: Command, now: real, wallNow: real, writeOk: bool, readOk: bool)
      reads this, relay
    {
      ValidChannel(c.ch)
      && relay.olat == WithChannel(old(relay.olat), c.ch, c.value != 0)
      && (writeOk ==> relay.latch == relay.olat && relay.writes == old(relay.writes) + [Write(OLAT, relay.olat)])
      && (!writeOk ==> relay.latch == old(relay.latch) && relay.writes == old(relay.writes))
      && published == old(published) + (if writeOk && readOk then [StateMessage(houseId, relay.latch, wallNow)] else [])
      && timers == (if writeOk && readOk && c.value != 0 && c.durationSec > 0.0
                    then old(timers)[c.ch := now + c.durationSec]
                    else old(timers) - {c.ch})
    }

    /**
     * An accepted command: drops the channel's timer, drives the channel to
     * `bool(value)`, republishes the state, and arms a new timer iff the
     * value is non-zero and the duration positive. A bus failure ends the
     * handler at that point (the exception is swallowed), so no timer is
     * armed.
     */
    method Apply(c: Command, now: real, wallNow: real, writeOk: bool, readOk: bool)
      requires Valid() && ValidChannel(c.ch)
      modifies this, relay
      ensures Valid()
      ensures Applied(c, now, wallNow, writeOk, readOk)
    {
      timers := timers - {c.ch};
      var written := relay.SetRelay(c.ch, c.value != 0, writeOk);
      if written.Failed? {
        assert !writeOk && published == old(published) && timers == old(timers) - {c.ch};
        return;
      }
      assert writeOk && relay.latch == relay.olat;
      var announced := PublishState(readOk, wallNow);
      if announced.Failed? {
        assert !readOk && published == old(published);
        return;
      }
      assert published == old(published) + [StateMessage(houseId, relay.latch, wallNow)];
      if c.value != 0 && c.durationSec > 0.0 {
        assert (old(timers) - {c.ch})[c.ch := now + c.durationSec] == old(timers)[c.ch := now + c.durationSec];
        timers := timers[c.ch := now + c.durationSec];
      }
    }

    /**
     * A timer's `_auto_off`: switches its channel off and republishes,
     * and in every case removes the channel's entry.
     */
    method AutoOff(channel: int, wallNow: real, writeOk: bool, readOk: bool)
      requires Valid() && ValidChannel(channel)
      modifies this, relay
      ensures Valid() && channel !in timers && timers == old(timers) - {channel}
      ensures relay.olat == WithChannel(old(relay.olat), channel, false) && !IsOn(relay.olat, channel)
      ensures writeOk ==> relay.latch == relay.olat && relay.writes == old(relay.writes) + [Write(OLAT, relay.olat)]
      ensures !writeOk ==> relay.latch == old(relay.latch) && relay.writes == old(relay.writes)
      ensures published == old(published) + (if writeOk && readOk then [StateMessage(houseId, relay.latch, wallNow)] else [])
    {
      WithChannelSpec(relay.olat, channel, false);
      var written := relay.SetRelay(channel, false, writeOk);
      if written.Done? {
        var _ := PublishState(readOk, wallNow);
      }
      timers := timers - {channel};
    }

    /** `disconnect`: every timer is cancelled and the table left empty. */
    method Disconnect()
      modifies this
      ensures timers == map[] && published == old(published) && Valid()
    {
      timers := map[];
    }
  }
}
