/**
 * The emergency override. A physical switch on one of the digital inputs
 * DI07..DI14 drives its relay directly over I2C, announces the override
 * over MQTT and, when switched on, locks LLM commands out for a while.
 * The lockout deadline is on the monotonic clock, passed in as `now`.
 */
module EmergencyOverride {
  import opened Json
  import opened I2cRelay
  import opened Mqtt

  const LockoutSeconds := 300

  /** `DI_RELAY_MAP`: input pin to relay channel. */
  const DiRelayMap: map<int, int> := map[7 := 1, 8 := 2, 9 := 3, 10 := 4, 11 := 5, 12 := 6, 13 := 7, 14 := 8]

  /** The map is a bijection from the pins 7..14 onto the channels 1..8, in order. */
  lemma DiRelayMapBijective()
    ensures DiRelayMap.Keys == {7, 8, 9, 10, 11, 12, 13, 14}
    ensures DiRelayMap.Values == {1, 2, 3, 4, 5, 6, 7, 8}
    ensures forall p :: p in DiRelayMap ==> DiRelayMap[p] == p - 6
    ensures forall p, q :: p in DiRelayMap && q in DiRelayMap && p != q ==> DiRelayMap[p] != DiRelayMap[q]
  {
    assert DiRelayMap[7] == 1 && DiRelayMap[8] == 2 && DiRelayMap[9] == 3 && DiRelayMap[10] == 4;
    assert DiRelayMap[11] == 5 && DiRelayMap[12] == 6 && DiRelayMap[13] == 7 && DiRelayMap[14] == 8;
  }

  /** The retained message announcing an override. */
  function OverrideMessage(houseId: string, pin: int, channel: int, state: bool, wallNow: real, lockoutSeconds: int): (m: Message)
    ensures m.payload.JObj? && "lockout_sec" in m.payload.fields && m.payload.fields["lockout_sec"] == JInt(if state then lockoutSeconds else 0)
    ensures m.qos == 1 && m.retain
  {
    Message("agriha/" + houseId + "/emergency/override",
            JObj(map["di_pin" := JInt(pin), "relay_ch" := JInt(channel), "state" := JBool(state),
                     "timestamp" := JReal(wallNow), "lockout_sec" := JInt(if state then lockoutSeconds else 0)]),
            1, true)
  }

  /** What `gate` did with a command: dropped it, ran it, or ran it and it raised. */
  datatype GateOutcome = Dropped | Invoked | InvokedRaised(fault: Fault)

  /** `CommandGate`. */
  class CommandGate {
    const relay: Relay
    /** Whether an MQTT client was given. */
    const hasMqtt: bool
    const houseId: string
    const lockoutSeconds: int
    /** `_lockout_until`, on the monotonic clock. */
    var lockoutUntil: real
    /** The override messages published. */
    var published: seq<Message>

    constructor (relay: Relay, hasMqtt: bool, houseId: string, lockoutSeconds: int)
      ensures this.relay == relay && this.hasMqtt == hasMqtt && this.houseId == houseId
      ensures this.lockoutSeconds == lockoutSeconds
      ensures lockoutUntil == 0.0 && published == []
    {
      this.relay := relay;
      this.hasMqtt := hasMqtt;
      this.houseId := houseId;
      this.lockoutSeconds := lockoutSeconds;
      lockoutUntil := 0.0;
      published := [];
    }

    /** `is_locked_out`. */
    predicate IsLockedOut(now: real)
      reads this
    {
      now < lockoutUntil
    }

    /** `remaining_lockout`: never negative, and positive exactly while locked out. */
    function RemainingLockout(now: real): (r: real)
      reads this
      ensures r >= 0.0
      ensures r > 0.0 <==> IsLockedOut(now)
      ensures IsLockedOut(now) ==> now + r == lockoutUntil
    {
      if lockoutUntil - now > 0.0 then lockoutUntil - now else 0.0
    }

    /** `clear_lockout`: from then on, at any clock reading, the gate is open with nothing remaining. */
    method ClearLockout()
      modifies this
      ensures lockoutUntil == 0.0 && published == old(published)
      ensures forall now :: now >= 0.0 ==> !IsLockedOut(now) && RemainingLockout(now) == 0.0
    {
      lockoutUntil := 0.0;
    }

    /**
     * `gate` with the command the daemon passes it, `relay.set_relay`:
     * dropped while locked out, otherwise run exactly once (an exception
     * it raises passes through).
     */
    method Gate(now: real, channel: int, on: bool, busOk: bool) returns (out: GateOutcome)
      modifies relay
      ensures out == Dropped <==> IsLockedOut(now)
      ensures IsLockedOut(now) ==> unchanged(relay)
      ensures !IsLockedOut(now) && ValidChannel(channel) ==> relay.olat == WithChannel(old(relay.olat), channel, on)
      ensures !IsLockedOut(now) && ValidChannel(channel) && busOk ==>
        out == Invoked && relay.latch == relay.olat && relay.writes == old(relay.writes) + [Write(OLAT, relay.olat)]
      ensures !IsLockedOut(now) && !(ValidChannel(channel) && busOk) ==>
        out.InvokedRaised? && relay.latch == old(relay.latch) && relay.writes == old(relay.writes)
    {
      if IsLockedOut(now) {
        return Dropped;
      }
      var r := relay.SetRelay(channel, on, busOk);
      out := if r.Done? then Invoked else InvokedRaised(r.fault);
    }

    /**
     * `handle_gpio_event`: an unmapped pin changes nothing. A mapped one
     * drives its channel to the switch state, is announced when an MQTT
     * client exists and the publish succeeds, and, when switched on,
     * (re)starts the lockout; relay and publish failures are swallowed and
     * do not stop the lockout update.
     */
    method HandleGpioEvent(pin: int, value: int, now: real, wallNow: real, busOk: bool, publishOk: bool)
      modifies this, relay
      ensures pin !in DiRelayMap ==> unchanged(this) && unchanged(relay)
      ensures pin in DiRelayMap ==>
        relay.olat == WithChannel(old(relay.olat), DiRelayMap[pin], value != 0)
        && (busOk ==> relay.latch == relay.olat && relay.writes == old(relay.writes) + [Write(OLAT, relay.olat)])
        && (!busOk ==> relay.latch == old(relay.latch) && relay.writes == old(relay.writes))
      ensures pin in DiRelayMap ==>
        lockoutUntil == (if value != 0 then now + lockoutSeconds as real else old(lockoutUntil))
      ensures pin in DiRelayMap ==>
        published == old(published) +
          (if hasMqtt && publishOk
           then [OverrideMessage(houseId, pin, DiRelayMap[pin], value != 0, wallNow, lockoutSeconds)] else [])
    {
      if pin !in DiRelayMap {
        return;
      }
      var channel := DiRelayMap[pin];
      var state := value != 0;
      var _ := relay.SetRelay(channel, state, busOk);
      if hasMqtt && publishOk {
        published := published + [OverrideMessage(houseId, pin, channel, state, wallNow, lockoutSeconds)];
      }
      if state {
        lockoutUntil := now + lockoutSeconds as real;
      }
    }
  }
}
