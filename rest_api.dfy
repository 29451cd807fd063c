/**
 * The daemon's REST gateway: relay commands are turned into MQTT
 * commands (unless the emergency lockout holds), sensor readings come
 * from a cache fed by MQTT, and the status route reports the lockout and
 * the relay latch. Every route first checks the API key. Clocks are
 * parameters: `now` is the monotonic clock, `wallNow` the wall clock.
 */
module RestApi {
  import opened Json
  import opened I2cRelay
  import opened Mqtt
  import opened EmergencyOverride

  /** `SensorCache`: the latest payload per topic and the time of the last update. */
  class SensorCache {
    var data: map<string, Json>
    var updatedAt: real

    constructor ()
      ensures data == map[] && updatedAt == 0.0
    {
      data := map[];
      updatedAt := 0.0;
    }

    /** `update`: this key now holds the value, every other key keeps its own. */
    method Update(key: string, value: Json, wallNow: real)
      modifies this
      ensures data == old(data)[key := value] && updatedAt == wallNow
    {
      data := data[key := value];
      updatedAt := wallNow;
    }

    /** `get_all`: a copy, which later updates do not change. */
    method GetAll() returns (d: map<string, Json>)
      ensures d == data
    {
      d := data;
    }

    method GetUpdatedAt() returns (t: real)
      ensures t == updatedAt
    {
      t := updatedAt;
    }
  }

  /** An HTTP response: status code and JSON body. */
  datatype Response = Response(status: int, body: Json)

  /** The API-key dependency: an empty key admits every request. */
  predicate Authorised(apiKey: string, header: string) {
    apiKey == "" || header == apiKey
  }

  const Forbidden := Response(403, JObj(map["detail" := JStr("Invalid API key")]))

  /** Request validation failed; the error list FastAPI builds is not spelled out. */
  const Unprocessable := Response(422, JNull)

  /** The body of `POST /api/relay/{ch}` once it has been read as its schema's types. */
  datatype RelayBody = RelayBody(value: int, durationSec: real, reason: string)

  /** The path and body constraints: channel 1..8, value 0..1, duration not negative. */
  predicate ValidRelayRequest(ch: Option<int>, body: Option<RelayBody>) {
    ch.Some? && 1 <= ch.value <= 8
    && body.Some? && 0 <= body.value.value <= 1 && body.value.durationSec >= 0.0
  }

  /** The command the relay bridge picks up. */
  function RelayCommand(houseId: string, ch: int, body: RelayBody): Message {
    Message(SetTopic(houseId, ch),
            JObj(map["value" := JInt(body.value), "duration_sec" := JReal(body.durationSec), "reason" := JStr(body.reason)]),
            1, false)
  }

  /**
   * `set_relay`'s decision: the response and the command it publishes.
   * A body that is not JSON at all is refused while the request is read,
   * before any dependency runs; then the key is checked, then the
   * channel and the body against their schemas, then the lockout, then
   * whether an MQTT client exists.
   */
  function RelayDecision(authorised: bool, bodyIsJson: bool, ch: Option<int>, body: Option<RelayBody>, locked: bool,
                         remaining: real, hasMqtt: bool, houseId: string): (r: (Response, Option<Message>))
    ensures !bodyIsJson ==> r == (Unprocessable, None)
    ensures bodyIsJson && !authorised ==> r == (Forbidden, None)
    ensures bodyIsJson && authorised && !ValidRelayRequest(ch, body) ==> r == (Unprocessable, None)
    ensures bodyIsJson && authorised && ValidRelayRequest(ch, body) && locked ==>
      r.0.status == 423 && r.0.body.JObj? && "remaining_sec" in r.0.body.fields
      && r.0.body.fields["remaining_sec"] == JReal(remaining) && r.1 == None
    ensures bodyIsJson && authorised && ValidRelayRequest(ch, body) && !locked && hasMqtt ==>
      r.0.status == 202 && r.1 == Some(RelayCommand(houseId, ch.value, body.value))
    ensures bodyIsJson && authorised && ValidRelayRequest(ch, body) && !locked && !hasMqtt ==>
      r.0.status == 503 && r.1 == None
    ensures r.1.Some? <==> r.0.status == 202
  {
    if !bodyIsJson then (Unprocessable, None)
    else if !authorised then (Forbidden, None)
    else if !ValidRelayRequest(ch, body) then (Unprocessable, None)
    else if locked then
      (Response(423, JObj(map["error" := JStr("locked_out"), "message" := JStr("緊急スイッチによりロックアウト中"),
                              "remaining_sec" := JReal(remaining)])), None)
    else if hasMqtt then
      (Response(202, JObj(map["ch" := JInt(ch.value), "value" := JInt(body.value.value), "queued" := JBool(true)])),
       Some(RelayCommand(houseId, ch.value, body.value)))
    else (Response(503, JObj(map["error" := JStr("mqtt_unavailable"), "message" := JStr("MQTT ブローカー未接続")])), None)
  }

  /** The body of `GET /api/sensors`: `age_sec` is null until the cache has been updated. */
  function SensorsBody(data: map<string, Json>, updatedAt: real, wallNow: real): (b: Json)
    ensures b.JObj? && "age_sec" in b.fields && "sensors" in b.fields && b.fields["sensors"] == JObj(data)
    ensures b.fields["age_sec"] == JNull <==> updatedAt <= 0.0
  {
    JObj(map["sensors" := JObj(data), "updated_at" := JReal(updatedAt),
             "age_sec" := if updatedAt > 0.0 then JReal(wallNow - updatedAt) else JNull])
  }

  /** The status route's `relay_state`: each channel's latch bit, or null when the latch could not be read. */
  function RelayState(raw: Option<bv8>): (j: Json)
    ensures raw.None? <==> j == JNull
    ensures raw.Some? ==> j.JObj? && forall n :: ValidChannel(n) ==>
      ChannelKey(n) in j.fields && j.fields[ChannelKey(n)] == JBool(IsOn(raw.value, n))
  {
    match raw
    case None => JNull
    case Some(r) => JObj(map n | 1 <= n <= 8 :: ChannelKey(n) := JBool(IsOn(r, n)))
  }

  /**
   * Once `set_relay` has latched, the status route shows that channel in
   * the state asked for and every other channel as it was.
   */
  lemma {:induction false} StatusAfterSetRelay(olat: bv8, channel: int, on: bool)
    requires ValidChannel(channel)
    ensures RelayState(Some(WithChannel(olat, channel, on))).fields[ChannelKey(channel)] == JBool(on)
    ensures forall c :: ValidChannel(c) && c != channel ==>
      RelayState(Some(WithChannel(olat, channel, on))).fields[ChannelKey(c)] == RelayState(Some(olat)).fields[ChannelKey(c)]
  {
    WithChannelSpec(olat, channel, on);
  }

  /** The body of `GET /api/status`. */
  function StatusBody(houseId: string, uptime: real, locked: bool, remaining: real, raw: Option<bv8>, wallNow: real): (b: Json)
    ensures b.JObj? && "locked_out" in b.fields && b.fields["locked_out"] == JBool(locked)
    ensures "relay_state" in b.fields && b.fields["relay_state"] == RelayState(raw)
  {
    JObj(map["house_id" := JStr(houseId), "uptime_sec" := JReal(uptime), "locked_out" := JBool(locked),
             "lockout_remaining_sec" := JReal(remaining), "relay_state" := RelayState(raw), "ts" := JReal(wallNow)])
  }

  /** `RestApi`'s routes. */
  class Api {
    const gate: CommandGate
    const cache: SensorCache
    const houseId: string
    const apiKey: string
    /** `time.monotonic()` when the daemon started. */
    const startTime: real
    /** Whether `_mqtt_client` is set. */
    const hasMqtt: bool
    /** The relay commands published. */
    var published: seq<Message>

    constructor (gate: CommandGate, houseId: string, apiKey: string, startTime: real, hasMqtt: bool)
      ensures this.gate == gate && this.houseId == houseId && this.apiKey == apiKey
      ensures this.startTime == startTime && this.hasMqtt == hasMqtt
      ensures fresh(cache) && cache.data == map[] && cache.updatedAt == 0.0 && published == []
    {
      this.gate := gate;
      this.houseId := houseId;
      this.apiKey := apiKey;
      this.startTime := startTime;
      this.hasMqtt := hasMqtt;
      cache := new SensorCache();
      published := [];
    }

    /**
     * `POST /api/relay/{ch}`: at most one command is published, and only
     * with a 202. `bodyIsJson` says whether the request body is JSON at
     * all; `body` is None when it does not fit the schema's types.
     */
    method SetRelay(now: real, header: string, bodyIsJson: bool, ch: Option<int>, body: Option<RelayBody>)
      returns (resp: Response)
      modifies this
      ensures var d := RelayDecision(Authorised(apiKey, header), bodyIsJson, ch, body, gate.IsLockedOut(now),
                                     gate.RemainingLockout(now), hasMqtt, houseId);
        resp == d.0 && published == old(published) + (if d.1.Some? then [d.1.value] else [])
    {
      var d := RelayDecision(Authorised(apiKey, header), bodyIsJson, ch, body, gate.IsLockedOut(now),
                             gate.RemainingLockout(now), hasMqtt, houseId);
      if d.1.Some? {
        published := published + [d.1.value];
      }
      resp := d.0;
    }

    /** `GET /api/sensors`. */
    method GetSensors(wallNow: real, header: string) returns (resp: Response)
      ensures !Authorised(apiKey, header) ==> resp == Forbidden
      ensures Authorised(apiKey, header) ==> resp == Response(200, SensorsBody(cache.data, cache.updatedAt, wallNow))
    {
      if !Authorised(apiKey, header) {
        return Forbidden;
      }
      var data := cache.GetAll();
      var updatedAt := cache.GetUpdatedAt();
      resp := Response(200, SensorsBody(data, updatedAt, wallNow));
    }

    /** `GET /api/status`; `raw` is the latch read, None when it raised. */
    method GetStatus(now: real, wallNow: real, header: string, raw: Option<bv8>) returns (resp: Response)
      ensures !Authorised(apiKey, header) ==> resp == Forbidden
      ensures Authorised(apiKey, header) ==>
        resp == Response(200, StatusBody(houseId, now - startTime, gate.IsLockedOut(now), gate.RemainingLockout(now),
                                         raw, wallNow))
    {
      if !Authorised(apiKey, header) {
        return Forbidden;
      }
      resp := Response(200, StatusBody(houseId, now - startTime, gate.IsLockedOut(now), gate.RemainingLockout(now),
                                       raw, wallNow));
    }

    /** `POST /api/emergency/clear`: reports whether the gate was locked, and always clears it. */
    method EmergencyClear(now: real, header: string) returns (resp: Response)
      modifies gate
      ensures !Authorised(apiKey, header) ==> resp == Forbidden && unchanged(gate)
      ensures Authorised(apiKey, header) ==>
        resp == Response(200, JObj(map["cleared" := JBool(true), "was_locked_out" := JBool(old(gate.IsLockedOut(now)))]))
        && gate.lockoutUntil == 0.0 && gate.published == old(gate.published)
    {
      if !Authorised(apiKey, header) {
        return Forbidden;
      }
      var wasLocked := gate.IsLockedOut(now);
      gate.ClearLockout();
      resp := Response(200, JObj(map["cleared" := JBool(true), "was_locked_out" := JBool(wasLocked)]));
    }
  }
}
