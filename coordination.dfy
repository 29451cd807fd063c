/**
 * How the layers fit together. They share no code at run time: each
 * control layer reads the lockout document and the daemon's status route
 * on its own, the forecast engine writes the plan the executor runs, and
 * the REST gateway sends relay commands the MQTT bridge decodes. These
 * lemmas relate the separate readers and writers.
 */
module Coordination {
  import opened Json
  import Lockout
  import RuleEngine
  import PlanExecutor
  import ForecastEngine
  import opened I2cRelay
  import opened Mqtt
  import RestApi
  import MqttRelayBridge

  const DeadlineKey := "layer1_lockout_until"

  /**
   * The three copies of the layer-1 check find the lockout in force for
   * exactly the same documents, and where the deadline is absent or text
   * they give the same answer, exception included.
   */
  lemma Layer1ChecksAgree(doc: Option<Json>, now: int, p: Parsers)
    ensures RuleEngine.IsLayer1LockedOut(doc, now, p) == Ok(true) <==> PlanExecutor.IsLayer1Locked(doc, now, p) == Ok(true)
    ensures PlanExecutor.IsLayer1Locked(doc, now, p) == Ok(true) <==> ForecastEngine.IsLayer1Locked(doc, now, p) == Ok(true)
    ensures (doc.None? || (doc.value.JObj? && (DeadlineKey !in doc.value.fields || doc.value.fields[DeadlineKey].JStr?))) ==>
      RuleEngine.IsLayer1LockedOut(doc, now, p) == PlanExecutor.IsLayer1Locked(doc, now, p)
      == ForecastEngine.IsLayer1Locked(doc, now, p)
  {
  }

  /**
   * Where they part: a null deadline means "not locked" to the rule engine
   * and the executor, which test truthiness first, while the forecast
   * engine hands it to `fromisoformat` and raises.
   */
  lemma Layer1ChecksDifferOnNull(now: int, p: Parsers)
    ensures var doc := Some(JObj(map[DeadlineKey := JNull]));
      RuleEngine.IsLayer1LockedOut(doc, now, p) == Ok(false)
      && PlanExecutor.IsLayer1Locked(doc, now, p) == Ok(false)
      && ForecastEngine.IsLayer1Locked(doc, now, p).Raised?
  {
  }

  /** The lockout the control layers read from `/api/status` is the gate's own. */
  lemma StatusReportsGate(houseId: string, uptime: real, locked: bool, remaining: real, raw: Option<bv8>, wallNow: real)
    ensures Lockout.GateLocked(Some(RestApi.StatusBody(houseId, uptime, locked, remaining, raw, wallNow))) <==> locked
  {
    var b := RestApi.StatusBody(houseId, uptime, locked, remaining, raw, wallNow);
    assert FieldOr(b.fields, "locked_out", JBool(false)) == JBool(locked);
  }

  /**
   * A relay command the REST gateway accepts reaches the bridge intact:
   * the bridge decodes the published message as the same channel, value
   * and duration.
   */
  lemma RestCommandReachesBridge(houseId: string, ch: int, body: RestApi.RelayBody, p: Parsers)
    requires RestApi.ValidRelayRequest(Some(ch), Some(body))
    ensures var m := RestApi.RelayCommand(houseId, ch, body);
      MqttRelayBridge.Decode(m.topic, Some(m.payload), p) == Some(MqttRelayBridge.Command(ch, body.value, body.durationSec))
  {
    var m := RestApi.RelayCommand(houseId, ch, body);
    var fields := m.payload.fields;
    MqttRelayBridge.SetTopicChannel(houseId, ch);
    assert FieldOr(fields, "value", JInt(0)) == JInt(body.value);
    assert FieldOr(fields, "duration_sec", JInt(0)) == JReal(body.durationSec);
    assert PyInt(JInt(body.value)) == Ok(body.value);
    assert ToFloat(JReal(body.durationSec), p) == Ok(body.durationSec);
    var c := MqttRelayBridge.Decode(m.topic, Some(m.payload), p);
    assert c.Some? && c.value.ch == ch;
  }

  /**
   * A validated action whose `execute_at` is text, run by an executor that
   * parses times as the forecast engine does, makes the executor raise
   * exactly when that time has no UTC offset: validation only parses it,
   * while the executor compares it with the offset-aware current time
   * outside its `try`. Its channel, execution mark and duration are all of
   * the kinds the executor's loop handles.
   */
  lemma ValidatedActionRuns(a: Json, p: Parsers, pr: PlanExecutor.Progress, env: PlanExecutor.ActionEnv,
                            respond: nat -> PlanExecutor.PostOutcome)
    requires ForecastEngine.CheckAction(a, p).Ok? && ForecastEngine.CheckAction(a, p).value.Some?
    requires ForecastEngine.CheckAction(a, p).value.value.fields["execute_at"].JStr?
    requires env.p == p
    ensures PlanExecutor.Step(pr, ForecastEngine.CheckAction(a, p).value.value, env, respond).Ok?
      <==> p.hasOffset(ForecastEngine.CheckAction(a, p).value.value.fields["execute_at"].s)
  {
    var v := ForecastEngine.CheckAction(a, p).value.value;
    ForecastEngine.CheckActionWellFormed(a, p);
    assert !PlanExecutor.AlreadyDone(v.fields);
  }

  /**
   * The forecast engine checks `str(execute_at)` but keeps the value as
   * given, and the executor catches only ValueError around
   * `fromisoformat`. So an integer `execute_at` whose decimal text the ISO
   * parser accepts is validated, and then raises TypeError out of the
   * executor's run.
   */
  lemma IntegerExecuteAtRaisesInExecutor(n: int, p: Parsers, pr: PlanExecutor.Progress, env: PlanExecutor.ActionEnv,
                                         respond: nat -> PlanExecutor.PostOutcome)
    requires p.iso(IntToString(n)).Some?
    ensures var a := JObj(map["relay_ch" := JInt(1), "value" := JInt(1), "execute_at" := JInt(n)]);
      ForecastEngine.CheckAction(a, p).Ok? && ForecastEngine.CheckAction(a, p).value.Some?
      && PlanExecutor.Step(pr, ForecastEngine.CheckAction(a, p).value.value, env, respond).Raised?
  {
    assert IntToString(n) != "" by {
      if n < 0 {
      } else {
        assert IntToString(n) == NatToString(n);
      }
    }
  }
}
