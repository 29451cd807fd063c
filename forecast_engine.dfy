/**
 * Layer 3's forecast engine, run hourly: unless a lockout holds, it asks
 * the LLM (with read-only sensor and status tools, for a bounded number of
 * rounds) for a one-hour action plan, validates the proposed actions and
 * writes the plan that the executor later carries out. It never drives a
 * relay itself.
 */
module ForecastEngine {
  import opened Json
  import Lockout

  const DurationSecMax := 3600
  const PlanLifetime := 3600

  // ───────────────────────── lockout ─────────────────────────

  /**
   * `is_layer1_locked`: `fromisoformat` is applied to the deadline read
   * with an empty default, so an absent or empty deadline (ValueError)
   * means no lockout, while a deadline that is not text or has no UTC
   * offset, or a document that is not an object, raises out of the run.
   */
  function IsLayer1Locked(doc: Option<Json>, now: int, p: Parsers): (r: Fallible<bool>)
    ensures r == Ok(true) <==>
      (doc.Some? && doc.value.JObj? && Lockout.Deadline(doc.value.fields, "layer1_lockout_until", p).Some?
       && Lockout.Locked(now, Lockout.Deadline(doc.value.fields, "layer1_lockout_until", p).value))
    ensures r.Raised? <==>
      (doc.Some? && (!doc.value.JObj? || ("layer1_lockout_until" in doc.value.fields
        && !doc.value.fields["layer1_lockout_until"].JStr?)
        || Lockout.OffsetFree(doc.value.fields, "layer1_lockout_until", p)))
  {
    match doc
    case None => Ok(false)
    case Some(d) =>
      if !d.JObj? then Raised
      else
        var t :- IsoTime(FieldOr(d.fields, "layer1_lockout_until", JStr("")), p);
        Ok(t.Some? && Lockout.Locked(now, t.value))
  }

  // ───────────────────────── time of day ─────────────────────────

  /** `get_time_period`: the four labels the prompt uses. */
  function TimePeriod(now: int, sunrise: int, sunset: int): (r: string)
    ensures r == "pre_dawn" <==> now < sunrise
    ensures r == "morning" <==> sunrise <= now < sunrise + 7200
    ensures r == "daytime" <==> sunrise + 7200 <= now < sunset - 3600
    ensures r == "evening" <==> sunrise <= now && sunrise + 7200 <= now && sunset - 3600 <= now
  {
    if now < sunrise then "pre_dawn"
    else if now < sunrise + 7200 then "morning"
    else if now < sunset - 3600 then "daytime"
    else "evening"
  }

  /** The position of a label in the day. */
  function PeriodRank(period: string): nat {
    if period == "pre_dawn" then 0 else if period == "morning" then 1 else if period == "daytime" then 2 else 3
  }

  /** The periods follow one another: as time passes the label never goes back. */
  lemma TimePeriodMonotone(t1: int, t2: int, sunrise: int, sunset: int)
    requires t1 <= t2
    ensures PeriodRank(TimePeriod(t1, sunrise, sunset)) <= PeriodRank(TimePeriod(t2, sunrise, sunset))
  {
  }

  // ───────────────────────── configuration ─────────────────────────

  /** `_merge_config`: the override wins, except that two objects under the same key merge recursively. */
  function Merge(base: map<string, Json>, over: map<string, Json>): (r: map<string, Json>)
    ensures r.Keys == base.Keys + over.Keys
    ensures forall k :: k in base && k !in over ==> r[k] == base[k]
    ensures forall k :: k in over && !(k in base && base[k].JObj? && over[k].JObj?) ==> r[k] == over[k]
    ensures forall k :: k in over && k in base && base[k].JObj? && over[k].JObj? ==>
      r[k] == JObj(Merge(base[k].fields, over[k].fields))
    decreases JObj(over)
  {
    map k | k in base.Keys + over.Keys ::
      if k in over then
        (if k in base && base[k].JObj? && over[k].JObj? then JObj(Merge(base[k].fields, over[k].fields)) else over[k])
      else base[k]
  }

  /** Merging a configuration into itself changes nothing. */
  lemma {:induction false} MergeSelf(b: map<string, Json>)
    ensures Merge(b, b) == b
    decreases JObj(b)
  {
    forall k | k in b && b[k].JObj? ensures Merge(b, b)[k] == b[k] {
      MergeSelf(b[k].fields);
    }
  }

  /** Applying the same override twice is the same as applying it once. */
  lemma {:induction false} MergeIdempotent(b: map<string, Json>, o: map<string, Json>)
    ensures Merge(Merge(b, o), o) == Merge(b, o)
    decreases JObj(o)
  {
    var m := Merge(b, o);
    forall k | k in o && m[k].JObj? && o[k].JObj? ensures Merge(m, o)[k] == m[k] {
      if k in b && b[k].JObj? {
        MergeIdempotent(b[k].fields, o[k].fields);
      } else {
        MergeSelf(o[k].fields);
      }
    }
  }

  // ───────────────────────── action validation ─────────────────────────

  /** `datetime.fromisoformat(str(x))` succeeds. */
  predicate IsoAccepts(x: Json, p: Parsers) {
    PyStr(x).Some? && PyStr(x).value != "" && p.iso(PyStr(x).value).Some?
  }

  /** `relay_ch` is an int (a bool counts) in 1..8. */
  predicate ValidChannel(ch: Json) {
    AsInt(ch).Some? && 1 <= AsInt(ch).value <= 8
  }

  /**
   * The checks `validate_actions` makes of one action object: the channel
   * is an int in 1..8, the value equals 0 or 1, the duration (0 when
   * absent) is a number, and `execute_at` ("" when absent) is accepted by
   * `fromisoformat` once rendered as text.
   */
  predicate Acceptable(f: map<string, Json>, p: Parsers) {
    var value := FieldOr(f, "value", JNull);
    ValidChannel(FieldOr(f, "relay_ch", JNull))
    && (EqualsInt(value, 0) || EqualsInt(value, 1))
    && AsNumber(FieldOr(f, "duration_sec", JInt(0))).Some?
    && IsoAccepts(FieldOr(f, "execute_at", JStr("")), p)
  }

  /**
   * One step of `validate_actions`: None for an action it skips, else the
   * normalised action. An element that is not an object raises.
   */
  function CheckAction(a: Json, p: Parsers): (r: Fallible<Option<Json>>)
    ensures r.Raised? <==> !a.JObj?
    ensures r.Ok? ==> (r.value.Some? <==> Acceptable(a.fields, p))
    ensures r.Ok? && r.value.Some? ==>
      var f := a.fields;
      var d := FieldOr(f, "duration_sec", JInt(0));
      r.value.value.JObj?
      && r.value.value.fields.Keys == {"execute_at", "relay_ch", "value", "duration_sec", "reason", "executed"}
      && r.value.value.fields["relay_ch"] == FieldOr(f, "relay_ch", JNull)
      && r.value.value.fields["value"] == FieldOr(f, "value", JNull)
      && r.value.value.fields["execute_at"] == FieldOr(f, "execute_at", JStr(""))
      && r.value.value.fields["reason"] == FieldOr(f, "reason", JStr(""))
      && r.value.value.fields["duration_sec"]
         == (if AsNumber(d).value > DurationSecMax as real then JInt(DurationSecMax) else d)
      && r.value.value.fields["executed"] == JBool(false)
  {
    if !a.JObj? then Raised
    else
      var f := a.fields;
      var ch := FieldOr(f, "relay_ch", JNull);
      var value := FieldOr(f, "value", JNull);
      var d := FieldOr(f, "duration_sec", JInt(0));
      var at := FieldOr(f, "execute_at", JStr(""));
      if !ValidChannel(ch) then Ok(None)
      else if !(EqualsInt(value, 0) || EqualsInt(value, 1)) then Ok(None)
      else if AsNumber(d).None? then Ok(None)
      else if !IsoAccepts(at, p) then Ok(None)
      else
        var duration := if AsNumber(d).value > DurationSecMax as real then JInt(DurationSecMax) else d;
        Ok(Some(JObj(map[
          "execute_at" := at,
          "relay_ch" := ch,
          "value" := value,
          "duration_sec" := duration,
          "reason" := FieldOr(f, "reason", JStr("")),
          "executed" := JBool(false)])))
  }

  /** What a validated action looks like. */
  predicate WellFormed(v: Json, p: Parsers) {
    v.JObj?
    && "relay_ch" in v.fields && ValidChannel(v.fields["relay_ch"])
    && "value" in v.fields && (EqualsInt(v.fields["value"], 0) || EqualsInt(v.fields["value"], 1))
    && "duration_sec" in v.fields && AsNumber(v.fields["duration_sec"]).Some?
    && AsNumber(v.fields["duration_sec"]).value <= DurationSecMax as real
    && "execute_at" in v.fields && IsoAccepts(v.fields["execute_at"], p)
    && "executed" in v.fields && v.fields["executed"] == JBool(false)
  }

  lemma CheckActionWellFormed(a: Json, p: Parsers)
    requires CheckAction(a, p).Ok? && CheckAction(a, p).value.Some?
    ensures WellFormed(CheckAction(a, p).value.value, p)
  {
  }

  /** `validate_actions` over a whole list. */
  function Validated(xs: seq<Json>, p: Parsers): Fallible<seq<Json>>
    decreases |xs|
  {
    if xs == [] then Ok([])
    else
      var prev :- Validated(xs[..|xs| - 1], p);
      var v :- CheckAction(xs[|xs| - 1], p);
      Ok(if v.Some? then prev + [v.value] else prev)
  }

  /** `validate_actions`, action by action. */
  method ValidateActions(xs: seq<Json>, p: Parsers) returns (r: Fallible<seq<Json>>)
    ensures r == Validated(xs, p)
  {
    var validated: seq<Json> := [];
    for i := 0 to |xs|
      invariant Validated(xs[..i], p) == Ok(validated)
    {
      assert xs[..i + 1][..i] == xs[..i];
      assert xs[..i + 1][i] == xs[i];
      var v := CheckAction(xs[i], p);
      if v.Raised? {
        ValidatedRaisedPersists(xs, i + 1, p);
        return Raised;
      }
      if v.value.Some? {
        validated := validated + [v.value.value];
      }
    }
    assert xs[..|xs|] == xs;
    r := Ok(validated);
  }

  lemma {:induction false} ValidatedRaisedPersists(xs: seq<Json>, n: nat, p: Parsers)
    requires n <= |xs| && Validated(xs[..n], p).Raised?
    ensures Validated(xs, p).Raised?
    decreases |xs| - n
  {
    if n == |xs| {
      assert xs[..n] == xs;
    } else {
      assert xs[..|xs| - 1][..n] == xs[..n];
      ValidatedRaisedPersists(xs[..|xs| - 1], n, p);
    }
  }

  /**
   * `idx` picks `out` out of `xs`: in order, each picked action checks to
   * its normalised form in `out`, and every action not picked is dropped
   * by the checks.
   */
  ghost predicate Picks(xs: seq<Json>, out: seq<Json>, idx: seq<nat>, p: Parsers) {
    |idx| == |out|
    && (forall j :: 0 <= j < |idx| ==> idx[j] < |xs| && CheckAction(xs[idx[j]], p) == Ok(Some(out[j])))
    && (forall i, j :: 0 <= i < j < |idx| ==> idx[i] < idx[j])
    && (forall k :: 0 <= k < |xs| && k !in idx ==> CheckAction(xs[k], p) == Ok(None))
  }

  lemma PicksDrop(xs: seq<Json>, out: seq<Json>, idx: seq<nat>, p: Parsers, x: Json)
    requires Picks(xs, out, idx, p) && CheckAction(x, p) == Ok(None)
    ensures Picks(xs + [x], out, idx, p)
  {
    var ys := xs + [x];
    forall k | 0 <= k < |ys| && k !in idx
      ensures CheckAction(ys[k], p) == Ok(None)
    {
      if k < |xs| {
        assert ys[k] == xs[k];
      }
    }
    forall j | 0 <= j < |idx|
      ensures idx[j] < |ys| && CheckAction(ys[idx[j]], p) == Ok(Some(out[j]))
    {
      assert ys[idx[j]] == xs[idx[j]];
    }
  }

  lemma PicksTake(xs: seq<Json>, out: seq<Json>, idx: seq<nat>, p: Parsers, x: Json, y: Json)
    requires Picks(xs, out, idx, p) && CheckAction(x, p) == Ok(Some(y))
    ensures Picks(xs + [x], out + [y], idx + [|xs|], p)
  {
    var idxs := idx + [|xs|];
    PicksTakeKept(xs, out, idx, p, x, y);
    PicksTakeDropped(xs, out, idx, p, x, y);
    forall i, j | 0 <= i < j < |idxs|
      ensures idxs[i] < idxs[j]
    {
      assert idxs[i] == idx[i] && idx[i] < |xs|;
    }
  }

  lemma PicksTakeKept(xs: seq<Json>, out: seq<Json>, idx: seq<nat>, p: Parsers, x: Json, y: Json)
    requires Picks(xs, out, idx, p) && CheckAction(x, p) == Ok(Some(y))
    ensures var ys, outs, idxs := xs + [x], out + [y], idx + [|xs|];
      forall j :: 0 <= j < |idxs| ==> idxs[j] < |ys| && CheckAction(ys[idxs[j]], p) == Ok(Some(outs[j]))
  {
    var ys, outs, idxs := xs + [x], out + [y], idx + [|xs|];
    forall j | 0 <= j < |idxs|
      ensures idxs[j] < |ys| && CheckAction(ys[idxs[j]], p) == Ok(Some(outs[j]))
    {
      if j < |idx| {
        assert idxs[j] == idx[j] && outs[j] == out[j] && ys[idx[j]] == xs[idx[j]];
      }
    }
  }

  lemma PicksTakeDropped(xs: seq<Json>, out: seq<Json>, idx: seq<nat>, p: Parsers, x: Json, y: Json)
    requires Picks(xs, out, idx, p) && CheckAction(x, p) == Ok(Some(y))
    ensures var ys, idxs := xs + [x], idx + [|xs|];
      forall k :: 0 <= k < |ys| && k !in idxs ==> CheckAction(ys[k], p) == Ok(None)
  {
    var ys, idxs := xs + [x], idx + [|xs|];
    forall k | 0 <= k < |ys| && k !in idxs
      ensures CheckAction(ys[k], p) == Ok(None)
    {
      assert k != |xs| by { assert idxs[|idx|] == |xs|; }
      assert k !in idx by { assert idx <= idxs; }
      assert ys[k] == xs[k];
    }
  }

  /**
   * The validated list is the order-preserving subsequence of the actions
   * that pass every check, each normalised: `idx` picks them out.
   */
  lemma ValidatedIsSubsequence(xs: seq<Json>, p: Parsers) returns (idx: seq<nat>)
    requires Validated(xs, p).Ok?
    ensures Picks(xs, Validated(xs, p).value, idx, p)
    ensures forall j :: 0 <= j < |Validated(xs, p).value| ==> WellFormed(Validated(xs, p).value[j], p)
  {
    idx := ValidatedPicks(xs, p);
    PickedWellFormed(xs, Validated(xs, p).value, idx, p);
  }

  lemma {:induction false} ValidatedPicks(xs: seq<Json>, p: Parsers) returns (idx: seq<nat>)
    requires Validated(xs, p).Ok?
    ensures Picks(xs, Validated(xs, p).value, idx, p)
    decreases |xs|
  {
    if xs == [] {
      return [];
    }
    var n := |xs| - 1;
    var init := xs[..n];
    ValidatedLast(xs, p);
    var prevIdx := ValidatedPicks(init, p);
    var prev := Validated(init, p).value;
    var v := CheckAction(xs[n], p).value;
    if v.Some? {
      PicksTake(init, prev, prevIdx, p, xs[n], v.value);
      idx := prevIdx + [n];
    } else {
      PicksDrop(init, prev, prevIdx, p, xs[n]);
      idx := prevIdx;
    }
  }

  /** One step of `Validated`: the last action's check extends the list validated before it. */
  lemma ValidatedLast(xs: seq<Json>, p: Parsers)
    requires xs != [] && Validated(xs, p).Ok?
    ensures var init := xs[..|xs| - 1];
      xs == init + [xs[|xs| - 1]] && Validated(init, p).Ok? && CheckAction(xs[|xs| - 1], p).Ok?
      && Validated(xs, p).value
         == Validated(init, p).value
            + (if CheckAction(xs[|xs| - 1], p).value.Some? then [CheckAction(xs[|xs| - 1], p).value.value] else [])
  {
  }

  lemma PickedWellFormed(xs: seq<Json>, out: seq<Json>, idx: seq<nat>, p: Parsers)
    requires Picks(xs, out, idx, p)
    ensures forall j :: 0 <= j < |out| ==> WellFormed(out[j], p)
  {
    forall j | 0 <= j < |out|
      ensures WellFormed(out[j], p)
    {
      CheckActionWellFormed(xs[idx[j]], p);
    }
  }

  // ───────────────────────── the LLM conversation ─────────────────────────

  /** A content block of an LLM response. */
  datatype Block = Text(text: string) | ToolUse(name: string)

  /** One `messages.create` call: an exception, or the content blocks and whether the stop reason is "end_turn". */
  datatype Reply = CallFailed | Reply(blocks: seq<Block>, endTurn: bool)

  /**
   * The conversation's bookkeeping: the final text, the sensor snapshot,
   * how many LLM calls and tool calls were made, and whether a call failed.
   */
  datatype Conversation = Conversation(finalText: string, snapshot: string, llmCalls: nat, toolCalls: nat, failed: bool)

  predicate HasToolUse(blocks: seq<Block>) {
    exists k :: 0 <= k < |blocks| && blocks[k].ToolUse?
  }

  /** The text of the last text block, or `default` when there is none. */
  function LastText(blocks: seq<Block>, default: string): string
    decreases |blocks|
  {
    if blocks == [] then default
    else if blocks[|blocks| - 1].Text? then blocks[|blocks| - 1].text
    else LastText(blocks[..|blocks| - 1], default)
  }

  /**
   * The tool calls of one response, in order. `toolText(n)` is the text
   * the n-th tool call of the run produced (a response body, or the error
   * object a failed call turns into); the two read tools are logged in the
   * snapshot.
   */
  function Tools(blocks: seq<Block>, c: Conversation, toolText: nat -> string): Conversation
    decreases |blocks|
  {
    if blocks == [] then c
    else
      var prev := Tools(blocks[..|blocks| - 1], c, toolText);
      var b := blocks[|blocks| - 1];
      if !b.ToolUse? then prev
      else
        var text := toolText(prev.toolCalls);
        var logged := b.name == "get_sensors" || b.name == "get_status";
        prev.(toolCalls := prev.toolCalls + 1,
              snapshot := if logged then prev.snapshot + "\n--- " + b.name + " ---\n" + text else prev.snapshot)
  }

  /** The round loop from `round` on; `reply(n)` is the n-th response. */
  function Converse(round: nat, c: Conversation, maxRounds: int, reply: nat -> Reply, toolText: nat -> string): Conversation
    decreases if round < maxRounds then maxRounds - round else 0
  {
    if round >= maxRounds then c
    else match reply(round)
      case CallFailed => c.(llmCalls := c.llmCalls + 1, failed := true)
      case Reply(blocks, endTurn) =>
        var c1 := c.(llmCalls := c.llmCalls + 1);
        if !HasToolUse(blocks) then c1.(finalText := LastText(blocks, c1.finalText))
        else
          var c2 := Tools(blocks, c1, toolText);
          if endTurn then c2.(finalText := LastText(blocks, c2.finalText))
          else Converse(round + 1, c2, maxRounds, reply, toolText)
  }

  const Start := Conversation("", "", 0, 0, false)

  /** The inner loop over a response's tool calls. */
  method CallTools(blocks: seq<Block>, c: Conversation, toolText: nat -> string) returns (c': Conversation)
    ensures c' == Tools(blocks, c, toolText)
  {
    c' := c;
    for i := 0 to |blocks|
      invariant c' == Tools(blocks[..i], c, toolText)
    {
      assert blocks[..i + 1][..i] == blocks[..i];
      var b := blocks[i];
      if b.ToolUse? {
        var text := toolText(c'.toolCalls);
        if b.name == "get_sensors" || b.name == "get_status" {
          c' := c'.(snapshot := c'.snapshot + "\n--- " + b.name + " ---\n" + text);
        }
        c' := c'.(toolCalls := c'.toolCalls + 1);
      }
    }
    assert blocks[..|blocks|] == blocks;
  }

  /** The round loop of `run_forecast`. */
  method Conduct(maxRounds: int, reply: nat -> Reply, toolText: nat -> string) returns (c: Conversation)
    ensures c == Converse(0, Start, maxRounds, reply, toolText)
  {
    c := Start;
    var round: nat := 0;
    while round < maxRounds
      invariant Converse(round, c, maxRounds, reply, toolText) == Converse(0, Start, maxRounds, reply, toolText)
      decreases maxRounds - round
    {
      var r := reply(round);
      c := c.(llmCalls := c.llmCalls + 1);
      if r.CallFailed? {
        c := c.(failed := true);
        return;
      }
      if !HasToolUse(r.blocks) {
        c := c.(finalText := LastText(r.blocks, c.finalText));
        return;
      }
      c := CallTools(r.blocks, c, toolText);
      if r.endTurn {
        c := c.(finalText := LastText(r.blocks, c.finalText));
        return;
      }
      round := round + 1;
    }
  }

  /**
   * The LLM is called at most `max_tool_rounds` times, and every call but
   * the last answered with tool use and without ending the turn.
   */
  lemma {:induction false} ConverseBounded(round: nat, c: Conversation, maxRounds: int, reply: nat -> Reply,
                                           toolText: nat -> string)
    ensures var c' := Converse(round, c, maxRounds, reply, toolText);
      c'.llmCalls >= c.llmCalls
      && (round <= maxRounds ==> c'.llmCalls - c.llmCalls <= maxRounds - round)
      && (forall k :: round <= k < round + (c'.llmCalls - c.llmCalls) - 1 ==>
            reply(k).Reply? && HasToolUse(reply(k).blocks) && !reply(k).endTurn)
    decreases if round < maxRounds then maxRounds - round else 0
  {
    if round < maxRounds && reply(round).Reply? && HasToolUse(reply(round).blocks) {
      var c1 := c.(llmCalls := c.llmCalls + 1);
      ToolsKeepCalls(reply(round).blocks, c1, toolText);
      if !reply(round).endTurn {
        ConverseBounded(round + 1, Tools(reply(round).blocks, c1, toolText), maxRounds, reply, toolText);
      }
    }
  }

  lemma {:induction false} ToolsKeepCalls(blocks: seq<Block>, c: Conversation, toolText: nat -> string)
    ensures Tools(blocks, c, toolText).llmCalls == c.llmCalls
    ensures Tools(blocks, c, toolText).failed == c.failed
    ensures Tools(blocks, c, toolText).finalText == c.finalText
    decreases |blocks|
  {
    if blocks != [] {
      ToolsKeepCalls(blocks[..|blocks| - 1], c, toolText);
    }
  }

  // ───────────────────────── plan assembly ─────────────────────────

  /** Does `t` occur in `s`? */
  predicate Contains(s: string, t: string)
    decreases |s|
  {
    |t| <= |s| && (s[..|t|] == t || Contains(s[1..], t))
  }

  /**
   * `if plan_data and "actions" in plan_data: plan_data.get("actions", [])`:
   * the proposed actions, None when there is no usable plan. A truthy
   * non-object that "contains" `"actions"` reaches `.get` and raises; a
   * truthy number cannot be searched and raises.
   */
  function PlanActions(planData: Option<Json>): (r: Fallible<Option<Json>>)
    ensures planData.Some? && planData.value.JObj? ==>
      r == Ok(if "actions" in planData.value.fields then Some(planData.value.fields["actions"]) else None)
    ensures planData.None? ==> r == Ok(None)
    ensures r.Ok? && r.value.Some? ==> planData.Some? && planData.value.JObj? && "actions" in planData.value.fields
  {
    match planData
    case None => Ok(None)
    case Some(d) =>
      if !Truthy(d) then Ok(None)
      else match d
        case JObj(m) => Ok(if "actions" in m then Some(m["actions"]) else None)
        case JArr(xs) => if JStr("actions") in xs then Raised else Ok(None)
        case JStr(s) => if Contains(s, "actions") then Raised else Ok(None)
        case _ => Raised
  }

  /**
   * `extract_plan_json`: the fenced block's JSON when there is one that
   * decodes, else the whole text's JSON, else None. `fenced(text)` is
   * the regular expression's captured block, `decode` is `json.loads`.
   */
  function ExtractPlanJson(text: string, fenced: string -> Option<string>, decode: string -> Option<Json>): (r: Option<Json>)
    ensures fenced(text).Some? && decode(fenced(text).value).Some? ==> r == decode(fenced(text).value)
    ensures (fenced(text).None? || decode(fenced(text).value).None?) ==> r == decode(text)
  {
    match fenced(text)
    case Some(block) => if decode(block).Some? then decode(block) else decode(text)
    case None => decode(text)
  }

  /** `f"ch{relay_ch}={'ON' if value else 'OFF'} @{execute_at}"` for a validated action. */
  function ActionLine(a: Json): (line: string)
    ensures "ch" <= line
  {
    var f := if a.JObj? then a.fields else map[];
    "ch" + Show(FieldOr(f, "relay_ch", JNull)) + "=" + (if Truthy(FieldOr(f, "value", JNull)) then "ON" else "OFF")
      + " @" + Show(FieldOr(f, "execute_at", JNull))
  }

  /**
   * For a validated action the summary line reads "ch<n>=ON @<time>" or
   * "ch<n>=OFF @<time>": its channel, whether it switches on, and its
   * execution time as written.
   */
  lemma ActionLineOfValidated(v: Json, p: Parsers)
    requires WellFormed(v, p)
    ensures PyStr(v.fields["relay_ch"]).Some? && PyStr(v.fields["execute_at"]).Some?
    ensures ActionLine(v) == "ch" + PyStr(v.fields["relay_ch"]).value + "="
      + (if EqualsInt(v.fields["value"], 1) then "ON" else "OFF") + " @" + PyStr(v.fields["execute_at"]).value
    ensures v.fields["relay_ch"].JInt? ==> PyStr(v.fields["relay_ch"]).value == IntToString(v.fields["relay_ch"].i)
  {
  }

  /** The decision log's actions column: the actions joined by "; ", or "現状維持" (keep as is). */
  function ActionsSummary(actions: seq<Json>): (r: string)
    ensures actions == [] <==> r == "現状維持"
  {
    var lines := seq(|actions|, k requires 0 <= k < |actions| => ActionLine(actions[k]));
    var joined := Join(lines, "; ");
    if joined == "" then "現状維持"
    else
      assert joined != "現状維持" by {
        if actions != [] {
          JoinKeepsPrefix(lines, "; ", "ch");
        }
      }
      joined
  }

  /** A row of the decision log. */
  datatype Decision = Decision(summary: string, actions: string, rawResponse: string, sensorSnapshot: string)

  /**
   * How a run ends. `Skipped`: a lockout holds, nothing is called or
   * written. `ApiError`: an LLM call failed, no plan is written.
   * `Crashed`: an exception escapes, after `written` if the plan was
   * already written. `Done`: the plan is written and the decision logged.
   */
  datatype ForecastOutcome =
    | Skipped(reason: string)
    | ApiError(llmCalls: nat)
    | Crashed(written: Option<Json>)
    | Done(plan: Json, decision: Decision, llmCalls: nat)

  /** The plan written from the conversation; `fmt` renders a time with `isoformat()`. */
  function AssemblePlan(finalText: string, now: int, fmt: int -> string, planData: Option<Json>, p: Parsers): (r: Fallible<Json>)
    ensures r.Raised? <==>
      PlanActions(planData).Raised?
      || (PlanActions(planData).value.Some?
          && (Elements(PlanActions(planData).value.value).Raised?
              || Validated(Elements(PlanActions(planData).value.value).value, p).Raised?))
    ensures r.Ok? ==> r.value.JObj? && "summary" in r.value.fields && "actions" in r.value.fields
  {
    var proposed :- PlanActions(planData);
    match proposed
    case Some(actions) =>
      var xs :- Elements(actions);
      var validated :- Validated(xs, p);
      var d := planData.value.fields;
      Ok(PlanObject(fmt(now), fmt(now + PlanLifetime), FieldOr(d, "summary", JStr(Take(finalText, 200))),
                    validated, FieldOr(d, "co2_advisory", JStr("")), FieldOr(d, "dewpoint_risk", JStr("unknown")),
                    FieldOr(d, "next_check_note", JStr(""))))
    case None =>
      Ok(PlanObject(fmt(now), fmt(now + PlanLifetime),
                    JStr(if finalText != "" then Take(finalText, 200) else "No plan generated"),
                    [], JStr(""), JStr("unknown"), JStr("")))
  }

  /** The plan document: the two time stamps, then the summary, actions and advisory fields. */
  function PlanObject(generatedAt: string, validUntil: string, summary: Json, actions: seq<Json>,
                      co2: Json, dewpoint: Json, note: Json): (plan: Json)
    ensures plan.JObj? && "summary" in plan.fields && plan.fields["summary"] == summary
    ensures "generated_at" in plan.fields && plan.fields["generated_at"] == JStr(generatedAt)
    ensures "valid_until" in plan.fields && plan.fields["valid_until"] == JStr(validUntil)
    ensures "actions" in plan.fields && plan.fields["actions"] == JArr(actions)
    ensures "co2_advisory" in plan.fields && plan.fields["co2_advisory"] == co2
    ensures "dewpoint_risk" in plan.fields && plan.fields["dewpoint_risk"] == dewpoint
    ensures "next_check_note" in plan.fields && plan.fields["next_check_note"] == note
  {
    JObj(map["generated_at" := JStr(generatedAt), "valid_until" := JStr(validUntil),
             "summary" := summary, "actions" := JArr(actions), "co2_advisory" := co2,
             "dewpoint_risk" := dewpoint, "next_check_note" := note])
  }

  /** The decision row for a written plan; a summary that is not text cannot be stored and raises. */
  function DecisionFor(plan: Json, c: Conversation): Fallible<Decision>
    requires plan.JObj? && "summary" in plan.fields && "actions" in plan.fields && plan.fields["actions"].JArr?
  {
    var summary := plan.fields["summary"];
    if !summary.JStr? then Raised
    else Ok(Decision(Take(summary.s, 500), ActionsSummary(plan.fields["actions"].items), Take(c.finalText, 2000),
                     Take(c.snapshot, 2000)))
  }

  /** Everything the LLM side of a run depends on. */
  datatype LlmSide = LlmSide(maxRounds: int, reply: nat -> Reply, toolText: nat -> string,
                             fenced: string -> Option<string>, decode: string -> Option<Json>)

  /** `run_forecast` after the lockout checks. */
  function Generate(now: int, fmt: int -> string, p: Parsers, llm: LlmSide): ForecastOutcome {
    var c := Converse(0, Start, llm.maxRounds, llm.reply, llm.toolText);
    if c.failed then ApiError(c.llmCalls)
    else match AssemblePlan(c.finalText, now, fmt, ExtractPlanJson(c.finalText, llm.fenced, llm.decode), p)
      case Raised => Crashed(None)
      case Ok(plan) =>
        if !(plan.JObj? && "summary" in plan.fields && "actions" in plan.fields && plan.fields["actions"].JArr?) then Crashed(None)
        else match DecisionFor(plan, c)
          case Raised => Crashed(Some(plan))
          case Ok(d) => Done(plan, d, c.llmCalls)
  }

  /** `run_forecast`. */
  function Forecast(lockoutDoc: Option<Json>, status: Option<Json>, now: int, fmt: int -> string, p: Parsers,
                    llm: LlmSide): ForecastOutcome {
    match IsLayer1Locked(lockoutDoc, now, p)
    case Raised => Crashed(None)
    case Ok(locked) =>
      if locked then Skipped("layer1_lockout")
      else if Lockout.GateLocked(status) then Skipped("commandgate_lockout")
      else Generate(now, fmt, p, llm)
  }

  method RunForecast(lockoutDoc: Option<Json>, status: Option<Json>, now: int, fmt: int -> string, p: Parsers,
                     llm: LlmSide) returns (out: ForecastOutcome)
    ensures out == Forecast(lockoutDoc, status, now, fmt, p, llm)
  {
    var locked := IsLayer1Locked(lockoutDoc, now, p);
    if locked.Raised? {
      return Crashed(None);
    }
    if locked.value {
      return Skipped("layer1_lockout");
    }
    if Lockout.GateLocked(status) {
      return Skipped("commandgate_lockout");
    }
    var c := Conduct(llm.maxRounds, llm.reply, llm.toolText);
    if c.failed {
      return ApiError(c.llmCalls);
    }
    var planData := ExtractPlanJson(c.finalText, llm.fenced, llm.decode);
    var proposed := PlanActions(planData);
    if proposed.Raised? {
      return Crashed(None);
    }
    var validated: seq<Json> := [];
    if proposed.value.Some? {
      var xs := Elements(proposed.value.value);
      if xs.Raised? {
        return Crashed(None);
      }
      var v := ValidateActions(xs.value, p);
      if v.Raised? {
        return Crashed(None);
      }
      validated := v.value;
    }
    var plan := AssemblePlan(c.finalText, now, fmt, planData, p);
    assert plan.Ok? && plan.value.JObj? && plan.value.fields["actions"] == JArr(validated);
    var summary := plan.value.fields["summary"];
    if !summary.JStr? {
      return Crashed(Some(plan.value));
    }
    var d := Decision(Take(summary.s, 500), ActionsSummary(validated), Take(c.finalText, 2000), Take(c.snapshot, 2000));
    out := Done(plan.value, d, c.llmCalls);
  }

  // ───────────────────────── properties ─────────────────────────

  /** A lockout means no LLM call and no plan; a failed LLM call means no plan. */
  lemma GatingWritesNoPlan(lockoutDoc: Option<Json>, status: Option<Json>, now: int, fmt: int -> string, p: Parsers,
                           llm: LlmSide)
    ensures IsLayer1Locked(lockoutDoc, now, p) == Ok(true) ==>
      Forecast(lockoutDoc, status, now, fmt, p, llm) == Skipped("layer1_lockout")
    ensures IsLayer1Locked(lockoutDoc, now, p) == Ok(false) && Lockout.GateLocked(status) ==>
      Forecast(lockoutDoc, status, now, fmt, p, llm) == Skipped("commandgate_lockout")
    ensures (Converse(0, Start, llm.maxRounds, llm.reply, llm.toolText).failed
      && IsLayer1Locked(lockoutDoc, now, p) == Ok(false) && !Lockout.GateLocked(status)) ==>
      Forecast(lockoutDoc, status, now, fmt, p, llm).ApiError?
  {
  }

  /**
   * The plan a conversation yields is valid for one hour from its
   * generation time and carries only well-formed actions; with no usable
   * plan in the reply it has no actions.
   */
  lemma AssembledPlanShape(finalText: string, now: int, fmt: int -> string, planData: Option<Json>, p: Parsers)
    requires AssemblePlan(finalText, now, fmt, planData, p).Ok?
    ensures var plan := AssemblePlan(finalText, now, fmt, planData, p).value;
      plan.JObj?
      && plan.fields["generated_at"] == JStr(fmt(now))
      && plan.fields["valid_until"] == JStr(fmt(now + PlanLifetime))
      && "summary" in plan.fields
      && plan.fields["actions"].JArr?
      && (forall k :: 0 <= k < |plan.fields["actions"].items| ==> WellFormed(plan.fields["actions"].items[k], p))
      && (PlanActions(planData) == Ok(None) ==>
            plan.fields["actions"] == JArr([])
            && plan.fields["summary"] == JStr(if finalText != "" then Take(finalText, 200) else "No plan generated")
            && plan.fields["co2_advisory"] == JStr("") && plan.fields["dewpoint_risk"] == JStr("unknown")
            && plan.fields["next_check_note"] == JStr(""))
      && (PlanActions(planData).value.Some? ==>
            var d := planData.value.fields;
            Elements(PlanActions(planData).value.value).Ok?
            && plan.fields["actions"] == JArr(Validated(Elements(PlanActions(planData).value.value).value, p).value)
            && plan.fields["summary"] == FieldOr(d, "summary", JStr(Take(finalText, 200)))
            && plan.fields["co2_advisory"] == FieldOr(d, "co2_advisory", JStr(""))
            && plan.fields["dewpoint_risk"] == FieldOr(d, "dewpoint_risk", JStr("unknown"))
            && plan.fields["next_check_note"] == FieldOr(d, "next_check_note", JStr("")))
  {
    var proposed := PlanActions(planData).value;
    if proposed.Some? {
      var xs := Elements(proposed.value).value;
      var _ := ValidatedIsSubsequence(xs, p);
    }
  }

  /**
   * A run that completes writes such a plan, logs "現状維持" when the
   * reply held no usable plan, keeps the logged texts within their
   * column limits and calls the LLM at most `max_tool_rounds` times.
   */
  lemma WrittenPlanShape(now: int, fmt: int -> string, p: Parsers, llm: LlmSide)
    requires Generate(now, fmt, p, llm).Done?
    ensures var out := Generate(now, fmt, p, llm);
      var c := Converse(0, Start, llm.maxRounds, llm.reply, llm.toolText);
      out.plan.JObj?
      && out.plan.fields["generated_at"] == JStr(fmt(now))
      && out.plan.fields["valid_until"] == JStr(fmt(now + PlanLifetime))
      && out.plan.fields["actions"].JArr?
      && (forall k :: 0 <= k < |out.plan.fields["actions"].items| ==> WellFormed(out.plan.fields["actions"].items[k], p))
      && out.plan == AssemblePlan(c.finalText, now, fmt, ExtractPlanJson(c.finalText, llm.fenced, llm.decode), p).value
      && (PlanActions(ExtractPlanJson(c.finalText, llm.fenced, llm.decode)) == Ok(None) ==>
            out.plan.fields["actions"] == JArr([]) && out.decision.actions == "現状維持"
            && out.plan.fields["summary"] == JStr(if c.finalText != "" then Take(c.finalText, 200) else "No plan generated"))
      && (PlanActions(ExtractPlanJson(c.finalText, llm.fenced, llm.decode)).value.Some? ==>
            var d := ExtractPlanJson(c.finalText, llm.fenced, llm.decode).value.fields;
            var proposed := PlanActions(ExtractPlanJson(c.finalText, llm.fenced, llm.decode)).value.value;
            out.plan.fields["actions"] == JArr(Validated(Elements(proposed).value, p).value)
            && out.plan.fields["summary"] == FieldOr(d, "summary", JStr(Take(c.finalText, 200))))
      && out.decision.actions == ActionsSummary(out.plan.fields["actions"].items)
      && out.plan.fields["summary"].JStr? && out.decision.summary == Take(out.plan.fields["summary"].s, 500)
      && out.decision.rawResponse == Take(c.finalText, 2000) && out.decision.sensorSnapshot == Take(c.snapshot, 2000)
      && |out.decision.summary| <= 500 && |out.decision.sensorSnapshot| <= 2000 && |out.decision.rawResponse| <= 2000
      && out.llmCalls <= (if llm.maxRounds < 0 then 0 else llm.maxRounds)
  {
    var c := Converse(0, Start, llm.maxRounds, llm.reply, llm.toolText);
    ConverseBounded(0, Start, llm.maxRounds, llm.reply, llm.toolText);
    var planData := ExtractPlanJson(c.finalText, llm.fenced, llm.decode);
    AssembledPlanShape(c.finalText, now, fmt, planData, p);
  }
}
