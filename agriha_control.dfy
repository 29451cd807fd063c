/**
 * The older single-loop controller: run every five minutes, it shows a
 * local LLM the recent decision history and the time of day, lets it call
 * the daemon's REST tools (read sensors, read status, set a relay) for a
 * bounded number of rounds, and logs the decision.
 */
module AgrihaControl {
  import opened Json

  const NoAnswer := "（応答なし）"
  const KeepAsIs := "現状維持"
  const FirstRun := "（過去の判断履歴なし — 初回起動）"

  // ───────────────────────── time of day ─────────────────────────

  const BeforeSunrise := "日の出前"
  const AfterSunset := "日没後"
  const LastHour := "日没前1時間"
  const Daytime := "日中（日の出後〜日没前1時間）"

  /** `get_time_period`: sunset is checked before the last hour, and sunrise itself is daytime. */
  function TimePeriod(now: int, sunrise: int, sunset: int): (r: string)
    ensures r == BeforeSunrise <==> now < sunrise
    ensures r == AfterSunset <==> sunrise <= now && sunset <= now
    ensures r == LastHour <==> sunrise <= now && sunset - 3600 <= now < sunset
    ensures r == Daytime <==> sunrise <= now < sunset - 3600
  {
    if now < sunrise then BeforeSunrise
    else if now >= sunset then AfterSunset
    else if now >= sunset - 3600 then LastHour
    else Daytime
  }

  // ───────────────────────── decision history ─────────────────────────

  /** A stored decision, in insertion (id) order. */
  datatype HistoryRow = HistoryRow(timestamp: string, summary: string, actions: string)

  /**
   * The window `load_recent_history` shows, oldest first: the last `n`
   * rows (SQLite reads a negative LIMIT as no limit).
   */
  function Recent(rows: seq<HistoryRow>, n: int): (r: seq<HistoryRow>)
    ensures n < 0 ==> r == rows
    ensures n >= 0 ==> |r| == (if |rows| < n then |rows| else n)
    ensures r == rows[|rows| - |r|..]
  {
    if n < 0 || |rows| <= n then rows else rows[|rows| - n..]
  }

  /** `SELECT … ORDER BY id DESC LIMIT n`: the same rows, newest first. */
  function Newest(rows: seq<HistoryRow>, n: int): seq<HistoryRow> {
    var k := |Recent(rows, n)|;
    seq(k, j requires 0 <= j < k => rows[|rows| - 1 - j])
  }

  /** `f"[{ts}] {summary} → {actions}"`. */
  function HistoryLine(row: HistoryRow): (line: string)
    ensures "[" <= line
  {
    "[" + row.timestamp + "] " + row.summary + " → " + row.actions
  }

  /** The text before the first `c`, all of it when there is none. */
  function UpTo(s: string, c: char): (r: string)
    ensures r <= s && c !in r
    ensures |r| < |s| ==> s[|r|] == c
    decreases |s|
  {
    if s == [] || s[0] == c then [] else [s[0]] + UpTo(s[1..], c)
  }

  /** Text free of `c`, then `c`: reading up to the first `c` gives the text back. */
  lemma {:induction false} UpToMarker(a: string, c: char, b: string)
    requires c !in a
    ensures UpTo(a + [c] + b, c) == a
    decreases |a|
  {
    if a != [] {
      assert (a + [c] + b)[1..] == a[1..] + [c] + b;
      UpToMarker(a[1..], c, b);
    }
  }

  /**
   * A history line gives its row back: the timestamp (when it holds no
   * ']') is what stands between '[' and the first ']', and the summary
   * and actions follow after a space, separated by " → ".
   */
  lemma HistoryLineReadsBack(row: HistoryRow)
    requires ']' !in row.timestamp
    ensures var line := HistoryLine(row);
      line[0] == '[' && UpTo(line[1..], ']') == row.timestamp
      && line[|row.timestamp| + 2..] == " " + row.summary + " → " + row.actions
  {
    var line := HistoryLine(row);
    var rest := " " + row.summary + " → " + row.actions;
    assert line == "[" + (row.timestamp + [']'] + rest);
    assert line[1..] == row.timestamp + [']'] + rest;
    UpToMarker(row.timestamp, ']', rest);
  }

  function HistoryLines(rows: seq<HistoryRow>): seq<string> {
    seq(|rows|, k requires 0 <= k < |rows| => HistoryLine(rows[k]))
  }

  /** The history text: one line per row of the window, or the first-run text when the store is empty. */
  function HistoryText(rows: seq<HistoryRow>, n: int): (r: string)
    ensures r == FirstRun <==> Recent(rows, n) == []
  {
    var recent := Recent(rows, n);
    if recent == [] then FirstRun
    else
      JoinKeepsPrefix(HistoryLines(recent), "\n", "[");
      assert FirstRun[0] != '[';
      Join(HistoryLines(recent), "\n")
  }

  /** `load_recent_history`: reads the rows newest first and walks them backwards. */
  method LoadRecentHistory(rows: seq<HistoryRow>, n: int) returns (text: string)
    ensures text == HistoryText(rows, n)
  {
    var fetched := Newest(rows, n);
    ghost var recent := Recent(rows, n);
    assert |fetched| == |recent|;
    if fetched == [] {
      assert recent == [];
      return FirstRun;
    }
    assert HistoryText(rows, n) == Join(HistoryLines(recent), "\n");
    var lines: seq<string> := [];
    var i := |fetched|;
    while i > 0
      invariant 0 <= i <= |fetched|
      invariant |lines| == |fetched| - i
      invariant forall j :: 0 <= j < |lines| ==> lines[j] == HistoryLine(recent[j])
    {
      i := i - 1;
      assert fetched[i] == rows[|rows| - 1 - i];
      assert recent[|fetched| - 1 - i] == rows[|rows| - |recent| + (|fetched| - 1 - i)];
      lines := lines + [HistoryLine(fetched[i])];
    }
    ghost var spec := HistoryLines(recent);
    assert |lines| == |spec|;
    forall j | 0 <= j < |lines| ensures lines[j] == spec[j] {
    }
    assert lines == spec;
    text := Join(lines, "\n");
  }

  // ───────────────────────── LLM replies ─────────────────────────

  /** A tool call after `llm_chat` has normalised it. */
  datatype ToolCall = ToolCall(id: Json, name: Json, arguments: Json)

  /** The message `llm_chat` returns: `tool_calls` is None when there are none. */
  datatype ChatMessage = ChatMessage(content: Json, toolCalls: Option<seq<ToolCall>>)

  /**
   * One raw tool call: its function part must be an object; text
   * arguments are decoded (`decode` is `json.loads`), and fall back to
   * {} when they are not JSON; other arguments are kept as they are.
   */
  function NormaliseCall(tc: Json, decode: string -> Option<Json>): (r: Fallible<ToolCall>)
    ensures r.Ok? <==> tc.JObj? && FieldOr(tc.fields, "function", JObj(map[])).JObj?
    ensures r.Ok? ==> var args := FieldOr(FieldOr(tc.fields, "function", JObj(map[])).fields, "arguments", JStr("{}"));
      (args.JStr? && decode(args.s).Some? ==> r.value.arguments == decode(args.s).value)
      && (args.JStr? && decode(args.s).None? ==> r.value.arguments == JObj(map[]))
      && (!args.JStr? ==> r.value.arguments == args)
  {
    if !tc.JObj? then Raised
    else
      var fn := FieldOr(tc.fields, "function", JObj(map[]));
      if !fn.JObj? then Raised
      else
        var raw := FieldOr(fn.fields, "arguments", JStr("{}"));
        var args := if raw.JStr? then (if decode(raw.s).Some? then decode(raw.s).value else JObj(map[])) else raw;
        Ok(ToolCall(FieldOr(tc.fields, "id", JStr("")), FieldOr(fn.fields, "name", JStr("")), args))
  }

  function NormaliseCalls(xs: seq<Json>, decode: string -> Option<Json>): (r: Fallible<seq<ToolCall>>)
    ensures r.Ok? <==> forall k :: 0 <= k < |xs| ==> NormaliseCall(xs[k], decode).Ok?
    ensures r.Ok? ==> |r.value| == |xs| && forall k :: 0 <= k < |xs| ==> NormaliseCall(xs[k], decode) == Ok(r.value[k])
    decreases |xs|
  {
    if xs == [] then Ok([])
    else
      var prev :- NormaliseCalls(xs[..|xs| - 1], decode);
      var tc :- NormaliseCall(xs[|xs| - 1], decode);
      Ok(prev + [tc])
  }

  /** The raw tool calls of a message: `message.get("tool_calls") or []`, iterated. */
  function RawCalls(message: map<string, Json>): Fallible<seq<Json>> {
    var raw := FieldOr(message, "tool_calls", JNull);
    Elements(if Truthy(raw) then raw else JArr([]))
  }

  /** `llm_chat` on the message of the first choice of a response. */
  function Chat(message: Json, decode: string -> Option<Json>): (r: Fallible<ChatMessage>)
    ensures r.Raised? <==> (!message.JObj? || RawCalls(message.fields).Raised?
                            || NormaliseCalls(RawCalls(message.fields).value, decode).Raised?)
    ensures r.Ok? ==> r.value.content == FieldOr(message.fields, "content", JNull)
    ensures r.Ok? ==> (message.JObj? && RawCalls(message.fields).Ok?
      && (r.value.toolCalls.None? <==> RawCalls(message.fields).value == [])
      && (r.value.toolCalls.Some? ==> NormaliseCalls(RawCalls(message.fields).value, decode) == Ok(r.value.toolCalls.value)))
  {
    if !message.JObj? then Raised
    else
      var xs :- RawCalls(message.fields);
      var calls :- NormaliseCalls(xs, decode);
      Ok(ChatMessage(FieldOr(message.fields, "content", JNull), if calls == [] then None else Some(calls)))
  }

  /** `llm_chat`'s loop over the raw tool calls. */
  method LlmChat(message: Json, decode: string -> Option<Json>) returns (r: Fallible<ChatMessage>)
    ensures r == Chat(message, decode)
  {
    if !message.JObj? {
      return Raised;
    }
    var raw := RawCalls(message.fields);
    if raw.Raised? {
      return Raised;
    }
    var xs := raw.value;
    var parsed: seq<ToolCall> := [];
    for i := 0 to |xs|
      invariant NormaliseCalls(xs[..i], decode) == Ok(parsed)
    {
      assert xs[..i + 1][..i] == xs[..i];
      var tc := NormaliseCall(xs[i], decode);
      if tc.Raised? {
        assert NormaliseCalls(xs, decode).Raised?;
        return Raised;
      }
      parsed := parsed + [tc.value];
    }
    assert xs[..|xs|] == xs;
    r := Ok(ChatMessage(FieldOr(message.fields, "content", JNull), if parsed == [] then None else Some(parsed)));
  }

  // ───────────────────────── tools ─────────────────────────

  /** A request to the daemon's REST API. */
  datatype Request =
    | Get(path: string, headers: map<string, string>)
    | Post(path: string, body: Json, headers: map<string, string>)

  /** What the daemon answered: a body, or an error (`raise_for_status` or a transport failure). */
  datatype HttpResult = Body(text: string) | HttpError(message: string)

  /** A tool's result text, or the message of the exception it raised. */
  datatype ToolResult = ToolText(text: string) | ToolFailed(message: string)

  function Headers(apiKey: string): (h: map<string, string>)
    ensures "X-API-Key" in h <==> apiKey != ""
  {
    if apiKey != "" then map["X-API-Key" := apiKey] else map[]
  }

  /**
   * The request `call_tool` sends for a tool call: None for an unknown
   * tool; `set_relay` reads its arguments with defaults ch 1, value 0,
   * duration 0 and reason "LLM auto", and raises when they are not an object.
   */
  function Dispatch(baseUrl: string, apiKey: string, name: Json, args: Json): (r: Fallible<Option<Request>>)
    ensures r == Ok(None) <==> name !in {JStr("get_sensors"), JStr("get_status"), JStr("set_relay")}
    ensures r.Raised? <==> name == JStr("set_relay") && !args.JObj?
    ensures r.Ok? && r.value.Some? ==> r.value.value.headers == Headers(apiKey)
    ensures name == JStr("get_sensors") ==> r == Ok(Some(Get(baseUrl + "/api/sensors", Headers(apiKey))))
    ensures name == JStr("get_status") ==> r == Ok(Some(Get(baseUrl + "/api/status", Headers(apiKey))))
    ensures name == JStr("set_relay") && r.Ok? ==> r.value.Some? && r.value.value.Post? && baseUrl + "/api/relay/" <= r.value.value.path
  {
    if name == JStr("get_sensors") then Ok(Some(Get(baseUrl + "/api/sensors", Headers(apiKey))))
    else if name == JStr("get_status") then Ok(Some(Get(baseUrl + "/api/status", Headers(apiKey))))
    else if name == JStr("set_relay") then
      if !args.JObj? then Raised
      else
        var a := args.fields;
        var body := JObj(map[
          "value" := FieldOr(a, "value", JInt(0)),
          "duration_sec" := FieldOr(a, "duration_sec", JInt(0)),
          "reason" := FieldOr(a, "reason", JStr("LLM auto"))]);
        Ok(Some(Post(baseUrl + "/api/relay/" + Show(FieldOr(a, "ch", JInt(1))), body, Headers(apiKey))))
    else Ok(None)
  }

  /** Python's name for the type of a value, as an AttributeError message shows it. */
  function TypeName(j: Json): string {
    match j
    case JNull => "NoneType"
    case JBool(_) => "bool"
    case JInt(_) => "int"
    case JReal(_) => "float"
    case JStr(_) => "str"
    case JArr(_) => "list"
    case JObj(_) => "dict"
  }

  /** `call_tool`'s result, given the daemon's answer to the request it sent. */
  function CallTool(d: Fallible<Option<Request>>, answer: HttpResult, name: Json, args: Json): (r: ToolResult)
    ensures d == Ok(None) ==> r == ToolText("{\"error\": \"unknown tool: " + Show(name) + "\"}")
    ensures d.Ok? && d.value.Some? ==> (r.ToolText? <==> answer.Body?)
  {
    match d
    case Raised => ToolFailed("'" + TypeName(args) + "' object has no attribute 'get'")
    case Ok(None) => ToolText("{\"error\": \"unknown tool: " + Show(name) + "\"}")
    case Ok(Some(_)) =>
      match answer
      case Body(t) => ToolText(t)
      case HttpError(m) => ToolFailed(m)
  }

  /** The text a failed tool call hands back to the LLM. */
  function ErrorJson(message: string): string {
    "{\"error\": \"" + message + "\"}"
  }

  // ───────────────────────── the control loop ─────────────────────────

  /**
   * Everything a run depends on besides the configuration: the n-th LLM
   * response's message (or the exception the call raised), the daemon's
   * answer to the n-th request, and `json.loads`.
   */
  datatype Env = Env(baseUrl: string, apiKey: string, reply: nat -> Fallible<Json>, http: nat -> HttpResult,
                     decode: string -> Option<Json>)

  /**
   * The loop's bookkeeping: the last message, the sensor snapshot, the
   * actions taken, the `tool_choice` of each LLM call, the requests sent,
   * the tool calls run so far, and whether an exception escaped.
   */
  datatype LoopState = LoopState(msg: Option<ChatMessage>, snapshot: string, actions: seq<string>, choices: seq<string>,
                                 requests: seq<Request>, ran: seq<ToolCall>, crashed: bool)

  const Start := LoopState(None, "", [], [], [], [], false)

  /** Every action entry names a relay channel. */
  predicate Prefixed(actions: seq<string>) {
    forall k :: 0 <= k < |actions| ==> "relay ch" <= actions[k]
  }

  /** `f"relay ch{ch}={'ON' if value else 'OFF'}"`. */
  function ActionEntry(args: map<string, Json>): (s: string)
    ensures "relay ch" <= s
  {
    "relay ch" + Show(FieldOr(args, "ch", JNull)) + "=" + (if Truthy(FieldOr(args, "value", JNull)) then "ON" else "OFF")
  }

  /**
   * An action entry gives its call back: the channel as written (when its
   * rendering holds no '=') up to the first '=', then "ON" exactly when
   * the value is truthy and "OFF" otherwise.
   */
  lemma ActionEntryReadsBack(args: map<string, Json>)
    requires '=' !in Show(FieldOr(args, "ch", JNull))
    ensures var s := ActionEntry(args);
      var ch := Show(FieldOr(args, "ch", JNull));
      s[..8] == "relay ch" && UpTo(s[8..], '=') == ch
      && s[9 + |ch|..] == (if Truthy(FieldOr(args, "value", JNull)) then "ON" else "OFF")
  {
    var ch := Show(FieldOr(args, "ch", JNull));
    var tail := if Truthy(FieldOr(args, "value", JNull)) then "ON" else "OFF";
    var s := ActionEntry(args);
    assert s == "relay ch" + (ch + ['='] + tail);
    assert s[8..] == ch + ['='] + tail;
    UpToMarker(ch, '=', tail);
  }

  /** The action entries a sequence of tool calls records: one per `set_relay` call, in order. */
  function RelayEntries(calls: seq<ToolCall>): (r: seq<string>)
    ensures |r| <= |calls|
    decreases |calls|
  {
    if calls == [] then []
    else
      var tc := calls[|calls| - 1];
      RelayEntries(calls[..|calls| - 1])
        + (if tc.name == JStr("set_relay") && tc.arguments.JObj? then [ActionEntry(tc.arguments.fields)] else [])
  }

  /**
   * What the loop's record keeps while no exception has escaped: every
   * `set_relay` call run had object arguments, and the action entries are
   * those of the calls run.
   */
  predicate Logged(st: LoopState) {
    !st.crashed ==>
      (forall k :: 0 <= k < |st.ran| && st.ran[k].name == JStr("set_relay") ==> st.ran[k].arguments.JObj?)
      && st.actions == RelayEntries(st.ran)
  }

  /** One tool call keeps the record. */
  lemma ToolStepLogged(st: LoopState, tc: ToolCall, env: Env)
    requires Logged(st)
    ensures Logged(ToolStep(st, tc, env))
  {
    var r := ToolStep(st, tc, env);
    if !r.crashed {
      assert r.ran[..|st.ran|] == st.ran && r.ran[|st.ran|] == tc;
      assert forall k :: 0 <= k < |st.ran| ==> r.ran[k] == st.ran[k];
    }
  }

  lemma {:induction false} ToolsRunLogged(calls: seq<ToolCall>, st: LoopState, env: Env)
    requires Logged(st)
    ensures Logged(ToolsRun(calls, st, env))
    decreases |calls|
  {
    if calls != [] {
      ToolsRunLogged(calls[..|calls| - 1], st, env);
      ToolStepLogged(ToolsRun(calls[..|calls| - 1], st, env), calls[|calls| - 1], env);
    }
  }

  lemma TurnLogged(round: nat, st: LoopState, env: Env)
    requires Logged(st)
    ensures Logged(Turn(round, st, env))
  {
    var st1 := st.(choices := st.choices + [if round == 0 then "required" else "auto"]);
    var reply := env.reply(round);
    var chat := if reply.Raised? then Raised else Chat(reply.value, env.decode);
    if chat.Ok? {
      var st2 := st1.(msg := Some(chat.value));
      assert Logged(st2);
      if chat.value.toolCalls.Some? {
        ToolsRunLogged(chat.value.toolCalls.value, st2, env);
      }
    }
  }

  /** Every round keeps the record, so the whole loop does. */
  lemma {:induction false} RoundsLogged(round: nat, st: LoopState, maxRounds: int, env: Env)
    requires Logged(st)
    ensures Logged(Rounds(round, st, maxRounds, env))
    decreases if round < maxRounds then maxRounds - round else 0
  {
    if round < maxRounds {
      TurnLogged(round, st, env);
      var t := Turn(round, st, env);
      if Continues(t) {
        RoundsLogged(round + 1, t, maxRounds, env);
      }
    }
  }

  /** When every `set_relay` call had object arguments, entries are recorded iff some call was a `set_relay`. */
  lemma {:induction false} RelayEntriesEmpty(calls: seq<ToolCall>)
    requires forall k :: 0 <= k < |calls| && calls[k].name == JStr("set_relay") ==> calls[k].arguments.JObj?
    ensures RelayEntries(calls) == [] <==> forall k :: 0 <= k < |calls| ==> calls[k].name != JStr("set_relay")
    decreases |calls|
  {
    if calls != [] {
      var init := calls[..|calls| - 1];
      assert forall k :: 0 <= k < |init| ==> init[k] == calls[k];
      RelayEntriesEmpty(init);
    }
  }

  /**
   * One tool call of a round. A failing tool becomes an error text and the
   * loop goes on; only a `set_relay` whose arguments are not an object
   * stops the run, when its action entry is formatted.
   */
  function ToolStep(st: LoopState, tc: ToolCall, env: Env): (r: LoopState)
    ensures r.crashed <==> st.crashed || (tc.name == JStr("set_relay") && !tc.arguments.JObj?)
    ensures r.msg == st.msg && r.choices == st.choices
    ensures !st.crashed && tc.name == JStr("set_relay") && tc.arguments.JObj? ==>
      r.actions == st.actions + [ActionEntry(tc.arguments.fields)]
    ensures tc.name != JStr("set_relay") ==> r.actions == st.actions
    ensures Prefixed(st.actions) ==> Prefixed(r.actions)
    ensures !st.crashed ==> r.ran == st.ran + [tc]
  {
    if st.crashed then st
    else
      var d := Dispatch(env.baseUrl, env.apiKey, tc.name, tc.arguments);
      var requests := if d.Ok? && d.value.Some? then st.requests + [d.value.value] else st.requests;
      var text := match CallTool(d, env.http(|st.requests|), tc.name, tc.arguments)
        case ToolText(t) => t
        case ToolFailed(m) => ErrorJson(m);
      var snapshot := if tc.name == JStr("get_sensors") || tc.name == JStr("get_status")
        then st.snapshot + "\n--- " + tc.name.s + " ---\n" + text else st.snapshot;
      var st' := st.(requests := requests, snapshot := snapshot, ran := st.ran + [tc]);
      if tc.name == JStr("set_relay") then
        if tc.arguments.JObj? then st'.(actions := st.actions + [ActionEntry(tc.arguments.fields)])
        else st'.(crashed := true)
      else st'
  }

  function ToolsRun(calls: seq<ToolCall>, st: LoopState, env: Env): (r: LoopState)
    ensures r.msg == st.msg && r.choices == st.choices
    ensures Prefixed(st.actions) ==> Prefixed(r.actions)
    decreases |calls|
  {
    if calls == [] then st else ToolStep(ToolsRun(calls[..|calls| - 1], st, env), calls[|calls| - 1], env)
  }

  /** One round: an LLM call, then, when it asked for tools, the tool calls in order. */
  function Turn(round: nat, st: LoopState, env: Env): (r: LoopState)
    ensures r.choices == st.choices + [if round == 0 then "required" else "auto"]
    ensures Prefixed(st.actions) ==> Prefixed(r.actions)
    ensures !r.crashed ==> r.msg.Some?
  {
    var st1 := st.(choices := st.choices + [if round == 0 then "required" else "auto"]);
    var reply := env.reply(round);
    var chat := if reply.Raised? then Raised else Chat(reply.value, env.decode);
    match chat
    case Raised => st1.(crashed := true)
    case Ok(m) =>
      var st2 := st1.(msg := Some(m));
      if m.toolCalls.None? then st2 else ToolsRun(m.toolCalls.value, st2, env)
  }

  /** The loop goes on after a round that ran tools without an exception. */
  predicate Continues(t: LoopState) {
    !t.crashed && t.msg.Some? && t.msg.value.toolCalls.Some?
  }

  /** The round loop from `round` on. */
  function Rounds(round: nat, st: LoopState, maxRounds: int, env: Env): (r: LoopState)
    ensures Prefixed(st.actions) ==> Prefixed(r.actions)
    decreases if round < maxRounds then maxRounds - round else 0
  {
    if round >= maxRounds then st
    else
      var t := Turn(round, st, env);
      if Continues(t) then Rounds(round + 1, t, maxRounds, env) else t
  }

  /** `msg.get("content", "（応答なし）") or "（応答なし）"`; content that is not text cannot be logged and raises. */
  function FinalText(msg: Option<ChatMessage>): (r: Fallible<string>)
    ensures r.Ok? ==> r.value != ""
    ensures msg.None? || !Truthy(msg.value.content) ==> r == Ok(NoAnswer)
    ensures msg.Some? && msg.value.content.JStr? && msg.value.content.s != "" ==> r == Ok(msg.value.content.s)
    ensures r.Raised? <==> msg.Some? && Truthy(msg.value.content) && !msg.value.content.JStr?
  {
    match msg
    case None => Ok(NoAnswer)
    case Some(m) =>
      if !Truthy(m.content) then Ok(NoAnswer)
      else if m.content.JStr? then Ok(m.content.s)
      else Raised
  }

  /** The result's actions text. */
  function ActionsText(actions: seq<string>): (r: string)
    requires forall k :: 0 <= k < |actions| ==> "relay ch" <= actions[k]
    ensures r == KeepAsIs <==> actions == []
  {
    if actions == [] then KeepAsIs
    else
      JoinKeepsPrefix(actions, "; ", "relay ch");
      Join(actions, "; ")
  }

  /** How a run ends: an exception escapes, or the decision is returned and logged. */
  datatype ControlOutcome =
    | Crashed
    | Decided(summary: string, actions: string, sensorSnapshot: string, llmCalls: nat, requests: seq<Request>)

  /** `run_control_loop` with `max_tool_rounds` = `maxRounds`. */
  function ControlLoop(maxRounds: int, env: Env): (r: ControlOutcome)
    ensures r.Decided? ==> |r.summary| <= 500 && |r.sensorSnapshot| <= 2000
  {
    var st := Rounds(0, Start, maxRounds, env);
    if st.crashed then Crashed
    else
      match FinalText(st.msg)
      case Raised => Crashed
      case Ok(t) =>
        Decided(Take(t, 500), ActionsText(st.actions), Take(st.snapshot, 2000), |st.choices|, st.requests)
  }

  /** The tool calls of one response, in order. */
  method RunTools(calls: seq<ToolCall>, st: LoopState, env: Env) returns (st': LoopState)
    requires !st.crashed
    ensures st' == ToolsRun(calls, st, env)
  {
    st' := st;
    for i := 0 to |calls|
      invariant st' == ToolsRun(calls[..i], st, env)
      invariant !st'.crashed
    {
      assert calls[..i + 1][..i] == calls[..i];
      var tc := calls[i];
      var d := Dispatch(env.baseUrl, env.apiKey, tc.name, tc.arguments);
      var result := CallTool(d, env.http(|st'.requests|), tc.name, tc.arguments);
      var text := if result.ToolText? then result.text else ErrorJson(result.message);
      if d.Ok? && d.value.Some? {
        st' := st'.(requests := st'.requests + [d.value.value]);
      }
      st' := st'.(ran := st'.ran + [tc]);
      if tc.name == JStr("get_sensors") || tc.name == JStr("get_status") {
        st' := st'.(snapshot := st'.snapshot + "\n--- " + tc.name.s + " ---\n" + text);
      }
      if tc.name == JStr("set_relay") {
        if !tc.arguments.JObj? {
          st' := st'.(crashed := true);
          CrashPersists(calls, i + 1, st, env);
          return;
        }
        st' := st'.(actions := st'.actions + [ActionEntry(tc.arguments.fields)]);
      }
    }
    assert calls[..|calls|] == calls;
  }

  lemma {:induction false} CrashPersists(calls: seq<ToolCall>, n: nat, st: LoopState, env: Env)
    requires n <= |calls| && ToolsRun(calls[..n], st, env).crashed
    ensures ToolsRun(calls, st, env) == ToolsRun(calls[..n], st, env)
    decreases |calls| - n
  {
    if n == |calls| {
      assert calls[..n] == calls;
    } else {
      assert calls[..|calls| - 1][..n] == calls[..n];
      CrashPersists(calls[..|calls| - 1], n, st, env);
    }
  }

  /** One round of `run_control_loop`. */
  method TakeTurn(round: nat, st: LoopState, env: Env) returns (t: LoopState)
    requires !st.crashed
    ensures t == Turn(round, st, env)
  {
    var st1 := st.(choices := st.choices + [if round == 0 then "required" else "auto"]);
    var reply := env.reply(round);
    if reply.Raised? {
      return st1.(crashed := true);
    }
    var m := LlmChat(reply.value, env.decode);
    if m.Raised? {
      return st1.(crashed := true);
    }
    t := st1.(msg := Some(m.value));
    if m.value.toolCalls.Some? {
      t := RunTools(m.value.toolCalls.value, t, env);
    }
  }

  /** `run_control_loop`. */
  method RunControlLoop(maxRounds: int, env: Env) returns (out: ControlOutcome)
    ensures out == ControlLoop(maxRounds, env)
  {
    var st := Start;
    var round: nat := 0;
    var done := false;
    while round < maxRounds && !done
      invariant done ==> st == Rounds(0, Start, maxRounds, env)
      invariant !done ==> Rounds(round, st, maxRounds, env) == Rounds(0, Start, maxRounds, env) && !st.crashed
      decreases maxRounds - round, if done then 0 else 1
    {
      var t := TakeTurn(round, st, env);
      st := t;
      if Continues(t) {
        round := round + 1;
      } else {
        done := true;
      }
    }
    if st.crashed {
      return Crashed;
    }
    var final := FinalText(st.msg);
    if final.Raised? {
      return Crashed;
    }
    assert Prefixed(Start.actions);
    out := Decided(Take(final.value, 500), ActionsText(st.actions), Take(st.snapshot, 2000), |st.choices|, st.requests);
  }

  // ───────────────────────── properties ─────────────────────────

  /** The `tool_choice` of the n-th LLM call: "required" for the first, "auto" after. */
  predicate ChoicesInOrder(cs: seq<string>) {
    forall k :: 0 <= k < |cs| ==> cs[k] == (if k == 0 then "required" else "auto")
  }

  /** The LLM is called at most `max_tool_rounds` times, with "required" only in the first call. */
  lemma {:induction false} RoundsBounded(round: nat, st: LoopState, maxRounds: int, env: Env)
    requires |st.choices| == round && ChoicesInOrder(st.choices)
    ensures ChoicesInOrder(Rounds(round, st, maxRounds, env).choices)
    ensures |Rounds(round, st, maxRounds, env).choices| <= (if maxRounds < round then round else maxRounds)
    decreases if round < maxRounds then maxRounds - round else 0
  {
    if round < maxRounds {
      var t := Turn(round, st, env);
      TurnChoices(round, st, env);
      if Continues(t) {
        RoundsBounded(round + 1, t, maxRounds, env);
        assert Rounds(round, st, maxRounds, env).choices == Rounds(round + 1, t, maxRounds, env).choices;
      } else {
        assert Rounds(round, st, maxRounds, env).choices == t.choices;
      }
    }
  }

  /** A run that stops before the last round without an exception stopped at a response with no tool calls. */
  lemma {:induction false} RoundsStopEarly(round: nat, st: LoopState, maxRounds: int, env: Env)
    requires |st.choices| == round
    ensures var r := Rounds(round, st, maxRounds, env);
      !r.crashed && round < |r.choices| < maxRounds ==> r.msg.Some? && r.msg.value.toolCalls.None?
    decreases if round < maxRounds then maxRounds - round else 0
  {
    if round < maxRounds {
      var t := Turn(round, st, env);
      if Continues(t) {
        RoundsStopEarly(round + 1, t, maxRounds, env);
        RoundsGrow(round + 1, t, maxRounds, env);
      } else {
        assert Rounds(round, st, maxRounds, env) == t;
      }
    }
  }

  lemma {:induction false} RoundsGrow(round: nat, st: LoopState, maxRounds: int, env: Env)
    ensures |Rounds(round, st, maxRounds, env).choices| >= |st.choices|
    ensures round < maxRounds ==> |Rounds(round, st, maxRounds, env).choices| > |st.choices|
    decreases if round < maxRounds then maxRounds - round else 0
  {
    if round < maxRounds {
      var t := Turn(round, st, env);
      if Continues(t) {
        RoundsGrow(round + 1, t, maxRounds, env);
      }
    }
  }

  /** A round adds one `tool_choice`, "required" only when it is the first. */
  lemma TurnChoices(round: nat, st: LoopState, env: Env)
    requires |st.choices| == round && ChoicesInOrder(st.choices)
    ensures |Turn(round, st, env).choices| == round + 1 && ChoicesInOrder(Turn(round, st, env).choices)
  {
    var cs := Turn(round, st, env).choices;
    assert cs == st.choices + [if round == 0 then "required" else "auto"];
    assert forall k :: 0 <= k < round ==> cs[k] == st.choices[k];
  }

  /**
   * A completed run calls the LLM at most `max_tool_rounds` times; its
   * action entries are one per `set_relay` call run, in order; and it
   * reports "現状維持" exactly when no `set_relay` call was run.
   */
  lemma ControlLoopOutcome(maxRounds: int, env: Env)
    requires ControlLoop(maxRounds, env).Decided?
    ensures ControlLoop(maxRounds, env).llmCalls <= (if maxRounds < 0 then 0 else maxRounds)
    ensures 0 < ControlLoop(maxRounds, env).llmCalls < maxRounds ==>
      Rounds(0, Start, maxRounds, env).msg.Some? && Rounds(0, Start, maxRounds, env).msg.value.toolCalls.None?
    ensures Rounds(0, Start, maxRounds, env).actions == RelayEntries(Rounds(0, Start, maxRounds, env).ran)
    ensures ControlLoop(maxRounds, env).actions == KeepAsIs <==>
      forall k :: 0 <= k < |Rounds(0, Start, maxRounds, env).ran| ==>
        Rounds(0, Start, maxRounds, env).ran[k].name != JStr("set_relay")
  {
    RoundsBounded(0, Start, maxRounds, env);
    RoundsStopEarly(0, Start, maxRounds, env);
    var st := Rounds(0, Start, maxRounds, env);
    assert Prefixed(Start.actions);
    assert Prefixed(st.actions);
    var r := ControlLoop(maxRounds, env);
    assert r.llmCalls == |st.choices|;
    assert r.actions == ActionsText(st.actions);
    RoundsLogged(0, Start, maxRounds, env);
    RelayEntriesEmpty(st.ran);
  }

  /** `set_relay` with no arguments posts value 0, duration 0 and reason "LLM auto" to channel 1. */
  lemma SetRelayDefaults(baseUrl: string, apiKey: string)
    ensures Dispatch(baseUrl, apiKey, JStr("set_relay"), JObj(map[])) ==
      Ok(Some(Post(baseUrl + "/api/relay/1",
                   JObj(map["value" := JInt(0), "duration_sec" := JInt(0), "reason" := JStr("LLM auto")]),
                   Headers(apiKey))))
  {
    assert Show(JInt(1)) == "1";
    assert baseUrl + "/api/relay/" + "1" == baseUrl + "/api/relay/1";
  }

  /**
   * `set_relay` with every argument given posts to the channel's own
   * route, `/api/relay/<ch>` with the channel in decimal, a body of exactly
   * the value, the duration and the reason as given, and the key header.
   */
  lemma SetRelayRequest(baseUrl: string, apiKey: string, c: int, v: Json, d: Json, reason: Json)
    ensures var args := JObj(map["ch" := JInt(c), "value" := v, "duration_sec" := d, "reason" := reason]);
      Dispatch(baseUrl, apiKey, JStr("set_relay"), args)
        == Ok(Some(Post(baseUrl + "/api/relay/" + IntToString(c),
                        JObj(map["value" := v, "duration_sec" := d, "reason" := reason]), Headers(apiKey))))
  {
    var args := JObj(map["ch" := JInt(c), "value" := v, "duration_sec" := d, "reason" := reason]);
    assert FieldOr(args.fields, "ch", JInt(1)) == JInt(c);
    assert FieldOr(args.fields, "value", JInt(0)) == v;
    assert FieldOr(args.fields, "duration_sec", JInt(0)) == d;
    assert FieldOr(args.fields, "reason", JStr("LLM auto")) == reason;
  }
}
