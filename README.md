# AgriHA greenhouse control, modelled in Dafny

AgriHA runs a greenhouse from a Raspberry Pi with a UniPi relay board. Its
control is split into layers:

- **Layer 1, emergency.** Physical switches drive the relays directly through
  the daemon's `CommandGate` and start a lockout. While it lasts, commands from
  the higher layers are dropped.
- **Layer 2, rule engine.** This engine runs every few minutes. It closes the
  windows for rain, strong wind and night. It opens or closes them around a
  temperature target, and irrigates once enough solar radiation has
  accumulated.
- **Layer 3, plans.** The forecast engine asks a language model for a plan of
  timed relay actions. It validates the plan and writes it. The plan executor
  later runs each action once it is due, skips it in bad weather, and marks it
  as done.

The daemon has three parts:

- the MCP23008 relay driver;
- the MQTT relay bridge, which executes `agriha/{house}/relay/{ch}/set`
  commands, arms auto-off timers and republishes the relay state;
- the REST gateway with its sensor cache, relay, status and emergency-clear
  routes.

Beside these sit the WH65LP weather-station frame decoder, the UECS-CCM
multicast receiver, the older single-loop LLM controller
(`agriha_control.py`), and the script that imports LINE-bot logs into the
conversation database.

One module per source file:

| module | file |
|---|---|
| `Json` | the decoded-JSON value and the Python built-ins the code applies to it (`dict.get`, `int()`, `float()`, `str()`, truthiness, `datetime.fromisoformat` given as a parser) |
| `Lockout` | the deadline and expiry comparisons all layers share |
| `RuleEngine` | `src/v2_control/rule_engine.py` |
| `PlanExecutor` | `src/v2_control/plan_executor.py` |
| `ForecastEngine` | `src/v2_control/forecast_engine.py` |
| `AgrihaControl` | `src/uecs_llm/agriha_control.py` |
| `I2cRelay` | `src/unipi_daemon/i2c_relay.py` |
| `EmergencyOverride` | `src/unipi_daemon/emergency_override.py` |
| `Mqtt` | topic splitting and the MQTT message record |
| `MqttRelayBridge` | `src/unipi_daemon/mqtt_relay_bridge.py` |
| `RestApi` | `src/unipi_daemon/rest_api.py` |
| `Wh65lp` | `src/unipi_daemon/wh65lp_reader.py` |
| `CcmReceiver` | `src/unipi_daemon/ccm_receiver.py` |
| `ImportLogs` | `linebot/import_logs.py` |
| `Coordination` | facts that relate the layers to each other |

**Stateful objects are classes.** The relay driver, the command gate, the
bridge, the sensor cache and the REST app each hold fields their methods
update: the output-latch shadow, the lockout deadline, the timer table, the
published messages.

**Loops are methods.** Each loop in the source is a method with a `while` or
`for` loop, proved equal to a specification function. Examples:

- `evaluate_rules`;
- the posting loop of `run`;
- `run_executor`'s action loop;
- `validate_actions`;
- the forecast conversation;
- the control loop's rounds;
- `parse_log` and `import_entries`.

The properties are proved about that function.

**Outside effects are parameters.** File contents, HTTP responses, language-model
replies, bus transactions and the clocks are given as inputs:

- documents as `Option<Json>`, with `None` for a missing or undecodable file;
- responses as functions from the call's index;
- bus success as flags;
- times as integer or real seconds.

A Python exception that escapes an operation is the `Raised` result.

**How the layers agree and where they part** (module `Coordination`):

- The three copies of the layer-1 check (rule engine, executor, forecast
  engine) find the lockout in force for exactly the same documents.
- The forecast engine raises on a null deadline. The other two read a null
  deadline as "not locked".
- The lockout the control layers read from `/api/status` is the command
  gate's own.
- A relay command the REST gateway accepts is decoded by the bridge as the
  same channel, value and duration.
- An action the forecast engine validates with a text `execute_at` makes the
  executor raise exactly when that time has no UTC offset. Validation only
  parses the time. The executor compares it with the offset-aware current
  time, outside its `try`, and that comparison raises TypeError.
- The same TypeError escapes every layer-1 check and both plan-expiry checks
  when the stored deadline has no UTC offset.
- An action with an integer `execute_at` is validated, because
  `validate_actions` checks `str(execute_at)`. The executor then passes the
  integer itself to `fromisoformat`, which raises TypeError, and the executor
  does not catch that.

## Model

| member | source | states |
|---|---|---|
| Lockout.Deadline | src/v2_control/rule_engine.py:139-142 | a deadline is found iff the field holds non-empty text that `fromisoformat` accepts and that carries a UTC offset, and it is that parse |
| Json.IsoTime | src/v2_control/plan_executor.py:287-294 | `fromisoformat` followed by a comparison with the offset-aware current time: a non-text value or a parsed time without a UTC offset raises, empty or rejected text gives no time, and otherwise the parsed time |
| RuleEngine.Lookup | src/v2_control/rule_engine.py:96-103 | `.get` on a dict gives the field or the default, and raises when the receiver is not a dict or the key is unhashable |
| RuleEngine.Numbers | src/v2_control/rule_engine.py:104-106 | a list converts to numbers element by element, or fails at some element that is not a number |
| RuleEngine.Min | src/v2_control/rule_engine.py:105-106 | the minimum is an element of the list and no larger than any element |
| RuleEngine.MinText | src/v2_control/rule_engine.py:105-106 | the least text is one of the texts and precedes or equals each of them in lexicographic order |
| RuleEngine.TextLeTotal | src/v2_control/rule_engine.py:105-106 | any two texts are ordered one way or the other |
| RuleEngine.TextLeTransitive | src/v2_control/rule_engine.py:105-106 | the lexicographic order is transitive |
| RuleEngine.PyMin | src/v2_control/rule_engine.py:105-106 | `min()` of a list succeeds iff it is non-empty and all numbers or all texts, giving the least number or the least text |
| RuleEngine.ConfiguredMin | src/v2_control/rule_engine.py:104-107 | a value that is not a list is `float()` of it; a list of numbers yields its least number; a list of texts yields `float()` of the lexicographically least text; an empty or mixed list raises |
| RuleEngine.GetSolarThreshold | src/v2_control/rule_engine.py:91-107 | stage defaults that fail to resolve or are not a dict raise; without `solar_threshold_mj` the threshold is 0.9; otherwise it is that value converted as a list minimum or, for a non-list, `float()` of it |
| RuleEngine.GetIrrigationDuration | src/v2_control/rule_engine.py:110-128 | the duration is never below 60 seconds; a missing `irrigation_ml_per_plant` gives 270; otherwise the run raises iff `int()` of the (list-minimum) value raises, and the duration is max(60, that integer) |
| RuleEngine.IntOf | src/v2_control/rule_engine.py:124-128 | `int()` of a non-list value; of a number list its truncated minimum; of a text list `int()` of the least text; an empty or mixed list raises |
| RuleEngine.IsLayer1LockedOut | src/v2_control/rule_engine.py:135-145 | locked iff the document holds a parsable, offset-carrying deadline later than now; raises exactly for a non-object document, a truthy non-text deadline, or a deadline without a UTC offset (the comparison with the offset-aware current time raises TypeError, which is not caught) |
| RuleEngine.LoadCurrentPlan | src/v2_control/rule_engine.py:211-224 | a plan is returned iff its `valid_until` parses, carries an offset and has not passed, and then it is the document itself; reading raises exactly when the stored document is not an object, its `valid_until` is set (truthy) but not a string, or it parses without a UTC offset |
| RuleEngine.LoadSolarAccumulator | src/v2_control/rule_engine.py:259-268 | the accumulator is always stamped with today's date; it raises exactly when the stored document is not an object; a stored object dated today is returned unchanged, and a missing file or one from another day gives a fresh accumulator (zero radiation, zero irrigations) |
| RuleEngine.Setting | src/v2_control/rule_engine.py:323-336 | one action per listed channel, in order: the k-th switches the k-th channel to the given value with no duration |
| RuleEngine.Plus | src/v2_control/rule_engine.py:415-416 | the accumulated radiation grows by exactly the increment, and raises when the stored value is not a number |
| RuleEngine.AddOne | src/v2_control/rule_engine.py:422-431 | the irrigation count goes up by one |
| RuleEngine.AnyOnChannel | src/v2_control/rule_engine.py:355-360 | the search finds a channel iff some action mentions it |
| RuleEngine.AppendEach | src/v2_control/rule_engine.py:323-336 | the loop appends one setting per channel after the existing actions |
| RuleEngine.AppendMissing | src/v2_control/rule_engine.py:355-360 | the loop adds a close action for each channel not yet mentioned, as the fill specification says |
| RuleEngine.FillMissingSpec | src/v2_control/rule_engine.py:355-360 | filling keeps the earlier actions as a prefix, mentions every listed channel afterwards, and adds only close actions for channels not mentioned before |
| RuleEngine.FillMissingKeeps | src/v2_control/rule_engine.py:355-360 | when every listed channel is already mentioned, filling changes nothing |
| RuleEngine.EvalIrrigation | src/v2_control/rule_engine.py:400-433 | the method's result is the irrigation specification's |
| RuleEngine.IrrigationAccumulates | src/v2_control/rule_engine.py:400-433 | at or over the threshold it appends one irrigation of the configured duration (at least 60 s), records the `solar_irrigation` rule, resets the accumulator, stamps the irrigation time and counts the irrigation; below it only the accumulator grows and every other key, action and rule is kept |
| RuleEngine.AccrueSpec | src/v2_control/rule_engine.py:413-434 | with the threshold and duration read, a total at or over the threshold appends the irrigation, records the `solar_irrigation` rule, stamps the irrigation time and restarts at zero with one more irrigation counted; below it only the total grows, by this interval's radiation |
| RuleEngine.EvaluateRules | src/v2_control/rule_engine.py:281-397 | the method's result is the rule-evaluation specification's |
| RuleEngine.ApplyWindowRules | src/v2_control/rule_engine.py:316-386 | the actions and rule names the window rules emit are exactly those of the specification: rain alone, else strong wind by direction, then nighttime and temperature filling only channels not yet set |
| RuleEngine.RainClosesAllWindows | src/v2_control/rule_engine.py:323-336 | over the rain threshold the actions start by closing every window, the rain rule comes first, and no wind, night or temperature rule fires |
| RuleEngine.StrongWindClosesWindward | src/v2_control/rule_engine.py:339-352 | in strong wind without rain the windward side (north, south or all) is closed first |
| RuleEngine.NightClosesEveryWindow | src/v2_control/rule_engine.py:355-360 | at night without rain every window channel is mentioned, every window action closes, and the night rule fires |
| RuleEngine.PlanActiveIgnoresTemperature | src/v2_control/rule_engine.py:363-386 | under an active plan the window decisions do not depend on the indoor temperature and no temperature rule fires |
| RuleEngine.TemperatureDeadBand | src/v2_control/rule_engine.py:363-386 | without rain or an active plan and with a temperature, the open rule fires iff it is above target plus margin and the close rule iff it is not and is below target minus margin; they fill the window channels not yet set with 1 and 0 respectively; a dry interval where neither fires keeps the wind and night actions |
| RuleEngine.MissingTemperatureChangesNothing | src/v2_control/rule_engine.py:363-386 | with no indoor temperature the window rules are those of an active plan, and no temperature rule fires |
| RuleEngine.Channels | src/v2_control/rule_engine.py:514-518 | the channels mentioned, each once |
| RuleEngine.LastOn | src/v2_control/rule_engine.py:514-518 | the action kept for a channel is its last one in the list |
| RuleEngine.CollapseSpec | src/v2_control/rule_engine.py:514-518 | deduplication leaves each channel at most once, keeps exactly the channels mentioned, and keeps each channel's last action |
| RuleEngine.Dedup | src/v2_control/rule_engine.py:514-518 | the method computes the deduplicated actions |
| RuleEngine.FirstRejected | src/v2_control/rule_engine.py:514-534 | posting stops at the first rejected action; all before it were accepted |
| RuleEngine.PostInOrder | src/v2_control/rule_engine.py:514-534 | the posting loop stops where the specification says |
| RuleEngine.EvaluateRun | src/v2_control/rule_engine.py:479-508 | the method's evaluation is the specification's |
| RuleEngine.Run | src/v2_control/rule_engine.py:457-537 | the whole run is the decision specification |
| RuleEngine.RunPostsOncePerChannel | src/v2_control/rule_engine.py:457-537 | a layer-1 lockout or a locked gate skips the run; whatever is posted is a prefix of the deduplicated actions (all of them on completion), one per channel, each the channel's last action |
| PlanExecutor.IsLayer1Locked | src/v2_control/plan_executor.py:51-65 | locked iff the document holds a parsable, offset-carrying deadline later than now; raises exactly for a non-object document, a truthy non-text deadline, or a deadline without a UTC offset (TypeError is not among the caught exceptions) |
| PlanExecutor.LoadLayer2Config | src/v2_control/plan_executor.py:72-99 | for a configuration object whose `rain`, `wind` and `temperature` sections are mappings where present, the rain threshold, wind threshold and window channels are the configured values or the defaults 0.5, 5.0 and [5, 6, 7, 8]; a missing, empty or non-mapping document, or a section that is not a mapping, gives the defaults throughout |
| PlanExecutor.WindowSet | src/v2_control/plan_executor.py:247 | `set(window_channels)` raises exactly for a value that is not iterable or a list holding an unhashable list or mapping; a list is taken as given, and text or a mapping holds no channel number |
| PlanExecutor.ExtractWeather | src/v2_control/plan_executor.py:106-136 | the method's rainfall and wind are the weather specification's |
| PlanExecutor.WeatherIsLastReading | src/v2_control/plan_executor.py:106-136 | the rainfall and the wind speed are each the last entry that carries that reading, or 0 when none does |
| PlanExecutor.WeatherIsLastPresent | src/v2_control/plan_executor.py:106-136 | the weather is, for each quantity, the last reading present in document order, or 0 |
| PlanExecutor.ExecuteActions | src/v2_control/plan_executor.py:270-360 | the action loop computes the step specification |
| PlanExecutor.InterruptedPersists | src/v2_control/plan_executor.py:273-359 | once an action raises, the rest of the loop is skipped and the posts sent so far are what the interruption carries |
| PlanExecutor.StepsAccounting | src/v2_control/plan_executor.py:270-360 | a finished loop keeps every action and files each in exactly one bucket (skipped for weather, not due, already done or invalid, or posted), posts only admissible actions and rewrites the plan iff something executed or was weather-skipped; an interrupted loop has posted only admissible actions |
| PlanExecutor.InterruptedAt | src/v2_control/plan_executor.py:273-359 | an interrupted loop stopped at one action that raised, after exactly the posts of the actions before it |
| PlanExecutor.StepPostsDispatchedAction | src/v2_control/plan_executor.py:314-351 | a due action with a valid channel, not yet done and not a window held back by the weather, is posted once with its channel, value, reason (default "plan_executor") and its duration cut to 3600 |
| PlanExecutor.StepRewritesAction | src/v2_control/plan_executor.py:275-359 | every step keeps its action with all other keys as they were; `executed` becomes True only after an accepted post and "skipped_weather" only for a weather-held window; `duration_sec` becomes 3600 only on a posted action over it; exactly the dispatched actions add a post |
| PlanExecutor.MarkedActionsAreNotRepeated | src/v2_control/plan_executor.py:282-285 | an action the loop marks executed or weather-skipped is, once the plan is written back, skipped as already done on any later run, with no post |
| PlanExecutor.RunExecutor | src/v2_control/plan_executor.py:143-369 | the run is the executor specification, including the posts already sent when an exception escapes the action loop |
| PlanExecutor.RunPlan | src/v2_control/plan_executor.py:244-369 | past the gates, the run reads the weather thresholds, runs the action loop and writes the plan back only when it was modified; a raise in the loop ends the run with the posts already sent and nothing written |
| PlanExecutor.CrashedRunKeepsSentPosts | src/v2_control/plan_executor.py:273-369 | a run that crashes after posting got past the configuration and weather reads, and its sent posts are those the interrupted action loop made |
| PlanExecutor.ExpiredPlanDoesNothing | src/v2_control/plan_executor.py:190-212 | a plan without `valid_until`, or whose offset-carrying `valid_until` has passed, yields the no-plan result |
| PlanExecutor.OffsetFreeValidUntilCrashes | src/v2_control/plan_executor.py:203-212 | a `valid_until` that parses without a UTC offset makes the expiry comparison raise TypeError, which the `except (KeyError, ValueError)` does not catch: the run crashes before any post |
| PlanExecutor.LockoutPostsNothing | src/v2_control/plan_executor.py:217-240 | under a layer-1 or gate lockout nothing is posted and no plan is written, whether the run returns or raises |
| ForecastEngine.IsLayer1Locked | src/v2_control/forecast_engine.py:101-109 | locked iff the document holds a parsable, offset-carrying deadline later than now; raises exactly for a non-object document, a non-text deadline, or a deadline without a UTC offset |
| ForecastEngine.TimePeriod | src/v2_control/forecast_engine.py:237-251 | pre-dawn before sunrise, morning for two hours after, evening from one hour before sunset, daytime between |
| ForecastEngine.TimePeriodMonotone | src/v2_control/forecast_engine.py:237-251 | the period never goes back as time advances |
| ForecastEngine.Merge | src/v2_control/forecast_engine.py:584-592 | the merged keys are the union; base keys not overridden are kept; override values win unless both are objects, which merge recursively |
| ForecastEngine.MergeSelf | src/v2_control/forecast_engine.py:584-592 | merging a configuration with itself gives it back |
| ForecastEngine.MergeIdempotent | src/v2_control/forecast_engine.py:584-592 | applying the same override twice equals applying it once |
| ForecastEngine.CheckAction | src/v2_control/forecast_engine.py:258-308 | raises exactly for a non-object; an object is kept iff its channel is an integer 1..8, its value equals 0 or 1, its duration is a number and `str(execute_at)` parses; a kept action has exactly the six keys, the input's channel, value and `execute_at`, the reason ("" by default), the duration cut to 3600 and `executed` False |
| ForecastEngine.CheckActionWellFormed | src/v2_control/forecast_engine.py:258-308 | a kept action has a channel 1..8, a value equal to 0 or 1, a numeric duration of at most 3600, an `execute_at` whose text parses and `executed` False; which actions are kept is CheckAction's contract |
| ForecastEngine.ValidateActions | src/v2_control/forecast_engine.py:258-308 | the loop computes the validation specification |
| ForecastEngine.ValidatedRaisedPersists | src/v2_control/forecast_engine.py:258-308 | once an action raises, validation of the whole list raises |
| ForecastEngine.ValidatedIsSubsequence | src/v2_control/forecast_engine.py:258-308 | the validated list picks, in their original order, exactly the actions CheckAction keeps (those that are Acceptable), each as CheckAction normalises it, and drops every other; each picked action is well formed |
| ForecastEngine.CallTools | src/v2_control/forecast_engine.py:464-493 | the tool loop computes the tool specification |
| ForecastEngine.ToolsKeepCalls | src/v2_control/forecast_engine.py:464-493 | running tools neither calls the model, nor fails, nor changes the final text |
| ForecastEngine.Conduct | src/v2_control/forecast_engine.py:433-500 | the conversation loop computes the conversation specification |
| ForecastEngine.ConverseBounded | src/v2_control/forecast_engine.py:438-461 | at most the remaining rounds of model calls, and every call before the last asked for tools without ending the turn |
| ForecastEngine.PlanActions | src/v2_control/forecast_engine.py:510-534 | the plan's actions are the decoded object's `actions`, or none; only a decoded object holding an `actions` key proposes actions |
| ForecastEngine.ExtractPlanJson | src/v2_control/forecast_engine.py:311-325 | a fenced block that decodes wins; otherwise the whole text is decoded |
| ForecastEngine.ActionLine | src/v2_control/forecast_engine.py:545-556 | each summary line starts with "ch"; for a validated action it is "ch", the channel, "=", ON iff the value is 1, " @" and the time (ActionLineOfValidated) |
| ForecastEngine.ActionLineOfValidated | src/v2_control/forecast_engine.py:545-556 | a validated action's line is "ch{relay_ch}={ON or OFF} @{execute_at}", with ON exactly for value 1 and an integer channel in decimal |
| ForecastEngine.ActionsSummary | src/v2_control/forecast_engine.py:545-556 | the summary says "現状維持" iff there are no actions |
| ForecastEngine.AssemblePlan | src/v2_control/forecast_engine.py:510-534 | assembling the plan raises exactly when the proposed actions cannot be read as a list or one of them fails validation with an exception; otherwise it is an object with a summary and an action list |
| ForecastEngine.AssembledPlanShape | src/v2_control/forecast_engine.py:510-534 | the plan records its generation time and a validity one lifetime later; with proposed actions, its actions are exactly the validated list and its summary and advisory fields are the reply's own or their defaults (the first 200 characters of the reply for the summary); without them it has no actions, the summary is the reply's first 200 characters or "No plan generated" for an empty reply, and the advisory fields take their defaults; every action is well formed |
| ForecastEngine.RunForecast | src/v2_control/forecast_engine.py:332-581 | the run is the forecast specification |
| ForecastEngine.GatingWritesNoPlan | src/v2_control/forecast_engine.py:367-374 | a layer-1 lockout or a locked gate skips the run with its reason; a failed model call is an API error |
| ForecastEngine.WrittenPlanShape | src/v2_control/forecast_engine.py:332-581 | a completed run writes the plan assembled from the reply, with the actions and summary stated for both cases; the logged actions column is the summary of the written actions ("現状維持" when there are none); the logged summary, raw response and snapshot are the written summary and the texts truncated to 500/2000/2000; the model is called at most the round limit |
| AgrihaControl.TimePeriod | src/uecs_llm/agriha_control.py:201-213 | the four periods split the day at sunrise, one hour before sunset and sunset, each by an iff |
| AgrihaControl.Recent | src/uecs_llm/agriha_control.py:133-145 | the recent rows are the last n of the history |
| AgrihaControl.HistoryLine | src/uecs_llm/agriha_control.py:133-145 | each history line starts with "[" |
| AgrihaControl.UpTo | src/uecs_llm/agriha_control.py:133-145 | the text before the first marker is a prefix free of it, followed by the marker when shorter |
| AgrihaControl.HistoryLineReadsBack | src/uecs_llm/agriha_control.py:133-145 | a history line reads back as its row: the timestamp between "[" and the first "]", then the summary and actions after a space, separated by " → " |
| AgrihaControl.HistoryText | src/uecs_llm/agriha_control.py:133-145 | the first-run text appears iff there is no recent row |
| AgrihaControl.LoadRecentHistory | src/uecs_llm/agriha_control.py:133-145 | the method computes the history text |
| AgrihaControl.NormaliseCall | src/uecs_llm/agriha_control.py:309-334 | a tool call normalises iff it is an object whose `function` is an object; text arguments are decoded, with `{}` when that fails; other arguments stay as given |
| AgrihaControl.NormaliseCalls | src/uecs_llm/agriha_control.py:309-334 | the calls normalise one by one, in order, or not at all |
| AgrihaControl.Chat | src/uecs_llm/agriha_control.py:264-334 | the call raises iff the message is not an object or its tool calls do not normalise; a reply keeps the message's content and has tool calls iff the raw message lists some, which are then their normalisations |
| AgrihaControl.LlmChat | src/uecs_llm/agriha_control.py:264-334 | the method computes the reply specification |
| AgrihaControl.Headers | src/uecs_llm/agriha_control.py:220-257 | the API key header is sent iff a key is configured |
| AgrihaControl.Dispatch | src/uecs_llm/agriha_control.py:220-257 | only the three known tools make a request; `get_sensors` and `get_status` GET `/api/sensors` and `/api/status`; `set_relay` with non-object arguments raises, otherwise it POSTs to a path under `/api/relay/`; every request carries the key header |
| AgrihaControl.SetRelayDefaults | src/uecs_llm/agriha_control.py:242-250 | `set_relay` without arguments posts channel 1, value 0, duration 0, reason "LLM auto" |
| AgrihaControl.SetRelayRequest | src/uecs_llm/agriha_control.py:242-255 | `set_relay` with all arguments given POSTs to `/api/relay/<ch>` with the channel in decimal, a body of exactly the given value, duration and reason, and the key header |
| AgrihaControl.CallTool | src/uecs_llm/agriha_control.py:220-257 | an unknown tool answers with the unknown-tool error; a known one answers with text iff the request returned a body |
| AgrihaControl.ActionEntry | src/uecs_llm/agriha_control.py:493-503 | each recorded action starts with "relay ch" |
| AgrihaControl.ActionEntryReadsBack | src/uecs_llm/agriha_control.py:493-503 | an action entry reads back as its call: the channel as rendered up to the first "=", then ON iff the value is truthy |
| AgrihaControl.RelayEntries | src/uecs_llm/agriha_control.py:493-503 | the entries a run of tool calls records: one per `set_relay` call with object arguments, in order |
| AgrihaControl.ToolStepLogged | src/uecs_llm/agriha_control.py:471-503 | one tool call keeps the action record equal to the entries of the calls run |
| AgrihaControl.ToolsRunLogged | src/uecs_llm/agriha_control.py:471-503 | a round's tool calls keep the action record |
| AgrihaControl.TurnLogged | src/uecs_llm/agriha_control.py:433-503 | a round keeps the action record |
| AgrihaControl.RoundsLogged | src/uecs_llm/agriha_control.py:433-503 | unless an exception escaped, the recorded actions are one entry per `set_relay` call run, in order, and every such call had object arguments |
| AgrihaControl.RelayEntriesEmpty | src/uecs_llm/agriha_control.py:493-512 | with object arguments throughout, no entry is recorded iff no call was a `set_relay` |
| AgrihaControl.ToolStep | src/uecs_llm/agriha_control.py:471-503 | a step crashes iff `set_relay` gets non-object arguments; only `set_relay` records an action |
| AgrihaControl.ToolsRun | src/uecs_llm/agriha_control.py:471-503 | the tool calls keep the message and choice history and record only relay actions |
| AgrihaControl.RunTools | src/uecs_llm/agriha_control.py:471-503 | the method computes the tool-run specification |
| AgrihaControl.CrashPersists | src/uecs_llm/agriha_control.py:471-503 | after a crash the remaining calls change nothing |
| AgrihaControl.Turn | src/uecs_llm/agriha_control.py:433-449 | each round asks for "required" tool choice first and "auto" after, and a round that does not crash has a reply |
| AgrihaControl.TakeTurn | src/uecs_llm/agriha_control.py:433-503 | the method computes the turn specification |
| AgrihaControl.Rounds | src/uecs_llm/agriha_control.py:433-503 | the rounds record only relay actions |
| AgrihaControl.RoundsBounded | src/uecs_llm/agriha_control.py:433-449 | the model is called at most the round limit, "required" then "auto" |
| AgrihaControl.RoundsStopEarly | src/uecs_llm/agriha_control.py:433-503 | stopping before the limit means the last reply had no tool calls |
| AgrihaControl.RoundsGrow | src/uecs_llm/agriha_control.py:433-449 | each round below the limit calls the model |
| AgrihaControl.TurnChoices | src/uecs_llm/agriha_control.py:433-449 | each round adds one `tool_choice`, "required" only for the first |
| AgrihaControl.FinalText | src/uecs_llm/agriha_control.py:506 | the reply's text content when it is non-empty text, "（応答なし）" when there is no reply or its content is falsy, and a raise exactly when the content is truthy but not text; never empty |
| AgrihaControl.ActionsText | src/uecs_llm/agriha_control.py:506-512 | the decision says keep-as-is iff no relay action was taken |
| AgrihaControl.ControlLoop | src/uecs_llm/agriha_control.py:341-531 | the stored summary and sensor snapshot are truncated to 500 and 2000 characters |
| AgrihaControl.RunControlLoop | src/uecs_llm/agriha_control.py:341-531 | the method computes the control-loop specification |
| AgrihaControl.ControlLoopOutcome | src/uecs_llm/agriha_control.py:341-531 | a decision took at most the round limit of calls, an early stop ended on a reply without tool calls, the recorded actions are one per `set_relay` call in order, and the decision is keep-as-is iff no `set_relay` call was run |
| I2cRelay.ChToBit | src/unipi_daemon/i2c_relay.py:57-65 | a bit exists iff the channel is 1..8 |
| I2cRelay.ChToBitValue | src/unipi_daemon/i2c_relay.py:57-65 | channel n maps to bit 8 - n |
| I2cRelay.ChToBitDistinct | src/unipi_daemon/i2c_relay.py:57-65 | different channels have disjoint bits; channel 1 is 0x80 and channel 8 is 0x01 |
| I2cRelay.ChannelKey | src/unipi_daemon/mqtt_relay_bridge.py:96-97 | channel n is reported under the key "ch" followed by its digit |
| I2cRelay.WithChannelSpec | src/unipi_daemon/i2c_relay.py:78-82 | setting a channel makes it read as requested and leaves every other channel as it was |
| I2cRelay.LowByte | src/unipi_daemon/i2c_relay.py:112 | masking with 0xFF keeps the value modulo 256 |
| I2cRelay.AllOffClearsEveryChannel | src/unipi_daemon/i2c_relay.py:116-118 | after all-off no channel is on |
| I2cRelay.Relay.constructor | src/unipi_daemon/i2c_relay.py:42-55 | the shadow latch starts at 0 and the direction register is written once |
| I2cRelay.Relay.Flush | src/unipi_daemon/i2c_relay.py:83 | a successful write makes the chip's latch the shadow; a failed one leaves it |
| I2cRelay.Relay.SetRelay | src/unipi_daemon/i2c_relay.py:71-83 | a bad channel raises and changes nothing; otherwise the shadow gets the channel's bit and is written |
| I2cRelay.Relay.SetAll | src/unipi_daemon/i2c_relay.py:106-114 | the shadow becomes the low byte of the mask and is written |
| I2cRelay.Relay.AllOff | src/unipi_daemon/i2c_relay.py:116-118 | the shadow becomes 0 and is written |
| I2cRelay.Relay.GetState | src/unipi_daemon/i2c_relay.py:86-92 | the read returns the chip's latch, or fails with the bus |
| I2cRelay.Relay.GetRelay | src/unipi_daemon/i2c_relay.py:94-104 | a bad channel raises; otherwise it is the channel's bit in the latch read back |
| EmergencyOverride.DiRelayMapBijective | src/unipi_daemon/emergency_override.py:48-57 | pins 7..14 map one-to-one onto channels 1..8, pin p to channel p - 6 |
| EmergencyOverride.OverrideMessage | src/unipi_daemon/emergency_override.py:188-204 | the override is published with QoS 1, retained, with the lockout seconds when switched on and 0 when off |
| EmergencyOverride.CommandGate.constructor | src/unipi_daemon/emergency_override.py:78-96 | the gate starts unlocked with the given relay, client, house and lockout length |
| EmergencyOverride.CommandGate.RemainingLockout | src/unipi_daemon/emergency_override.py:106-108 | the remaining time is never negative, positive iff locked, and ends at the deadline |
| EmergencyOverride.CommandGate.ClearLockout | src/unipi_daemon/emergency_override.py:110-113 | after clearing the gate is unlocked at every time |
| EmergencyOverride.CommandGate.Gate | src/unipi_daemon/emergency_override.py:119-142 | a command is dropped iff the gate is locked, and then the relay is untouched; otherwise the command runs |
| EmergencyOverride.CommandGate.HandleGpioEvent | src/unipi_daemon/emergency_override.py:148-186 | an unmapped pin changes nothing; a mapped one drives its channel, publishes the override when a client is present, and a switch-on restarts the lockout |
| Mqtt.Split | src/unipi_daemon/mqtt_relay_bridge.py:126 | `str.split` gives at least one part |
| Mqtt.SplitPartsFree | src/unipi_daemon/mqtt_relay_bridge.py:126 | no part of a split holds the separator |
| Mqtt.JoinSplit | src/unipi_daemon/mqtt_relay_bridge.py:126 | joining the parts with the separator gives back the topic |
| Mqtt.SplitConcat | src/unipi_daemon/mqtt_relay_bridge.py:126 | splitting around a separator splits each side separately |
| Json.PyInt | src/unipi_daemon/mqtt_relay_bridge.py:138 | `int()` of an integer is itself, of a float truncates, of a bool gives 0 or 1, of text succeeds iff the text parses and gives its value, and of anything else raises |
| Json.ParseIntShape | src/unipi_daemon/ccm_receiver.py:90-95 | `int()` of text accepts only an optionally signed digit run, with single underscores between digits, once surrounding whitespace is stripped |
| Json.ParseIntPadded | src/unipi_daemon/ccm_receiver.py:90-95 | the decimal rendering of any integer, with any whitespace around it, reads back as that integer |
| Json.ParseIntOfIntToString | src/unipi_daemon/mqtt_relay_bridge.py:126-135 | the decimal rendering of an integer reads back as that integer |
| Json.StripPadded | src/unipi_daemon/ccm_receiver.py:84 | `strip()` removes exactly the whitespace around text that neither starts nor ends with whitespace |
| MqttRelayBridge.TopicChannel | src/unipi_daemon/mqtt_relay_bridge.py:126-135 | a channel is read iff the topic has at least five parts, the last "set" and the one before it an integer in 1..8, and it is that integer |
| MqttRelayBridge.PartsChannel | src/unipi_daemon/mqtt_relay_bridge.py:126-135 | the parts name a channel iff there are at least five, the last is "set" and the one before parses to an integer in 1..8, which is the channel |
| MqttRelayBridge.SetTopicChannel | src/unipi_daemon/mqtt_relay_bridge.py:126-135 | whatever the house id, a command sent to channel n's set topic is read as addressed to channel n |
| MqttRelayBridge.Decode | src/unipi_daemon/mqtt_relay_bridge.py:126-140 | a message is accepted iff the topic names a channel, the payload is a JSON object and `int(value)` and `float(duration_sec)` both succeed; the command then carries that channel, value and duration, with 0 for a missing value or duration |
| MqttRelayBridge.StatePayload | src/unipi_daemon/mqtt_relay_bridge.py:92-101 | the state reports every channel as 0 or 1 from the latch, and the whole-second time |
| MqttRelayBridge.Bridge.constructor | src/unipi_daemon/mqtt_relay_bridge.py:44-70 | the bridge starts with no timers and nothing published |
| MqttRelayBridge.Bridge.PublishState | src/unipi_daemon/mqtt_relay_bridge.py:92-106 | a successful read publishes the latch's state; timers are untouched |
| MqttRelayBridge.Bridge.OnMessage | src/unipi_daemon/mqtt_relay_bridge.py:122-176 | a rejected message changes nothing; an accepted one has exactly the effect `Applied` describes |
| MqttRelayBridge.Bridge.Apply | src/unipi_daemon/mqtt_relay_bridge.py:147-176 | an accepted command cancels the channel's timer, drives the channel, republishes on success, and arms an auto-off iff the value is non-zero, the duration positive and the bus did not fail |
| MqttRelayBridge.Bridge.AutoOff | src/unipi_daemon/mqtt_relay_bridge.py:160-169 | the channel is switched off and its timer entry removed in every case |
| MqttRelayBridge.Bridge.Disconnect | src/unipi_daemon/mqtt_relay_bridge.py:78-84 | every timer is cancelled |
| RestApi.SensorCache.constructor | src/unipi_daemon/rest_api.py:63-66 | the cache starts empty and never updated |
| RestApi.SensorCache.Update | src/unipi_daemon/rest_api.py:68-72 | an update stores the value under its key and stamps the time |
| RestApi.SensorCache.GetAll | src/unipi_daemon/rest_api.py:74-77 | the snapshot is the cache's contents |
| RestApi.SensorCache.GetUpdatedAt | src/unipi_daemon/rest_api.py:79-82 | the stamp is the last update's time |
| RestApi.RelayDecision | src/unipi_daemon/rest_api.py:254-298 | a body that is not JSON gets 422 before anything else; then a bad key 403, an invalid channel or body 422, a lockout 423 with the remaining seconds, no MQTT 503, else 202; a command is published iff 202 |
| RestApi.SensorsBody | src/unipi_daemon/rest_api.py:302-322 | the body holds the cache and an age that is null iff nothing was cached |
| RestApi.RelayState | src/unipi_daemon/rest_api.py:333-341 | the state is null iff the read failed, else each channel's bit |
| RestApi.StatusAfterSetRelay | src/unipi_daemon/rest_api.py:333-341 | after setting a channel the status reports it as set and every other channel unchanged |
| RestApi.StatusBody | src/unipi_daemon/rest_api.py:324-352 | the status reports the gate's lockout flag and the relay state |
| RestApi.Api.constructor | src/unipi_daemon/rest_api.py:120-137 | the app starts with an empty sensor cache and nothing published |
| RestApi.Api.SetRelay | src/unipi_daemon/rest_api.py:254-298 | the response is the relay decision, and its command is published |
| RestApi.Api.GetSensors | src/unipi_daemon/rest_api.py:302-322 | 403 without the key, else the sensors body |
| RestApi.Api.GetStatus | src/unipi_daemon/rest_api.py:324-352 | 403 without the key, else the status body with uptime and lockout |
| RestApi.Api.EmergencyClear | src/unipi_daemon/rest_api.py:354-372 | 403 without the key; else the lockout is cleared and the answer says whether it was locked |
| Wh65lp.Sum | src/unipi_daemon/wh65lp_reader.py:64-76 | the byte sum is at most 255 per byte |
| Wh65lp.Raw | src/unipi_daemon/wh65lp_reader.py:79-150 | the fields stay within their bit widths, humidity is byte 5, battery is bit 3 of byte 3, and pressure is present iff the frame is extended |
| Wh65lp.Scale | src/unipi_daemon/wh65lp_reader.py:111-149 | each sentinel value becomes "no reading", and temperature is (raw - 400) / 10 |
| Wh65lp.ParseFrame | src/unipi_daemon/wh65lp_reader.py:79-150 | a frame under 17 bytes raises; otherwise the reading is the scaled fields |
| Wh65lp.Byte3 | tests/unipi_daemon/test_wh65lp_protocol.py:33-104 | the composite byte carries the high bits and the battery flag where the decoder reads them |
| Wh65lp.Encode | tests/unipi_daemon/test_wh65lp_protocol.py:33-104 | a built frame has 17 or 21 bytes and starts with the sync byte |
| Wh65lp.VerifyChecksum | src/unipi_daemon/wh65lp_reader.py:64-76 | a frame passes iff it has at least 17 bytes and byte 16 equals what an 8-bit wrapping accumulator over bytes 0..15 holds |
| Wh65lp.ByteSumIsLowByte | src/unipi_daemon/wh65lp_reader.py:76 | wrapping the running sum at every byte gives the same value as `sum(...) & 0xFF` |
| Wh65lp.EncodeRoundTrip | src/unipi_daemon/wh65lp_reader.py:64-150 | a frame built from valid fields passes the checksum and decodes to those fields |
| Wh65lp.SumUpdate | src/unipi_daemon/wh65lp_reader.py:64-76 | changing one byte changes the sum by the difference |
| Wh65lp.ChecksumDetectsSingleByteChange | src/unipi_daemon/wh65lp_reader.py:64-76 | the checksum rejects any single changed byte among bytes 0..15 |
| CcmReceiver.DropSuffix | src/unipi_daemon/ccm_receiver.py:35 | removing a suffix leaves a prefix |
| CcmReceiver.StripCcmSuffix | src/unipi_daemon/ccm_receiver.py:57-58 | stripping never lengthens the type |
| CcmReceiver.StripAppendedSuffix | src/unipi_daemon/ccm_receiver.py:57-58 | a type with a level suffix appended strips back to the type |
| CcmReceiver.StripWithoutSuffix | src/unipi_daemon/ccm_receiver.py:57-58 | a type without a suffix is left as it is |
| CcmReceiver.ClassifyCcmType | src/unipi_daemon/ccm_receiver.py:61-68 | sensor, actuator, weather iff in that set; other iff in none |
| CcmReceiver.CategoriesDisjoint | src/unipi_daemon/ccm_receiver.py:39-55 | the three type sets share no type |
| CcmReceiver.MakeTopicParts | src/unipi_daemon/ccm_receiver.py:134-135 | the topic splits into agriha, house, ccm, category and type |
| CcmReceiver.HouseId | src/unipi_daemon/ccm_receiver.py:126-127 | the house id defaults to "h01"; a daemon section that is not a dict raises |
| Json.TrimStart | src/unipi_daemon/ccm_receiver.py:84 | the result is no longer and does not start with whitespace |
| Json.TrimEnd | src/unipi_daemon/ccm_receiver.py:84 | the result is no longer and does not end with whitespace |
| Json.TrimStartDropsSpace | src/unipi_daemon/ccm_receiver.py:84 | what is dropped from the front is all whitespace and the rest is a suffix |
| Json.TrimEndDropsSpace | src/unipi_daemon/ccm_receiver.py:84 | what is dropped from the end is all whitespace and the rest is a prefix |
| CcmReceiver.IntAttr | src/unipi_daemon/ccm_receiver.py:90-95 | a missing attribute or one `int()` rejects gives the default, else the integer `int()` reads (whitespace and underscores included) |
| CcmReceiver.ToPacket | src/unipi_daemon/ccm_receiver.py:82-108 | the packet's type is the stripped type attribute; its value is numeric iff the stripped text parses as a float, else that text; room, region, order and priority are `_int` of their attributes with defaults 1, 1, 1, 29; level and cast are the attributes, "S" and "uni" when missing |
| CcmReceiver.DataPackets | src/unipi_daemon/ccm_receiver.py:82-108 | at most one packet per child |
| CcmReceiver.DataIndices | src/unipi_daemon/ccm_receiver.py:82 | the positions listed are exactly those of the DATA children, in increasing order |
| CcmReceiver.DataPacketsOfDataChildren | src/unipi_daemon/ccm_receiver.py:82-108 | packet k is the packet of the k-th DATA child, one per DATA child, whatever other children there are |
| CcmReceiver.DataPacketsAllData | src/unipi_daemon/ccm_receiver.py:82-108 | when every child is DATA, there is exactly one packet per child, in order |
| CcmReceiver.ParseCcmXml | src/unipi_daemon/ccm_receiver.py:71-111 | an undecodable datagram gives no packets; otherwise the DATA packets |
| CcmReceiver.PacketMessage | src/unipi_daemon/ccm_receiver.py:137-158 | a packet goes to the topic of its category and type, QoS 0, retained |
| ImportLogs.Flush | linebot/import_logs.py:50-54 | flushing adds at most one entry after the existing ones |
| ImportLogs.PrefixesExclusive | linebot/import_logs.py:60-78 | no log line starts with two of the received, quiz and replied markers |
| ImportLogs.Step | linebot/import_logs.py:56-87 | a Received line closes the open message and opens a user message with the text after the marker; a quiz line only raises the flag; a Replied line emits an open user message, drops an open reply, and opens a reply with the text after the marker under the quiz model iff the flag is up; other log lines and empty lines change nothing; any other line continues an open message |
| ImportLogs.ParseLog | linebot/import_logs.py:35-90 | the loop computes the parse specification |
| ImportLogs.StepKeepsGood | linebot/import_logs.py:56-87 | user entries use the default model and assistant entries the default or the quiz model |
| ImportLogs.RunGood | linebot/import_logs.py:56-87 | every state reached keeps the entry model rule |
| ImportLogs.ParseEntriesGood | linebot/import_logs.py:35-90 | every parsed entry keeps the model rule |
| ImportLogs.RunExtends | linebot/import_logs.py:56-87 | reading more lines only adds entries |
| ImportLogs.QuizFlagTracksLog | linebot/import_logs.py:60-69 | the quiz flag is up iff a quiz line came since the last Received line |
| ImportLogs.RepliedModel | linebot/import_logs.py:71-78 | a reply is recorded under the quiz model iff a quiz line came since the last Received line |
| ImportLogs.Import | linebot/import_logs.py:93-128 | inserted plus skipped is the entry count; the table only grows, by exactly the inserted rows |
| ImportLogs.ImportEntry | linebot/import_logs.py:104-123 | entry k is skipped iff its role and message are in the table as it stands when it is reached, rows inserted earlier in the run included; otherwise its row is appended, stamped BASE_TS + k |
| ImportLogs.ImportExtends | linebot/import_logs.py:104-123 | the table after a prefix of the entries is a prefix of the final table |
| ImportLogs.ImportEntries | linebot/import_logs.py:93-128 | the loop computes the import specification |
| ImportLogs.ImportKeepsNoDuplicates | linebot/import_logs.py:104-113 | no two rows share a role and message after the import if none did before |
| ImportLogs.ImportCovers | linebot/import_logs.py:104-123 | every entry's role and message is present afterwards |
| ImportLogs.ImportTimestamps | linebot/import_logs.py:115-121 | the new rows carry stamps from BASE_TS on, strictly increasing, below BASE_TS plus the entry count |
| ImportLogs.ImportRows | linebot/import_logs.py:115-121 | every new row is entry i's row, with its role, message and model, the import user and session, stamped BASE_TS + i |
| Coordination.Layer1ChecksAgree | src/v2_control/plan_executor.py:51-65 | the three layer-1 checks agree on "locked", and entirely when the deadline is absent or text |
| Coordination.Layer1ChecksDifferOnNull | src/v2_control/forecast_engine.py:101-109 | for a null deadline two checks say unlocked and the forecast engine raises |
| Coordination.StatusReportsGate | src/unipi_daemon/rest_api.py:324-352 | the lockout the layers read from the status is the gate's flag |
| Coordination.RestCommandReachesBridge | src/unipi_daemon/rest_api.py:276-297 | an accepted REST command decodes at the bridge as the same channel, value and duration |
| Coordination.ValidatedActionRuns | src/v2_control/plan_executor.py:287-296 | for a validated action with text `execute_at`, run by an executor that parses times the same way, the executor's step raises iff that time has no UTC offset: validation at forecast_engine.py:291-293 only parses it, while the executor compares it with the offset-aware current time outside its `try` |
| Coordination.IntegerExecuteAtRaisesInExecutor | src/v2_control/forecast_engine.py:291-301 | an integer `execute_at` passes validation and then raises in the executor |

## Left out

- File, database, HTTP and MQTT I/O, and the network. Documents, responses and publish results are inputs. The messages published are recorded as values.
- Threads, locks and timer races. An auto-off timer is an entry in the timer table, and `AutoOff` is the timer firing.
- Floating-point rounding. Reals are exact. `round()` in `parse_frame`, `remaining_sec` and `uptime_sec` is not modelled.
- Python's `str()` of floats and objects, `json.dumps` formatting and escaping, and float parsing. The float parser is a parameter.
- Time zones and `isoformat` rendering. Times are absolute seconds. The ISO parser, the test for a UTC offset and the formatter are parameters. The current time is always offset-aware, so a parsed time without an offset makes every comparison with it raise; which strings carry an offset is not modelled.
- XML decoding. The datagram arrives as its list of child elements, or none when it does not decode.
- Reading the log file and splitting it into lines; lines arrive without their newline.
- The system prompts, tool schemas and message transcripts sent to the language models. Only the replies' effect is modelled.
- Astral sun times, which are parameters. `last_decision.json`, `save_decision` and `save_state` are recorded as values, not written.
- The relay constructor's bus failure, the FastAPI validation error body, the CCM port/address/enabled settings, the station's sensor-id byte, and `read_exact`/`read_frame`.
- Logging, and the MQTT connect and subscribe callbacks.
- Json.ParseInt: only ASCII digits are read; `int()` also accepts other Unicode decimal digits (such as a full-width ２), which the model treats as not parsable.
- RuleEngine.Readings: readings are numbers or absent. A text reading, which the CCM receiver publishes when `float()` fails, makes the rule engine's comparisons raise TypeError and the run exit with nothing posted. That path, and a fractional wind direction, are not modelled.
