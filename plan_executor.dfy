/**
 * Layer 3's executor, run every minute: it carries out the actions of the
 * current plan whose time has come, at most once each, suppresses window
 * actions in rain or strong wind, and writes the execution marks back into
 * the plan.
 */
module PlanExecutor {
  import opened Json
  import Lockout

  const RelayChMin := 1
  const RelayChMax := 8
  const DurationSecMax := 3600

  // ───────────────────────── results ─────────────────────────

  /** The summary `run_executor` returns: the relay channels in each list, in plan order. */
  datatype ExecResult = ExecResult(
    executed: seq<Json>,
    skippedWeather: seq<Json>,
    skippedNotDue: seq<Json>,
    skippedAlreadyDone: seq<Json>,
    skippedLockout: seq<string>,
    skippedInvalid: seq<Json>,
    noPlan: bool)

  const Empty := ExecResult([], [], [], [], [], [], false)

  /** The body of one `POST /api/relay/{ch}`. */
  datatype Post = Post(channel: Json, value: Json, duration: Json, reason: Json)

  /** How a relay post ends: accepted, refused with 423 (gate locked), or any other error. */
  datatype PostOutcome = Accepted | Locked423 | Rejected

  /** What a run leaves behind: the summary, the posts in order, and the plan written back (if any). */
  datatype ExecOutcome = ExecOutcome(result: ExecResult, posts: seq<Post>, written: Option<Json>)

  /**
   * How a run ends: it returns its outcome, or an exception escapes it
   * after the listed posts went out, and then the plan is not written back.
   */
  datatype RunEnd = Returned(outcome: ExecOutcome) | Crashed(sent: seq<Post>)

  // ───────────────────────── configuration and gates ─────────────────────────

  /**
   * `is_layer1_locked`: the deadline is read with an empty default; a
   * falsy one or one `fromisoformat` rejects means no lockout. A document
   * that is not an object, a truthy deadline that is not text, or one
   * without a UTC offset raises.
   */
  function IsLayer1Locked(doc: Option<Json>, now: int, p: Parsers): (r: Fallible<bool>)
    ensures r == Ok(true) <==>
      (doc.Some? && doc.value.JObj? && Lockout.Deadline(doc.value.fields, "layer1_lockout_until", p).Some?
       && Lockout.Locked(now, Lockout.Deadline(doc.value.fields, "layer1_lockout_until", p).value))
    ensures r.Raised? <==>
      (doc.Some? && (!doc.value.JObj? || ("layer1_lockout_until" in doc.value.fields
        && Truthy(doc.value.fields["layer1_lockout_until"]) && !doc.value.fields["layer1_lockout_until"].JStr?)
        || Lockout.OffsetFree(doc.value.fields, "layer1_lockout_until", p)))
  {
    match doc
    case None => Ok(false)
    case Some(d) =>
      if !d.JObj? then Raised
      else
        var v := FieldOr(d.fields, "layer1_lockout_until", JStr(""));
        if !Truthy(v) then Ok(false)
        else
          var t :- IsoTime(v, p);
          Ok(t.Some? && Lockout.Locked(now, t.value))
  }

  /** The three settings the executor takes from the layer-2 configuration, as read. */
  datatype WeatherConfig = WeatherConfig(rainfallThreshold: Json, windThreshold: Json, windowChannels: Json)

  const DefaultWeather := WeatherConfig(JReal(0.5), JReal(5.0), JArr([JInt(5), JInt(6), JInt(7), JInt(8)]))

  /** `cfg.get(section, {}).get(key, default)`; None where it raises AttributeError. */
  function SectionValue(cfg: map<string, Json>, section: string, key: string, default: Json): Option<Json> {
    var s := FieldOr(cfg, section, JObj(map[]));
    if s.JObj? then Some(FieldOr(s.fields, key, default)) else None
  }

  /** Every section the executor reads that is present is a mapping, so `.get` on it cannot raise. */
  predicate SectionsReadable(cfg: map<string, Json>) {
    ("rain" in cfg ==> cfg["rain"].JObj?)
    && ("wind" in cfg ==> cfg["wind"].JObj?)
    && ("temperature" in cfg ==> cfg["temperature"].JObj?)
  }

  /** The configured value of `key` in `section`, or the default when either is absent. */
  function Configured(cfg: map<string, Json>, section: string, key: string, default: Json): Json
    requires section in cfg ==> cfg[section].JObj?
  {
    if section in cfg && key in cfg[section].fields then cfg[section].fields[key] else default
  }

  /**
   * `load_layer2_config`. `doc` is the YAML document, None when the file
   * is missing or not YAML. Any failure falls back to the defaults
   * (0.5 mm/h, 5.0 m/s, channels 5 to 8); an empty document reads as {}.
   */
  function LoadLayer2Config(doc: Option<Json>): (w: WeatherConfig)
    ensures doc.None? ==> w == DefaultWeather
    ensures doc.Some? && doc.value.JObj? && doc.value.fields == map[] ==> w == DefaultWeather
    ensures doc.Some? && doc.value.JObj? && SectionsReadable(doc.value.fields) ==>
      var cfg := doc.value.fields;
      w == WeatherConfig(Configured(cfg, "rain", "threshold_mm_h", JReal(0.5)),
                         Configured(cfg, "wind", "strong_wind_threshold_ms", JReal(5.0)),
                         Configured(cfg, "temperature", "window_channels", DefaultWeather.windowChannels))
    ensures doc.Some? && (!doc.value.JObj? || !SectionsReadable(doc.value.fields)) ==> w == DefaultWeather
  {
    if doc.None? then DefaultWeather
    else
      var d := doc.value;
      if !Truthy(d) then DefaultWeather
      else if !d.JObj? then DefaultWeather
      else
        var rain := SectionValue(d.fields, "rain", "threshold_mm_h", DefaultWeather.rainfallThreshold);
        var wind := SectionValue(d.fields, "wind", "strong_wind_threshold_ms", DefaultWeather.windThreshold);
        var windows := SectionValue(d.fields, "temperature", "window_channels", DefaultWeather.windowChannels);
        if rain.None? || wind.None? || windows.None? then DefaultWeather
        else WeatherConfig(rain.value, wind.value, windows.value)
  }

  /**
   * `set(window_channels)`, as far as membership of a relay channel goes:
   * a list gives its elements (an unhashable element raises TypeError);
   * text and objects give sets of strings, which hold no channel number;
   * anything else is not iterable and raises.
   */
  function WindowSet(w: Json): (r: Fallible<seq<Json>>)
    ensures w.JArr? && r.Ok? ==> r.value == w.items
    ensures r.Raised? <==>
      !(w.JArr? || w.JStr? || w.JObj?) || (w.JArr? && exists k :: 0 <= k < |w.items| && (w.items[k].JArr? || w.items[k].JObj?))
    ensures w.JStr? || w.JObj? ==> r == Ok([])
  {
    match w
    case JArr(xs) => if exists k :: 0 <= k < |xs| && (xs[k].JArr? || xs[k].JObj?) then Raised else Ok(xs)
    case JStr(_) => Ok([])
    case JObj(_) => Ok([])
    case _ => Raised
  }

  /** `ch in window_channels` for a channel number: Python's set membership uses `==`. */
  predicate InWindows(windows: seq<Json>, ch: int) {
    exists k :: 0 <= k < |windows| && EqualsInt(windows[k], ch)
  }

  // ───────────────────────── weather ─────────────────────────

  /**
   * The reading one sensor entry gives for a quantity: the first of `keys`
   * present in it decides, and a value `float()` rejects gives nothing.
   */
  function Reading(entry: Json, keys: seq<string>, p: Parsers): Option<real>
    requires |keys| == 2
  {
    if !entry.JObj? then None
    else
      var key := if keys[0] in entry.fields then keys[0] else keys[1];
      if key !in entry.fields then None
      else match ToFloat(entry.fields[key], p)
        case Ok(x) => Some(x)
        case Raised => None
  }

  const RainKeys := ["rainfall", "rainfall_mm"]
  const WindKeys := ["wind_speed_ms", "wind_speed"]

  /** `_extract_weather` over the sensor entries in document order: the last reading of each quantity, else 0. */
  function Weather(entries: seq<Json>, p: Parsers): (real, real)
    decreases |entries|
  {
    if entries == [] then (0.0, 0.0)
    else
      var (rain, wind) := Weather(entries[..|entries| - 1], p);
      var e := entries[|entries| - 1];
      var r := Reading(e, RainKeys, p);
      var w := Reading(e, WindKeys, p);
      (if r.Some? then r.value else rain, if w.Some? then w.value else wind)
  }

  /** `_extract_weather`, entry by entry. */
  method ExtractWeather(entries: seq<Json>, p: Parsers) returns (rainfall: real, windSpeed: real)
    ensures (rainfall, windSpeed) == Weather(entries, p)
  {
    rainfall, windSpeed := 0.0, 0.0;
    for i := 0 to |entries|
      invariant (rainfall, windSpeed) == Weather(entries[..i], p)
    {
      assert entries[..i + 1][..i] == entries[..i];
      var e := entries[i];
      if e.JObj? {
        var key := if "rainfall" in e.fields then "rainfall" else "rainfall_mm";
        if key in e.fields {
          var x := ToFloat(e.fields[key], p);
          if x.Ok? {
            rainfall := x.value;
          }
        }
        key := if "wind_speed_ms" in e.fields then "wind_speed_ms" else "wind_speed";
        if key in e.fields {
          var x := ToFloat(e.fields[key], p);
          if x.Ok? {
            windSpeed := x.value;
          }
        }
      }
    }
    assert entries[..|entries|] == entries;
  }

  // ───────────────────────── actions ─────────────────────────

  /** `isinstance(relay_ch, int) and 1 <= relay_ch <= 8`. */
  predicate ValidChannel(ch: Json) {
    AsInt(ch).Some? && RelayChMin <= AsInt(ch).value <= RelayChMax
  }

  /** `executed is True or executed == "skipped_weather"`. */
  predicate AlreadyDone(action: map<string, Json>) {
    var e := FieldOr(action, "executed", JNull);
    e == JBool(true) || e == JStr("skipped_weather")
  }

  /** `f"relay_ch{relay_ch}"`. */
  function LockoutEntry(ch: Json): string {
    "relay_ch" + (match ch
      case JBool(b) => if b then "True" else "False"
      case JInt(i) => IntToString(i)
      case _ => "")
  }

  /** The fixed facts every action of one run is judged by. */
  datatype ActionEnv = ActionEnv(now: int, badWeather: bool, windows: seq<Json>, p: Parsers)

  /** Progress through the action list: the summary, the actions as rewritten, the posts, the dirty flag. */
  datatype Progress = Progress(res: ExecResult, actions: seq<Json>, posts: seq<Post>, modified: bool)

  /**
   * One iteration of the action loop. `respond(n)` is how the n-th post of
   * the run ends. An action that is not an object, an `execute_at` that
   * is not text and a `duration_sec` that does not compare with 3600
   * raise out of the run.
   */
  function Step(pr: Progress, a: Json, env: ActionEnv, respond: nat -> PostOutcome): Fallible<Progress> {
    if !a.JObj? then Raised
    else
      var f := a.fields;
      var ch := FieldOr(f, "relay_ch", JNull);
      var res := pr.res;
      if !ValidChannel(ch) then
        Ok(pr.(res := res.(skippedInvalid := res.skippedInvalid + [ch]), actions := pr.actions + [a]))
      else if AlreadyDone(f) then
        Ok(pr.(res := res.(skippedAlreadyDone := res.skippedAlreadyDone + [ch]), actions := pr.actions + [a]))
      else if "execute_at" !in f then
        Ok(pr.(res := res.(skippedInvalid := res.skippedInvalid + [ch]), actions := pr.actions + [a]))
      else
        var at :- IsoTime(f["execute_at"], env.p);
        if at.None? then
          Ok(pr.(res := res.(skippedInvalid := res.skippedInvalid + [ch]), actions := pr.actions + [a]))
        else if env.now < at.value then
          Ok(pr.(res := res.(skippedNotDue := res.skippedNotDue + [ch]), actions := pr.actions + [a]))
        else if env.badWeather && InWindows(env.windows, AsInt(ch).value) then
          Ok(Progress(res.(skippedWeather := res.skippedWeather + [ch]),
                      pr.actions + [JObj(f["executed" := JStr("skipped_weather")])], pr.posts, true))
        else
          var d := FieldOr(f, "duration_sec", JInt(0));
          var over :- GreaterThan(d, DurationSecMax);
          var duration := if over then JInt(DurationSecMax) else d;
          var f1 := if over then f["duration_sec" := JInt(DurationSecMax)] else f;
          var post := Post(ch, FieldOr(f, "value", JInt(0)), duration, FieldOr(f, "reason", JStr("plan_executor")));
          var posts := pr.posts + [post];
          match respond(|pr.posts|)
          case Accepted =>
            Ok(Progress(res.(executed := res.executed + [ch]), pr.actions + [JObj(f1["executed" := JBool(true)])], posts, true))
          case Locked423 =>
            Ok(Progress(res.(skippedLockout := res.skippedLockout + [LockoutEntry(ch)]), pr.actions + [JObj(f1)], posts, pr.modified))
          case Rejected =>
            Ok(Progress(res, pr.actions + [JObj(f1)], posts, pr.modified))
  }

  /** Where the action loop ends: after the last action, or at an exception, with the posts made so far. */
  datatype LoopEnd = Finished(pr: Progress) | Interrupted(sent: seq<Post>)

  /** The action loop over the whole list. */
  function Steps(xs: seq<Json>, env: ActionEnv, respond: nat -> PostOutcome): LoopEnd
    decreases |xs|
  {
    if xs == [] then Finished(Progress(Empty, [], [], false))
    else
      match Steps(xs[..|xs| - 1], env, respond)
      case Interrupted(sent) => Interrupted(sent)
      case Finished(pr) =>
        match Step(pr, xs[|xs| - 1], env, respond)
        case Raised => Interrupted(pr.posts)
        case Ok(next) => Finished(next)
  }

  /** The rest of `run_executor` once the plan is known to be in force and no lockout holds. */
  function ExecutePlan(plan: map<string, Json>, layer2Doc: Option<Json>, sensors: Option<seq<Json>>, now: int,
                       p: Parsers, respond: nat -> PostOutcome): RunEnd
  {
    var w := LoadLayer2Config(layer2Doc);
    match (ToFloat(w.rainfallThreshold, p), ToFloat(w.windThreshold, p), WindowSet(w.windowChannels))
    case (Ok(rainThreshold), Ok(windThreshold), Ok(windows)) =>
      var (rain, wind) := if sensors.Some? then Weather(sensors.value, p) else (0.0, 0.0);
      var env := ActionEnv(now, rain > rainThreshold || wind > windThreshold, windows, p);
      (match Elements(FieldOr(plan, "actions", JArr([])))
       case Raised => Crashed([])
       case Ok(xs) =>
         match Steps(xs, env, respond)
         case Interrupted(sent) => Crashed(sent)
         case Finished(pr) =>
           Returned(ExecOutcome(pr.res, pr.posts, if pr.modified then Some(JObj(plan["actions" := JArr(pr.actions)])) else None)))
    case _ => Crashed([])
  }

  const NoPlan := ExecOutcome(Empty.(noPlan := true), [], None)

  /**
   * `run_executor`. `planDoc` is None when the plan file is missing or not
   * JSON; `sensors` holds the entries of `/api/sensors` in document order,
   * None when that request fails.
   */
  function Execute(planDoc: Option<Json>, lockoutDoc: Option<Json>, status: Option<Json>, layer2Doc: Option<Json>,
                   sensors: Option<seq<Json>>, now: int, p: Parsers, respond: nat -> PostOutcome): RunEnd
  {
    if planDoc.None? then Returned(NoPlan)
    else if !planDoc.value.JObj? then Crashed([])
    else
      var plan := planDoc.value.fields;
      if "valid_until" !in plan then Returned(NoPlan)
      else match IsoTime(plan["valid_until"], p)
        case Raised => Crashed([])
        case Ok(until) =>
          if until.None? || Lockout.Expired(now, until.value) then Returned(NoPlan)
          else match IsLayer1Locked(lockoutDoc, now, p)
            case Raised => Crashed([])
            case Ok(locked) =>
              if locked then Returned(ExecOutcome(Empty.(skippedLockout := ["layer1"]), [], None))
              else if Lockout.GateLocked(status) then Returned(ExecOutcome(Empty.(skippedLockout := ["commandgate"]), [], None))
              else ExecutePlan(plan, layer2Doc, sensors, now, p, respond)
  }

  // ───────────────────────── the run, step by step ─────────────────────────

  /** An exception ends the loop: once a prefix is interrupted, so is the whole list, with the same posts. */
  lemma {:induction false} InterruptedPersists(xs: seq<Json>, n: nat, env: ActionEnv, respond: nat -> PostOutcome)
    requires n <= |xs| && Steps(xs[..n], env, respond).Interrupted?
    ensures Steps(xs, env, respond) == Steps(xs[..n], env, respond)
    decreases |xs| - n
  {
    if n == |xs| {
      assert xs[..n] == xs;
    } else {
      var init := xs[..|xs| - 1];
      assert init[..n] == xs[..n];
      InterruptedPersists(init, n, env, respond);
    }
  }

  /** The action loop of `run_executor`. */
  method ExecuteActions(xs: seq<Json>, env: ActionEnv, respond: nat -> PostOutcome) returns (r: LoopEnd)
    ensures r == Steps(xs, env, respond)
  {
    var pr := Progress(Empty, [], [], false);
    for i := 0 to |xs|
      invariant Steps(xs[..i], env, respond) == Finished(pr)
    {
      assert xs[..i + 1][..i] == xs[..i];
      var next := Step(pr, xs[i], env, respond);
      if next.Raised? {
        assert xs[..i + 1][i] == xs[i];
        InterruptedPersists(xs, i + 1, env, respond);
        return Interrupted(pr.posts);
      }
      pr := next.value;
    }
    assert xs[..|xs|] == xs;
    r := Finished(pr);
  }

  method RunExecutor(planDoc: Option<Json>, lockoutDoc: Option<Json>, status: Option<Json>, layer2Doc: Option<Json>,
                     sensors: Option<seq<Json>>, now: int, p: Parsers, respond: nat -> PostOutcome)
    returns (r: RunEnd)
    ensures r == Execute(planDoc, lockoutDoc, status, layer2Doc, sensors, now, p, respond)
  {
    if planDoc.None? {
      return Returned(NoPlan);
    }
    if !planDoc.value.JObj? {
      return Crashed([]);
    }
    var plan := planDoc.value.fields;
    if "valid_until" !in plan {
      return Returned(NoPlan);
    }
    var until := IsoTime(plan["valid_until"], p);
    if until.Raised? {
      return Crashed([]);
    }
    if until.value.None? || Lockout.Expired(now, until.value.value) {
      return Returned(NoPlan);
    }
    var locked := IsLayer1Locked(lockoutDoc, now, p);
    if locked.Raised? {
      return Crashed([]);
    }
    if locked.value {
      return Returned(ExecOutcome(Empty.(skippedLockout := ["layer1"]), [], None));
    }
    if Lockout.GateLocked(status) {
      return Returned(ExecOutcome(Empty.(skippedLockout := ["commandgate"]), [], None));
    }
    r := RunPlan(plan, layer2Doc, sensors, now, p, respond);
  }

  /** The part of `run` past the gates: weather, then the action loop, then the rewritten plan. */
  method RunPlan(plan: map<string, Json>, layer2Doc: Option<Json>, sensors: Option<seq<Json>>, now: int,
                 p: Parsers, respond: nat -> PostOutcome) returns (r: RunEnd)
    ensures r == ExecutePlan(plan, layer2Doc, sensors, now, p, respond)
  {
    var w := LoadLayer2Config(layer2Doc);
    var rainThreshold := ToFloat(w.rainfallThreshold, p);
    var windThreshold := ToFloat(w.windThreshold, p);
    var windows := WindowSet(w.windowChannels);
    if rainThreshold.Raised? || windThreshold.Raised? || windows.Raised? {
      return Crashed([]);
    }
    var rain, wind := 0.0, 0.0;
    if sensors.Some? {
      rain, wind := ExtractWeather(sensors.value, p);
    }
    var env := ActionEnv(now, rain > rainThreshold.value || wind > windThreshold.value, windows.value, p);
    var xs := Elements(FieldOr(plan, "actions", JArr([])));
    if xs.Raised? {
      return Crashed([]);
    }
    var loop := ExecuteActions(xs.value, env, respond);
    if loop.Interrupted? {
      return Crashed(loop.sent);
    }
    var pr := loop.pr;
    var written := if pr.modified then Some(JObj(plan["actions" := JArr(pr.actions)])) else None;
    r := Returned(ExecOutcome(pr.res, pr.posts, written));
  }

  // ───────────────────────── properties ─────────────────────────

  /** A post is only ever made for a valid channel, outside bad weather on a window, with at most an hour's duration. */
  predicate Admissible(post: Post, env: ActionEnv) {
    ValidChannel(post.channel)
    && !(env.badWeather && InWindows(env.windows, AsInt(post.channel).value))
    && AsNumber(post.duration).Some? && AsNumber(post.duration).value <= DurationSecMax as real
  }

  /**
   * The bookkeeping after `n` actions: the rewritten list has one entry
   * per action; every post is admissible; every action is either posted
   * or lands in exactly one of the weather, not-due, already-done and
   * invalid lists; executed channels and 423 refusals are among the
   * posts; and the plan counts as modified exactly when something was
   * executed or weather-skipped.
   */
  ghost predicate Accounted(pr: Progress, n: nat, env: ActionEnv) {
    Counted(pr, n) && (forall k :: 0 <= k < |pr.posts| ==> Admissible(pr.posts[k], env))
  }

  predicate Counted(pr: Progress, n: nat) {
    |pr.actions| == n
    && |pr.res.skippedWeather| + |pr.res.skippedNotDue| + |pr.res.skippedAlreadyDone|
       + |pr.res.skippedInvalid| + |pr.posts| == n
    && |pr.res.executed| + |pr.res.skippedLockout| <= |pr.posts|
    && !pr.res.noPlan
    && (pr.modified <==> |pr.res.executed| + |pr.res.skippedWeather| > 0)
  }

  lemma StepCounted(pr: Progress, a: Json, env: ActionEnv, respond: nat -> PostOutcome, n: nat)
    requires Counted(pr, n) && Step(pr, a, env, respond).Ok?
    ensures Counted(Step(pr, a, env, respond).value, n + 1)
  {
  }

  lemma StepAdmissible(pr: Progress, a: Json, env: ActionEnv, respond: nat -> PostOutcome)
    requires forall k :: 0 <= k < |pr.posts| ==> Admissible(pr.posts[k], env)
    requires Step(pr, a, env, respond).Ok?
    ensures var next := Step(pr, a, env, respond).value;
      forall k :: 0 <= k < |next.posts| ==> Admissible(next.posts[k], env)
  {
    var next := Step(pr, a, env, respond).value;
    if |next.posts| > |pr.posts| {
      assert next.posts == pr.posts + [next.posts[|pr.posts|]];
      assert forall k :: 0 <= k < |pr.posts| ==> next.posts[k] == pr.posts[k];
    } else {
      assert next.posts == pr.posts;
    }
  }

  lemma StepAccounted(pr: Progress, a: Json, env: ActionEnv, respond: nat -> PostOutcome, n: nat)
    requires Accounted(pr, n, env) && Step(pr, a, env, respond).Ok?
    ensures Accounted(Step(pr, a, env, respond).value, n + 1, env)
  {
    StepCounted(pr, a, env, respond, n);
    StepAdmissible(pr, a, env, respond);
  }

  /**
   * Over the whole loop, the bookkeeping of `Accounted` holds for all the
   * actions; a loop an exception interrupts has still made only
   * admissible posts.
   */
  lemma {:induction false} StepsAccounting(xs: seq<Json>, env: ActionEnv, respond: nat -> PostOutcome)
    ensures Steps(xs, env, respond).Finished? ==> Accounted(Steps(xs, env, respond).pr, |xs|, env)
    ensures Steps(xs, env, respond).Interrupted? ==>
      forall k :: 0 <= k < |Steps(xs, env, respond).sent| ==> Admissible(Steps(xs, env, respond).sent[k], env)
    decreases |xs|
  {
    if xs != [] {
      var init := xs[..|xs| - 1];
      StepsAccounting(init, env, respond);
      if Steps(init, env, respond).Finished? && Step(Steps(init, env, respond).pr, xs[|xs| - 1], env, respond).Ok? {
        StepAccounted(Steps(init, env, respond).pr, xs[|xs| - 1], env, respond, |init|);
      }
    }
  }

  /** An interrupted loop stopped at one action, which raised, after the posts of the actions before it. */
  lemma {:induction false} InterruptedAt(xs: seq<Json>, env: ActionEnv, respond: nat -> PostOutcome)
    requires Steps(xs, env, respond).Interrupted?
    ensures exists k :: (0 <= k < |xs| && Steps(xs[..k], env, respond).Finished?
                          && Steps(xs[..k], env, respond).pr.posts == Steps(xs, env, respond).sent
                          && Step(Steps(xs[..k], env, respond).pr, xs[k], env, respond).Raised?)
    decreases |xs|
  {
    var init := xs[..|xs| - 1];
    assert xs[..|xs| - 1] == init;
    if Steps(init, env, respond).Interrupted? {
      InterruptedAt(init, env, respond);
      var k :| 0 <= k < |init| && Steps(init[..k], env, respond).Finished?
        && Steps(init[..k], env, respond).pr.posts == Steps(init, env, respond).sent
        && Step(Steps(init[..k], env, respond).pr, init[k], env, respond).Raised?;
      assert init[..k] == xs[..k] && init[k] == xs[k];
    }
  }

  /** The checks an action object passes before it is posted: a valid channel, not done yet, and due. */
  predicate Due(f: map<string, Json>, env: ActionEnv) {
    var ch := FieldOr(f, "relay_ch", JNull);
    ValidChannel(ch) && !AlreadyDone(f) && "execute_at" in f && f["execute_at"].JStr?
    && IsoTime(f["execute_at"], env.p).Ok? && IsoTime(f["execute_at"], env.p).value.Some?
    && IsoTime(f["execute_at"], env.p).value.value <= env.now
  }

  /** A due action on a window channel while it rains or blows hard. */
  predicate WeatherHeld(f: map<string, Json>, env: ActionEnv) {
    Due(f, env) && env.badWeather && InWindows(env.windows, AsInt(FieldOr(f, "relay_ch", JNull)).value)
  }

  /** Due and not held back by the weather: the action is posted. */
  predicate Dispatched(f: map<string, Json>, env: ActionEnv) {
    Due(f, env) && !WeatherHeld(f, env)
  }

  /**
   * A due action that the weather does not hold back (in bad weather,
   * any channel that is not a window) is posted exactly once, with its
   * value, its reason and its duration cut to an hour.
   */
  lemma StepPostsDispatchedAction(pr: Progress, a: Json, env: ActionEnv, respond: nat -> PostOutcome)
    requires a.JObj? && Dispatched(a.fields, env)
    requires AsNumber(FieldOr(a.fields, "duration_sec", JInt(0))).Some?
    ensures Step(pr, a, env, respond).Ok?
    ensures var f := a.fields;
      var d := FieldOr(f, "duration_sec", JInt(0));
      var next := Step(pr, a, env, respond).value;
      |next.posts| == |pr.posts| + 1 && next.posts[..|pr.posts|] == pr.posts
      && next.posts[|pr.posts|].channel == FieldOr(f, "relay_ch", JNull)
      && next.posts[|pr.posts|].value == FieldOr(f, "value", JInt(0))
      && next.posts[|pr.posts|].reason == FieldOr(f, "reason", JStr("plan_executor"))
      && next.posts[|pr.posts|].duration == (if AsNumber(d).value > DurationSecMax as real then JInt(DurationSecMax) else d)
  {
    var next := Step(pr, a, env, respond).value;
    assert next.posts[..|pr.posts|] == pr.posts;
  }

  /**
   * What one step does to its action, whichever way it goes: the action
   * is carried over with every key but `executed` and `duration_sec` as
   * it was; `executed` becomes True only after an accepted post, and
   * "skipped_weather" only when the weather holds a window back;
   * `duration_sec` is cut to 3600 only on an action posted with a longer
   * one. Exactly the dispatched actions add a post.
   */
  lemma StepRewritesAction(pr: Progress, a: Json, env: ActionEnv, respond: nat -> PostOutcome)
    requires a.JObj? && Step(pr, a, env, respond).Ok?
    ensures var f := a.fields;
      var next := Step(pr, a, env, respond).value;
      var posted := Dispatched(f, env);
      var over := posted && AsNumber(FieldOr(f, "duration_sec", JInt(0))).value > DurationSecMax as real;
      |next.actions| == |pr.actions| + 1 && next.actions[..|pr.actions|] == pr.actions
      && next.actions[|pr.actions|].JObj?
      && (forall k :: k != "executed" && k != "duration_sec" ==>
            Field(next.actions[|pr.actions|].fields, k) == Field(f, k))
      && Field(next.actions[|pr.actions|].fields, "executed")
         == (if posted && respond(|pr.posts|) == Accepted then Some(JBool(true))
             else if WeatherHeld(f, env) then Some(JStr("skipped_weather"))
             else Field(f, "executed"))
      && Field(next.actions[|pr.actions|].fields, "duration_sec")
         == (if over then Some(JInt(DurationSecMax)) else Field(f, "duration_sec"))
      && (posted <==> |next.posts| == |pr.posts| + 1)
      && (!posted ==> next.posts == pr.posts)
  {
    var next := Step(pr, a, env, respond).value;
    assert next.actions[..|pr.actions|] == pr.actions;
  }

  /** The rainfall and the wind speed used are each the last sensor entry's readable value, or 0 when no entry has one. */
  lemma WeatherIsLastReading(entries: seq<Json>, p: Parsers)
    ensures (forall k :: 0 <= k < |entries| ==> Reading(entries[k], RainKeys, p).None?) ==> Weather(entries, p).0 == 0.0
    ensures forall k :: 0 <= k < |entries| ==>
      (Reading(entries[k], RainKeys, p).Some? && (forall j :: k < j < |entries| ==> Reading(entries[j], RainKeys, p).None?)
       ==> Weather(entries, p).0 == Reading(entries[k], RainKeys, p).value)
    ensures (forall k :: 0 <= k < |entries| ==> Reading(entries[k], WindKeys, p).None?) ==> Weather(entries, p).1 == 0.0
    ensures forall k :: 0 <= k < |entries| ==>
      (Reading(entries[k], WindKeys, p).Some? && (forall j :: k < j < |entries| ==> Reading(entries[j], WindKeys, p).None?)
       ==> Weather(entries, p).1 == Reading(entries[k], WindKeys, p).value)
  {
    WeatherIsLastPresent(entries, p);
    LastPresentIsLast(Readings(entries, RainKeys, p));
    LastPresentIsLast(Readings(entries, WindKeys, p));
  }

  /** Each entry's reading of one quantity, in document order. */
  function Readings(entries: seq<Json>, keys: seq<string>, p: Parsers): (rs: seq<Option<real>>)
    requires |keys| == 2
    ensures |rs| == |entries| && forall k :: 0 <= k < |entries| ==> rs[k] == Reading(entries[k], keys, p)
  {
    seq(|entries|, k requires 0 <= k < |entries| => Reading(entries[k], keys, p))
  }

  /** The last reading present, or 0 when there is none. */
  function LastPresent(rs: seq<Option<real>>): real
    decreases |rs|
  {
    if rs == [] then 0.0
    else if rs[|rs| - 1].Some? then rs[|rs| - 1].value
    else LastPresent(rs[..|rs| - 1])
  }

  lemma {:induction false} LastPresentIsLast(rs: seq<Option<real>>)
    ensures (forall k :: 0 <= k < |rs| ==> rs[k].None?) ==> LastPresent(rs) == 0.0
    ensures forall k :: 0 <= k < |rs| ==>
      (rs[k].Some? && (forall j :: k < j < |rs| ==> rs[j].None?) ==> LastPresent(rs) == rs[k].value)
    decreases |rs|
  {
    if rs != [] {
      var init := rs[..|rs| - 1];
      LastPresentIsLast(init);
      assert forall k :: 0 <= k < |init| ==> init[k] == rs[k];
    }
  }

  /** `Weather` keeps, for each quantity, the last reading present. */
  lemma {:induction false} WeatherIsLastPresent(entries: seq<Json>, p: Parsers)
    ensures Weather(entries, p) == (LastPresent(Readings(entries, RainKeys, p)), LastPresent(Readings(entries, WindKeys, p)))
    decreases |entries|
  {
    if entries != [] {
      var init := entries[..|entries| - 1];
      WeatherIsLastPresent(init, p);
      assert Readings(entries, RainKeys, p)[..|init|] == Readings(init, RainKeys, p);
      assert Readings(entries, WindKeys, p)[..|init|] == Readings(init, WindKeys, p);
    }
  }

  /**
   * Execution marks are final once the plan is written back: an action
   * the loop marks as executed or weather-skipped is, on any later run
   * that reads it, counted as already done and never posted again.
   */
  lemma MarkedActionsAreNotRepeated(pr: Progress, a: Json, env: ActionEnv, respond: nat -> PostOutcome,
                                    later: Progress, env': ActionEnv, respond': nat -> PostOutcome)
    requires Step(pr, a, env, respond).Ok?
    requires var next := Step(pr, a, env, respond).value;
      |next.res.executed| + |next.res.skippedWeather| > |pr.res.executed| + |pr.res.skippedWeather|
    ensures var marked := Step(pr, a, env, respond).value.actions[|pr.actions|];
      Step(later, marked, env', respond').Ok?
      && Step(later, marked, env', respond').value.posts == later.posts
      && Step(later, marked, env', respond').value.res.skippedAlreadyDone
         == later.res.skippedAlreadyDone + [FieldOr(a.fields, "relay_ch", JNull)]
  {
  }

  /** A run that crashes writes nothing back; the posts it made before are those of the actions it got through. */
  lemma CrashedRunKeepsSentPosts(plan: map<string, Json>, layer2Doc: Option<Json>, sensors: Option<seq<Json>>, now: int,
                                 p: Parsers, respond: nat -> PostOutcome)
    requires ExecutePlan(plan, layer2Doc, sensors, now, p, respond).Crashed?
    requires ExecutePlan(plan, layer2Doc, sensors, now, p, respond).sent != []
    ensures var w := LoadLayer2Config(layer2Doc);
      ToFloat(w.rainfallThreshold, p).Ok? && ToFloat(w.windThreshold, p).Ok? && WindowSet(w.windowChannels).Ok?
      && Elements(FieldOr(plan, "actions", JArr([]))).Ok?
      && var (rain, wind) := if sensors.Some? then Weather(sensors.value, p) else (0.0, 0.0);
      var env := ActionEnv(now, rain > ToFloat(w.rainfallThreshold, p).value || wind > ToFloat(w.windThreshold, p).value,
                           WindowSet(w.windowChannels).value, p);
      Steps(Elements(FieldOr(plan, "actions", JArr([]))).value, env, respond)
        == Interrupted(ExecutePlan(plan, layer2Doc, sensors, now, p, respond).sent)
  {
  }

  /** A plan past its `valid_until`, or with none, leads to no post at all. */
  lemma ExpiredPlanDoesNothing(planDoc: Option<Json>, lockoutDoc: Option<Json>, status: Option<Json>,
                               layer2Doc: Option<Json>, sensors: Option<seq<Json>>, now: int, p: Parsers,
                               respond: nat -> PostOutcome)
    requires planDoc.Some? && planDoc.value.JObj?
    requires "valid_until" !in planDoc.value.fields
      || (planDoc.value.fields["valid_until"].JStr?
          && IsoTime(planDoc.value.fields["valid_until"], p).Ok?
          && IsoTime(planDoc.value.fields["valid_until"], p).value.Some?
          && Lockout.Expired(now, IsoTime(planDoc.value.fields["valid_until"], p).value.value))
    ensures Execute(planDoc, lockoutDoc, status, layer2Doc, sensors, now, p, respond) == Returned(NoPlan)
  {
  }

  /**
   * A `valid_until` without a UTC offset cannot be compared with the
   * offset-aware current time: the TypeError escapes the run before any
   * post, and the plan is not written back.
   */
  lemma OffsetFreeValidUntilCrashes(planDoc: Option<Json>, lockoutDoc: Option<Json>, status: Option<Json>,
                                    layer2Doc: Option<Json>, sensors: Option<seq<Json>>, now: int, p: Parsers,
                                    respond: nat -> PostOutcome)
    requires planDoc.Some? && planDoc.value.JObj? && Lockout.OffsetFree(planDoc.value.fields, "valid_until", p)
    ensures Execute(planDoc, lockoutDoc, status, layer2Doc, sensors, now, p, respond) == Crashed([])
  {
  }

  /** While either lockout holds nothing is posted and the plan is left as it is. */
  lemma LockoutPostsNothing(planDoc: Option<Json>, lockoutDoc: Option<Json>, status: Option<Json>,
                            layer2Doc: Option<Json>, sensors: Option<seq<Json>>, now: int, p: Parsers,
                            respond: nat -> PostOutcome)
    requires IsLayer1Locked(lockoutDoc, now, p) == Ok(true) || (IsLayer1Locked(lockoutDoc, now, p).Ok? && Lockout.GateLocked(status))
    ensures var out := Execute(planDoc, lockoutDoc, status, layer2Doc, sensors, now, p, respond);
      (out.Returned? ==> out.outcome.posts == [] && out.outcome.written.None?)
      && (out.Crashed? ==> out.sent == [])
  {
  }
}
