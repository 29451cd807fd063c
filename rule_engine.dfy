/**
 * Layer 2, the rule engine run every five minutes: it skips while the
 * emergency lockout or the command gate is active, evaluates the window
 * rules (rain, strong wind, night, temperature) and the solar-proportional
 * irrigation rule, posts each affected relay once, and persists the solar
 * accumulator.
 */
module RuleEngine {
  import opened Json
  import Lockout

  // ───────────────────────── data ─────────────────────────

  /** One relay command: channel, 0/1, and an optional auto-off duration in seconds. */
  datatype RelayAction = RelayAction(channel: int, value: int, duration: Option<int>)

  /** The parts of the layer-2 configuration the rules read. */
  datatype Layer2Config = Layer2Config(
    windowChannels: seq<int>,
    targetDay: real,
    targetNight: real,
    marginOpen: real,
    marginClose: real,
    windThreshold: real,
    northDirections: seq<int>,
    northChannels: seq<int>,
    southDirections: seq<int>,
    southChannels: seq<int>,
    rainThreshold: real,
    irrigationChannel: int)

  /**
   * Sensor readings as the rules see them: absent or null rainfall, wind
   * speed and direction already read as 0, no indoor temperature as None,
   * no solar radiation (W/m²) as 0.
   */
  datatype Readings = Readings(
    rainfall: real,
    windSpeed: real,
    windDirection: int,
    indoorTemp: Option<real>,
    insolar: real)

  /** What one evaluation produces: the ordered actions, the rules that fired, the new accumulator. */
  datatype Evaluation = Evaluation(actions: seq<RelayAction>, rules: seq<string>, acc: map<string, Json>)

  const RainCloseAll := "rain_close_all"
  const StrongWind := "strong_wind"
  const NighttimeClose := "nighttime_close"
  const TempHighOpen := "temp_high_open"
  const TempLowClose := "temp_low_close"
  const SolarIrrigation := "solar_irrigation"

  // ───────────────────────── crop parameters ─────────────────────────

  /**
   * `d.get(key, default)` where the key is itself a value read from a
   * document: a non-object `d` raises AttributeError, an unhashable key
   * TypeError, and a non-string key matches none of the string keys.
   */
  function Lookup(d: Json, key: Json, default: Json): (r: Fallible<Json>)
    ensures r.Raised? <==> (!d.JObj? || key.JArr? || key.JObj?)
    ensures d.JObj? && key.JStr? ==> r == Ok(FieldOr(d.fields, key.s, default))
  {
    if !d.JObj? then Raised
    else match key
      case JStr(s) => Ok(FieldOr(d.fields, s, default))
      case JArr(_) => Raised
      case JObj(_) => Raised
      case _ => Ok(default)
  }

  /** The crop configuration's `defaults` entry for the house's crop and current stage. */
  function StageDefaults(crop: Json): Fallible<Json> {
    var house :- Lookup(crop, JStr("house"), JObj(map[]));
    var cropName :- Lookup(house, JStr("crop"), JStr("nasu_naga"));
    var stageName :- Lookup(house, JStr("current_stage"), JStr("harvest_peak"));
    var crops :- Lookup(crop, JStr("crops"), JObj(map[]));
    var entry :- Lookup(crops, cropName, JObj(map[]));
    var stages :- Lookup(entry, JStr("stages"), JObj(map[]));
    var stage :- Lookup(stages, stageName, JObj(map[]));
    Lookup(stage, JStr("defaults"), JObj(map[]))
  }

  /** The numbers of a list when every element is a number. */
  function Numbers(xs: seq<Json>): (r: Option<seq<real>>)
    ensures r.Some? ==> |r.value| == |xs|
    ensures r.Some? ==> forall k :: 0 <= k < |xs| ==> AsNumber(xs[k]) == Some(r.value[k])
    ensures r.None? ==> exists k :: 0 <= k < |xs| && AsNumber(xs[k]).None?
  {
    if xs == [] then Some([])
    else match (AsNumber(xs[0]), Numbers(xs[1..]))
      case (Some(x), Some(rest)) => Some([x] + rest)
      case (None, _) => None
      case (_, None) => assert xs[1..][0] == xs[1]; None
  }

  /** Python's `min` over a non-empty list of numbers. */
  function {:induction false} Min(xs: seq<real>): (m: real)
    requires |xs| > 0
    ensures m in xs
    ensures forall k :: 0 <= k < |xs| ==> m <= xs[k]
  {
    if |xs| == 1 then xs[0]
    else
      var rest := Min(xs[1..]);
      assert forall k :: 1 <= k < |xs| ==> xs[k] == xs[1..][k - 1];
      if xs[0] <= rest then xs[0] else rest
  }

  /** The texts of a list when every element is text. */
  function Texts(xs: seq<Json>): (r: Option<seq<string>>)
    ensures r.Some? <==> forall k :: 0 <= k < |xs| ==> xs[k].JStr?
    ensures r.Some? ==> |r.value| == |xs| && forall k :: 0 <= k < |xs| ==> xs[k] == JStr(r.value[k])
  {
    if forall k :: 0 <= k < |xs| ==> xs[k].JStr? then Some(seq(|xs|, k requires 0 <= k < |xs| => xs[k].s)) else None
  }

  /** Python's `a <= b` on text: code point by code point, a proper prefix first. */
  predicate TextLe(a: string, b: string)
    decreases |a|
  {
    a == [] || (b != [] && (a[0] < b[0] || (a[0] == b[0] && TextLe(a[1..], b[1..]))))
  }

  lemma {:induction false} TextLeReflexive(a: string)
    ensures TextLe(a, a)
    decreases |a|
  {
    if a != [] {
      TextLeReflexive(a[1..]);
    }
  }

  lemma {:induction false} TextLeTotal(a: string, b: string)
    ensures TextLe(a, b) || TextLe(b, a)
    decreases |a|
  {
    if a != [] && b != [] && a[0] == b[0] {
      TextLeTotal(a[1..], b[1..]);
    }
  }

  lemma {:induction false} TextLeTransitive(a: string, b: string, c: string)
    requires TextLe(a, b) && TextLe(b, c)
    ensures TextLe(a, c)
    decreases |a|
  {
    if a != [] && b != [] && c != [] && a[0] == b[0] && b[0] == c[0] {
      TextLeTransitive(a[1..], b[1..], c[1..]);
    }
  }

  /** Below a lower bound of a list is below all of it. */
  lemma TextLeBelowAll(a: string, m: string, ys: seq<string>)
    requires TextLe(a, m) && forall k :: 0 <= k < |ys| ==> TextLe(m, ys[k])
    ensures forall k :: 0 <= k < |ys| ==> TextLe(a, ys[k])
  {
    forall k | 0 <= k < |ys| ensures TextLe(a, ys[k]) {
      TextLeTransitive(a, m, ys[k]);
    }
  }

  /** Python's `min` over a non-empty list of texts. */
  function {:induction false} MinText(xs: seq<string>): (m: string)
    requires |xs| > 0
    ensures m in xs
    ensures forall k :: 0 <= k < |xs| ==> TextLe(m, xs[k])
  {
    if |xs| == 1 then
      TextLeReflexive(xs[0]);
      xs[0]
    else
      var rest := MinText(xs[1..]);
      assert forall k :: 1 <= k < |xs| ==> xs[k] == xs[1..][k - 1];
      if TextLe(xs[0], rest) then
        TextLeBelowAll(xs[0], rest, xs[1..]);
        TextLeReflexive(xs[0]);
        xs[0]
      else
        TextLeTotal(xs[0], rest);
        rest
  }

  /**
   * Python's `min` over a decoded list: numbers compare with numbers and
   * text with text; an empty list, or one that mixes the two or holds
   * anything else, raises. (Mixed or other elements either fail to
   * compare, or leave a minimum that `float()` and `int()` reject.) A
   * numeric minimum is given as its value, which `float()` and `int()`
   * treat as they treat the element itself.
   */
  function PyMin(xs: seq<Json>): (r: Fallible<Json>)
    ensures r.Ok? <==> xs != [] && (Numbers(xs).Some? || Texts(xs).Some?)
    ensures r.Ok? && Numbers(xs).Some? ==> r.value == JReal(Min(Numbers(xs).value))
    ensures r.Ok? && Texts(xs).Some? ==> r.value == JStr(MinText(Texts(xs).value))
  {
    if xs == [] then Raised
    else match Numbers(xs)
      case Some(ns) => Ok(JReal(Min(ns)))
      case None =>
        match Texts(xs)
        case Some(ts) => Ok(JStr(MinText(ts)))
        case None => Raised
  }

  /**
   * The value a configured number or list stands for, `float(min(v))` for
   * a list and `float(v)` otherwise: a list of numbers gives its least
   * number, a list of texts converts the text that sorts first.
   */
  function ConfiguredMin(v: Json, p: Parsers): (r: Fallible<real>)
    ensures !v.JArr? ==> r == ToFloat(v, p)
    ensures v.JArr? && v.items != [] && Numbers(v.items).Some? ==> r == Ok(Min(Numbers(v.items).value))
    ensures v.JArr? && v.items != [] && Texts(v.items).Some? ==> r == ToFloat(JStr(MinText(Texts(v.items).value)), p)
    ensures v.JArr? && (v.items == [] || (Numbers(v.items).None? && Texts(v.items).None?)) ==> r.Raised?
  {
    match v
    case JArr(xs) =>
      var m :- PyMin(xs);
      ToFloat(m, p)
    case _ => ToFloat(v, p)
  }

  /** `get_solar_threshold`: the stage's `solar_threshold_mj`, 0.9 MJ/m² when absent. */
  function GetSolarThreshold(crop: Json, p: Parsers): (r: Fallible<real>)
    ensures StageDefaults(crop).Raised? ==> r.Raised?
    ensures StageDefaults(crop).Ok? && !StageDefaults(crop).value.JObj? ==> r.Raised?
    ensures (StageDefaults(crop).Ok? && StageDefaults(crop).value.JObj?
             && "solar_threshold_mj" !in StageDefaults(crop).value.fields) ==> r == Ok(0.9)
    ensures (StageDefaults(crop).Ok? && StageDefaults(crop).value.JObj?
             && "solar_threshold_mj" in StageDefaults(crop).value.fields) ==>
      var t := StageDefaults(crop).value.fields["solar_threshold_mj"];
      r == ConfiguredMin(t, p) && (!t.JArr? ==> r == ToFloat(t, p))
  {
    var defaults :- StageDefaults(crop);
    var t :- Lookup(defaults, JStr("solar_threshold_mj"), JReal(0.9));
    ConfiguredMin(t, p)
  }

  /**
   * `get_irrigation_duration`: the stage's `irrigation_ml_per_plant`
   * (270 when absent; a list gives its minimum) read as seconds at one
   * millilitre per second, never less than 60.
   */
  function GetIrrigationDuration(crop: Json): (r: Fallible<int>)
    ensures r.Ok? ==> r.value >= 60
    ensures StageDefaults(crop).Raised? ==> r.Raised?
    ensures (StageDefaults(crop).Ok? && StageDefaults(crop).value.JObj?
             && "irrigation_ml_per_plant" !in StageDefaults(crop).value.fields) ==> r == Ok(270)
    ensures (StageDefaults(crop).Ok? && StageDefaults(crop).value.JObj?
             && "irrigation_ml_per_plant" in StageDefaults(crop).value.fields) ==>
      var n := IntOf(StageDefaults(crop).value.fields["irrigation_ml_per_plant"]);
      (r.Ok? <==> n.Ok?) && (r.Ok? ==> r.value == (if n.value < 60 then 60 else n.value))
    ensures (StageDefaults(crop).Ok? && StageDefaults(crop).value.JObj?
             && "irrigation_ml_per_plant" in StageDefaults(crop).value.fields
             && StageDefaults(crop).value.fields["irrigation_ml_per_plant"].JInt?) ==>
      var n := StageDefaults(crop).value.fields["irrigation_ml_per_plant"].i;
      r == Ok(if n < 60 then 60 else n)
  {
    var defaults :- StageDefaults(crop);
    var ml :- Lookup(defaults, JStr("irrigation_ml_per_plant"), JInt(270));
    var n :- IntOf(ml);
    Ok(if n < 60 then 60 else n)
  }

  /** `int(min(ml))` for a list, `int(ml)` otherwise. */
  function IntOf(ml: Json): (r: Fallible<int>)
    ensures !ml.JArr? ==> r == PyInt(ml)
    ensures ml.JArr? && ml.items != [] && Numbers(ml.items).Some? ==> r == Ok(Truncate(Min(Numbers(ml.items).value)))
    ensures ml.JArr? && ml.items != [] && Texts(ml.items).Some? ==> r == PyInt(JStr(MinText(Texts(ml.items).value)))
    ensures ml.JArr? && (ml.items == [] || (Numbers(ml.items).None? && Texts(ml.items).None?)) ==> r.Raised?
  {
    match ml
    case JArr(xs) =>
      var m :- PyMin(xs);
      PyInt(m)
    case _ => PyInt(ml)
  }

  // ───────────────────────── persisted state ─────────────────────────

  /**
   * `is_layer1_locked_out`. `doc` is the lockout document, None when the
   * file is missing or not JSON. A missing or falsy deadline or one
   * `fromisoformat` rejects means no lockout; a document that is not an
   * object, a deadline that is truthy but not text, or one without a UTC
   * offset (compared with the offset-aware current time) raises out of it.
   */
  function IsLayer1LockedOut(doc: Option<Json>, now: int, p: Parsers): (r: Fallible<bool>)
    ensures r == Ok(true) <==>
      (doc.Some? && doc.value.JObj? && Lockout.Deadline(doc.value.fields, "layer1_lockout_until", p).Some?
       && Lockout.Locked(now, Lockout.Deadline(doc.value.fields, "layer1_lockout_until", p).value))
    ensures r.Raised? <==>
      (doc.Some? && (!doc.value.JObj? || ("layer1_lockout_until" in doc.value.fields
        && Truthy(doc.value.fields["layer1_lockout_until"]) && !doc.value.fields["layer1_lockout_until"].JStr?)
        || Lockout.OffsetFree(doc.value.fields, "layer1_lockout_until", p)))
  {
    match doc
    case None => Ok(false)
    case Some(d) =>
      if !d.JObj? then Raised
      else
        var v := Field(d.fields, "layer1_lockout_until");
        if v.None? || !Truthy(v.value) then Ok(false)
        else if !v.value.JStr? then Raised
        else match p.iso(v.value.s)
          case None => Ok(false)
          case Some(t) => if !p.hasOffset(v.value.s) then Raised else Ok(Lockout.Locked(now, t))
  }

  /**
   * `load_current_plan`: the layer-3 plan while it is in force, None when
   * the file is missing or unreadable, has no `valid_until`, or has expired.
   * A `valid_until` without a UTC offset makes the expiry comparison raise.
   */
  function LoadCurrentPlan(doc: Option<Json>, now: int, p: Parsers): (r: Fallible<Option<Json>>)
    ensures r.Ok? && r.value.Some? <==>
      (doc.Some? && doc.value.JObj? && Lockout.Deadline(doc.value.fields, "valid_until", p).Some?
       && !Lockout.Expired(now, Lockout.Deadline(doc.value.fields, "valid_until", p).value))
    ensures r.Ok? && r.value.Some? ==> r.value == doc
    ensures r.Raised? <==>
      (doc.Some? && (!doc.value.JObj?
                     || (Field(doc.value.fields, "valid_until").Some? && Truthy(Field(doc.value.fields, "valid_until").value)
                         && !Field(doc.value.fields, "valid_until").value.JStr?)
                     || Lockout.OffsetFree(doc.value.fields, "valid_until", p)))
  {
    match doc
    case None => Ok(None)
    case Some(d) =>
      if !d.JObj? then Raised
      else
        var v := Field(d.fields, "valid_until");
        if v.None? || !Truthy(v.value) then Ok(None)
        else if !v.value.JStr? then Raised
        else match p.iso(v.value.s)
          case None => Ok(None)
          case Some(t) =>
            if !p.hasOffset(v.value.s) then Raised
            else if Lockout.Expired(now, t) then Ok(None) else Ok(Some(d))
  }

  /** The accumulator a new day starts from. */
  function FreshAccumulator(today: string): map<string, Json> {
    map["date" := JStr(today), "accumulated_mj" := JReal(0.0), "irrigations_today" := JInt(0)]
  }

  /**
   * `load_solar_accumulator`: the stored accumulator when it belongs to
   * `today`, a fresh one when the file is missing, unreadable or from
   * another day.
   */
  function LoadSolarAccumulator(doc: Option<Json>, today: string): (r: Fallible<map<string, Json>>)
    ensures r.Ok? ==> Field(r.value, "date") == Some(JStr(today))
    ensures r.Ok? && r.value != FreshAccumulator(today) ==> doc == Some(JObj(r.value))
    ensures r.Raised? <==> doc.Some? && !doc.value.JObj?
    ensures doc.Some? && doc.value.JObj? && Field(doc.value.fields, "date") == Some(JStr(today)) ==> r == Ok(doc.value.fields)
    ensures (doc.None? || (doc.value.JObj? && Field(doc.value.fields, "date") != Some(JStr(today))))
            ==> r == Ok(FreshAccumulator(today))
  {
    match doc
    case None => Ok(FreshAccumulator(today))
    case Some(d) =>
      if !d.JObj? then Raised
      else if Field(d.fields, "date") != Some(JStr(today)) then Ok(FreshAccumulator(today))
      else Ok(d.fields)
  }

  /** `is_nighttime`: before sunrise or after sunset. */
  predicate IsNighttime(now: int, sunrise: int, sunset: int) {
    now < sunrise || now > sunset
  }

  // ───────────────────────── window rules ─────────────────────────

  /** Does some action already address `ch`? */
  predicate Mentions(acts: seq<RelayAction>, ch: int) {
    exists k :: 0 <= k < |acts| && acts[k].channel == ch
  }

  /** `(ch, value, None)` for every listed channel, in order. */
  function Setting(chs: seq<int>, value: int): (r: seq<RelayAction>)
    ensures |r| == |chs|
    ensures forall k :: 0 <= k < |chs| ==> r[k] == RelayAction(chs[k], value, None)
  {
    seq(|chs|, k requires 0 <= k < |chs| => RelayAction(chs[k], value, None))
  }

  /**
   * Rules 6c and 6d: for each listed channel in order, append
   * `(ch, value, None)` unless an action on that channel is already there.
   */
  function FillMissing(acts: seq<RelayAction>, chs: seq<int>, value: int): seq<RelayAction>
    decreases |chs|
  {
    if chs == [] then acts
    else
      var prev := FillMissing(acts, chs[..|chs| - 1], value);
      var ch := chs[|chs| - 1];
      if Mentions(prev, ch) then prev else prev + [RelayAction(ch, value, None)]
  }

  /** Rule 6b: which windows a strong wind closes, by its direction. */
  function WindClosing(cfg: Layer2Config, dir: int): seq<RelayAction> {
    if dir in cfg.northDirections then Setting(cfg.northChannels, 0)
    else if dir in cfg.southDirections then Setting(cfg.southChannels, 0)
    else Setting(cfg.windowChannels, 0)
  }

  /** Rules 6b and 6c: the strong-wind closing, then the night closing of the windows still unaddressed. */
  function WindAndNight(cfg: Layer2Config, r: Readings, night: bool): (seq<RelayAction>, seq<string>) {
    var (a1, t1) := if r.windSpeed > cfg.windThreshold then (WindClosing(cfg, r.windDirection), [StrongWind]) else ([], []);
    if night then (FillMissing(a1, cfg.windowChannels, 0), t1 + [NighttimeClose]) else (a1, t1)
  }

  /** Rules 6b to 6d, which apply only when it is not raining. */
  function DryRules(cfg: Layer2Config, r: Readings, night: bool, planActive: bool): (seq<RelayAction>, seq<string>) {
    var (a2, t2) := WindAndNight(cfg, r, night);
    var target := if night then cfg.targetNight else cfg.targetDay;
    if planActive || r.indoorTemp.None? then (a2, t2)
    else if r.indoorTemp.value > target + cfg.marginOpen then (FillMissing(a2, cfg.windowChannels, 1), t2 + [TempHighOpen])
    else if r.indoorTemp.value < target - cfg.marginClose then (FillMissing(a2, cfg.windowChannels, 0), t2 + [TempLowClose])
    else (a2, t2)
  }

  /** Rules 6a to 6d: rain closes every window and suppresses the other window rules. */
  function WindowRules(cfg: Layer2Config, r: Readings, night: bool, planActive: bool): (seq<RelayAction>, seq<string>) {
    if r.rainfall > cfg.rainThreshold then (Setting(cfg.windowChannels, 0), [RainCloseAll])
    else DryRules(cfg, r, night, planActive)
  }

  // ───────────────────────── irrigation ─────────────────────────

  /** Five minutes of radiation at `insolar` W/m², in MJ/m². */
  function SolarIncrement(insolar: real): real {
    insolar * 300.0 / 1000000.0
  }

  /** `x + amount` on a stored total: only numbers can be added to. */
  function Plus(j: Json, amount: real): (r: Fallible<real>)
    ensures AsNumber(j).Some? <==> r.Ok?
    ensures r.Ok? ==> r.value == AsNumber(j).value + amount
  {
    match AsNumber(j)
    case Some(x) => Ok(x + amount)
    case None => Raised
  }

  /** `x + 1` on a stored count. */
  function AddOne(j: Json): (r: Fallible<Json>)
    ensures j.JInt? ==> r == Ok(JInt(j.i + 1))
  {
    match j
    case JInt(i) => Ok(JInt(i + 1))
    case JBool(b) => Ok(JInt(if b then 2 else 1))
    case JReal(x) => Ok(JReal(x + 1.0))
    case _ => Raised
  }

  /**
   * Rule 6e: add this interval's radiation to the accumulator; once the
   * total reaches the stage threshold, irrigate for the stage's duration,
   * reset the total and count the irrigation. `stamp` is the wall-clock
   * time recorded as `last_irrigation_at`.
   */
  function Irrigate(cfg: Layer2Config, crop: Json, p: Parsers, insolar: real, acc: map<string, Json>, stamp: string,
                    acts: seq<RelayAction>, rules: seq<string>): Fallible<Evaluation>
  {
    var threshold :- GetSolarThreshold(crop, p);
    var duration :- GetIrrigationDuration(crop);
    Accrue(cfg, threshold, duration, insolar, acc, stamp, acts, rules)
  }

  /** Rule 6e once the threshold and the duration are known: add this interval's radiation and irrigate at the threshold. */
  function Accrue(cfg: Layer2Config, threshold: real, duration: int, insolar: real, acc: map<string, Json>, stamp: string,
                  acts: seq<RelayAction>, rules: seq<string>): Fallible<Evaluation>
  {
    var total :- Plus(FieldOr(acc, "accumulated_mj", JReal(0.0)), SolarIncrement(insolar));
    if total >= threshold then
      var count :- AddOne(FieldOr(acc, "irrigations_today", JInt(0)));
      Ok(Evaluation(
        acts + [RelayAction(cfg.irrigationChannel, 1, Some(duration))],
        rules + [SolarIrrigation],
        acc["accumulated_mj" := JReal(0.0)]["irrigations_today" := count]["last_irrigation_at" := JStr(stamp)]))
    else
      Ok(Evaluation(acts, rules, acc["accumulated_mj" := JReal(total)]))
  }

  /** `evaluate_rules`: the window rules, then the irrigation rule. */
  function Evaluate(cfg: Layer2Config, crop: Json, p: Parsers, r: Readings, night: bool, planActive: bool,
                    acc: map<string, Json>, stamp: string): Fallible<Evaluation>
  {
    var (acts, rules) := WindowRules(cfg, r, night, planActive);
    Irrigate(cfg, crop, p, r.insolar, acc, stamp, acts, rules)
  }

  // ───────────────────────── the evaluation, step by step ─────────────────────────

  /** `any(a[0] == ch for a in acts)`. */
  method AnyOnChannel(acts: seq<RelayAction>, ch: int) returns (found: bool)
    ensures found == Mentions(acts, ch)
  {
    found := false;
    var k := 0;
    while k < |acts| && !found
      invariant 0 <= k <= |acts|
      invariant found == exists j :: 0 <= j < k && acts[j].channel == ch
      invariant found ==> Mentions(acts, ch)
    {
      found := acts[k].channel == ch;
      k := k + 1;
    }
  }

  /** `for ch in chs: relay_actions.append((ch, value, None))`. */
  method AppendEach(acts: seq<RelayAction>, chs: seq<int>, value: int) returns (out: seq<RelayAction>)
    ensures out == acts + Setting(chs, value)
  {
    out := acts;
    for i := 0 to |chs|
      invariant out == acts + Setting(chs[..i], value)
    {
      assert Setting(chs[..i + 1], value) == Setting(chs[..i], value) + [RelayAction(chs[i], value, None)];
      out := out + [RelayAction(chs[i], value, None)];
    }
    assert chs[..|chs|] == chs;
  }

  /** The loop rules 6c and 6d share: fill in the channels no action addresses yet. */
  method AppendMissing(acts: seq<RelayAction>, chs: seq<int>, value: int) returns (out: seq<RelayAction>)
    ensures out == FillMissing(acts, chs, value)
  {
    out := acts;
    for i := 0 to |chs|
      invariant out == FillMissing(acts, chs[..i], value)
    {
      assert chs[..i + 1][..i] == chs[..i];
      var found := AnyOnChannel(out, chs[i]);
      if !found {
        out := out + [RelayAction(chs[i], value, None)];
      }
    }
    assert chs[..|chs|] == chs;
  }

  /** `_eval_irrigation`, applied to the actions and rules gathered so far. */
  method EvalIrrigation(cfg: Layer2Config, crop: Json, p: Parsers, insolar: real, acc: map<string, Json>, stamp: string,
                        acts: seq<RelayAction>, rules: seq<string>) returns (e: Fallible<Evaluation>)
    ensures e == Irrigate(cfg, crop, p, insolar, acc, stamp, acts, rules)
  {
    var threshold := GetSolarThreshold(crop, p);
    var duration := GetIrrigationDuration(crop);
    if threshold.Raised? || duration.Raised? {
      return Raised;
    }
    var total := Plus(FieldOr(acc, "accumulated_mj", JReal(0.0)), SolarIncrement(insolar));
    if total.Raised? {
      return Raised;
    }
    var acc' := acc["accumulated_mj" := JReal(total.value)];
    if total.value >= threshold.value {
      var count := AddOne(FieldOr(acc, "irrigations_today", JInt(0)));
      if count.Raised? {
        return Raised;
      }
      OverwriteKey(acc, "accumulated_mj", JReal(total.value), JReal(0.0));
      acc' := acc'["accumulated_mj" := JReal(0.0)]["irrigations_today" := count.value]["last_irrigation_at" := JStr(stamp)];
      e := Ok(Evaluation(acts + [RelayAction(cfg.irrigationChannel, 1, Some(duration.value))], rules + [SolarIrrigation], acc'));
    } else {
      e := Ok(Evaluation(acts, rules, acc'));
    }
  }

  /** Storing under a key twice leaves the second value. */
  lemma OverwriteKey(m: map<string, Json>, k: string, a: Json, b: Json)
    ensures m[k := a][k := b] == m[k := b]
  {
  }

  /** `evaluate_rules`, rule by rule. */
  method EvaluateRules(cfg: Layer2Config, crop: Json, p: Parsers, r: Readings, night: bool, planActive: bool,
                       acc: map<string, Json>, stamp: string) returns (e: Fallible<Evaluation>)
    ensures e == Evaluate(cfg, crop, p, r, night, planActive, acc, stamp)
  {
    var acts, rules := ApplyWindowRules(cfg, r, night, planActive);
    e := EvalIrrigation(cfg, crop, p, r.insolar, acc, stamp, acts, rules);
  }

  /** The window rules of `evaluate_rules`, in the order it applies them. */
  method ApplyWindowRules(cfg: Layer2Config, r: Readings, night: bool, planActive: bool)
    returns (acts: seq<RelayAction>, rules: seq<string>)
    ensures (acts, rules) == WindowRules(cfg, r, night, planActive)
  {
    acts, rules := [], [];
    var target := if night then cfg.targetNight else cfg.targetDay;
    if r.rainfall > cfg.rainThreshold {
      rules := rules + [RainCloseAll];
      acts := AppendEach(acts, cfg.windowChannels, 0);
      assert acts == Setting(cfg.windowChannels, 0) && rules == [RainCloseAll];
      return;
    }
    if r.windSpeed > cfg.windThreshold {
      rules := rules + [StrongWind];
      if r.windDirection in cfg.northDirections {
        acts := AppendEach(acts, cfg.northChannels, 0);
      } else if r.windDirection in cfg.southDirections {
        acts := AppendEach(acts, cfg.southChannels, 0);
      } else {
        acts := AppendEach(acts, cfg.windowChannels, 0);
      }
      assert acts == WindClosing(cfg, r.windDirection) && rules == [StrongWind];
    }
    if night {
      rules := rules + [NighttimeClose];
      acts := AppendMissing(acts, cfg.windowChannels, 0);
    }
    if !planActive && r.indoorTemp.Some? {
      if r.indoorTemp.value > target + cfg.marginOpen {
        rules := rules + [TempHighOpen];
        acts := AppendMissing(acts, cfg.windowChannels, 1);
      } else if r.indoorTemp.value < target - cfg.marginClose {
        rules := rules + [TempLowClose];
        acts := AppendMissing(acts, cfg.windowChannels, 0);
      }
    }
  }


  // ───────────────────────── posting ─────────────────────────

  /** The channels the actions address, in order of first appearance. */
  function {:induction false} Channels(acts: seq<RelayAction>): (chs: seq<int>)
    ensures forall i, j :: 0 <= i < j < |chs| ==> chs[i] != chs[j]
    ensures forall ch :: ch in chs <==> Mentions(acts, ch)
    decreases |acts|
  {
    if acts == [] then []
    else
      var prev := Channels(acts[..|acts| - 1]);
      var ch := acts[|acts| - 1].channel;
      assert forall c :: Mentions(acts[..|acts| - 1], c) ==> Mentions(acts, c);
      assert forall c :: Mentions(acts, c) ==> Mentions(acts[..|acts| - 1], c) || c == ch;
      if ch in prev then prev else prev + [ch]
  }

  /** The position of the last action on a channel the actions address. */
  function {:induction false} LastIndex(acts: seq<RelayAction>, ch: int): (k: nat)
    requires Mentions(acts, ch)
    ensures k < |acts| && acts[k].channel == ch
    ensures forall j :: k < j < |acts| ==> acts[j].channel != ch
    decreases |acts|
  {
    if acts[|acts| - 1].channel == ch then |acts| - 1
    else
      var prefix := acts[..|acts| - 1];
      assert Mentions(prefix, ch) by {
        var k :| 0 <= k < |acts| && acts[k].channel == ch;
        assert k < |prefix| && prefix[k].channel == ch;
      }
      var k := LastIndex(prefix, ch);
      assert acts[k] == prefix[k];
      k
  }

  /** The last action on a channel the actions address. */
  function LastOn(acts: seq<RelayAction>, ch: int): (a: RelayAction)
    requires Mentions(acts, ch)
    ensures a in acts && a.channel == ch
    ensures exists k :: 0 <= k < |acts| && acts[k] == a && forall j :: k < j < |acts| ==> acts[j].channel != ch
  {
    var k := LastIndex(acts, ch);
    assert acts[k] == acts[k];
    acts[k]
  }

  /**
   * What `run` posts for a list of actions: one command per channel, in
   * the order the channels first appear, each carrying the channel's last
   * setting.
   */
  function Collapse(acts: seq<RelayAction>): (posts: seq<RelayAction>) {
    var chs := Channels(acts);
    seq(|chs|, k requires 0 <= k < |chs| => LastOn(acts, chs[k]))
  }

  lemma CollapseSpec(acts: seq<RelayAction>)
    ensures forall i, j :: 0 <= i < j < |Collapse(acts)| ==> Collapse(acts)[i].channel != Collapse(acts)[j].channel
    ensures forall ch :: Mentions(acts, ch) <==> Mentions(Collapse(acts), ch)
    ensures forall a :: a in Collapse(acts) ==> a == LastOn(acts, a.channel)
  {
    var chs := Channels(acts);
    var posts := Collapse(acts);
    forall ch | Mentions(acts, ch) ensures Mentions(posts, ch) {
      var k :| 0 <= k < |chs| && chs[k] == ch;
      assert posts[k].channel == ch;
    }
  }

  /** Appending one action: its channel joins the order if new, and it becomes that channel's last action. */
  lemma ExtendOne(xs: seq<RelayAction>, a: RelayAction)
    ensures Channels(xs + [a]) == if a.channel in Channels(xs) then Channels(xs) else Channels(xs) + [a.channel]
    ensures Mentions(xs + [a], a.channel) && LastOn(xs + [a], a.channel) == a
    ensures forall ch :: Mentions(xs, ch) ==>
      Mentions(xs + [a], ch) && (ch != a.channel ==> LastOn(xs + [a], ch) == LastOn(xs, ch))
  {
    var ys := xs + [a];
    assert ys[..|ys| - 1] == xs && ys[|ys| - 1] == a;
    forall ch | Mentions(xs, ch) ensures Mentions(ys, ch) {
      var k :| 0 <= k < |xs| && xs[k].channel == ch;
      assert ys[k].channel == ch;
    }
  }

  /** What the walk in `run` knows after some actions: the channels in order, and each one's latest action. */
  ghost predicate Tracks(xs: seq<RelayAction>, order: seq<int>, seen: map<int, RelayAction>) {
    && order == Channels(xs)
    && (forall ch :: ch in seen <==> ch in order)
    && (forall ch :: ch in seen ==> Mentions(xs, ch) && seen[ch] == LastOn(xs, ch))
  }

  /** One more action keeps the walk's knowledge. */
  lemma TracksStep(xs: seq<RelayAction>, order: seq<int>, seen: map<int, RelayAction>, a: RelayAction)
    requires Tracks(xs, order, seen)
    ensures Tracks(xs + [a], if a.channel in seen then order else order + [a.channel], seen[a.channel := a])
  {
    ExtendOne(xs, a);
    var seen' := seen[a.channel := a];
    var order' := if a.channel in seen then order else order + [a.channel];
    assert order' == Channels(xs + [a]);
    forall ch ensures ch in seen' <==> ch in order' {
      assert ch in order' <==> ch in order || ch == a.channel;
    }
    forall ch | ch in seen' ensures Mentions(xs + [a], ch) && seen'[ch] == LastOn(xs + [a], ch) {
      if ch != a.channel {
        assert ch in seen && seen'[ch] == seen[ch];
      }
    }
  }

  /** The dictionary walk in `run` that keeps each channel's last setting. */
  method Dedup(acts: seq<RelayAction>) returns (posts: seq<RelayAction>)
    ensures posts == Collapse(acts)
  {
    var order: seq<int> := [];
    var seen: map<int, RelayAction> := map[];
    for i := 0 to |acts|
      invariant Tracks(acts[..i], order, seen)
    {
      var a := acts[i];
      assert acts[..i + 1] == acts[..i] + [a];
      TracksStep(acts[..i], order, seen, a);
      if a.channel !in seen {
        order := order + [a.channel];
      }
      seen := seen[a.channel := a];
    }
    assert acts[..|acts|] == acts;
    assert Tracks(acts, order, seen);
    posts := [];
    for j := 0 to |order|
      invariant |posts| == j
      invariant forall k :: 0 <= k < j ==> posts[k] == LastOn(acts, order[k])
    {
      assert order[j] in order;
      assert order[j] in seen && seen[order[j]] == LastOn(acts, order[j]);
      posts := posts + [seen[order[j]]];
    }
    var spec := Collapse(acts);
    assert |spec| == |posts|;
    forall k | 0 <= k < |posts| ensures posts[k] == spec[k] {
    }
  }

  // ───────────────────────── one run ─────────────────────────

  /** What the unipi daemon reports: the readings and whether its command gate is locked out. */
  datatype Observation = Observation(readings: Readings, gateLocked: bool)

  /**
   * Everything a run reads. `cfg` is None when a configuration file is
   * missing or not YAML; `observed` is None when fetching the sensors or
   * the status fails; `stamp` is the wall clock's ISO text.
   */
  datatype RunInputs = RunInputs(
    lockoutDoc: Option<Json>,
    cfg: Option<Layer2Config>,
    crop: Json,
    observed: Option<Observation>,
    planDoc: Option<Json>,
    accDoc: Option<Json>,
    now: int,
    sunrise: int,
    sunset: int,
    today: string,
    stamp: string)

  /**
   * How a run ends. `Crashed`: an exception escapes. `Skipped` and
   * `Failed` exit with 1; `Failed` lists the posts that went through
   * before an error. `Completed` exits with 0 after posting and saving
   * the accumulator.
   */
  datatype RunOutcome =
    | Crashed
    | Skipped
    | Failed(posted: seq<RelayAction>)
    | Completed(posted: seq<RelayAction>, rules: seq<string>, acc: map<string, Json>)

  /** The evaluation a run performs once the gates are open. */
  function Evaluated(inp: RunInputs, p: Parsers): Fallible<Evaluation>
    requires inp.cfg.Some? && inp.observed.Some?
  {
    var plan :- LoadCurrentPlan(inp.planDoc, inp.now, p);
    var acc :- LoadSolarAccumulator(inp.accDoc, inp.today);
    Evaluate(inp.cfg.value, inp.crop, p, inp.observed.value.readings, IsNighttime(inp.now, inp.sunrise, inp.sunset),
             plan.Some?, acc, inp.stamp)
  }

  /** The index of the first rejected post among `n`, or `n` when all succeed. */
  function FirstRejected(n: nat, accepted: nat -> bool, from: nat): (k: nat)
    requires from <= n
    ensures from <= k <= n
    ensures forall j :: from <= j < k ==> accepted(j)
    ensures k < n ==> !accepted(k)
    decreases n - from
  {
    if from == n then n
    else if !accepted(from) then from
    else FirstRejected(n, accepted, from + 1)
  }

  /** `run`, with the outcome of the i-th relay post given by `accepted(i)`. */
  function Decide(inp: RunInputs, p: Parsers, accepted: nat -> bool): RunOutcome {
    match IsLayer1LockedOut(inp.lockoutDoc, inp.now, p)
    case Raised => Crashed
    case Ok(locked) =>
      if locked then Skipped
      else if inp.cfg.None? || inp.observed.None? then Failed([])
      else if inp.observed.value.gateLocked then Skipped
      else match Evaluated(inp, p)
        case Raised => Failed([])
        case Ok(e) =>
          var posts := Collapse(e.actions);
          var k := FirstRejected(|posts|, accepted, 0);
          if k < |posts| then Failed(posts[..k]) else Completed(posts, e.rules, e.acc)
  }

  /** Steps 5 and 6 of `run`: read the plan and the accumulator, then evaluate. */
  method EvaluateRun(inp: RunInputs, p: Parsers) returns (e: Fallible<Evaluation>)
    requires inp.cfg.Some? && inp.observed.Some?
    ensures e == Evaluated(inp, p)
  {
    var plan := LoadCurrentPlan(inp.planDoc, inp.now, p);
    if plan.Raised? {
      return Raised;
    }
    var acc := LoadSolarAccumulator(inp.accDoc, inp.today);
    if acc.Raised? {
      return Raised;
    }
    var night := IsNighttime(inp.now, inp.sunrise, inp.sunset);
    e := EvaluateRules(inp.cfg.value, inp.crop, p, inp.observed.value.readings, night, plan.value.Some?, acc.value, inp.stamp);
  }

  /** The posting loop of `run`: post in order and stop at the first error; returns how many went through. */
  method PostInOrder(count: nat, accepted: nat -> bool) returns (n: nat)
    ensures n == FirstRejected(count, accepted, 0)
  {
    n := 0;
    while n < count && accepted(n)
      invariant n <= count
      invariant FirstRejected(count, accepted, n) == FirstRejected(count, accepted, 0)
    {
      n := n + 1;
    }
  }

  method Run(inp: RunInputs, p: Parsers, accepted: nat -> bool) returns (out: RunOutcome)
    ensures out == Decide(inp, p, accepted)
  {
    var locked := IsLayer1LockedOut(inp.lockoutDoc, inp.now, p);
    if locked.Raised? {
      return Crashed;
    }
    if locked.value {
      return Skipped;
    }
    if inp.cfg.None? || inp.observed.None? {
      return Failed([]);
    }
    if inp.observed.value.gateLocked {
      return Skipped;
    }
    var e := EvaluateRun(inp, p);
    if e.Raised? {
      return Failed([]);
    }
    var posts := Dedup(e.value.actions);
    var n := PostInOrder(|posts|, accepted);
    if n < |posts| {
      out := Failed(posts[..n]);
    } else {
      out := Completed(posts, e.value.rules, e.value.acc);
    }
  }

  // ───────────────────────── properties ─────────────────────────

  /** Rule 6c/6d's loop only ever adds actions for listed channels that had none, with the given value. */
  lemma {:induction false} FillMissingSpec(acts: seq<RelayAction>, chs: seq<int>, value: int)
    ensures |FillMissing(acts, chs, value)| >= |acts|
    ensures FillMissing(acts, chs, value)[..|acts|] == acts
    ensures forall ch :: ch in chs ==> Mentions(FillMissing(acts, chs, value), ch)
    ensures forall ch :: Mentions(FillMissing(acts, chs, value), ch) ==> Mentions(acts, ch) || ch in chs
    ensures forall k :: |acts| <= k < |FillMissing(acts, chs, value)| ==>
      FillMissing(acts, chs, value)[k].value == value && FillMissing(acts, chs, value)[k].duration.None?
      && !Mentions(acts, FillMissing(acts, chs, value)[k].channel)
    decreases |chs|
  {
    if chs != [] {
      var init := chs[..|chs| - 1];
      var ch := chs[|chs| - 1];
      FillMissingSpec(acts, init, value);
      var prev := FillMissing(acts, init, value);
      var out := FillMissing(acts, chs, value);
      assert forall c :: c in chs ==> c in init || c == ch;
      if !Mentions(prev, ch) {
        assert out == prev + [RelayAction(ch, value, None)];
        assert out[|prev|].channel == ch;
        assert out[..|acts|] == prev[..|acts|];
        forall c | Mentions(prev, c) ensures Mentions(out, c) {
          var k :| 0 <= k < |prev| && prev[k].channel == c;
          assert out[k] == prev[k];
        }
        forall c | Mentions(out, c) ensures Mentions(prev, c) || c == ch {
          var k :| 0 <= k < |out| && out[k].channel == c;
          if k < |prev| { assert prev[k] == out[k]; }
        }
      }
    }
  }

  /** Filling in channels that all have an action already changes nothing. */
  lemma {:induction false} FillMissingKeeps(acts: seq<RelayAction>, chs: seq<int>, value: int)
    requires forall ch :: ch in chs ==> Mentions(acts, ch)
    ensures FillMissing(acts, chs, value) == acts
    decreases |chs|
  {
    if chs != [] {
      assert forall ch :: ch in chs[..|chs| - 1] ==> ch in chs;
      FillMissingKeeps(acts, chs[..|chs| - 1], value);
    }
  }

  /** Rule 6a: rain closes every window, first, and no other window rule is evaluated. */
  lemma RainClosesAllWindows(cfg: Layer2Config, crop: Json, p: Parsers, r: Readings, night: bool, planActive: bool,
                             acc: map<string, Json>, stamp: string)
    requires r.rainfall > cfg.rainThreshold
    requires Evaluate(cfg, crop, p, r, night, planActive, acc, stamp).Ok?
    ensures var e := Evaluate(cfg, crop, p, r, night, planActive, acc, stamp).value;
      |e.actions| >= |cfg.windowChannels| && e.actions[..|cfg.windowChannels|] == Setting(cfg.windowChannels, 0)
      && |e.rules| > 0 && e.rules[0] == RainCloseAll
      && StrongWind !in e.rules && NighttimeClose !in e.rules
      && TempHighOpen !in e.rules && TempLowClose !in e.rules
  {
    var (acts, rules) := WindowRules(cfg, r, night, planActive);
    assert acts == Setting(cfg.windowChannels, 0) && rules == [RainCloseAll];
    IrrigateKeeps(cfg, crop, p, r.insolar, acc, stamp, acts, rules);
    var e := Evaluate(cfg, crop, p, r, night, planActive, acc, stamp).value;
    assert e.rules == [RainCloseAll] || e.rules == [RainCloseAll, SolarIrrigation];
  }

  /** The irrigation step only ever appends: one action and the rule name, or nothing. */
  lemma IrrigateKeeps(cfg: Layer2Config, crop: Json, p: Parsers, insolar: real, acc: map<string, Json>,
                      stamp: string, acts: seq<RelayAction>, rules: seq<string>)
    requires Irrigate(cfg, crop, p, insolar, acc, stamp, acts, rules).Ok?
    ensures var e := Irrigate(cfg, crop, p, insolar, acc, stamp, acts, rules).value;
      |e.actions| >= |acts| && e.actions[..|acts|] == acts
      && (e.rules == rules || e.rules == rules + [SolarIrrigation])
  {
    var threshold := GetSolarThreshold(crop, p).value;
    var duration := GetIrrigationDuration(crop).value;
    assert Irrigate(cfg, crop, p, insolar, acc, stamp, acts, rules)
        == Accrue(cfg, threshold, duration, insolar, acc, stamp, acts, rules);
    AccrueSpec(cfg, threshold, duration, insolar, acc, stamp, acts, rules);
    var e := Irrigate(cfg, crop, p, insolar, acc, stamp, acts, rules).value;
    if e.actions != acts {
      assert e.actions[..|acts|] == acts;
    }
  }

  /** Rule 6b: a strong wind closes the side it comes from, or every window when the side is unknown. */
  lemma StrongWindClosesWindward(cfg: Layer2Config, r: Readings, night: bool, planActive: bool)
    requires r.rainfall <= cfg.rainThreshold && r.windSpeed > cfg.windThreshold
    ensures var (acts, rules) := WindowRules(cfg, r, night, planActive);
      var side := if r.windDirection in cfg.northDirections then cfg.northChannels
                  else if r.windDirection in cfg.southDirections then cfg.southChannels
                  else cfg.windowChannels;
      |acts| >= |side| && acts[..|side|] == Setting(side, 0) && rules[0] == StrongWind
  {
    var side := if r.windDirection in cfg.northDirections then cfg.northChannels
                else if r.windDirection in cfg.southDirections then cfg.southChannels
                else cfg.windowChannels;
    var a1 := Setting(side, 0);
    assert WindClosing(cfg, r.windDirection) == a1;
    WindComesFirst(cfg, r, night);
    DryRulesKeepPrior(cfg, r, night, planActive);
    var (a2, t2) := WindAndNight(cfg, r, night);
    var (acts, rules) := WindowRules(cfg, r, night, planActive);
    assert acts[..|a1|] == acts[..|a2|][..|a1|];
    assert rules[0] == rules[..|t2|][0];
  }

  /** With a strong wind, the wind closing opens the wind-and-night stage, under rule StrongWind. */
  lemma WindComesFirst(cfg: Layer2Config, r: Readings, night: bool)
    requires r.windSpeed > cfg.windThreshold
    ensures var (a2, t2) := WindAndNight(cfg, r, night);
      var a1 := WindClosing(cfg, r.windDirection);
      |a2| >= |a1| && a2[..|a1|] == a1 && t2 != [] && t2[0] == StrongWind
  {
    FillMissingPrefix(WindClosing(cfg, r.windDirection), cfg.windowChannels, 0);
  }

  /** The temperature rule only appends to what the wind and night rules decided. */
  lemma DryRulesKeepPrior(cfg: Layer2Config, r: Readings, night: bool, planActive: bool)
    ensures var (a2, t2) := WindAndNight(cfg, r, night);
      var (acts, rules) := DryRules(cfg, r, night, planActive);
      |acts| >= |a2| && acts[..|a2|] == a2 && |rules| >= |t2| && rules[..|t2|] == t2
  {
    var a2 := WindAndNight(cfg, r, night).0;
    FillMissingPrefix(a2, cfg.windowChannels, 1);
    FillMissingPrefix(a2, cfg.windowChannels, 0);
  }

  /** Filling in the missing channels keeps the actions already there, as a prefix. */
  lemma FillMissingPrefix(acts: seq<RelayAction>, chs: seq<int>, value: int)
    ensures |FillMissing(acts, chs, value)| >= |acts| && FillMissing(acts, chs, value)[..|acts|] == acts
  {
    FillMissingSpec(acts, chs, value);
  }

  /** Rule 6c: at night (and no rain) every window gets a command and every window command closes. */
  lemma NightClosesEveryWindow(cfg: Layer2Config, r: Readings, planActive: bool)
    requires r.rainfall <= cfg.rainThreshold
    ensures var (acts, rules) := WindowRules(cfg, r, true, planActive);
      (forall ch :: ch in cfg.windowChannels ==> Mentions(acts, ch))
      && (forall k :: 0 <= k < |acts| ==> acts[k].value == 0)
      && NighttimeClose in rules
  {
    var a1 := if r.windSpeed > cfg.windThreshold then WindClosing(cfg, r.windDirection) else [];
    var a2 := FillMissing(a1, cfg.windowChannels, 0);
    FillMissingSpec(a1, cfg.windowChannels, 0);
    assert forall k :: 0 <= k < |a1| ==> a1[k].value == 0;
    forall k | 0 <= k < |a2| ensures a2[k].value == 0 {
      if k < |a1| { assert a2[k] == a2[..|a1|][k]; }
    }
    FillMissingKeeps(a2, cfg.windowChannels, 1);
    FillMissingKeeps(a2, cfg.windowChannels, 0);
    var (acts, _) := WindowRules(cfg, r, true, planActive);
    assert acts == a2;
  }

  /** Rule 6d defers to layer 3: while a plan is in force the temperature cannot change the window rules. */
  lemma PlanActiveIgnoresTemperature(cfg: Layer2Config, r: Readings, night: bool, t: Option<real>)
    ensures WindowRules(cfg, r, night, true) == WindowRules(cfg, r.(indoorTemp := t), night, true)
    ensures TempHighOpen !in WindowRules(cfg, r, night, true).1
    ensures TempLowClose !in WindowRules(cfg, r, night, true).1
  {
  }

  /**
   * Rule 6d: with no rain, no plan in force and a temperature reading,
   * the windows open above target + margin_open and close below
   * target − margin_close (opening wins should the two overlap), each
   * time by filling in the windows rules 6b and 6c left unaddressed;
   * inside that band the temperature changes nothing.
   */
  lemma TemperatureDeadBand(cfg: Layer2Config, r: Readings, night: bool, planActive: bool)
    ensures var target := if night then cfg.targetNight else cfg.targetDay;
      var (acts, rules) := WindowRules(cfg, r, night, planActive);
      var prior := WindAndNight(cfg, r, night).0;
      var live := r.rainfall <= cfg.rainThreshold && !planActive && r.indoorTemp.Some?;
      (TempHighOpen in rules <==> live && r.indoorTemp.value > target + cfg.marginOpen)
      && (TempLowClose in rules <==>
            live && !(r.indoorTemp.value > target + cfg.marginOpen) && r.indoorTemp.value < target - cfg.marginClose)
      && (TempHighOpen in rules ==> acts == FillMissing(prior, cfg.windowChannels, 1))
      && (TempLowClose in rules ==> acts == FillMissing(prior, cfg.windowChannels, 0))
      && (r.rainfall <= cfg.rainThreshold && TempHighOpen !in rules && TempLowClose !in rules ==> acts == prior)
  {
  }

  /** Without an indoor temperature rule 6d never fires: the run goes on as if a plan were in force. */
  lemma MissingTemperatureChangesNothing(cfg: Layer2Config, r: Readings, night: bool, planActive: bool)
    requires r.indoorTemp.None?
    ensures WindowRules(cfg, r, night, planActive) == WindowRules(cfg, r, night, true)
    ensures TempHighOpen !in WindowRules(cfg, r, night, planActive).1
    ensures TempLowClose !in WindowRules(cfg, r, night, planActive).1
  {
  }

  /**
   * Rule 6e: either the total reached the threshold, and one irrigation
   * was appended last and the total restarts at zero, or it did not, and
   * the total grew by exactly this interval's radiation.
   */
  lemma IrrigationAccumulates(cfg: Layer2Config, crop: Json, p: Parsers, insolar: real, acc: map<string, Json>,
                              stamp: string, acts: seq<RelayAction>, rules: seq<string>)
    requires Irrigate(cfg, crop, p, insolar, acc, stamp, acts, rules).Ok?
    ensures var e := Irrigate(cfg, crop, p, insolar, acc, stamp, acts, rules).value;
      var prior := AsNumber(FieldOr(acc, "accumulated_mj", JReal(0.0))).value;
      var threshold := GetSolarThreshold(crop, p).value;
      if prior + SolarIncrement(insolar) >= threshold then
        e.actions == acts + [RelayAction(cfg.irrigationChannel, 1, Some(GetIrrigationDuration(crop).value))]
        && GetIrrigationDuration(crop).value >= 60
        && e.rules == rules + [SolarIrrigation]
        && e.acc["accumulated_mj"] == JReal(0.0) && e.acc["last_irrigation_at"] == JStr(stamp)
        && (FieldOr(acc, "irrigations_today", JInt(0)).JInt? ==>
              e.acc["irrigations_today"] == JInt(FieldOr(acc, "irrigations_today", JInt(0)).i + 1))
      else
        e.actions == acts && e.rules == rules && e.acc["accumulated_mj"] == JReal(prior + SolarIncrement(insolar))
        && forall key :: key in acc && key != "accumulated_mj" ==> key in e.acc && e.acc[key] == acc[key]
  {
    var threshold := GetSolarThreshold(crop, p).value;
    var duration := GetIrrigationDuration(crop).value;
    assert Irrigate(cfg, crop, p, insolar, acc, stamp, acts, rules) == Accrue(cfg, threshold, duration, insolar, acc, stamp, acts, rules);
    AccrueSpec(cfg, threshold, duration, insolar, acc, stamp, acts, rules);
  }

  /** Rule 6e's accumulation: irrigate and restart at the threshold, otherwise only add the radiation. */
  lemma AccrueSpec(cfg: Layer2Config, threshold: real, duration: int, insolar: real, acc: map<string, Json>, stamp: string,
                   acts: seq<RelayAction>, rules: seq<string>)
    requires Accrue(cfg, threshold, duration, insolar, acc, stamp, acts, rules).Ok?
    ensures var e := Accrue(cfg, threshold, duration, insolar, acc, stamp, acts, rules).value;
      var prior := AsNumber(FieldOr(acc, "accumulated_mj", JReal(0.0))).value;
      if prior + SolarIncrement(insolar) >= threshold then
        e.actions == acts + [RelayAction(cfg.irrigationChannel, 1, Some(duration))]
        && e.rules == rules + [SolarIrrigation]
        && e.acc["accumulated_mj"] == JReal(0.0) && e.acc["last_irrigation_at"] == JStr(stamp)
        && (FieldOr(acc, "irrigations_today", JInt(0)).JInt? ==>
              e.acc["irrigations_today"] == JInt(FieldOr(acc, "irrigations_today", JInt(0)).i + 1))
      else
        e.actions == acts && e.rules == rules && e.acc["accumulated_mj"] == JReal(prior + SolarIncrement(insolar))
        && forall key :: key in acc && key != "accumulated_mj" ==> key in e.acc && e.acc[key] == acc[key]
  {
    var total := AsNumber(FieldOr(acc, "accumulated_mj", JReal(0.0))).value + SolarIncrement(insolar);
    assert Plus(FieldOr(acc, "accumulated_mj", JReal(0.0)), SolarIncrement(insolar)) == Ok(total);
    var e := Accrue(cfg, threshold, duration, insolar, acc, stamp, acts, rules).value;
    if total >= threshold {
      var count := AddOne(FieldOr(acc, "irrigations_today", JInt(0))).value;
      assert e.acc == acc["accumulated_mj" := JReal(0.0)]["irrigations_today" := count]["last_irrigation_at" := JStr(stamp)];
    } else {
      assert e.acc == acc["accumulated_mj" := JReal(total)];
    }
  }

  /**
   * A run posts nothing while layer 1 or the command gate holds the
   * lockout; otherwise what it posts is a prefix of the collapsed
   * actions — distinct channels, each with its last setting — and all of
   * them when it completes.
   */
  lemma RunPostsOncePerChannel(inp: RunInputs, p: Parsers, accepted: nat -> bool)
    ensures IsLayer1LockedOut(inp.lockoutDoc, inp.now, p) == Ok(true) ==> Decide(inp, p, accepted) == Skipped
    ensures (IsLayer1LockedOut(inp.lockoutDoc, inp.now, p).Ok? && inp.cfg.Some? && inp.observed.Some?
             && inp.observed.value.gateLocked) ==> Decide(inp, p, accepted) == Skipped
    ensures var out := Decide(inp, p, accepted);
      (out.Failed? || out.Completed?) && out.posted != [] ==>
        inp.cfg.Some? && inp.observed.Some? && Evaluated(inp, p).Ok?
        && var posts := Collapse(Evaluated(inp, p).value.actions);
        out.posted <= posts
        && (out.Completed? ==> out.posted == posts)
        && (forall i, j :: 0 <= i < j < |out.posted| ==> out.posted[i].channel != out.posted[j].channel)
        && (forall a :: a in out.posted ==> a == LastOn(Evaluated(inp, p).value.actions, a.channel))
  {
    if inp.cfg.Some? && inp.observed.Some? && Evaluated(inp, p).Ok? {
      var acts := Evaluated(inp, p).value.actions;
      var posts := Collapse(acts);
      var k := FirstRejected(|posts|, accepted, 0);
      if k < |posts| {
        PostedPrefix(acts, k);
      } else {
        assert posts[..|posts|] == posts;
        PostedPrefix(acts, |posts|);
      }
    }
  }

  /** Any prefix of the collapsed posts names each channel once, with its last action. */
  lemma PostedPrefix(acts: seq<RelayAction>, n: nat)
    requires n <= |Collapse(acts)|
    ensures var posted := Collapse(acts)[..n];
      posted <= Collapse(acts)
      && (forall i, j :: 0 <= i < j < |posted| ==> posted[i].channel != posted[j].channel)
      && (forall a :: a in posted ==> a == LastOn(acts, a.channel))
  {
    CollapseSpec(acts);
    var posts := Collapse(acts);
    var posted := posts[..n];
    forall a | a in posted ensures a == LastOn(acts, a.channel) {
      var k :| 0 <= k < n && posted[k] == a;
      assert posts[k] == a;
    }
    forall i, j | 0 <= i < j < |posted| ensures posted[i].channel != posted[j].channel {
      assert posted[i] == posts[i] && posted[j] == posts[j];
    }
  }
}
