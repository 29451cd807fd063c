/**
 * The UECS-CCM receiver: greenhouse controllers broadcast XML datagrams
 * with one DATA element per reading; each becomes a packet, and each
 * packet is republished on `agriha/{house_id}/ccm/{category}/{type}`.
 * The XML is taken as already parsed: the root's children, or None when
 * the datagram did not parse.
 */
module CcmReceiver {
  import opened Json
  import opened Mqtt

  /** Does `s` end with `t`? */
  predicate EndsWith(s: string, t: string) {
    |t| <= |s| && s[|s| - |t|..] == t
  }

  /** The type suffixes UECS appends: `\.(mC|cMC|MC)`. */
  const Suffixes: set<string> := {".mC", ".cMC", ".MC"}

  /** `s` minus the suffix it ends with, if any. */
  function DropSuffix(s: string): (r: string)
    ensures |r| <= |s| && r == s[..|r|]
  {
    if EndsWith(s, ".cMC") then s[..|s| - 4]
    else if EndsWith(s, ".mC") || EndsWith(s, ".MC") then s[..|s| - 3]
    else s
  }

  /**
   * `strip_ccm_suffix`: the pattern is anchored with `$`, which also
   * matches just before a final newline, so a suffix there goes too.
   */
  function StripCcmSuffix(s: string): (r: string)
    ensures |r| <= |s|
  {
    if |s| > 0 && s[|s| - 1] == '\n' && DropSuffix(s[..|s| - 1]) != s[..|s| - 1]
    then DropSuffix(s[..|s| - 1]) + "\n"
    else DropSuffix(s)
  }

  /** Exactly one suffix goes: whatever precedes it is kept as it is. */
  lemma StripAppendedSuffix(t: string, suffix: string)
    requires suffix in Suffixes
    ensures StripCcmSuffix(t + suffix) == t
  {
    var s := t + suffix;
    assert s[|s| - 1] == suffix[|suffix| - 1] == 'C';
    assert StripCcmSuffix(s) == DropSuffix(s);
    DropAppendedSuffix(t, suffix);
  }

  lemma DropAppendedSuffix(t: string, suffix: string)
    requires suffix in Suffixes
    ensures DropSuffix(t + suffix) == t
  {
    var s := t + suffix;
    assert s[|s| - |suffix|..] == suffix && s[..|t|] == t;
    if suffix != ".cMC" {
      assert s[|s| - 3] == suffix[0] == '.';
      if |s| >= 4 {
        assert s[|s| - 4..][1] == '.' != ".cMC"[1];
      }
      assert !EndsWith(s, ".cMC");
    }
  }

  /** A type without a suffix is left unchanged. */
  lemma StripWithoutSuffix(s: string)
    requires forall suffix | suffix in Suffixes :: !EndsWith(s, suffix)
    requires |s| == 0 || s[|s| - 1] != '\n'
    ensures StripCcmSuffix(s) == s
  {
    assert !EndsWith(s, ".mC") && !EndsWith(s, ".cMC") && !EndsWith(s, ".MC");
  }

  const SensorTypes: set<string> := {
    "InAirTemp", "InAirHumid", "InAirCO2", "SoilTemp", "InRadiation", "SoilEC", "SoilWC", "Pulse",
    "InAirHD", "InAirAbsHumid", "InAirDP", "IntgRadiation"}

  const ActuatorTypes: set<string> := {
    "Irri", "VenFan", "CirHoriFan", "AirHeatBurn", "AirHeatHP", "CO2Burn", "VenRfWin", "VenSdWin", "ThCrtn",
    "LsCrtn", "AirCoolHP", "AirHumFog"}

  const WeatherTypes: set<string> := {
    "WAirTemp", "WAirHumid", "WWindSpeed", "WWindDir16", "WRainfall", "WRainfallAmt", "WLUX"}

  /** `classify_ccm_type`: the category by set membership, "other" for anything else. */
  function ClassifyCcmType(t: string): (category: string)
    ensures category == "sensor" <==> t in SensorTypes
    ensures category == "actuator" <==> t in ActuatorTypes
    ensures category == "weather" <==> t in WeatherTypes
    ensures category == "other" <==> t !in SensorTypes + ActuatorTypes + WeatherTypes
  {
    CategoriesDisjoint();
    if t in SensorTypes then "sensor"
    else if t in ActuatorTypes then "actuator"
    else if t in WeatherTypes then "weather"
    else "other"
  }

  /** No type belongs to two categories, so the order of the tests does not matter. */
  lemma CategoriesDisjoint()
    ensures SensorTypes * ActuatorTypes == {} && SensorTypes * WeatherTypes == {} && ActuatorTypes * WeatherTypes == {}
  {
  }

  /** `_make_topic`. */
  function MakeTopic(houseId: string, category: string, ccmType: string): string {
    "agriha/" + houseId + "/ccm/" + category + "/" + ccmType
  }

  /** Topic parts separated by '/' come back out of the topic, five of them. */
  lemma MakeTopicParts(houseId: string, category: string, ccmType: string)
    requires '/' !in houseId && '/' !in category && '/' !in ccmType
    ensures Split(MakeTopic(houseId, category, ccmType), '/') == ["agriha", houseId, "ccm", category, ccmType]
  {
    var tail := category + ['/'] + ccmType;
    var mid := "ccm" + ['/'] + tail;
    var rest := houseId + ['/'] + mid;
    assert MakeTopic(houseId, category, ccmType) == "agriha" + ['/'] + rest;
    SplitWord(category, ccmType);
    SplitWhole(ccmType, '/');
    SplitWord("ccm", tail);
    SplitWord(houseId, mid);
    SplitWord("agriha", rest);
  }

  /** A first part without a separator comes off the front. */
  lemma SplitWord(w: string, rest: string)
    requires '/' !in w
    ensures Split(w + ['/'] + rest, '/') == [w] + Split(rest, '/')
  {
    SplitConcat(w, '/', rest);
    SplitWhole(w, '/');
  }

  /** The receiver's house id: `config["daemon"]["house_id"]`, "h01" when either is missing. */
  function HouseId(config: map<string, Json>): (r: Fallible<Json>)
    ensures "daemon" !in config ==> r == Ok(JStr("h01"))
    ensures "daemon" in config && !config["daemon"].JObj? ==> r == Raised
    ensures "daemon" in config && config["daemon"].JObj? && "house_id" in config["daemon"].fields ==>
      r == Ok(config["daemon"].fields["house_id"])
  {
    match FieldOr(config, "daemon", JObj(map[]))
    case JObj(daemon) => Ok(FieldOr(daemon, "house_id", JStr("h01")))
    case _ => Raised
  }

  /** A parsed XML element: its tag, its attributes and its text (None when it has none). */
  datatype Element = Element(tag: string, attrs: map<string, string>, text: Option<string>)

  /** A reading: `float(text)` when that parses, the text otherwise. */
  datatype CcmValue = Number(x: real) | Text(s: string)

  datatype Packet = Packet(ccmType: string, rawType: string, value: CcmValue, room: int, region: int, order: int,
                           priority: int, level: string, cast: string, sourceIp: string, timestamp: string)

  /** `elem.get(attr, default)`. */
  function Attr(e: Element, attr: string, default: string): string {
    if attr in e.attrs then e.attrs[attr] else default
  }

  /** `n` is what `_int(attr, default)` gives: `int()` of the attribute when it has one that parses, else the default. */
  predicate ReadsInt(e: Element, attr: string, default: int, n: int) {
    (attr in e.attrs && ParseInt(e.attrs[attr]).Some? ==> n == ParseInt(e.attrs[attr]).value)
    && (attr !in e.attrs || ParseInt(e.attrs[attr]).None? ==> n == default)
  }

  /** `_int`: the attribute as an int, the default when it is missing or not an integer. */
  function IntAttr(e: Element, attr: string, default: int): (n: int)
    ensures attr !in e.attrs ==> n == default
    ensures attr in e.attrs && ParseInt(e.attrs[attr]).None? ==> n == default
    ensures attr in e.attrs && ParseInt(e.attrs[attr]).Some? ==> n == ParseInt(e.attrs[attr]).value
  {
    if attr in e.attrs then
      match ParseInt(e.attrs[attr])
      case Some(v) => v
      case None => default
    else default
  }

  /** The packet one DATA element yields. */
  function ToPacket(e: Element, sourceIp: string, now: string, toFloat: FloatParser): (pk: Packet)
    ensures pk.rawType == Attr(e, "type", "") && pk.ccmType == StripCcmSuffix(pk.rawType)
    ensures pk.value.Number? <==> toFloat(Strip(if e.text.Some? then e.text.value else "")).Some?
    ensures pk.value.Text? ==> pk.value.s == Strip(if e.text.Some? then e.text.value else "")
    ensures ReadsInt(e, "room", 1, pk.room) && ReadsInt(e, "region", 1, pk.region)
    ensures ReadsInt(e, "order", 1, pk.order) && ReadsInt(e, "priority", 29, pk.priority)
    ensures "lv" in e.attrs ==> pk.level == e.attrs["lv"]
    ensures "lv" !in e.attrs ==> pk.level == "S"
    ensures "cast" in e.attrs ==> pk.cast == e.attrs["cast"]
    ensures "cast" !in e.attrs ==> pk.cast == "uni"
    ensures pk.sourceIp == sourceIp && pk.timestamp == now
  {
    var rawType := Attr(e, "type", "");
    var rawValue := Strip(if e.text.Some? then e.text.value else "");
    var value := match toFloat(rawValue) case Some(x) => Number(x) case None => Text(rawValue);
    Packet(StripCcmSuffix(rawType), rawType, value, IntAttr(e, "room", 1), IntAttr(e, "region", 1),
           IntAttr(e, "order", 1), IntAttr(e, "priority", 29), Attr(e, "lv", "S"), Attr(e, "cast", "uni"),
           sourceIp, now)
  }

  /** The packets of the DATA children, in document order. */
  function DataPackets(children: seq<Element>, sourceIp: string, now: string, toFloat: FloatParser): (r: seq<Packet>)
    ensures |r| <= |children|
    decreases |children|
  {
    if children == [] then []
    else
      var init := children[..|children| - 1];
      var last := children[|children| - 1];
      DataPackets(init, sourceIp, now, toFloat)
        + (if last.tag == "DATA" then [ToPacket(last, sourceIp, now, toFloat)] else [])
  }

  /** The positions of the DATA children, in document order. */
  function DataIndices(children: seq<Element>): (ix: seq<nat>)
    ensures forall k :: 0 <= k < |ix| ==> ix[k] < |children| && children[ix[k]].tag == "DATA"
    ensures forall j, k :: 0 <= j < k < |ix| ==> ix[j] < ix[k]
    ensures forall i :: 0 <= i < |children| && children[i].tag == "DATA" ==> i in ix
    decreases |children|
  {
    if children == [] then []
    else
      var init := children[..|children| - 1];
      assert forall i :: 0 <= i < |init| ==> init[i] == children[i];
      DataIndices(init) + (if children[|children| - 1].tag == "DATA" then [|children| - 1] else [])
  }

  /** Packet k is the packet of the k-th DATA child: one per DATA child, in order, and nothing else. */
  lemma {:induction false} DataPacketsOfDataChildren(children: seq<Element>, sourceIp: string, now: string,
                                                      toFloat: FloatParser)
    ensures |DataPackets(children, sourceIp, now, toFloat)| == |DataIndices(children)|
    ensures forall k :: 0 <= k < |DataIndices(children)| ==>
      DataPackets(children, sourceIp, now, toFloat)[k] == ToPacket(children[DataIndices(children)[k]], sourceIp, now, toFloat)
    decreases |children|
  {
    if children != [] {
      var init := children[..|children| - 1];
      DataPacketsOfDataChildren(init, sourceIp, now, toFloat);
      var r := DataPackets(children, sourceIp, now, toFloat);
      var rInit := DataPackets(init, sourceIp, now, toFloat);
      var ix := DataIndices(children);
      var ixInit := DataIndices(init);
      forall k | 0 <= k < |ix| ensures r[k] == ToPacket(children[ix[k]], sourceIp, now, toFloat) {
        if k < |ixInit| {
          assert r[k] == rInit[k] && ix[k] == ixInit[k];
          assert init[ixInit[k]] == children[ix[k]];
        }
      }
    }
  }

  /** When every child is a DATA element, packet k comes from child k. */
  lemma {:induction false} DataPacketsAllData(children: seq<Element>, sourceIp: string, now: string, toFloat: FloatParser)
    requires forall k :: 0 <= k < |children| ==> children[k].tag == "DATA"
    ensures |DataPackets(children, sourceIp, now, toFloat)| == |children|
    ensures forall k :: 0 <= k < |children| ==>
      DataPackets(children, sourceIp, now, toFloat)[k] == ToPacket(children[k], sourceIp, now, toFloat)
    decreases |children|
  {
    if children != [] {
      var init := children[..|children| - 1];
      DataPacketsAllData(init, sourceIp, now, toFloat);
      var r := DataPackets(children, sourceIp, now, toFloat);
      var rInit := DataPackets(init, sourceIp, now, toFloat);
      assert r == rInit + [ToPacket(children[|children| - 1], sourceIp, now, toFloat)];
      forall k | 0 <= k < |children| ensures r[k] == ToPacket(children[k], sourceIp, now, toFloat) {
        if k < |init| {
          assert init[k] == children[k];
          assert r[k] == rInit[k];
        } else {
          assert k == |children| - 1;
        }
      }
    }
  }

  lemma DataPacketsStep(children: seq<Element>, i: nat, sourceIp: string, now: string, toFloat: FloatParser)
    requires i < |children|
    ensures DataPackets(children[..i + 1], sourceIp, now, toFloat)
      == DataPackets(children[..i], sourceIp, now, toFloat)
         + (if children[i].tag == "DATA" then [ToPacket(children[i], sourceIp, now, toFloat)] else [])
  {
    assert children[..i + 1][..i] == children[..i];
  }

  /**
   * `parse_ccm_xml`: one packet per DATA child of the root, in order; no
   * packets when the datagram did not parse.
   */
  method ParseCcmXml(root: Option<seq<Element>>, sourceIp: string, now: string, toFloat: FloatParser)
    returns (packets: seq<Packet>)
    ensures root.None? ==> packets == []
    ensures root.Some? ==> packets == DataPackets(root.value, sourceIp, now, toFloat)
  {
    packets := [];
    if root.None? {
      return;
    }
    var children := root.value;
    assert children[..0] == [];
    for i := 0 to |children|
      invariant packets == DataPackets(children[..i], sourceIp, now, toFloat)
    {
      DataPacketsStep(children, i, sourceIp, now, toFloat);
      if children[i].tag == "DATA" {
        packets := packets + [ToPacket(children[i], sourceIp, now, toFloat)];
      }
    }
    assert children[..|children|] == children;
  }

  /** The message `_publish` sends for a packet. */
  function PacketMessage(houseId: string, pk: Packet): (m: Message)
    ensures m.topic == MakeTopic(houseId, ClassifyCcmType(pk.ccmType), pk.ccmType)
    ensures m.qos == 0 && m.retain
  {
    var value := match pk.value case Number(x) => JReal(x) case Text(s) => JStr(s);
    Message(MakeTopic(houseId, ClassifyCcmType(pk.ccmType), pk.ccmType),
            JObj(map["ccm_type" := JStr(pk.ccmType), "value" := value, "room" := JInt(pk.room),
                     "region" := JInt(pk.region), "order" := JInt(pk.order), "priority" := JInt(pk.priority),
                     "level" := JStr(pk.level), "source_ip" := JStr(pk.sourceIp), "timestamp" := JStr(pk.timestamp)]),
            0, true)
  }
}
