/**
 * Values shared by every layer: the decoded JSON/YAML documents the
 * programs read and write, Python's truthiness and the numeric conversions
 * the code applies to them, and the outcome of a call whose exception is
 * not caught.
 */
module Json {

  datatype Option<T> = None | Some(value: T)

  /** The result of a Python function: a value, or an exception that escapes it. */
  datatype Fallible<T> = Ok(value: T) | Raised {
    predicate IsFailure() {
      Raised?
    }

    function PropagateFailure<U>(): Fallible<U>
      requires Raised?
    {
      Raised
    }

    function Extract(): T
      requires Ok?
    {
      value
    }
  }

  /** A decoded JSON or YAML document. Objects have string keys. */
  datatype Json =
    | JNull
    | JBool(b: bool)
    | JInt(i: int)
    | JReal(r: real)
    | JStr(s: string)
    | JArr(items: seq<Json>)
    | JObj(fields: map<string, Json>)

  /**
   * `datetime.fromisoformat` as seen by the model: the absolute time (in
   * seconds) a string denotes, or None when it raises ValueError.
   */
  type IsoParser = string -> Option<int>

  /** `float(s)` for a string: the number it denotes, or None when it raises ValueError. */
  type FloatParser = string -> Option<real>

  /**
   * Whether the datetime `fromisoformat(s)` returns carries a UTC offset
   * ("...+09:00", "...Z"). One without an offset cannot be compared with
   * the offset-aware current time the programs use: the comparison raises
   * TypeError.
   */
  type OffsetTest = string -> bool

  /** The library parsers the programs apply to text read from documents. */
  datatype Parsers = Parsers(iso: IsoParser, toFloat: FloatParser, hasOffset: OffsetTest)

  /** `fromisoformat("")` raises: the one fact about the parser the layers rely on. */
  predicate RejectsEmpty(iso: IsoParser) {
    iso("") == None
  }

  /**
   * `datetime.fromisoformat(x)` on a decoded value, followed by the
   * comparison with the offset-aware current time every caller makes: None
   * where parsing raises ValueError (text it rejects, including ""), Raised
   * where it raises TypeError (anything that is not text) or where the
   * parsed time has no UTC offset and the comparison raises TypeError.
   */
  function IsoTime(j: Json, p: Parsers): (r: Fallible<Option<int>>)
    ensures r.Raised? <==> !j.JStr? || (j.s != "" && p.iso(j.s).Some? && !p.hasOffset(j.s))
    ensures j == JStr("") ==> r == Ok(None)
    ensures j.JStr? && j.s != "" && (p.iso(j.s).None? || p.hasOffset(j.s)) ==> r == Ok(p.iso(j.s))
  {
    match j
    case JStr(s) =>
      if s == "" then Ok(None)
      else if p.iso(s).Some? && !p.hasOffset(s) then Raised
      else Ok(p.iso(s))
    case _ => Raised
  }

  /**
   * The elements a `for x in j:` loop visits when its body calls
   * `x.get(...)`: a list gives its items; empty text or an empty object
   * gives none; non-empty text or a non-empty object gives strings, whose
   * `.get` raises AttributeError; anything else is not iterable.
   */
  function Elements(j: Json): (r: Fallible<seq<Json>>)
    ensures j.JArr? ==> r == Ok(j.items)
  {
    match j
    case JArr(xs) => Ok(xs)
    case JStr(s) => if s == "" then Ok([]) else Raised
    case JObj(m) => if m == map[] then Ok([]) else Raised
    case _ => Raised
  }

  /** `d.get(key)` on an object; None when the key is absent. */
  function Field(d: map<string, Json>, key: string): (r: Option<Json>)
    ensures r.Some? <==> key in d
    ensures r.Some? ==> r.value == d[key]
  {
    if key in d then Some(d[key]) else None
  }

  /** `d.get(key, default)` on an object. */
  function FieldOr(d: map<string, Json>, key: string, default: Json): (r: Json)
    ensures key in d ==> r == d[key]
    ensures key !in d ==> r == default
  {
    if key in d then d[key] else default
  }

  /** Python's `bool(x)`. */
  predicate Truthy(j: Json) {
    match j
    case JNull => false
    case JBool(b) => b
    case JInt(i) => i != 0
    case JReal(r) => r != 0.0
    case JStr(s) => s != ""
    case JArr(xs) => |xs| > 0
    case JObj(m) => |m| > 0
  }

  /** `isinstance(x, int)` — in Python a bool is an int (True == 1). */
  function AsInt(j: Json): (r: Option<int>)
    ensures r.Some? <==> (j.JInt? || j.JBool?)
    ensures j.JInt? ==> r == Some(j.i)
  {
    match j
    case JInt(i) => Some(i)
    case JBool(b) => Some(if b then 1 else 0)
    case _ => None
  }

  /** `isinstance(x, (int, float))` and the number it denotes. */
  function AsNumber(j: Json): (r: Option<real>)
    ensures r.Some? <==> (j.JInt? || j.JBool? || j.JReal?)
    ensures j.JInt? ==> r == Some(j.i as real)
    ensures j.JReal? ==> r == Some(j.r)
  {
    match j
    case JInt(i) => Some(i as real)
    case JBool(b) => Some(if b then 1.0 else 0.0)
    case JReal(r) => Some(r)
    case _ => None
  }

  /** `float(x)` for a decoded value: numbers convert, text is parsed, anything else raises. */
  function ToFloat(j: Json, p: Parsers): (r: Fallible<real>)
    ensures AsNumber(j).Some? ==> r == Ok(AsNumber(j).value)
    ensures (j.JNull? || j.JArr? || j.JObj?) ==> r == Raised
  {
    match j
    case JStr(s) => (match p.toFloat(s) case Some(x) => Ok(x) case None => Raised)
    case _ => (match AsNumber(j) case Some(x) => Ok(x) case None => Raised)
  }

  /** Python's `int(x)` for a decoded value: numbers truncate toward zero, text is read by `ParseInt`. */
  function PyInt(j: Json): (r: Fallible<int>)
    ensures j.JInt? ==> r == Ok(j.i)
    ensures j.JReal? ==> r == Ok(Truncate(j.r))
    ensures j.JBool? ==> r == Ok(if j.b then 1 else 0)
    ensures j.JStr? ==> (r.Ok? <==> ParseInt(j.s).Some?) && (r.Ok? ==> r.value == ParseInt(j.s).value)
    ensures (j.JNull? || j.JArr? || j.JObj?) ==> r == Raised
  {
    match j
    case JInt(i) => Ok(i)
    case JBool(b) => Ok(if b then 1 else 0)
    case JReal(x) => Ok(Truncate(x))
    case JStr(s) => (match ParseInt(s) case Some(n) => Ok(n) case None => Raised)
    case _ => Raised
  }

  /** Python's `x > n` for an int `n`: only numbers compare, anything else raises TypeError. */
  function GreaterThan(j: Json, n: int): (r: Fallible<bool>)
    ensures r.Ok? <==> AsNumber(j).Some?
    ensures r.Ok? ==> (r.value <==> AsNumber(j).value > n as real)
  {
    match AsNumber(j)
    case Some(x) => Ok(x > n as real)
    case None => Raised
  }

  /** Python's `x == n` for an int literal `n` (so `True == 1` and `1.0 == 1`). */
  predicate EqualsInt(j: Json, n: int) {
    AsNumber(j) == Some(n as real)
  }

  /** `int(r)` for a float: truncation toward zero. */
  function Truncate(r: real): (n: int)
    ensures r >= 0.0 ==> n as real <= r < n as real + 1.0
    ensures r < 0.0 ==> n as real - 1.0 < r <= n as real
  {
    if r >= 0.0 then r.Floor else -((-r).Floor)
  }

  predicate IsDigit(c: char) {
    '0' <= c <= '9'
  }

  function DigitsValue(s: string): (n: nat)
    requires forall k :: 0 <= k < |s| ==> IsDigit(s[k])
    decreases |s|
  {
    if s == [] then 0
    else
      assert IsDigit(s[|s| - 1]);
      10 * DigitsValue(s[..|s| - 1]) + (s[|s| - 1] as int - '0' as int)
  }

  /**
   * `str.isspace` for one character: the ASCII controls tab to carriage
   * return, the separators U+001C to U+001F, space, and the Unicode
   * spaces and line and paragraph separators.
   */
  predicate IsSpace(c: char) {
    ('\t' <= c <= '\r') || ('\U{1C}' <= c <= ' ') || c == '\U{85}' || c == '\U{A0}' || c == '\U{1680}'
    || ('\U{2000}' <= c <= '\U{200A}') || c == '\U{2028}' || c == '\U{2029}' || c == '\U{202F}'
    || c == '\U{205F}' || c == '\U{3000}'
  }

  predicate AllSpace(t: string) {
    forall k :: 0 <= k < |t| ==> IsSpace(t[k])
  }

  /** `s.lstrip()`: drops the leading whitespace. */
  function TrimStart(s: string): (r: string)
    ensures |r| <= |s|
    ensures r == [] || !IsSpace(r[0])
    decreases |s|
  {
    if s != [] && IsSpace(s[0]) then TrimStart(s[1..]) else s
  }

  /** `s.rstrip()`: drops the trailing whitespace. */
  function TrimEnd(s: string): (r: string)
    ensures |r| <= |s|
    ensures r == [] || !IsSpace(r[|r| - 1])
    decreases |s|
  {
    if s != [] && IsSpace(s[|s| - 1]) then TrimEnd(s[..|s| - 1]) else s
  }

  /** `lstrip` keeps a suffix and drops only whitespace. */
  lemma {:induction false} TrimStartDropsSpace(s: string)
    ensures TrimStart(s) == s[|s| - |TrimStart(s)|..]
    ensures AllSpace(s[..|s| - |TrimStart(s)|])
    decreases |s|
  {
    if s != [] && IsSpace(s[0]) {
      TrimStartDropsSpace(s[1..]);
      var r := TrimStart(s[1..]);
      assert s[1..][|s| - 1 - |r|..] == s[|s| - |r|..];
      assert s[..|s| - |r|] == [s[0]] + s[1..][..|s| - 1 - |r|];
    }
  }

  /** `rstrip` keeps a prefix and drops only whitespace. */
  lemma {:induction false} TrimEndDropsSpace(s: string)
    ensures TrimEnd(s) == s[..|TrimEnd(s)|]
    ensures AllSpace(s[|TrimEnd(s)|..])
    decreases |s|
  {
    if s != [] && IsSpace(s[|s| - 1]) {
      TrimEndDropsSpace(s[..|s| - 1]);
      var r := TrimEnd(s[..|s| - 1]);
      assert s[..|s| - 1][..|r|] == s[..|r|];
      assert s[|r|..] == s[..|s| - 1][|r|..] + [s[|s| - 1]];
    }
  }

  /** `s.strip()`. */
  function Strip(s: string): string {
    TrimEnd(TrimStart(s))
  }

  /** Leading whitespace in front of text that starts with none is exactly what `lstrip` drops. */
  lemma {:induction false} TrimStartPadded(pre: string, s: string)
    requires AllSpace(pre) && (s == [] || !IsSpace(s[0]))
    ensures TrimStart(pre + s) == s
    decreases |pre|
  {
    if pre != [] {
      assert (pre + s)[1..] == pre[1..] + s;
      TrimStartPadded(pre[1..], s);
    } else {
      assert pre + s == s;
    }
  }

  /** Trailing whitespace after text that ends with none is exactly what `rstrip` drops. */
  lemma {:induction false} TrimEndPadded(s: string, post: string)
    requires AllSpace(post) && (s == [] || !IsSpace(s[|s| - 1]))
    ensures TrimEnd(s + post) == s
    decreases |post|
  {
    if post != [] {
      assert (s + post)[..|s + post| - 1] == s + post[..|post| - 1];
      TrimEndPadded(s, post[..|post| - 1]);
    } else {
      assert s + post == s;
    }
  }

  /**
   * The digits of an integer literal as `int()` reads them: ASCII digits,
   * with single underscores allowed between two digits.
   */
  predicate IsDigitRun(s: string) {
    s != [] && IsDigit(s[0]) && IsDigit(s[|s| - 1])
    && forall k :: 0 <= k < |s| ==> IsDigit(s[k]) || (s[k] == '_' && k + 1 < |s| && IsDigit(s[k + 1]))
  }

  /** The digits of a literal with its underscores removed. */
  function {:induction false} DropUnderscores(s: string): (d: string)
    ensures (forall k :: 0 <= k < |s| ==> IsDigit(s[k]) || s[k] == '_') ==> forall k :: 0 <= k < |d| ==> IsDigit(d[k])
    ensures '_' !in s ==> d == s
    decreases |s|
  {
    if s == [] then []
    else
      assert forall k :: 1 <= k < |s| ==> s[1..][k - 1] == s[k];
      (if s[0] == '_' then [] else [s[0]]) + DropUnderscores(s[1..])
  }

  /**
   * `int(s)` for a string: surrounding whitespace is ignored, then an
   * optional sign and a run of ASCII digits; None where Python raises.
   */
  function ParseInt(s: string): Option<int> {
    ParseLiteral(Strip(s))
  }

  /** `int(s)` accepts only a digit run, signed or not, once the whitespace is stripped. */
  lemma ParseIntShape(s: string)
    ensures ParseInt(s).Some? ==> IsDigitRun(Strip(s)) || (|Strip(s)| > 0 && IsDigitRun(Strip(s)[1..]))
  {
  }

  /** An integer literal with no surrounding whitespace: an optional sign, then a run of digits. */
  function ParseLiteral(t: string): (r: Option<int>)
    ensures r.Some? ==> IsDigitRun(t) || (|t| > 0 && IsDigitRun(t[1..]))
    ensures r.Some? && t != [] && IsDigit(t[0]) ==> r.value >= 0
  {
    var signed := |t| > 0 && (t[0] == '-' || t[0] == '+');
    var body := if signed then t[1..] else t;
    if !IsDigitRun(body) then None
    else
      assert forall k :: 0 <= k < |body| ==> IsDigit(body[k]) || body[k] == '_' by {
        forall k | 0 <= k < |body| ensures IsDigit(body[k]) || body[k] == '_' {
          assert IsDigit(body[k]) || (body[k] == '_' && k + 1 < |body| && IsDigit(body[k + 1]));
        }
      }
      var v: int := DigitsValue(DropUnderscores(body));
      Some(if signed && t[0] == '-' then -v else v)
  }

  function NatToString(n: nat): (s: string)
    ensures s != [] && forall k :: 0 <= k < |s| ==> IsDigit(s[k])
    decreases n
  {
    if n < 10 then [('0' as int + n) as char]
    else NatToString(n / 10) + [('0' as int + n % 10) as char]
  }

  /** `str(n)` for an int. */
  function IntToString(n: int): string {
    if n < 0 then "-" + NatToString(-n) else NatToString(n)
  }

  /** Python's `s[:n]`. */
  function Take<T>(s: seq<T>, n: nat): (r: seq<T>)
    ensures |r| <= n && r <= s
    ensures |s| <= n ==> r == s
  {
    if |s| <= n then s else s[..n]
  }

  /** `sep.join(parts)`. */
  function Join(parts: seq<string>, sep: string): (r: string)
    ensures (forall k :: 0 <= k < |parts| ==> parts[k] != []) ==> (r == [] <==> parts == [])
    decreases |parts|
  {
    if parts == [] then ""
    else if |parts| == 1 then parts[0]
    else Join(parts[..|parts| - 1], sep) + sep + parts[|parts| - 1]
  }

  /**
   * `str(x)` for the values whose rendering the model needs: null, booleans,
   * integers and text. None for floats, lists and objects, whose renderings
   * the model does not spell out.
   */
  function PyStr(j: Json): (r: Option<string>)
    ensures j.JStr? ==> r == Some(j.s)
    ensures j.JInt? ==> r == Some(IntToString(j.i))
  {
    match j
    case JNull => Some("None")
    case JBool(b) => Some(if b then "True" else "False")
    case JInt(i) => Some(IntToString(i))
    case JStr(s) => Some(s)
    case _ => None
  }

  /** `f"{x}"` where the model spells the rendering out, "" elsewhere. */
  function Show(j: Json): (r: string)
    ensures PyStr(j).Some? ==> r == PyStr(j).value
  {
    if PyStr(j).Some? then PyStr(j).value else ""
  }

  /** Joining lines that all start with `pre` gives text that starts with `pre`. */
  lemma {:induction false} JoinKeepsPrefix(lines: seq<string>, sep: string, pre: string)
    requires |lines| > 0 && forall k :: 0 <= k < |lines| ==> pre <= lines[k]
    ensures pre <= Join(lines, sep)
    decreases |lines|
  {
    if |lines| > 1 {
      JoinKeepsPrefix(lines[..|lines| - 1], sep, pre);
      var j := Join(lines[..|lines| - 1], sep);
      assert (j + sep + lines[|lines| - 1])[..|pre|] == j[..|pre|];
    }
  }

  lemma {:induction false} NatToStringValue(n: nat)
    ensures DigitsValue(NatToString(n)) == n
    decreases n
  {
    if n >= 10 {
      NatToStringValue(n / 10);
      var s := NatToString(n);
      assert s[..|s| - 1] == NatToString(n / 10);
    }
  }

  /** Decimal rendering round-trips through `int()`. */
  lemma ParseIntOfIntToString(n: int)
    ensures ParseInt(IntToString(n)) == Some(n)
  {
    var s := IntToString(n);
    ParseLiteralOfIntToString(n);
    StripPadded(s, "", "");
    assert "" + s + "" == s;
    assert Strip(s) == s;
  }

  /** `int()` reads a decimal rendering back whatever whitespace surrounds it. */
  lemma ParseIntPadded(n: int, pre: string, post: string)
    requires AllSpace(pre) && AllSpace(post)
    ensures ParseInt(pre + IntToString(n) + post) == Some(n)
  {
    StripPadded(IntToString(n), pre, post);
    ParseLiteralOfIntToString(n);
  }

  /** `strip` removes exactly the padding around text that neither starts nor ends with whitespace. */
  lemma StripPadded(s: string, pre: string, post: string)
    requires s != [] && !IsSpace(s[0]) && !IsSpace(s[|s| - 1])
    requires AllSpace(pre) && AllSpace(post)
    ensures Strip(pre + s + post) == s
  {
    assert pre + s + post == pre + (s + post);
    TrimStartPadded(pre, s + post);
    TrimEndPadded(s, post);
  }

  /** The literal `str(n)` reads back as `n`. */
  lemma ParseLiteralOfIntToString(n: int)
    ensures var s := IntToString(n); s != [] && !IsSpace(s[0]) && !IsSpace(s[|s| - 1]) && ParseLiteral(s) == Some(n)
  {
    var m: nat := if n < 0 then -n else n;
    var d := NatToString(m);
    NatToStringValue(m);
    DigitsNotSpace(d);
    var s := IntToString(n);
    if n < 0 {
      ParseLiteralOfNegatedDigits(d);
      assert s == "-" + d;
      assert s[|s| - 1] == d[|d| - 1];
    } else {
      ParseLiteralOfDigits(d);
      assert s == d;
    }
  }

  /** A plain digit string reads back as its value. */
  lemma ParseLiteralOfDigits(d: string)
    requires d != [] && forall k :: 0 <= k < |d| ==> IsDigit(d[k])
    ensures ParseLiteral(d) == Some(DigitsValue(d))
  {
    PlainDigits(d);
    assert IsDigit(d[0]);
  }

  /** A plain digit string after a minus sign reads back as its value negated. */
  lemma ParseLiteralOfNegatedDigits(d: string)
    requires d != [] && forall k :: 0 <= k < |d| ==> IsDigit(d[k])
    ensures ParseLiteral("-" + d) == Some(-(DigitsValue(d) as int))
  {
    PlainDigits(d);
    var t := "-" + d;
    assert t[0] == '-' && t[1..] == d;
  }

  /** Digits are not whitespace. */
  lemma DigitsNotSpace(d: string)
    requires d != [] && forall k :: 0 <= k < |d| ==> IsDigit(d[k])
    ensures !IsSpace(d[0]) && !IsSpace(d[|d| - 1])
  {
    assert IsDigit(d[0]) && IsDigit(d[|d| - 1]);
  }

  /** Digits without underscores form a literal that is its own digit string. */
  lemma PlainDigits(d: string)
    requires d != [] && forall k :: 0 <= k < |d| ==> IsDigit(d[k])
    ensures IsDigitRun(d) && DropUnderscores(d) == d
  {
    assert '_' !in d by {
      forall k | 0 <= k < |d| ensures d[k] != '_' {
        assert IsDigit(d[k]);
      }
    }
  }



}
