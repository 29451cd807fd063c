/**
 * What the daemon sends over MQTT, and how it reads a topic: a message is
 * a topic, a JSON payload, a QoS level and a retain flag; topics are
 * '/'-separated paths.
 */
module Mqtt {
  import opened Json

  datatype Message = Message(topic: string, payload: Json, qos: int, retain: bool)

  /** `agriha/{house_id}/relay/{ch}/set`: where relay commands are sent. */
  function SetTopic(houseId: string, ch: int): string {
    "agriha/" + houseId + "/relay/" + IntToString(ch) + "/set"
  }

  /** `s.split(sep)`: the pieces between the separators, always at least one. */
  function Split(s: string, sep: char): (parts: seq<string>)
    ensures |parts| >= 1
    decreases |s|
  {
    if s == [] then [""]
    else
      var rest := Split(s[1..], sep);
      if s[0] == sep then [""] + rest
      else [[s[0]] + rest[0]] + rest[1..]
  }

  /** No part of a split holds the separator. */
  lemma {:induction false} SplitPartsFree(s: string, sep: char)
    ensures forall k :: 0 <= k < |Split(s, sep)| ==> sep !in Split(s, sep)[k]
    decreases |s|
  {
    if s != [] {
      SplitPartsFree(s[1..], sep);
      var rest := Split(s[1..], sep);
      if s[0] != sep {
        assert sep !in rest[0];
        assert sep !in [s[0]] + rest[0];
      }
    }
  }

  /** Splitting a topic and joining the parts again gives the topic back. */
  lemma {:induction false} JoinSplit(s: string, sep: char)
    ensures Join(Split(s, sep), [sep]) == s
    decreases |s|
  {
    if s != [] {
      var rest := Split(s[1..], sep);
      JoinSplit(s[1..], sep);
      assert s == [s[0]] + s[1..];
      if s[0] == sep {
        assert Split(s, sep) == [""] + rest;
        JoinFront(rest, [sep]);
      } else {
        assert Split(s, sep) == [[s[0]] + rest[0]] + rest[1..];
        JoinCons(rest, [sep], s[0]);
      }
    }
  }

  /** Joining after a leading empty part puts a separator in front. */
  lemma {:induction false} JoinFront(parts: seq<string>, sep: string)
    requires |parts| >= 1
    ensures Join([""] + parts, sep) == sep + Join(parts, sep)
    decreases |parts|
  {
    if |parts| > 1 {
      var init := parts[..|parts| - 1];
      JoinFront(init, sep);
      assert ([""] + parts)[..|parts|] == [""] + init;
    }
  }

  /** Prefixing the first part prefixes the join. */
  lemma {:induction false} JoinCons(parts: seq<string>, sep: string, c: char)
    requires |parts| >= 1
    ensures Join([[c] + parts[0]] + parts[1..], sep) == [c] + Join(parts, sep)
    decreases |parts|
  {
    if |parts| > 1 {
      var init := parts[..|parts| - 1];
      JoinCons(init, sep, c);
      assert ([[c] + parts[0]] + parts[1..])[..|parts| - 1] == [[c] + init[0]] + init[1..];
    }
  }

  /** A separator splits its two sides independently. */
  lemma {:induction false} SplitConcat(a: string, sep: char, b: string)
    ensures Split(a + [sep] + b, sep) == Split(a, sep) + Split(b, sep)
    decreases |a|
  {
    if a == [] {
      assert a + [sep] + b == [sep] + b;
      assert ([sep] + b)[1..] == b;
    } else {
      SplitConcat(a[1..], sep, b);
      SplitStep(a[0], a[1..], sep, b);
      assert a == [a[0]] + a[1..];
      assert a + [sep] + b == [a[0]] + (a[1..] + [sep] + b);
    }
  }

  /** Splitting text that starts with a given character, one step. */
  lemma SplitCons(c: char, t: string, sep: char)
    ensures Split([c] + t, sep) ==
      if c == sep then [""] + Split(t, sep) else [[c] + Split(t, sep)[0]] + Split(t, sep)[1..]
  {
    assert ([c] + t)[0] == c && ([c] + t)[1..] == t;
  }

  /** Extending the first part of a list distributes over appending more parts. */
  lemma ConsFirst(c: char, front: seq<string>, back: seq<string>)
    requires |front| >= 1
    ensures [[c] + (front + back)[0]] + (front + back)[1..] == ([[c] + front[0]] + front[1..]) + back
  {
    var rest := front + back;
    assert rest[0] == front[0] && rest[1..] == front[1..] + back;
  }

  /** One step of `SplitConcat`: a first character in front of the left side. */
  lemma SplitStep(c: char, tail: string, sep: char, b: string)
    requires Split(tail + [sep] + b, sep) == Split(tail, sep) + Split(b, sep)
    ensures Split([c] + (tail + [sep] + b), sep) == Split([c] + tail, sep) + Split(b, sep)
  {
    SplitCons(c, tail + [sep] + b, sep);
    SplitCons(c, tail, sep);
    var front, back := Split(tail, sep), Split(b, sep);
    if c != sep {
      ConsFirst(c, front, back);
    } else {
      assert [""] + (front + back) == ([""] + front) + back;
    }
  }

  /** Text without the separator is a single part. */
  lemma {:induction false} SplitWhole(s: string, sep: char)
    requires sep !in s
    ensures Split(s, sep) == [s]
    decreases |s|
  {
    if s != [] {
      SplitWhole(s[1..], sep);
      assert [s[0]] + s[1..] == s;
    }
  }
}
