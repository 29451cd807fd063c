/**
 * The LINE bot's log importer. `parse_log` reads the bot's text log line
 * by line and recovers the conversation as (role, message, model)
 * entries; `import_entries` inserts them into the conversations table,
 * skipping any whose role and message are already there. The log arrives
 * as its lines (without their newline); the table as its rows.
 */
module ImportLogs {
  import opened Json

  const DefaultModel := "qwen3:8b"
  const QuizModel := "quiz"
  const ImportUserId := "log_import_unknown"
  const ImportSession := "log_import"
  /** 2026-02-19T00:00:00+00:00, in seconds since the epoch. */
  const BaseTs := 1771459200

  const ReceivedPrefix := "INFO:app:Received: "
  const QuizPrefix := "INFO:app:Quiz mode:"
  const RepliedPrefix := "INFO:app:Replied: "

  predicate StartsWith(s: string, prefix: string) {
    |prefix| <= |s| && s[..|prefix|] == prefix
  }

  /** `LOG_LINE_PATTERN`: a line another logger wrote, never part of a message. */
  predicate IsLogLine(line: string) {
    StartsWith(line, "INFO:") || StartsWith(line, "WARNING:") || StartsWith(line, "ERROR:")
    || StartsWith(line, "DEBUG:") || StartsWith(line, "CRITICAL:")
  }

  datatype Entry = Entry(role: string, message: string, model: string)

  /** The parser's variables between two lines. */
  datatype ParseState = ParseState(entries: seq<Entry>, role: Option<string>, lines: seq<string>, model: string,
                                   quizNext: bool)

  const Start := ParseState([], None, [], DefaultModel, false)

  /** `flush_entry`: the entries with the open message, if there is one, appended. */
  function Flush(st: ParseState): (entries: seq<Entry>)
    ensures st.entries <= entries && |entries| <= |st.entries| + 1
  {
    if st.role.Some? && st.lines != [] then st.entries + [Entry(st.role.value, Join(st.lines, "\n"), st.model)]
    else st.entries
  }

  /** A line starts with at most one of the three prefixes the parser looks for. */
  lemma PrefixesExclusive(line: string)
    ensures !(StartsWith(line, ReceivedPrefix) && StartsWith(line, QuizPrefix))
    ensures !(StartsWith(line, ReceivedPrefix) && StartsWith(line, RepliedPrefix))
    ensures !(StartsWith(line, QuizPrefix) && StartsWith(line, RepliedPrefix))
  {
    if StartsWith(line, ReceivedPrefix) {
      assert line[9] == line[..|ReceivedPrefix|][9] == 'R' && line[11] == line[..|ReceivedPrefix|][11] == 'c';
    }
    if StartsWith(line, QuizPrefix) {
      assert line[9] == line[..|QuizPrefix|][9] == 'Q';
    }
    if StartsWith(line, RepliedPrefix) {
      assert line[9] == line[..|RepliedPrefix|][9] == 'R' && line[11] == line[..|RepliedPrefix|][11] == 'p';
    }
  }

  /** Which of the three markers a line starts with, if any. */
  function Marker(line: string): (m: Option<string>)
    ensures m.None? <==> !StartsWith(line, ReceivedPrefix) && !StartsWith(line, QuizPrefix) && !StartsWith(line, RepliedPrefix)
  {
    if StartsWith(line, ReceivedPrefix) then Some(ReceivedPrefix)
    else if StartsWith(line, QuizPrefix) then Some(QuizPrefix)
    else if StartsWith(line, RepliedPrefix) then Some(RepliedPrefix)
    else None
  }

  /** One line of `parse_log`'s loop. */
  function Step(st: ParseState, line: string): (r: ParseState)
    ensures st.entries <= r.entries
    // A Received line closes the open message and opens a user message with the text after the marker.
    ensures StartsWith(line, ReceivedPrefix) ==>
      r.entries == Flush(st) && r.role == Some("user") && r.lines == [line[|ReceivedPrefix|..]]
      && r.model == DefaultModel && !r.quizNext
    // A quiz-mode line only raises the flag.
    ensures StartsWith(line, QuizPrefix) ==> r == st.(quizNext := true)
    // A Replied line closes an open user message only, and opens a reply with the text after the marker.
    ensures StartsWith(line, RepliedPrefix) && st.role == Some("user") && st.lines != [] ==>
      r.entries == st.entries + [Entry("user", Join(st.lines, "\n"), DefaultModel)]
    ensures StartsWith(line, RepliedPrefix) && !(st.role == Some("user") && st.lines != []) ==> r.entries == st.entries
    ensures StartsWith(line, RepliedPrefix) ==>
      r.role == Some("assistant") && r.lines == [line[|RepliedPrefix|..]]
      && r.model == (if st.quizNext then QuizModel else DefaultModel) && r.quizNext == st.quizNext
    // Any other line: another logger's line or an empty one is ignored; text continues an open message.
    ensures Marker(line).None? && (IsLogLine(line) || line == "") ==> r == st
    ensures Marker(line).None? && !IsLogLine(line) && line != "" && st.role.Some? && st.lines != [] ==>
      r == st.(lines := st.lines + [line])
    ensures Marker(line).None? && !(st.role.Some? && st.lines != []) ==> r == st
  {
    PrefixesExclusive(line);
    if StartsWith(line, ReceivedPrefix) then
      ParseState(Flush(st), Some("user"), [line[|ReceivedPrefix|..]], DefaultModel, false)
    else if StartsWith(line, QuizPrefix) then
      st.(quizNext := true)
    else if StartsWith(line, RepliedPrefix) then
      var entries := if st.role == Some("user") && st.lines != []
                     then st.entries + [Entry("user", Join(st.lines, "\n"), DefaultModel)]
                     else st.entries;
      ParseState(entries, Some("assistant"), [line[|RepliedPrefix|..]],
                 if st.quizNext then QuizModel else DefaultModel, st.quizNext)
    else if IsLogLine(line) || line == "" then st
    else if st.role.Some? && st.lines != [] then st.(lines := st.lines + [line])
    else st
  }

  /** The parser's state after a prefix of the log. */
  function Run(log: seq<string>): ParseState
    decreases |log|
  {
    if log == [] then Start else Step(Run(log[..|log| - 1]), log[|log| - 1])
  }

  /** What `parse_log` returns. */
  function Parse(log: seq<string>): seq<Entry> {
    Flush(Run(log))
  }

  /** `parse_log`. */
  method ParseLog(log: seq<string>) returns (entries: seq<Entry>)
    ensures entries == Parse(log)
  {
    entries := [];
    var role: Option<string> := None;
    var lines: seq<string> := [];
    var model := DefaultModel;
    var quizNext := false;
    for i := 0 to |log|
      invariant ParseState(entries, role, lines, model, quizNext) == Run(log[..i])
    {
      assert log[..i + 1][..i] == log[..i];
      var line := log[i];
      if StartsWith(line, ReceivedPrefix) {
        if role.Some? && lines != [] {
          entries := entries + [Entry(role.value, Join(lines, "\n"), model)];
        }
        role := Some("user");
        lines := [line[|ReceivedPrefix|..]];
        model := DefaultModel;
        quizNext := false;
      } else if StartsWith(line, QuizPrefix) {
        quizNext := true;
      } else if StartsWith(line, RepliedPrefix) {
        if role == Some("user") && lines != [] {
          entries := entries + [Entry("user", Join(lines, "\n"), DefaultModel)];
        }
        role := Some("assistant");
        lines := [line[|RepliedPrefix|..]];
        model := if quizNext then QuizModel else DefaultModel;
      } else if IsLogLine(line) || line == "" {
      } else if role.Some? && lines != [] {
        lines := lines + [line];
      }
    }
    assert log[..|log|] == log;
    if role.Some? && lines != [] {
      entries := entries + [Entry(role.value, Join(lines, "\n"), model)];
    }
  }

  /** An entry the parser can produce: a user entry with the default model, or an assistant entry. */
  predicate GoodEntry(e: Entry) {
    (e.role == "user" && e.model == DefaultModel)
    || (e.role == "assistant" && (e.model == DefaultModel || e.model == QuizModel))
  }

  /** The parser's state only ever holds good entries, and its open message would flush as one. */
  predicate GoodState(st: ParseState) {
    (forall k :: 0 <= k < |st.entries| ==> GoodEntry(st.entries[k]))
    && (st.role.Some? ==> GoodEntry(Entry(st.role.value, "", st.model)))
  }

  lemma StepKeepsGood(st: ParseState, line: string)
    requires GoodState(st)
    ensures GoodState(Step(st, line))
  {
  }

  /**
   * Every entry of a parse has role "user" or "assistant", user entries
   * carry the default model, and assistant entries the default or "quiz".
   */
  lemma {:induction false} ParseEntriesGood(log: seq<string>)
    ensures forall k :: 0 <= k < |Parse(log)| ==> GoodEntry(Parse(log)[k])
  {
    RunGood(log);
  }

  lemma {:induction false} RunGood(log: seq<string>)
    ensures GoodState(Run(log))
    decreases |log|
  {
    if log != [] {
      RunGood(log[..|log| - 1]);
      StepKeepsGood(Run(log[..|log| - 1]), log[|log| - 1]);
    }
  }

  /** Entries, once emitted, stay as they are: the parse of a prefix of the log starts the parse of the log. */
  lemma {:induction false} RunExtends(log: seq<string>, n: nat)
    requires n <= |log|
    ensures Run(log[..n]).entries <= Run(log).entries
    decreases |log| - n
  {
    if n < |log| {
      var init := log[..|log| - 1];
      assert log[..n] == init[..n];
      RunExtends(init, n);
    } else {
      assert log[..n] == log;
    }
  }

  /** Has a quiz-mode line been logged since the last Received line? */
  predicate QuizSeen(log: seq<string>)
    decreases |log|
  {
    if log == [] then false
    else
      var last := log[|log| - 1];
      if StartsWith(last, ReceivedPrefix) then false
      else if StartsWith(last, QuizPrefix) then true
      else QuizSeen(log[..|log| - 1])
  }

  /** The parser's quiz flag is exactly "a quiz-mode line since the last Received line". */
  lemma {:induction false} QuizFlagTracksLog(log: seq<string>)
    ensures Run(log).quizNext == QuizSeen(log)
    decreases |log|
  {
    if log != [] {
      QuizFlagTracksLog(log[..|log| - 1]);
    }
  }

  /** A reply is attributed to the quiz model iff a quiz-mode line came since the last Received line. */
  lemma RepliedModel(log: seq<string>, line: string)
    requires StartsWith(line, RepliedPrefix)
    ensures Step(Run(log), line).model == QuizModel <==> QuizSeen(log)
  {
    QuizFlagTracksLog(log);
  }

  /** A row of the conversations table; `timestamp` in seconds since the epoch. */
  datatype Row = Row(timestamp: int, userId: string, role: string, message: string, model: string, sessionId: string)

  /** The duplicate query: is there a row with this role and message? */
  predicate Present(db: seq<Row>, role: string, message: string) {
    exists k :: 0 <= k < |db| && db[k].role == role && db[k].message == message
  }

  datatype Imported = Imported(db: seq<Row>, inserted: nat, skipped: nat)

  /** `import_entries` over a prefix of the entries: the table after it, and the two counters. */
  function Import(entries: seq<Entry>, db: seq<Row>): (r: Imported)
    ensures r.inserted + r.skipped == |entries|
    ensures db <= r.db && |r.db| == |db| + r.inserted
    decreases |entries|
  {
    if entries == [] then Imported(db, 0, 0)
    else
      var before := Import(entries[..|entries| - 1], db);
      var e := entries[|entries| - 1];
      if Present(before.db, e.role, e.message) then before.(skipped := before.skipped + 1)
      else
        Imported(before.db + [Row(BaseTs + |entries| - 1, ImportUserId, e.role, e.message, e.model, ImportSession)],
                 before.inserted + 1, before.skipped)
  }

  /**
   * Entry k is skipped exactly when its role and message are in the table
   * as it stands when it is reached, rows inserted earlier in the run
   * included; otherwise it is inserted stamped BASE_TS + k.
   */
  lemma ImportEntry(entries: seq<Entry>, db: seq<Row>, k: nat)
    requires k < |entries|
    ensures var before := Import(entries[..k], db);
      var after := Import(entries[..k + 1], db);
      var e := entries[k];
      (Present(before.db, e.role, e.message) ==>
         after == Imported(before.db, before.inserted, before.skipped + 1))
      && (!Present(before.db, e.role, e.message) ==>
         after == Imported(before.db + [Row(BaseTs + k, ImportUserId, e.role, e.message, e.model, ImportSession)],
                           before.inserted + 1, before.skipped))
  {
    assert entries[..k + 1][..k] == entries[..k];
  }

  /** Later entries only add rows: the table after a prefix of the entries starts the final table. */
  lemma {:induction false} ImportExtends(entries: seq<Entry>, db: seq<Row>, n: nat)
    requires n <= |entries|
    ensures Import(entries[..n], db).db <= Import(entries, db).db
    decreases |entries| - n
  {
    if n < |entries| {
      var init := entries[..|entries| - 1];
      assert entries[..n] == init[..n];
      ImportExtends(init, db, n);
    } else {
      assert entries[..n] == entries;
    }
  }

  /** `import_entries`: the table afterwards and the (inserted, skipped) counts. */
  method ImportEntries(entries: seq<Entry>, db: seq<Row>) returns (newDb: seq<Row>, inserted: nat, skipped: nat)
    ensures Imported(newDb, inserted, skipped) == Import(entries, db)
    ensures inserted + skipped == |entries|
  {
    newDb, inserted, skipped := db, 0, 0;
    for i := 0 to |entries|
      invariant Imported(newDb, inserted, skipped) == Import(entries[..i], db)
    {
      assert entries[..i + 1][..i] == entries[..i];
      var e := entries[i];
      if Present(newDb, e.role, e.message) {
        skipped := skipped + 1;
        continue;
      }
      newDb := newDb + [Row(BaseTs + i, ImportUserId, e.role, e.message, e.model, ImportSession)];
      inserted := inserted + 1;
    }
    assert entries[..|entries|] == entries;
  }

  /** No two rows share a role and a message. */
  predicate NoDuplicates(db: seq<Row>) {
    forall i, j :: 0 <= i < j < |db| ==> !(db[i].role == db[j].role && db[i].message == db[j].message)
  }

  /** Importing never creates a duplicate, so a duplicate-free table stays duplicate-free. */
  lemma {:induction false} ImportKeepsNoDuplicates(entries: seq<Entry>, db: seq<Row>)
    requires NoDuplicates(db)
    ensures NoDuplicates(Import(entries, db).db)
    decreases |entries|
  {
    if entries != [] {
      ImportKeepsNoDuplicates(entries[..|entries| - 1], db);
    }
  }

  /** Afterwards every entry's role and message are in the table, inserted now or earlier. */
  lemma {:induction false} ImportCovers(entries: seq<Entry>, db: seq<Row>)
    ensures forall k :: 0 <= k < |entries| ==> Present(Import(entries, db).db, entries[k].role, entries[k].message)
    decreases |entries|
  {
    if entries != [] {
      var init := entries[..|entries| - 1];
      ImportCovers(init, db);
      var before := Import(init, db).db;
      var after := Import(entries, db).db;
      assert before <= after;
      forall k | 0 <= k < |entries| ensures Present(after, entries[k].role, entries[k].message) {
        if k < |init| {
          assert init[k] == entries[k];
          var j :| 0 <= j < |before| && before[j].role == init[k].role && before[j].message == init[k].message;
          assert after[j] == before[j];
        } else if !Present(before, entries[k].role, entries[k].message) {
          assert after[|after| - 1].role == entries[k].role && after[|after| - 1].message == entries[k].message;
        } else {
          var j :| 0 <= j < |before| && before[j].role == entries[k].role && before[j].message == entries[k].message;
          assert after[j] == before[j];
        }
      }
    }
  }

  /** Each row from index `from` on is the row of the entry whose index its stamp encodes. */
  predicate RowsOfEntries(rows: seq<Row>, from: nat, entries: seq<Entry>) {
    forall j :: from <= j < |rows| ==>
      var k := rows[j].timestamp - BaseTs;
      0 <= k < |entries|
      && rows[j] == Row(BaseTs + k, ImportUserId, entries[k].role, entries[k].message, entries[k].model, ImportSession)
  }

  /** Every row the import adds is entry i's, stamped BASE_TS + i. */
  lemma {:induction false} ImportRows(entries: seq<Entry>, db: seq<Row>)
    ensures RowsOfEntries(Import(entries, db).db, |db|, entries)
    decreases |entries|
  {
    if entries != [] {
      var init := entries[..|entries| - 1];
      ImportRows(init, db);
      var before := Import(init, db).db;
      var after := Import(entries, db).db;
      forall j | |db| <= j < |after|
        ensures var k := after[j].timestamp - BaseTs;
          0 <= k < |entries|
          && after[j] == Row(BaseTs + k, ImportUserId, entries[k].role, entries[k].message, entries[k].model, ImportSession)
      {
        if j < |before| {
          assert after[j] == before[j];
          assert init[before[j].timestamp - BaseTs] == entries[before[j].timestamp - BaseTs];
        }
      }
    }
  }

  /** The rows from index `from` on carry timestamps in [lo, hi), strictly increasing. */
  predicate StampedInOrder(rows: seq<Row>, from: nat, lo: int, hi: int) {
    (forall j :: from <= j < |rows| ==> lo <= rows[j].timestamp < hi)
    && (forall i, j :: from <= i < j < |rows| ==> rows[i].timestamp < rows[j].timestamp)
  }

  /** The rows added carry timestamps from BASE_TS on, strictly increasing, below BASE_TS + the entry count. */
  lemma {:induction false} ImportTimestamps(entries: seq<Entry>, db: seq<Row>)
    ensures StampedInOrder(Import(entries, db).db, |db|, BaseTs, BaseTs + |entries|)
    decreases |entries|
  {
    if entries != [] {
      var init := entries[..|entries| - 1];
      ImportTimestamps(init, db);
      var before := Import(init, db).db;
      var after := Import(entries, db).db;
      var e := entries[|entries| - 1];
      if !Present(before, e.role, e.message) {
        var row := Row(BaseTs + |entries| - 1, ImportUserId, e.role, e.message, e.model, ImportSession);
        assert after == before + [row];
        forall j | |db| <= j < |after|
          ensures BaseTs <= after[j].timestamp < BaseTs + |entries|
        {
          if j < |before| {
            assert after[j] == before[j];
          }
        }
        forall i, j | |db| <= i < j < |after|
          ensures after[i].timestamp < after[j].timestamp
        {
          assert after[i] == before[i];
          if j < |before| {
            assert after[j] == before[j];
          }
        }
      }
    }
  }
}
