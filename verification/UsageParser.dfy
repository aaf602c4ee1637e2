/** The parser and the store as they run: loops over records, blocks and rows, proved against the pass they compute. */
module UsageParser {
  import opened Options
  import opened Lines
  import opened UsageRecords
  import opened UsageScan
  import opened UsageCut
  import opened UsageLookback
  import opened UsageTables
  import opened UsageTheorems

  /** Interrupts and failed calls of a user record. */
  method UserRecord(blocks: seq<Block>, e: Event, t: map<ToolKey, Tool>, toolAt: map<string, ToolKey>)
    returns (event: Event, tools: map<ToolKey, Tool>)
    ensures event == Interrupted(e, blocks)
    ensures tools == WithErrors(t, toolAt, blocks)
  {
    event, tools := e, t;
    for i := 0 to |blocks|
      invariant event == Interrupted(e, blocks[..i])
      invariant tools == WithErrors(t, toolAt, blocks[..i])
    {
      assert blocks[..i + 1][..i] == blocks[..i];
      match blocks[i]
      case Text(interrupt) =>
        if interrupt == ForTool {
          event := event.(interruptsTool := event.interruptsTool + 1);
        } else if interrupt == ByPerson {
          event := event.(interrupts := event.interrupts + 1);
        }
      case Failed(use) =>
        if use in toolAt && toolAt[use] in tools {
          var row := tools[toolAt[use]];
          tools := tools[toolAt[use] := row.(errors := row.errors + 1)];
        }
      case _ =>
    }
    assert blocks[..|blocks|] == blocks;
  }

  /** Thoughts and calls of an answer's record. A call met before is not counted again. */
  method Content(blocks: seq<Block>, answer: Answer, l: Ledger, agent: string)
    returns (thinking: nat, ledger: Ledger)
    ensures thinking == Thoughts(blocks)
    ensures ledger == WithCalls(l, answer.bucket, agent, blocks)
  {
    thinking := 0;
    var tools, toolAt, seen := l.tools, l.toolAt, l.seen;
    for i := 0 to |blocks|
      invariant thinking == Thoughts(blocks[..i])
      invariant Ledger(tools, toolAt, seen) == WithCalls(l, answer.bucket, agent, blocks[..i])
    {
      assert blocks[..i + 1][..i] == blocks[..i];
      if blocks[i].Thinking? {
        thinking := thinking + 1;
      } else if blocks[i].Call? {
        var call, name := blocks[i].id, blocks[i].name;
        if call != "" && call in seen {
          continue;
        }
        if call != "" {
          seen := seen + {call};
        }
        if name == "" {
          continue;
        }
        var key := ToolKey(answer.bucket, agent, name);
        var row := if key in tools then tools[key] else Tool(0, 0);
        tools := tools[key := row.(calls := row.calls + 1)];
        if call != "" {
          toolAt := toolAt[call := key];
        }
      }
    }
    assert blocks[..|blocks|] == blocks;
    ledger := Ledger(tools, toolAt, seen);
  }

  /** The maps and clocks a pass updates record by record. */
  class Reader {
    var events: map<EventKey, Event>
    var ledger: Ledger
    var order: seq<string>
    var answers: map<string, Answer>
    var kinds: map<string, string>
    var hours: map<nat, Span>
    var lastUser: Option<int>
    var lastAnswer: Option<int>
    var first: nat

    constructor (s: Scan)
      ensures State() == s
    {
      events, ledger, order, answers := s.events, s.ledger, s.order, s.answers;
      kinds, hours, lastUser, lastAnswer, first := s.kinds, s.hours, s.lastUser, s.lastAnswer, s.first;
    }

    function State(): Scan
      reads this
    {
      Scan(events, ledger, order, answers, kinds, hours, lastUser, lastAnswer, first)
    }

    method User(r: Record, start: nat)
      requires r.User?
      modifies this
      ensures State() == UserStep(old(State()), start, r)
    {
      var hour := HourAt(r);
      var event := Get(events, EventKey(hour, r.agent), NO_EVENT);
      event := event.(messages := event.messages + 1);
      if r.compact {
        event := event.(compacts := event.compacts + 1);
      }
      if r.human && lastAnswer.Some? {
        var ms := MsOf(r.stamp);
        if ms.Some? && ms.value >= lastAnswer.value {
          event := event.(idle := AddIdle(event.idle, ms.value - lastAnswer.value));
        }
        lastAnswer := None;
      }
      var tools := ledger.tools;
      event, tools := UserRecord(r.blocks, event, tools, ledger.toolAt);
      events := events[EventKey(hour, r.agent) := event];
      ledger := ledger.(tools := tools);
      if r.stamp.At? {
        lastUser := MsOf(r.stamp);
      }
      hours := Mark(hours, hour, start);
    }

    /** The answer a record belongs to; a new one takes the wait since the last prompt with it. */
    method Opened(r: Record) returns (answer: UsageScan.Answer)
      requires Answers(r)
      modifies this`order, this`lastUser
      ensures answer == AnswerOf(answers, old(lastUser), r)
      ensures order == if r.mid in answers then old(order) else old(order) + [r.mid]
      ensures lastUser == if r.mid in answers then old(lastUser) else None
    {
      if r.mid in answers {
        return answers[r.mid];
      }
      answer := UsageScan.Answer(HourAt(r), r.model, r.agent, "", "", NO_TOKENS, 0, None);
      order := order + [r.mid];
      if lastUser.Some? {
        var ms := MsOf(r.stamp);
        if ms.Some? && ms.value >= lastUser.value {
          answer := answer.(latency := Some(ms.value - lastUser.value));
        }
        lastUser := None;
      }
    }

    method Answer(r: Record, start: nat)
      requires Answers(r)
      modifies this
      ensures State() == AnswerStep(old(State()), start, r)
    {
      var answer := Opened(r);
      hours := Mark(hours, answer.bucket, start);
      hours := Mark(hours, HourAt(r), start);
      if r.attribution != "" {
        kinds := kinds[r.agent := r.attribution];
      }
      var heard := Used(answer, r.usage);
      var thinking, ledger' := Content(r.blocks, answer, ledger, r.agent);
      ledger := ledger';
      answers := answers[r.mid := heard.(thinking := heard.thinking + thinking)];
    }

    method Assistant(r: Record, start: nat)
      requires r.Assistant?
      modifies this
      ensures State() == AssistantStep(old(State()), start, r)
    {
      var key := EventKey(HourAt(r), r.agent);
      var event := Get(events, key, NO_EVENT);
      event := event.(messages := event.messages + 1);
      events := events[key := event];
      if r.stamp.At? {
        lastAnswer := OrElse(MsOf(r.stamp), lastAnswer);
      }
      if r.synthetic {
        events := events[key := event.(apiErrors := event.apiErrors + 1)];
        hours := Mark(hours, HourAt(r), start);
        return;
      }
      if HourAt(r) == 0 {
        return;
      }
      Answer(r, start);
    }

    method Take(r: Record, start: nat)
      modifies this
      ensures State() == Step(old(State()), start, r)
    {
      if first == 0 {
        first := HourAt(r);
      }
      if r.User? {
        User(r, start);
      } else if r.Assistant? {
        Assistant(r, start);
      } else {
        hours := Mark(hours, HourAt(r), start);
      }
    }
  }

  /** The records of the lines [lo, hi), read one by one. */
  method ReadLines(lines: seq<Entry>, lo: nat, hi: nat) returns (s: Scan)
    requires lo <= hi <= |lines|
    ensures s == Run(Begin(lines, lo), lines, lo, hi)
  {
    var pos := Pos(lines, lo);
    var reader := new Reader(BLANK);
    if pos > 0 {
      reader.lastUser, reader.lastAnswer := LookbackOf(lines, lo);
    }
    for i := lo to hi
      invariant pos == Pos(lines, i)
      invariant reader.State() == Run(Begin(lines, lo), lines, lo, i)
    {
      var start := pos;
      pos := pos + lines[i].size;
      if lines[i].record.None? {
        continue;
      }
      reader.Take(lines[i].record.value, start);
    }
    s := reader.State();
  }

  /** A part of a map that is as large as the map is the map. */
  lemma SameSize<K, V>(part: map<K, V>, m: map<K, V>)
    requires forall k | k in part :: k in m && part[k] == m[k]
    ensures |part| <= |m|
    ensures |part| == |m| <==> part == m
  {
    var rest := m.Keys - part.Keys;
    assert m.Keys == part.Keys + rest;
    assert |m.Keys| == |part.Keys| + |rest|;
  }

  method FoldRows(order: seq<string>, answers: map<string, Answer>) returns (rows: map<RowKey, Row>)
    requires forall x | x in order :: x in answers
    ensures rows == FoldAnswers(order, answers)
  {
    rows := map[];
    for i := 0 to |order|
      invariant rows == FoldAnswers(order[..i], answers)
    {
      assert order[..i + 1][..i] == order[..i];
      var a := answers[order[i]];
      rows := rows[KeyOf(a) := AddAnswer(Get(rows, KeyOf(a), NO_ROW), a)];
    }
    assert order[..|order|] == order;
  }

  /** Fewer rows of any kind are fewer rows in all. */
  lemma SameSizes(part: Tables, whole: Tables)
    requires forall k | k in part.rows :: k in whole.rows && part.rows[k] == whole.rows[k]
    requires forall k | k in part.tools :: k in whole.tools && part.tools[k] == whole.tools[k]
    requires forall k | k in part.events :: k in whole.events && part.events[k] == whole.events[k]
    ensures |whole.rows| + |whole.tools| + |whole.events| != |part.rows| + |part.tools| + |part.events| <==> part != whole
  {
    SameSize(part.rows, whole.rows);
    SameSize(part.tools, whole.tools);
    SameSize(part.events, whole.events);
  }

  method ParseFile(lines: seq<Entry>, lo: nat, hi: nat, torn: nat) returns (p: Parsed)
    requires lo <= hi <= |lines|
    ensures p == ParseOf(lines, lo, hi, torn)
  {
    var s := ReadLines(lines, lo, hi);
    OrderIsKept(Begin(lines, lo), lines, lo, hi);
    var rows := FoldRows(s.order, s.answers);
    rows := map k | k in rows :: rows[k].(kind := Get(s.kinds, k.agent, ""));
    var t := Tables(rows, s.ledger.tools, s.events);
    assert t == Finish(ScanOf(lines, lo, hi));
    var rewind := false;
    if Pos(lines, lo) > 0 && s.first > 0 {
      var before := |t.rows| + |t.tools| + |t.events|;
      ghost var whole := t;
      t := From(t, s.first);
      SameSizes(t, whole);
      rewind := before != |t.rows| + |t.tools| + |t.events|;
    }
    var offset := Cut(s.hours, Pos(lines, hi) + torn, Pos(lines, lo));
    p := Parsed(t, offset, s.first, rewind);
  }

  /** The rows of a transcript in the store. */
  class Store {
    var rows: map<RowKey, Row>
    var tools: map<ToolKey, Tool>
    var events: map<EventKey, Event>

    constructor ()
      ensures Contents() == NO_TABLES
    {
      rows, tools, events := map[], map[], map[];
    }

    function Contents(): Tables
      reads this
    {
      Tables(rows, tools, events)
    }

    method Apply(p: Parsed, rewrite: bool)
      modifies this
      ensures Contents() == UsageTables.Apply(old(Contents()), p, rewrite)
    {
      var agents := Agents(p.tables);
      DropRows(agents, p.since, rewrite);
      DropTools(agents, p.since, rewrite);
      DropEvents(agents, p.since, rewrite);
      rows := rows + p.tables.rows;
      tools := tools + p.tables.tools;
      events := events + p.tables.events;
    }

    method DropRows(agents: set<string>, since: nat, rewrite: bool)
      modifies this`rows
      ensures rows == map k | k in old(rows) && !Goes(agents, since, rewrite, k.agent, k.bucket) :: old(rows)[k]
    {
      var left := rows.Keys;
      while left != {}
        invariant left <= old(rows).Keys
        invariant forall k :: k in rows <==> k in old(rows) && (k in left || !Goes(agents, since, rewrite, k.agent, k.bucket))
        invariant forall k | k in rows :: rows[k] == old(rows)[k]
        decreases |left|
      {
        var k :| k in left;
        left := left - {k};
        if Goes(agents, since, rewrite, k.agent, k.bucket) {
          rows := rows - {k};
        }
      }
    }

    method DropTools(agents: set<string>, since: nat, rewrite: bool)
      modifies this`tools
      ensures tools == map k | k in old(tools) && !Goes(agents, since, rewrite, k.agent, k.bucket) :: old(tools)[k]
    {
      var left := tools.Keys;
      while left != {}
        invariant left <= old(tools).Keys
        invariant forall k :: k in tools <==> k in old(tools) && (k in left || !Goes(agents, since, rewrite, k.agent, k.bucket))
        invariant forall k | k in tools :: tools[k] == old(tools)[k]
        decreases |left|
      {
        var k :| k in left;
        left := left - {k};
        if Goes(agents, since, rewrite, k.agent, k.bucket) {
          tools := tools - {k};
        }
      }
    }

    method DropEvents(agents: set<string>, since: nat, rewrite: bool)
      modifies this`events
      ensures events == map k | k in old(events) && !Goes(agents, since, rewrite, k.agent, k.bucket) :: old(events)[k]
    {
      var left := events.Keys;
      while left != {}
        invariant left <= old(events).Keys
        invariant forall k :: k in events <==> k in old(events) && (k in left || !Goes(agents, since, rewrite, k.agent, k.bucket))
        invariant forall k | k in events :: events[k] == old(events)[k]
        decreases |left|
      {
        var k :| k in left;
        left := left - {k};
        if Goes(agents, since, rewrite, k.agent, k.bucket) {
          events := events - {k};
        }
      }
    }
  }

  /** The line that starts at an offset. */
  method LineAt(lines: seq<Entry>, offset: nat) returns (o: nat)
    requires exists i: nat :: i <= |lines| && Pos(lines, i) == offset
    ensures o <= |lines| && Pos(lines, o) == offset
  {
    ghost var at: nat :| at <= |lines| && Pos(lines, at) == offset;
    o := 0;
    var pos := 0;
    while pos < offset
      invariant o <= at && pos == Pos(lines, o)
      decreases at - o
    {
      PosOrder(lines, o, at);
      pos := pos + lines[o].size;
      o := o + 1;
    }
    PosOrder(lines, o, at);
  }

  /** Stores the first j lines and then what a second pass brings, and says which of the two passes agree. */
  method Replay(lines: seq<Entry>, j: nat, k: nat) returns (same: bool, o: nat)
    requires j <= k <= |lines|
    ensures o <= j && Pos(lines, o) == ParseOf(lines, 0, j, 0).offset
    ensures same <==> Stored(UsageTables.Apply(NO_TABLES, ParseOf(lines, 0, j, 0), true), lines, o, k, 0) == Straight(lines, k)
  {
    var full := ParseFile(lines, 0, k, 0);
    var before := ParseFile(lines, 0, j, 0);
    ghost var n := OffsetStarts(lines, 0, j, 0);
    o := LineAt(lines, before.offset);
    PosOrder(lines, n, o);
    var after := ParseFile(lines, o, k, 0);
    var db := new Store();
    db.Apply(before, true);
    if after.rewind {
      var again := ParseFile(lines, 0, k, 0);
      db.Apply(again, true);
    } else {
      db.Apply(after, before.offset == 0);
    }
    same := db.Contents() == full.tables;
  }
}
