/** What the tables of a straight pass say of the records: each number counted again from the lines themselves. */
module UsageMeaning {
  import opened Options
  import opened Lines
  import opened UsageRecords
  import opened UsageScan
  import opened UsageCut
  import opened UsageTables
  import opened UsageSplit
  import opened UsageLines

  datatype Field = Input | Output | CacheRead | CacheCreation | Cache1h | Cache5m | Iterations

  function Of(t: Tokens, f: Field): int {
    match f
    case Input => t.input
    case Output => t.output
    case CacheRead => t.cacheRead
    case CacheCreation => t.cacheCreation
    case Cache1h => t.cache1h
    case Cache5m => t.cache5m
    case Iterations => t.iterations
  }

  /** A line reports a number of tokens for an answer. */
  ghost predicate Reports(line: Entry, x: string, f: Field, v: int) {
    AnswersAs(line, x) && line.record.value.usage.Usage? && Of(line.record.value.usage.tokens, f) == v
  }

  ghost predicate IsGreatest(lines: seq<Entry>, n: nat, x: string, f: Field, v: int)
    requires n <= |lines|
  {
    && v >= 0
    && (forall i, w | 0 <= i < n && Reports(lines[i], x, f, w) :: w <= v)
    && (v == 0 || exists i :: 0 <= i < n && Reports(lines[i], x, f, v))
  }

  /** The first record of an answer says its hour, its model and its agent. */
  ghost predicate BeginsAt(lines: seq<Entry>, i: nat, x: string, a: Answer)
    requires i < |lines|
  {
    && AnswersAs(lines[i], x)
    && (forall l | 0 <= l < i :: !AnswersAs(lines[l], x))
    && a.bucket == HourAt(lines[i].record.value) && a.model == lines[i].record.value.model
    && a.agent == lines[i].record.value.agent
  }

  /** An answer's tokens are, counter by counter, the greatest any of its records reports. */
  lemma {:induction false} TokensAreGreatest(lines: seq<Entry>, n: nat, x: string, f: Field)
    requires n <= |lines|
    ensures var s := Run(BLANK, lines, 0, n);
            if x in s.answers then IsGreatest(lines, n, x, f, Of(s.answers[x].tokens, f))
            else forall i | 0 <= i < n :: !AnswersAs(lines[i], x)
  {
    if n > 0 {
      TokensAreGreatest(lines, n - 1, x, f);
      var was := Run(BLANK, lines, 0, n - 1);
      if lines[n - 1].record.Some? {
        var r := lines[n - 1].record.value;
        HeardNext(was, Pos(lines, n - 1), r, x);
        if AnswersAs(lines[n - 1], x) {
          OneMoreReport(lines, n, x, f, AnswerOf(was.answers, was.lastUser, r));
        }
      }
      if x in was.answers && !AnswersAs(lines[n - 1], x) {
        NoReport(lines, n, x, f, Of(was.answers[x].tokens, f));
      }
    }
  }

  lemma NoReport(lines: seq<Entry>, n: nat, x: string, f: Field, v: int)
    requires 0 < n <= |lines| && !AnswersAs(lines[n - 1], x) && IsGreatest(lines, n - 1, x, f, v)
    ensures IsGreatest(lines, n, x, f, v)
  {
  }

  /** What a record makes of an answer. */
  lemma HeardNext(s: Scan, start: nat, r: Record, x: string)
    ensures var now := Step(s, start, r);
      && (Answers(r) && r.mid == x ==> x in now.answers && now.answers[x] == Heard(AnswerOf(s.answers, s.lastUser, r), r))
      && (!(Answers(r) && r.mid == x) ==> (x in now.answers <==> x in s.answers) && (x in s.answers ==> now.answers[x] == s.answers[x]))
  {
  }

  lemma OneMoreReport(lines: seq<Entry>, n: nat, x: string, f: Field, a: Answer)
    requires 0 < n <= |lines| && AnswersAs(lines[n - 1], x)
    requires IsGreatest(lines, n - 1, x, f, Of(a.tokens, f))
    ensures IsGreatest(lines, n, x, f, Of(Heard(a, lines[n - 1].record.value).tokens, f))
  {
    var r := lines[n - 1].record.value;
    if r.usage.Usage? {
      assert Reports(lines[n - 1], x, f, Of(r.usage.tokens, f));
    }
  }

  /** An answer stands under the hour, the model and the agent of its first record. */
  lemma {:induction false} AnswersBegin(lines: seq<Entry>, n: nat, x: string) returns (i: nat)
    requires n <= |lines| && x in Run(BLANK, lines, 0, n).answers
    ensures i < n && BeginsAt(lines, i, x, Run(BLANK, lines, 0, n).answers[x])
  {
    var was := Run(BLANK, lines, 0, n - 1);
    if lines[n - 1].record.Some? {
      StepTables(was, Pos(lines, n - 1), lines[n - 1].record.value);
    }
    if x in was.answers {
      i := AnswersBegin(lines, n - 1, x);
    } else {
      i := n - 1;
      TokensAreGreatest(lines, n - 1, x, Input);
    }
  }

  /** What is added up over the answers of a row. */
  datatype Measure = Count | Token(f: Field) | Thought | Wait

  function OfAnswer(a: Answer, m: Measure): int {
    match m
    case Count => 1
    case Token(f) => Of(a.tokens, f)
    case Thought => a.thinking
    case Wait => if a.latency.Some? then a.latency.value else 0
  }

  function OfRow(row: Row, m: Measure): int {
    match m
    case Count => row.answers
    case Token(f) => Of(row.tokens, f)
    case Thought => row.thinking
    case Wait => row.latencySum
  }

  /** A measure added up over the answers of a key. */
  function Sum(order: seq<string>, answers: map<string, Answer>, key: RowKey, m: Measure): int
    requires forall x | x in order :: x in answers
  {
    if order == [] then 0
    else
      var a := answers[order[|order| - 1]];
      Sum(order[..|order| - 1], answers, key, m) + if KeyOf(a) == key then OfAnswer(a, m) else 0
  }

  /** A row of the table adds up its answers, and no others. */
  lemma {:induction false} RowsAddUp(order: seq<string>, answers: map<string, Answer>, key: RowKey, m: Measure)
    requires forall x | x in order :: x in answers
    ensures OfRow(Get(FoldAnswers(order, answers), key, NO_ROW), m) == Sum(order, answers, key, m)
    ensures key in FoldAnswers(order, answers) <==> exists x :: x in order && KeyOf(answers[x]) == key
  {
    if order != [] {
      var rest, last := order[..|order| - 1], order[|order| - 1];
      RowsAddUp(rest, answers, key, m);
      assert order == rest + [last];
    }
  }

  /** The longest wait of a row is the longest of its answers, or none. */
  lemma {:induction false} LongestWait(order: seq<string>, answers: map<string, Answer>, key: RowKey)
    requires forall x | x in order :: x in answers
    ensures var most := Get(FoldAnswers(order, answers), key, NO_ROW).latencyMax;
            && most >= 0
            && (forall x | x in order && KeyOf(answers[x]) == key && answers[x].latency.Some? :: answers[x].latency.value <= most)
            && (most == 0 || exists x :: x in order && KeyOf(answers[x]) == key && answers[x].latency == Some(most))
  {
    if order != [] {
      var rest, last := order[..|order| - 1], order[|order| - 1];
      LongestWait(rest, answers, key);
      assert order == rest + [last];
    }
  }

  /** What is counted in an event row. */
  datatype Tally = Messages | Compacts | ApiErrors | Interrupts | ToolInterrupts

  function OfEvent(e: Event, t: Tally): nat {
    match t
    case Messages => e.messages
    case Compacts => e.compacts
    case ApiErrors => e.apiErrors
    case Interrupts => e.interrupts
    case ToolInterrupts => e.interruptsTool
  }

  function BlocksOf(blocks: seq<Block>, kind: Interrupt): nat {
    if blocks == [] then 0
    else BlocksOf(blocks[..|blocks| - 1], kind) + if blocks[|blocks| - 1] == Text(kind) then 1 else 0
  }

  /** What one record adds. */
  function Adds(r: Record, t: Tally): nat
    requires !r.Other?
  {
    match t
    case Messages => 1
    case Compacts => if r.User? && r.compact then 1 else 0
    case ApiErrors => if r.Assistant? && r.synthetic then 1 else 0
    case Interrupts => if r.User? then BlocksOf(r.blocks, ByPerson) else 0
    case ToolInterrupts => if r.User? then BlocksOf(r.blocks, ForTool) else 0
  }

  function TallyOf(lines: seq<Entry>, n: nat, key: EventKey, t: Tally): nat
    requires n <= |lines|
  {
    if n == 0 then 0
    else
      TallyOf(lines, n - 1, key, t)
      + if lines[n - 1].record.Some? && !lines[n - 1].record.value.Other?
           && key == EventKey(HourAt(lines[n - 1].record.value), lines[n - 1].record.value.agent)
        then Adds(lines[n - 1].record.value, t) else 0
  }

  lemma {:induction false} InterruptsAdd(e: Event, blocks: seq<Block>, t: Tally)
    ensures OfEvent(Interrupted(e, blocks), t) ==
            OfEvent(e, t) + (if t.Interrupts? then BlocksOf(blocks, ByPerson) else if t.ToolInterrupts? then BlocksOf(blocks, ForTool) else 0)
  {
    if blocks != [] {
      InterruptsAdd(e, blocks[..|blocks| - 1], t);
    }
  }

  lemma EventAdds(was: Event, lastAnswer: Option<int>, r: Record, t: Tally)
    requires !r.Other?
    ensures OfEvent(EventAfter(was, lastAnswer, r), t) == OfEvent(was, t) + Adds(r, t)
  {
    if r.User? {
      var waited := Waited(lastAnswer, r);
      InterruptsAdd(was.(messages := was.messages + 1, compacts := was.compacts + if r.compact then 1 else 0,
                         idle := if waited.Some? then AddIdle(was.idle, waited.value) else was.idle), r.blocks, t);
    }
  }

  /** An event row counts the records of its hour and agent, each once, under what each of them is. */
  lemma {:induction false} EventsTally(lines: seq<Entry>, n: nat, key: EventKey, t: Tally)
    requires n <= |lines|
    ensures OfEvent(Get(Run(BLANK, lines, 0, n).events, key, NO_EVENT), t) == TallyOf(lines, n, key, t)
  {
    if n > 0 {
      EventsTally(lines, n - 1, key, t);
      var was := Run(BLANK, lines, 0, n - 1);
      if lines[n - 1].record.Some? {
        var r := lines[n - 1].record.value;
        StepTables(was, Pos(lines, n - 1), r);
        if !r.Other? {
          EventAdds(Get(was.events, EventKey(HourAt(r), r.agent), NO_EVENT), was.lastAnswer, r, t);
        }
      }
    }
  }

  /** The upper ends of the idle buckets; the last has none. */
  const EDGES: seq<int> := [30_000, 120_000, 600_000, 3_600_000, 14_400_000]

  function Buckets(idle: Idle): seq<nat> {
    [idle.under30s, idle.under2m, idle.under10m, idle.under1h, idle.under4h, idle.over4h]
  }

  /** A wait is counted in one bucket, the first whose end it stays below. */
  lemma WaitCountsOnce(idle: Idle, ms: int, b: nat)
    requires b < 6
    ensures var now := AddIdle(idle, ms);
            && Buckets(now)[b] == Buckets(idle)[b]
               + (if (b == 5 || ms < EDGES[b]) && (b == 0 || ms >= EDGES[b - 1]) then 1 else 0)
            && now.maxMs == Max(idle.maxMs, ms)
  {
  }

  /** A block is a call of a tool whose id was met neither before its record nor before it in the record. */
  predicate IsNewCall(met: set<string>, blocks: seq<Block>, j: nat, tool: string)
    requires j < |blocks|
  {
    && blocks[j].Call? && blocks[j].name == tool != ""
    && (blocks[j].id == "" || (blocks[j].id !in met && blocks[j].id !in CallIds(blocks[..j])))
  }

  function NewCalls(met: set<string>, blocks: seq<Block>, n: nat, tool: string): nat
    requires n <= |blocks|
  {
    if n == 0 then 0 else NewCalls(met, blocks, n - 1, tool) + if IsNewCall(met, blocks, n - 1, tool) then 1 else 0
  }

  function CallTally(lines: seq<Entry>, n: nat, key: ToolKey): nat
    requires n <= |lines|
  {
    if n == 0 then 0
    else
      CallTally(lines, n - 1, key)
      + if lines[n - 1].record.Some? && Answers(lines[n - 1].record.value)
           && FirstHour(lines, 0, n, lines[n - 1].record.value.mid) == key.bucket && lines[n - 1].record.value.agent == key.agent
        then NewCalls(Met(lines, 0, n - 1), lines[n - 1].record.value.blocks, |lines[n - 1].record.value.blocks|, key.tool)
        else 0
  }

  lemma {:induction false} BlocksCalled(l: Ledger, bucket: nat, agent: string, blocks: seq<Block>, n: nat, key: ToolKey)
    requires n <= |blocks|
    ensures WithCalls(l, bucket, agent, blocks[..n]).seen == l.seen + CallIds(blocks[..n])
    ensures CallsOf(WithCalls(l, bucket, agent, blocks[..n]), key) ==
            CallsOf(l, key) + if bucket == key.bucket && agent == key.agent then NewCalls(l.seen, blocks, n, key.tool) else 0
  {
    if n > 0 {
      BlocksCalled(l, bucket, agent, blocks, n - 1, key);
      assert blocks[..n][..n - 1] == blocks[..n - 1];
      IdsMore(blocks, n);
    } else {
      assert CallIds(blocks[..0]) == {};
    }
  }

  /** A tool row counts every call of its tool, agent and hour once, however often a record repeats its id; the hour is
      that of the answer's first record. */
  lemma {:induction false} CallsTally(lines: seq<Entry>, n: nat, key: ToolKey)
    requires n <= |lines|
    ensures Run(BLANK, lines, 0, n).ledger.seen == Met(lines, 0, n)
    ensures CallsOf(Run(BLANK, lines, 0, n).ledger, key) == CallTally(lines, n, key)
  {
    if n > 0 {
      CallsTally(lines, n - 1, key);
      if lines[n - 1].record.Some? {
        LineCalls(lines, n, key);
      }
    }
  }

  lemma LineCalls(lines: seq<Entry>, n: nat, key: ToolKey)
    requires 0 < n <= |lines| && lines[n - 1].record.Some?
    requires Run(BLANK, lines, 0, n - 1).ledger.seen == Met(lines, 0, n - 1)
    requires CallsOf(Run(BLANK, lines, 0, n - 1).ledger, key) == CallTally(lines, n - 1, key)
    ensures Run(BLANK, lines, 0, n).ledger.seen == Met(lines, 0, n)
    ensures CallsOf(Run(BLANK, lines, 0, n).ledger, key) == CallTally(lines, n, key)
  {
    var was, r := Run(BLANK, lines, 0, n - 1), lines[n - 1].record.value;
    StepTables(was, Pos(lines, n - 1), r);
    if Answers(r) {
      FirstHourIs(BLANK, lines, 0, n - 1, r.mid);
      FirstHourIs(BLANK, lines, 0, n, r.mid);
      BlocksCalled(was.ledger, BucketOf(was, r), r.agent, r.blocks, |r.blocks|, key);
      assert r.blocks[..|r.blocks|] == r.blocks;
    } else if r.User? {
      ErrorsKeepCalls(was.ledger.tools, was.ledger.toolAt, r.blocks, key);
    }
  }

  lemma {:induction false} ErrorsKeepCalls(tools: map<ToolKey, Tool>, toolAt: map<string, ToolKey>, blocks: seq<Block>, key: ToolKey)
    ensures Get(WithErrors(tools, toolAt, blocks), key, Tool(0, 0)).calls == Get(tools, key, Tool(0, 0)).calls
  {
    if blocks != [] {
      ErrorsKeepCalls(tools, toolAt, blocks[..|blocks| - 1], key);
    }
  }

  /** The failed results among blocks whose call some lines count under a key. */
  function FailuresOf(lines: seq<Entry>, n: nat, blocks: seq<Block>, key: ToolKey): nat
    requires n <= |lines|
  {
    if blocks == [] then 0
    else
      var last := blocks[|blocks| - 1];
      FailuresOf(lines, n, blocks[..|blocks| - 1], key)
      + if last.Failed? && CountedAt(lines, 0, n, last.use) == Some(key) then 1 else 0
  }

  function ErrorTally(lines: seq<Entry>, n: nat, key: ToolKey): nat
    requires n <= |lines|
  {
    if n == 0 then 0
    else
      ErrorTally(lines, n - 1, key)
      + if lines[n - 1].record.Some? && lines[n - 1].record.value.User?
        then FailuresOf(lines, n - 1, lines[n - 1].record.value.blocks, key) else 0
  }

  /** The rows the calls of some lines are counted in, by id. */
  ghost predicate TellsCalls(toolAt: map<string, ToolKey>, lines: seq<Entry>, n: nat)
    requires n <= |lines|
  {
    forall id :: CountedAt(lines, 0, n, id) == if id in toolAt then Some(toolAt[id]) else None
  }

  lemma LedgerTells(lines: seq<Entry>, n: nat)
    requires n <= |lines|
    ensures TellsCalls(Run(BLANK, lines, 0, n).ledger.toolAt, lines, n) && Sound(Run(BLANK, lines, 0, n).ledger)
  {
    CallsAre(BLANK, lines, 0, n, "-");
    forall id
      ensures CountedAt(lines, 0, n, id) ==
              var toolAt := Run(BLANK, lines, 0, n).ledger.toolAt; if id in toolAt then Some(toolAt[id]) else None
    {
      if id == "" {
        NoneWithoutId(lines, 0, n);
      } else {
        CallsAre(BLANK, lines, 0, n, id);
      }
    }
  }

  lemma {:induction false} FailuresAdd(tools: map<ToolKey, Tool>, toolAt: map<string, ToolKey>, lines: seq<Entry>, n: nat,
                                       blocks: seq<Block>, key: ToolKey)
    requires n <= |lines| && TellsCalls(toolAt, lines, n) && forall x | x in toolAt :: toolAt[x] in tools
    ensures Get(WithErrors(tools, toolAt, blocks), key, Tool(0, 0)).errors
         == Get(tools, key, Tool(0, 0)).errors + FailuresOf(lines, n, blocks, key)
  {
    if blocks != [] {
      var rest, last := blocks[..|blocks| - 1], blocks[|blocks| - 1];
      FailuresAdd(tools, toolAt, lines, n, rest, key);
      ErrorsKeep(tools, toolAt, rest);
      if last.Failed? {
        assert CountedAt(lines, 0, n, last.use) == if last.use in toolAt then Some(toolAt[last.use]) else None;
      }
    }
  }

  lemma {:induction false} CallsKeepErrors(l: Ledger, bucket: nat, agent: string, blocks: seq<Block>, key: ToolKey)
    ensures Get(WithCalls(l, bucket, agent, blocks).tools, key, Tool(0, 0)).errors == Get(l.tools, key, Tool(0, 0)).errors
  {
    if blocks != [] {
      CallsKeepErrors(l, bucket, agent, blocks[..|blocks| - 1], key);
    }
  }

  /** A tool row counts every failed result of a call that stands in it before: the row of the first call of the id. */
  lemma {:induction false} ErrorsTally(lines: seq<Entry>, n: nat, key: ToolKey)
    requires n <= |lines|
    ensures Get(Run(BLANK, lines, 0, n).ledger.tools, key, Tool(0, 0)).errors == ErrorTally(lines, n, key)
  {
    if n > 0 {
      ErrorsTally(lines, n - 1, key);
      if lines[n - 1].record.Some? {
        LineErrors(lines, n, key);
      }
    }
  }

  lemma LineErrors(lines: seq<Entry>, n: nat, key: ToolKey)
    requires 0 < n <= |lines| && lines[n - 1].record.Some?
    requires Get(Run(BLANK, lines, 0, n - 1).ledger.tools, key, Tool(0, 0)).errors == ErrorTally(lines, n - 1, key)
    ensures Get(Run(BLANK, lines, 0, n).ledger.tools, key, Tool(0, 0)).errors == ErrorTally(lines, n, key)
  {
    var was, r := Run(BLANK, lines, 0, n - 1), lines[n - 1].record.value;
    StepTables(was, Pos(lines, n - 1), r);
    if r.User? {
      LedgerTells(lines, n - 1);
      FailuresAdd(was.ledger.tools, was.ledger.toolAt, lines, n - 1, r.blocks, key);
    } else if Answers(r) {
      CallsKeepErrors(was.ledger, BucketOf(was, r), r.agent, r.blocks, key);
    }
  }
}
