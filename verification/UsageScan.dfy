/** One pass over the records of a transcript, record by record. */
module UsageScan {
  import opened Options
  import opened Lines
  import opened UsageRecords

  datatype Answer = Answer(bucket: nat, model: string, agent: string, speed: string, tier: string,
                           tokens: Tokens, thinking: nat, latency: Option<int>)

  datatype ToolKey = ToolKey(bucket: nat, agent: string, tool: string)
  datatype Tool = Tool(calls: nat, errors: nat)

  datatype EventKey = EventKey(bucket: nat, agent: string)
  datatype Idle = Idle(under30s: nat, under2m: nat, under10m: nat, under1h: nat, under4h: nat, over4h: nat, maxMs: int)
  datatype Event = Event(messages: nat, compacts: nat, interrupts: nat, interruptsTool: nat, apiErrors: nat, idle: Idle)

  const NO_IDLE := Idle(0, 0, 0, 0, 0, 0, 0)
  const NO_EVENT := Event(0, 0, 0, 0, 0, NO_IDLE)

  /** The first and the last line that fall in an hour, by their places. */
  datatype Span = Span(first: nat, last: nat)

  /** The calls of a pass: the rows, where each call was counted and every call id met. */
  datatype Ledger = Ledger(tools: map<ToolKey, Tool>, toolAt: map<string, ToolKey>, seen: set<string>)

  /** Everything a pass keeps between two records. Answers keep the order they came in. */
  datatype Scan = Scan(events: map<EventKey, Event>, ledger: Ledger,
                       order: seq<string>, answers: map<string, Answer>, kinds: map<string, string>,
                       hours: map<nat, Span>, lastUser: Option<int>, lastAnswer: Option<int>, first: nat)

  const BLANK := Scan(map[], Ledger(map[], map[], {}), [], map[], map[], map[], None, None, 0)

  function Get<K, V>(m: map<K, V>, k: K, d: V): V {
    if k in m then m[k] else d
  }

  function Mark(hours: map<nat, Span>, bucket: nat, start: nat): map<nat, Span> {
    if bucket == 0 then hours
    else if bucket !in hours then hours[bucket := Span(start, start)]
    else if start > hours[bucket].last then hours[bucket := hours[bucket].(last := start)]
    else hours
  }

  function AddIdle(idle: Idle, ms: int): Idle {
    var idle :=
      if ms < 30_000 then idle.(under30s := idle.under30s + 1)
      else if ms < 120_000 then idle.(under2m := idle.under2m + 1)
      else if ms < 600_000 then idle.(under10m := idle.under10m + 1)
      else if ms < 3_600_000 then idle.(under1h := idle.under1h + 1)
      else if ms < 14_400_000 then idle.(under4h := idle.under4h + 1)
      else idle.(over4h := idle.over4h + 1);
    if ms > idle.maxMs then idle.(maxMs := ms) else idle
  }

  /** The time from `since` to `ms`, when both are known and the clock did not run back. */
  function Elapsed(since: Option<int>, ms: Option<int>): Option<int> {
    if since.Some? && ms.Some? && ms.value >= since.value then Some(ms.value - since.value) else None
  }

  function Interrupted(e: Event, blocks: seq<Block>): Event {
    if blocks == [] then e
    else
      var e := Interrupted(e, blocks[..|blocks| - 1]);
      match blocks[|blocks| - 1]
      case Text(ByPerson) => e.(interrupts := e.interrupts + 1)
      case Text(ForTool) => e.(interruptsTool := e.interruptsTool + 1)
      case _ => e
  }

  function Erred(tools: map<ToolKey, Tool>, toolAt: map<string, ToolKey>, use: string): map<ToolKey, Tool> {
    if use in toolAt && toolAt[use] in tools
    then tools[toolAt[use] := tools[toolAt[use]].(errors := tools[toolAt[use]].errors + 1)]
    else tools
  }

  function WithErrors(tools: map<ToolKey, Tool>, toolAt: map<string, ToolKey>, blocks: seq<Block>): map<ToolKey, Tool> {
    if blocks == [] then tools
    else
      var tools := WithErrors(tools, toolAt, blocks[..|blocks| - 1]);
      var last := blocks[|blocks| - 1];
      if last.Failed? then Erred(tools, toolAt, last.use) else tools
  }

  function Called(l: Ledger, bucket: nat, agent: string, id: string, name: string): Ledger {
    if id != "" && id in l.seen then l
    else
      var seen := if id != "" then l.seen + {id} else l.seen;
      if name == "" then l.(seen := seen)
      else
        var key := ToolKey(bucket, agent, name);
        var row := Get(l.tools, key, Tool(0, 0));
        Ledger(l.tools[key := row.(calls := row.calls + 1)],
               if id != "" then l.toolAt[id := key] else l.toolAt, seen)
  }

  function CallsOf(l: Ledger, key: ToolKey): nat {
    Get(l.tools, key, Tool(0, 0)).calls
  }

  function WithCalls(l: Ledger, bucket: nat, agent: string, blocks: seq<Block>): Ledger {
    if blocks == [] then l
    else
      var l := WithCalls(l, bucket, agent, blocks[..|blocks| - 1]);
      var last := blocks[|blocks| - 1];
      if last.Call? then Called(l, bucket, agent, last.id, last.name) else l
  }

  function Thoughts(blocks: seq<Block>): nat {
    if blocks == [] then 0
    else Thoughts(blocks[..|blocks| - 1]) + (if blocks[|blocks| - 1].Thinking? then 1 else 0)
  }

  function Used(a: Answer, u: Usage): Answer {
    if u.NoUsage? then a
    else a.(tokens := MaxTokens(a.tokens, u.tokens),
            speed := if a.speed == "" then u.speed else a.speed,
            tier := if a.tier == "" then u.tier else a.tier)
  }

  /** A clock reading that is zero counts as none, the way the parser reads it. */
  function OrElse(ms: Option<int>, d: Option<int>): Option<int> {
    if ms.Some? && ms.value != 0 then ms else d
  }

  /** The idle time a human's record ends: from the last answer to it. */
  function Waited(lastAnswer: Option<int>, r: Record): Option<int>
    requires r.User?
  {
    if r.human then Elapsed(lastAnswer, MsOf(r.stamp)) else None
  }

  /** The event row of a record's hour and agent, with the record counted in. */
  function EventAfter(was: Event, lastAnswer: Option<int>, r: Record): Event
    requires !r.Other?
  {
    match r
    case User(_, _, compact, _, blocks) =>
      var waited := Waited(lastAnswer, r);
      Interrupted(was.(messages := was.messages + 1,
                       compacts := was.compacts + if compact then 1 else 0,
                       idle := if waited.Some? then AddIdle(was.idle, waited.value) else was.idle), blocks)
    case Assistant(_, _, synthetic, _, _, _, _, _) =>
      was.(messages := was.messages + 1, apiErrors := was.apiErrors + if synthetic then 1 else 0)
  }

  function EventsAfter(events: map<EventKey, Event>, lastAnswer: Option<int>, r: Record): map<EventKey, Event>
    requires !r.Other?
  {
    var key := EventKey(HourAt(r), r.agent);
    events[key := EventAfter(Get(events, key, NO_EVENT), lastAnswer, r)]
  }

  function UserStep(s: Scan, start: nat, r: Record): Scan
    requires r.User?
  {
    s.(events := EventsAfter(s.events, s.lastAnswer, r),
       ledger := s.ledger.(tools := WithErrors(s.ledger.tools, s.ledger.toolAt, r.blocks)),
       hours := Mark(s.hours, HourAt(r), start),
       lastUser := if r.stamp.At? then MsOf(r.stamp) else s.lastUser,
       lastAnswer := if r.human then None else s.lastAnswer)
  }

  function NewAnswer(lastUser: Option<int>, r: Record): Answer
    requires r.Assistant?
  {
    Answer(HourAt(r), r.model, r.agent, "", "", NO_TOKENS, 0, Elapsed(lastUser, MsOf(r.stamp)))
  }

  /** The answer a record belongs to, as it stood before the record. */
  function AnswerOf(answers: map<string, Answer>, lastUser: Option<int>, r: Record): Answer
    requires Answers(r)
  {
    if r.mid in answers then answers[r.mid] else NewAnswer(lastUser, r)
  }

  function Heard(a: Answer, r: Record): Answer
    requires Answers(r)
  {
    var a := Used(a, r.usage);
    a.(thinking := a.thinking + Thoughts(r.blocks))
  }

  function AnswerStep(s: Scan, start: nat, r: Record): Scan
    requires Answers(r)
  {
    var isNew := r.mid !in s.answers;
    var answer := AnswerOf(s.answers, s.lastUser, r);
    s.(order := if isNew then s.order + [r.mid] else s.order,
       answers := s.answers[r.mid := Heard(answer, r)],
       lastUser := if isNew then None else s.lastUser,
       hours := Mark(Mark(s.hours, answer.bucket, start), HourAt(r), start),
       kinds := if r.attribution != "" then s.kinds[r.agent := r.attribution] else s.kinds,
       ledger := WithCalls(s.ledger, answer.bucket, r.agent, r.blocks))
  }

  function AssistantStep(s: Scan, start: nat, r: Record): Scan
    requires r.Assistant?
  {
    var s := s.(events := EventsAfter(s.events, s.lastAnswer, r),
                lastAnswer := if r.stamp.At? then OrElse(MsOf(r.stamp), s.lastAnswer) else s.lastAnswer);
    if r.synthetic then s.(hours := Mark(s.hours, HourAt(r), start))
    else if HourAt(r) == 0 then s
    else AnswerStep(s, start, r)
  }

  /** What one record at a place does to the pass. */
  function Step(s: Scan, start: nat, r: Record): Scan {
    var s := s.(first := if s.first == 0 then HourAt(r) else s.first);
    match r
    case User(_, _, _, _, _) => UserStep(s, start, r)
    case Assistant(_, _, _, _, _, _, _, _) => AssistantStep(s, start, r)
    case Other(_) => s.(hours := Mark(s.hours, HourAt(r), start))
  }

  function LineStep(s: Scan, start: nat, line: Entry): Scan {
    if line.record.Some? then Step(s, start, line.record.value) else s
  }

  /** The state of a pass after the lines [lo, hi). */
  function Run(s: Scan, lines: seq<Entry>, lo: nat, hi: nat): Scan
    requires lo <= hi <= |lines|
    decreases hi
  {
    if lo == hi then s
    else LineStep(Run(s, lines, lo, hi - 1), Pos(lines, hi - 1), lines[hi - 1])
  }

  lemma {:induction false} RunSplit(s: Scan, lines: seq<Entry>, lo: nat, mid: nat, hi: nat)
    requires lo <= mid <= hi <= |lines|
    ensures Run(s, lines, lo, hi) == Run(Run(s, lines, lo, mid), lines, mid, hi)
    decreases hi
  {
    if mid < hi {
      RunSplit(s, lines, lo, mid, hi - 1);
    }
  }
}
