/** An answer whose records name two agents: its calls are filed under the hour of the one and the name of the other. */
module UsageMixed {
  import opened Options
  import opened Lines
  import opened UsageRecords
  import opened UsageScan
  import opened UsageCut
  import opened UsageLookback
  import opened UsageTables
  import opened UsageSplit
  import opened UsageLines
  import opened UsageReplay
  import opened UsageClocks
  import opened UsageTheorems

  /** Two agents, two answers, a call, and the hours: the answer begins in the later one. */
  datatype Mix = Mix(a: string, b: string, x: string, y: string, id: string, tool: string, hour: nat, earlier: nat)

  ghost predicate IsMix(m: Mix) {
    m.a != m.b && m.x != m.y && m.id != "" && m.tool != "" && 0 < m.earlier < m.hour
  }

  function AnswerRecord(hour: nat, agent: string, mid: string, blocks: seq<Block>): Record {
    Assistant(At(hour, None), agent, false, mid, "", NoUsage, blocks, "")
  }

  /** The answer x begins as a's and goes on as b's, in an earlier hour, with a call; b makes the call again in its own answer. */
  ghost predicate IsMixed(lines: seq<Entry>, m: Mix) {
    && IsMix(m) && |lines| == 3
    && lines[0] == Line(1, Some(AnswerRecord(m.hour, m.a, m.x, [])))
    && lines[1] == Line(1, Some(AnswerRecord(m.earlier, m.b, m.x, [Call(m.id, m.tool)])))
    && lines[2] == Line(1, Some(AnswerRecord(m.hour, m.b, m.y, [Call(m.id, m.tool)])))
  }

  const ONE := NO_EVENT.(messages := 1)

  function AnswerFrom(hour: nat, agent: string): Answer {
    Answer(hour, "", agent, "", "", NO_TOKENS, 0, None)
  }

  function Made(m: Mix): Ledger {
    var key := ToolKey(m.hour, m.b, m.tool);
    Ledger(map[key := Tool(1, 0)], map[m.id := key], {m.id})
  }

  /** What a pass keeps, with no clock set and no agent named. */
  ghost predicate Keeps(s: Scan, events: map<EventKey, Event>, l: Ledger, order: seq<string>, answers: map<string, Answer>, first: nat) {
    && s.events == events && s.ledger == l && s.order == order && s.answers == answers && s.first == first
    && s.kinds == map[] && s.lastUser == None && s.lastAnswer == None
  }

  lemma AnswerLine(s: Scan, start: nat, r: Record, blocks: seq<Block>, events: map<EventKey, Event>)
    requires r.Assistant? && r == AnswerRecord(HourAt(r), r.agent, r.mid, blocks) && HourAt(r) > 0 && Thoughts(blocks) == 0
    requires s.kinds == map[] && s.lastUser == None && s.lastAnswer == None && s.events == events
    requires EventKey(HourAt(r), r.agent) !in events
    ensures var a := if r.mid in s.answers then s.answers[r.mid] else AnswerFrom(HourAt(r), r.agent);
            Keeps(Step(s, start, r), events[EventKey(HourAt(r), r.agent) := ONE], WithCalls(s.ledger, a.bucket, r.agent, blocks),
                  if r.mid in s.answers then s.order else s.order + [r.mid], s.answers[r.mid := a],
                  if s.first == 0 then HourAt(r) else s.first)
  {
  }

  lemma OneCall(l: Ledger, bucket: nat, agent: string, id: string, tool: string)
    ensures WithCalls(l, bucket, agent, []) == l && Thoughts([]) == 0 && Thoughts([Call(id, tool)]) == 0
    ensures WithCalls(l, bucket, agent, [Call(id, tool)]) == Called(l, bucket, agent, id, tool)
  {
    assert [Call(id, tool)][..0] == [];
  }

  lemma FirstLine(lines: seq<Entry>, m: Mix)
    requires IsMixed(lines, m)
    ensures Keeps(Run(BLANK, lines, 0, 1), map[EventKey(m.hour, m.a) := ONE], BLANK.ledger, [m.x],
                  map[m.x := AnswerFrom(m.hour, m.a)], m.hour)
  {
    OneCall(BLANK.ledger, m.hour, m.a, m.id, m.tool);
    AnswerLine(BLANK, 0, lines[0].record.value, [], map[]);
  }

  lemma SecondLine(lines: seq<Entry>, m: Mix)
    requires IsMixed(lines, m)
    ensures Keeps(Run(BLANK, lines, 0, 2), map[EventKey(m.hour, m.a) := ONE, EventKey(m.earlier, m.b) := ONE], Made(m), [m.x],
                  map[m.x := AnswerFrom(m.hour, m.a)], m.hour)
  {
    FirstLine(lines, m);
    var s := Run(BLANK, lines, 0, 1);
    OneCall(s.ledger, m.hour, m.b, m.id, m.tool);
    AnswerLine(s, Pos(lines, 1), lines[1].record.value, [Call(m.id, m.tool)], map[EventKey(m.hour, m.a) := ONE]);
    SameAgain(map[m.x := AnswerFrom(m.hour, m.a)], m.x);
  }

  lemma SameAgain<K, V>(t: map<K, V>, k: K)
    requires k in t
    ensures t[k := t[k]] == t
  {
  }

  lemma ThirdLine(lines: seq<Entry>, m: Mix)
    requires IsMixed(lines, m)
    ensures Keeps(Run(BLANK, lines, 0, 3),
                  map[EventKey(m.hour, m.a) := ONE, EventKey(m.earlier, m.b) := ONE, EventKey(m.hour, m.b) := ONE], Made(m),
                  [m.x, m.y], map[m.x := AnswerFrom(m.hour, m.a), m.y := AnswerFrom(m.hour, m.b)], m.hour)
  {
    SecondLine(lines, m);
    var s := Run(BLANK, lines, 0, 2);
    OneCall(s.ledger, m.hour, m.b, m.id, m.tool);
    AnswerLine(s, Pos(lines, 2), lines[2].record.value, [Call(m.id, m.tool)],
               map[EventKey(m.hour, m.a) := ONE, EventKey(m.earlier, m.b) := ONE]);
    assert [m.x] + [m.y] == [m.x, m.y];
  }

  /** No clock is set, so the second pass begins with none. */
  lemma NoClocks(lines: seq<Entry>, m: Mix)
    requires IsMixed(lines, m)
    ensures Pos(lines, 2) == 2 && ClocksKept(lines, 2) && Begin(lines, 2) == BLANK
  {
    assert Pos(lines, 1) == 1;
    SecondLine(lines, m);
    ClocksRebuiltIff(lines, 2);
  }

  lemma SecondPass(lines: seq<Entry>, m: Mix)
    requires IsMixed(lines, m)
    ensures Keeps(Run(BLANK, lines, 2, 3), map[EventKey(m.hour, m.b) := ONE], Made(m), [m.y],
                  map[m.y := AnswerFrom(m.hour, m.b)], m.hour)
  {
    OneCall(BLANK.ledger, m.hour, m.b, m.id, m.tool);
    AnswerLine(BLANK, Pos(lines, 2), lines[2].record.value, [Call(m.id, m.tool)], map[]);
  }

  /** The row of one answer. */
  function Answered(m: Mix, agent: string): Row {
    AddAnswer(NO_ROW, AnswerFrom(m.hour, agent))
  }

  function RowFor(m: Mix, agent: string): RowKey {
    KeyOf(AnswerFrom(m.hour, agent))
  }

  lemma OneRow(rows: map<RowKey, Row>, m: Mix, agent: string)
    requires RowFor(m, agent) !in rows
    ensures FoldAnswer(rows, AnswerFrom(m.hour, agent)) == rows[RowFor(m, agent) := Answered(m, agent)]
  {
  }

  lemma FoldOne(answers: map<string, Answer>, x: string)
    requires x in answers
    ensures FoldAnswers([x], answers) == FoldAnswer(map[], answers[x])
  {
    assert [x][..0] == [];
  }

  lemma FoldTwo(answers: map<string, Answer>, x: string, y: string)
    requires x in answers && y in answers
    ensures FoldAnswers([x, y], answers) == FoldAnswer(FoldAnswer(map[], answers[x]), answers[y])
  {
    FoldOne(answers, x);
    assert [x, y][..1] == [x];
  }

  ghost predicate Unnamed(rows: map<RowKey, Row>) {
    forall k | k in rows :: rows[k].kind == ""
  }

  lemma NoKinds(rows: map<RowKey, Row>)
    requires Unnamed(rows)
    ensures Kinded(rows, map[]) == rows
  {
  }

  /** The tables of the second part, and of the whole. */
  function Late(m: Mix): Tables {
    Tables(map[RowFor(m, m.b) := Answered(m, m.b)], Made(m).tools, map[EventKey(m.hour, m.b) := ONE])
  }

  function Whole(m: Mix): Tables {
    Tables(map[RowFor(m, m.a) := Answered(m, m.a), RowFor(m, m.b) := Answered(m, m.b)], Made(m).tools,
           map[EventKey(m.hour, m.a) := ONE, EventKey(m.earlier, m.b) := ONE, EventKey(m.hour, m.b) := ONE])
  }

  lemma WholeTables(lines: seq<Entry>, m: Mix)
    requires IsMixed(lines, m)
    ensures Straight(lines, 3) == Whole(m)
  {
    ThirdLine(lines, m);
    WholeOf(ScanOf(lines, 0, 3), m, map[m.x := AnswerFrom(m.hour, m.a), m.y := AnswerFrom(m.hour, m.b)]);
  }

  lemma WholeOf(s: Scan, m: Mix, answers: map<string, Answer>)
    requires IsMix(m) && Keeps(s, Whole(m).events, Made(m), [m.x, m.y], answers, m.hour)
    requires m.x in answers && m.y in answers && (forall x | x in s.order :: x in s.answers)
    requires answers[m.x] == AnswerFrom(m.hour, m.a) && answers[m.y] == AnswerFrom(m.hour, m.b)
    ensures Finish(s) == Whole(m)
  {
    TwoRows(m, answers);
    WholeUnnamed(m);
    TablesOf(s, [m.x, m.y], answers, Whole(m));
  }

  lemma WholeUnnamed(m: Mix)
    ensures Unnamed(Whole(m).rows)
  {
  }

  lemma TwoRows(m: Mix, answers: map<string, Answer>)
    requires IsMix(m) && m.x in answers && m.y in answers
    requires answers[m.x] == AnswerFrom(m.hour, m.a) && answers[m.y] == AnswerFrom(m.hour, m.b)
    ensures FoldAnswers([m.x, m.y], answers) == Whole(m).rows
  {
    FoldTwo(answers, m.x, m.y);
    OneRow(map[], m, m.a);
    OneRow(map[RowFor(m, m.a) := Answered(m, m.a)], m, m.b);
  }

  lemma TablesOf(s: Scan, order: seq<string>, answers: map<string, Answer>, t: Tables)
    requires forall x | x in order :: x in answers
    requires s.order == order && s.answers == answers && s.kinds == map[] && s.events == t.events && s.ledger.tools == t.tools
    requires FoldAnswers(order, answers) == t.rows && Unnamed(t.rows)
    ensures Finish(s) == t
  {
    NoKinds(t.rows);
  }

  lemma LateTables(lines: seq<Entry>, m: Mix)
    requires IsMixed(lines, m)
    ensures Finish(ScanOf(lines, 2, 3)) == Late(m) && ScanOf(lines, 2, 3).first == m.hour
  {
    NoClocks(lines, m);
    SecondPass(lines, m);
    LateOf(ScanOf(lines, 2, 3), m, map[m.y := AnswerFrom(m.hour, m.b)]);
  }

  lemma LateOf(s: Scan, m: Mix, answers: map<string, Answer>)
    requires Keeps(s, Late(m).events, Made(m), [m.y], answers, m.hour)
    requires m.y in answers && answers[m.y] == AnswerFrom(m.hour, m.b) && (forall x | x in s.order :: x in s.answers)
    ensures Finish(s) == Late(m)
  {
    LateRows(m, answers);
    LateUnnamed(m);
    TablesOf(s, [m.y], answers, Late(m));
  }

  lemma LateUnnamed(m: Mix)
    ensures Unnamed(Late(m).rows)
  {
  }

  lemma LateRows(m: Mix, answers: map<string, Answer>)
    requires m.y in answers && answers[m.y] == AnswerFrom(m.hour, m.b)
    ensures FoldAnswers([m.y], answers) == Late(m).rows
  {
    FoldOne(answers, m.y);
    OneRow(map[], m, m.b);
  }

  lemma PassTables(lines: seq<Entry>, m: Mix)
    requires IsMixed(lines, m)
    ensures var p := ParseOf(lines, 2, 3, 0); p.tables == Late(m) && p.since == m.hour && !p.rewind
  {
    LateTables(lines, m);
    LateIsFrom(m);
  }

  lemma LateIsFrom(m: Mix)
    ensures From(Late(m), m.hour) == Late(m)
  {
    AllFrom(Late(m), m.hour);
  }

  lemma LateAgents(m: Mix)
    ensures Agents(Late(m)) == {m.b}
  {
    assert EventKey(m.hour, m.b) in Late(m).events;
  }

  /** What is in the store is dropped and put again as it was. */
  lemma PutBack(p: Parsed, m: Mix)
    requires IsMix(m) && p.tables == Late(m) && p.since == m.hour
    ensures Apply(Whole(m), p, false) == Whole(m)
  {
    LateAgents(m);
    RowsBack(m);
    ToolsBack(m);
    EventsBack(m);
  }

  lemma RowsBack(m: Mix)
    requires IsMix(m)
    ensures var rows := Whole(m).rows;
            (map k | k in rows && !Goes({m.b}, m.hour, false, k.agent, k.bucket) :: rows[k]) + Late(m).rows == rows
  {
  }

  lemma ToolsBack(m: Mix)
    requires IsMix(m)
    ensures var tools := Whole(m).tools;
            (map k | k in tools && !Goes({m.b}, m.hour, false, k.agent, k.bucket) :: tools[k]) + Late(m).tools == tools
  {
  }

  lemma EventsBack(m: Mix)
    requires IsMix(m)
    ensures var events := Whole(m).events;
            (map k | k in events && !Goes({m.b}, m.hour, false, k.agent, k.bucket) :: events[k]) + Late(m).events == events
  {
  }

  lemma CallStandsTwice(lines: seq<Entry>, m: Mix)
    requires IsMixed(lines, m)
    ensures !CallsApart(lines, 2, 3)
  {
    NoClocks(lines, m);
    SecondLine(lines, m);
    SecondPass(lines, m);
    CallsApartIff(lines, 2, 3);
    assert m.id in Part(lines, 2, 3).ledger.toolAt.Keys;
  }

  lemma NotFiled(lines: seq<Entry>, m: Mix)
    requires IsMixed(lines, m)
    ensures !Filed(lines, 2, BatchZone(lines, 2, 3))
  {
    PassTables(lines, m);
    BatchIsItsZone(lines, 2, 3, 0);
    TwoAgents(lines, m);
    NotBelow(lines, m);
  }

  lemma TwoAgents(lines: seq<Entry>, m: Mix)
    requires IsMixed(lines, m)
    ensures !OneAgent(lines, 2)
  {
    assert AnswersAs(lines[0], m.x) && AnswersAs(lines[1], m.x);
  }

  lemma NotBelow(lines: seq<Entry>, m: Mix)
    requires IsMixed(lines, m)
    ensures !HoursBelow(lines, 0, 2, m.hour)
  {
    assert HourAt(lines[0].record.value) == m.hour;
  }

  /** The call stands on both sides of the offset, and yet the store is right: the batch drops what the first pass filed
      under the batch's own hour and agent. So the equivalence needs each answer before the offset to keep to one agent, or
      the hours there to be lower. */
  lemma MixedAgentsAreRight(lines: seq<Entry>, m: Mix)
    requires IsMixed(lines, m)
    ensures ClocksKept(lines, 2) && !Filed(lines, 2, BatchZone(lines, 2, 3)) && !ParseOf(lines, 2, 3, 0).rewind
    ensures !Parts(lines, 2, 3, 3) && Apply(Straight(lines, 3), ParseOf(lines, 2, 3, 0), false) == Straight(lines, 3)
  {
    NoClocks(lines, m);
    WholeTables(lines, m);
    PassTables(lines, m);
    PutBack(ParseOf(lines, 2, 3, 0), m);
    CallStandsTwice(lines, m);
    NotFiled(lines, m);
  }
}
