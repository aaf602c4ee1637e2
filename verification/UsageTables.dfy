/** What a pass hands to the store, and what the store makes of it. */
module UsageTables {
  import opened Options
  import opened Lines
  import opened UsageRecords
  import opened UsageScan
  import opened UsageCut
  import opened UsageLookback

  datatype RowKey = RowKey(bucket: nat, model: string, agent: string, speed: string, tier: string)
  datatype Row = Row(answers: nat, tokens: Tokens, thinking: nat, latencySum: int, latencyMax: int, kind: string)

  const NO_ROW := Row(0, NO_TOKENS, 0, 0, 0, "")

  /** The three tables of hourly aggregates. */
  datatype Tables = Tables(rows: map<RowKey, Row>, tools: map<ToolKey, Tool>, events: map<EventKey, Event>)

  const NO_TABLES := Tables(map[], map[], map[])

  datatype Parsed = Parsed(tables: Tables, offset: nat, since: nat, rewind: bool)

  function KeyOf(a: Answer): RowKey {
    RowKey(a.bucket, a.model, a.agent, a.speed, a.tier)
  }

  function AddAnswer(row: Row, a: Answer): Row {
    Row(row.answers + 1, AddTokens(row.tokens, a.tokens), row.thinking + a.thinking,
        row.latencySum + (if a.latency.Some? then a.latency.value else 0),
        if a.latency.Some? then Max(row.latencyMax, a.latency.value) else row.latencyMax,
        row.kind)
  }

  function FoldAnswer(rows: map<RowKey, Row>, a: Answer): map<RowKey, Row> {
    rows[KeyOf(a) := AddAnswer(Get(rows, KeyOf(a), NO_ROW), a)]
  }

  function FoldAnswers(order: seq<string>, answers: map<string, Answer>): map<RowKey, Row>
    requires forall x | x in order :: x in answers
  {
    if order == [] then map[]
    else FoldAnswer(FoldAnswers(order[..|order| - 1], answers), answers[order[|order| - 1]])
  }

  function Kinded(rows: map<RowKey, Row>, kinds: map<string, string>): map<RowKey, Row> {
    map k | k in rows :: rows[k].(kind := Get(kinds, k.agent, ""))
  }

  /** The tables of a pass as its last record leaves them. */
  function Finish(s: Scan): Tables
    requires forall x | x in s.order :: x in s.answers
  {
    Tables(Kinded(FoldAnswers(s.order, s.answers), s.kinds), s.ledger.tools, s.events)
  }

  /** The rows of the hours from h on. */
  function From(t: Tables, h: nat): Tables {
    Tables(map k | k in t.rows && k.bucket >= h :: t.rows[k],
           map k | k in t.tools && k.bucket >= h :: t.tools[k],
           map k | k in t.events && k.bucket >= h :: t.events[k])
  }

  /** The state a pass starts from: blank, or blank but for the clocks of what stands before. */
  function Begin(lines: seq<Entry>, lo: nat): Scan
    requires lo <= |lines|
  {
    if Pos(lines, lo) == 0 then BLANK
    else BLANK.(lastUser := Lookback(lines, lo).lastUser, lastAnswer := Lookback(lines, lo).lastAnswer)
  }

  lemma {:induction false} OrderIsKept(s: Scan, lines: seq<Entry>, lo: nat, hi: nat)
    requires lo <= hi <= |lines|
    requires forall x :: x in s.order <==> x in s.answers
    requires forall i, j | 0 <= i < j < |s.order| :: s.order[i] != s.order[j]
    ensures forall x :: x in Run(s, lines, lo, hi).order <==> x in Run(s, lines, lo, hi).answers
    ensures forall i, j | 0 <= i < j < |Run(s, lines, lo, hi).order| ::
              Run(s, lines, lo, hi).order[i] != Run(s, lines, lo, hi).order[j]
    decreases hi
  {
    if lo < hi {
      OrderIsKept(s, lines, lo, hi - 1);
      var was, now := Run(s, lines, lo, hi - 1), Run(s, lines, lo, hi);
      if lines[hi - 1].record.Some? {
        StepAnswers(was, Pos(lines, hi - 1), lines[hi - 1].record.value);
      }
    }
  }

  lemma StepAnswers(s: Scan, start: nat, r: Record)
    ensures var now := Step(s, start, r);
            if Answers(r)
            then now.order == (if r.mid in s.answers then s.order else s.order + [r.mid])
                 && now.answers.Keys == s.answers.Keys + {r.mid}
            else now.order == s.order && now.answers == s.answers
  {
  }

  ghost function ScanOf(lines: seq<Entry>, lo: nat, hi: nat): (s: Scan)
    requires lo <= hi <= |lines|
    ensures forall x :: x in s.order <==> x in s.answers
    ensures forall i, j | 0 <= i < j < |s.order| :: s.order[i] != s.order[j]
  {
    OrderIsKept(Begin(lines, lo), lines, lo, hi);
    Run(Begin(lines, lo), lines, lo, hi)
  }

  /** The parse of the lines from `lo` of a file that holds `hi` of them whole and `torn` bytes of the next. */
  ghost function ParseOf(lines: seq<Entry>, lo: nat, hi: nat, torn: nat): Parsed
    requires lo <= hi <= |lines|
  {
    var s := ScanOf(lines, lo, hi);
    var t := Finish(s);
    var inside := Pos(lines, lo) > 0 && s.first > 0;
    Parsed(if inside then From(t, s.first) else t,
           Offset(s.hours, Pos(lines, hi) + torn, Pos(lines, lo)),
           s.first,
           inside && From(t, s.first) != t)
  }

  function Agents(t: Tables): set<string> {
    (set k | k in t.rows :: k.agent) + (set k | k in t.tools :: k.agent) + (set k | k in t.events :: k.agent)
  }

  predicate Goes(agents: set<string>, since: nat, rewrite: bool, agent: string, bucket: nat) {
    agent in agents && (rewrite || (since > 0 && bucket >= since))
  }

  /** A batch drops the rows of its own agents from its first hour on, or all of them, and puts its own. */
  function Apply(db: Tables, p: Parsed, rewrite: bool): Tables {
    var agents := Agents(p.tables);
    Tables((map k | k in db.rows && !Goes(agents, p.since, rewrite, k.agent, k.bucket) :: db.rows[k]) + p.tables.rows,
           (map k | k in db.tools && !Goes(agents, p.since, rewrite, k.agent, k.bucket) :: db.tools[k]) + p.tables.tools,
           (map k | k in db.events && !Goes(agents, p.since, rewrite, k.agent, k.bucket) :: db.events[k]) + p.tables.events)
  }

  /** What a straight parse of the first lines leaves in an empty store. */
  ghost function Straight(lines: seq<Entry>, hi: nat): Tables
    requires hi <= |lines|
  {
    Finish(ScanOf(lines, 0, hi))
  }
}
