/** What the lines say by themselves of calls, answers and names: what a pass over them keeps, read off the lines. */
module UsageLines {
  import opened Options
  import opened Lines
  import opened UsageRecords
  import opened UsageScan
  import opened UsageCut
  import opened UsageLookback
  import opened UsageTables
  import opened UsageSplit

  /** The ids of the calls among blocks. */
  function CallIds(blocks: seq<Block>): set<string> {
    set j | 0 <= j < |blocks| && blocks[j].Call? && blocks[j].id != "" :: blocks[j].id
  }

  /** The first call with an id; the number of blocks when there is none. */
  function FirstCall(blocks: seq<Block>, id: string): (j: nat)
    ensures j <= |blocks| && (j < |blocks| ==> blocks[j].Call? && blocks[j].id == id)
    ensures forall l | 0 <= l < j :: !(blocks[l].Call? && blocks[l].id == id)
  {
    if blocks == [] || (blocks[0].Call? && blocks[0].id == id) then 0 else FirstCall(blocks[1..], id) + 1
  }

  /** The ids of the calls the answers of some lines make. */
  function Met(lines: seq<Entry>, lo: nat, hi: nat): set<string>
    requires lo <= hi <= |lines|
  {
    if lo == hi then {}
    else Met(lines, lo, hi - 1) + if IsAnswer(lines[hi - 1]) then CallIds(lines[hi - 1].record.value.blocks) else {}
  }

  /** The hour of an answer's first record among some lines; 0 when no record there is of it. */
  function FirstHour(lines: seq<Entry>, lo: nat, hi: nat, x: string): nat
    requires lo <= hi <= |lines|
  {
    if lo == hi then 0
    else if FirstHour(lines, lo, hi - 1, x) > 0 then FirstHour(lines, lo, hi - 1, x)
    else if AnswersAs(lines[hi - 1], x) then HourAt(lines[hi - 1].record.value)
    else 0
  }

  /** The row a call of a line is counted in. */
  function KeyAt(lines: seq<Entry>, lo: nat, i: nat, tool: string): ToolKey
    requires lo <= i < |lines| && IsAnswer(lines[i])
  {
    ToolKey(FirstHour(lines, lo, i + 1, lines[i].record.value.mid), lines[i].record.value.agent, tool)
  }

  /** The row the call with an id is counted in: that of the first call of the id, when it has a name. */
  function CountedAt(lines: seq<Entry>, lo: nat, hi: nat, id: string): Option<ToolKey>
    requires lo <= hi <= |lines|
  {
    if lo == hi then None
    else if id == "" || id in Met(lines, lo, hi - 1) || !IsAnswer(lines[hi - 1]) then
      CountedAt(lines, lo, hi - 1, id)
    else
      var blocks := lines[hi - 1].record.value.blocks;
      var j := FirstCall(blocks, id);
      if j < |blocks| && blocks[j].name != "" then Some(KeyAt(lines, lo, hi - 1, blocks[j].name)) else None
  }

  /** The name an agent is last given by the answers of some lines; none when they give it none. */
  function NameOf(lines: seq<Entry>, lo: nat, hi: nat, agent: string): string
    requires lo <= hi <= |lines|
  {
    if lo == hi then ""
    else if IsAnswer(lines[hi - 1]) && lines[hi - 1].record.value.agent == agent && lines[hi - 1].record.value.attribution != ""
    then lines[hi - 1].record.value.attribution
    else NameOf(lines, lo, hi - 1, agent)
  }

  /** A line begins an answer of the lines from a place on. */
  ghost predicate Begins(lines: seq<Entry>, lo: nat, i: nat)
    requires lo <= i < |lines|
  {
    IsAnswer(lines[i]) && forall l | lo <= l < i :: !AnswersAs(lines[l], lines[i].record.value.mid)
  }

  lemma IdsMore(blocks: seq<Block>, n: nat)
    requires 0 < n <= |blocks|
    ensures CallIds(blocks[..n]) ==
            CallIds(blocks[..n - 1]) + if blocks[n - 1].Call? && blocks[n - 1].id != "" then {blocks[n - 1].id} else {}
  {
    var all, rest := blocks[..n], blocks[..n - 1];
    forall id
      ensures id in CallIds(all) <==> id in CallIds(rest) || (blocks[n - 1].Call? && blocks[n - 1].id == id != "")
    {
      if id in CallIds(rest) {
        var j :| 0 <= j < |rest| && rest[j].Call? && rest[j].id == id;
        assert all[j] == rest[j];
      }
      if id in CallIds(all) {
        var j :| 0 <= j < |all| && all[j].Call? && all[j].id == id;
        assert j < n - 1 ==> rest[j] == all[j];
      }
      assert all[n - 1] == blocks[n - 1];
    }
  }

  lemma FirstIsMet(blocks: seq<Block>, n: nat, id: string)
    requires n <= |blocks| && id != ""
    ensures id in CallIds(blocks[..n]) <==> FirstCall(blocks, id) < n
  {
    var j := FirstCall(blocks, id);
    if j < n {
      assert blocks[..n][j] == blocks[j];
    }
    if id in CallIds(blocks[..n]) {
      var l :| 0 <= l < n && blocks[..n][l].Call? && blocks[..n][l].id == id;
      assert blocks[l] == blocks[..n][l];
    }
  }

  /** What the calls of a record leave for one id. */
  lemma {:induction false} BlocksCount(l: Ledger, bucket: nat, agent: string, blocks: seq<Block>, n: nat, id: string)
    requires n <= |blocks| && Sound(l) && id != ""
    ensures var now := WithCalls(l, bucket, agent, blocks[..n]);
            && now.seen == l.seen + CallIds(blocks[..n])
            && (id in l.seen ==> (id in now.toolAt <==> id in l.toolAt) && (id in l.toolAt ==> now.toolAt[id] == l.toolAt[id]))
            && (id !in l.seen ==>
                  var j := FirstCall(blocks, id);
                  && (id in now.toolAt <==> j < n && blocks[j].name != "")
                  && (id in now.toolAt ==> now.toolAt[id] == ToolKey(bucket, agent, blocks[j].name)))
  {
    if n > 0 {
      BlocksCount(l, bucket, agent, blocks, n - 1, id);
      assert blocks[..n][..n - 1] == blocks[..n - 1];
      IdsMore(blocks, n);
      FirstIsMet(blocks, n - 1, id);
    } else {
      assert CallIds(blocks[..0]) == {};
    }
  }

  /** An answer of a pass stands under the hour its first record names. */
  lemma {:induction false} FirstHourIs(s: Scan, lines: seq<Entry>, lo: nat, hi: nat, x: string)
    requires lo <= hi <= |lines| && s.answers == map[]
    ensures var now := Run(s, lines, lo, hi);
            if x in now.answers then FirstHour(lines, lo, hi, x) == now.answers[x].bucket > 0 else FirstHour(lines, lo, hi, x) == 0
    decreases hi
  {
    if lo < hi {
      FirstHourIs(s, lines, lo, hi - 1, x);
      if lines[hi - 1].record.Some? {
        StepTables(Run(s, lines, lo, hi - 1), Pos(lines, hi - 1), lines[hi - 1].record.value);
      }
    }
  }

  /** The calls a pass has met and counted are those of its lines. */
  lemma {:induction false} CallsAre(s: Scan, lines: seq<Entry>, lo: nat, hi: nat, id: string)
    requires lo <= hi <= |lines| && s.answers == map[] && s.ledger == BLANK.ledger && id != ""
    ensures var l, at := Run(s, lines, lo, hi).ledger, CountedAt(lines, lo, hi, id);
            && Sound(l) && l.seen == Met(lines, lo, hi) && "" !in l.seen
            && (id in l.toolAt <==> at.Some?) && (at.Some? ==> l.toolAt[id] == at.value)
    decreases hi
  {
    if lo < hi {
      CallsAre(s, lines, lo, hi - 1, id);
      if lines[hi - 1].record.Some? {
        LineCounts(s, lines, lo, hi, id);
      }
    }
  }

  lemma LineCounts(s: Scan, lines: seq<Entry>, lo: nat, hi: nat, id: string)
    requires lo < hi <= |lines| && s.answers == map[] && id != "" && lines[hi - 1].record.Some?
    requires var l, at := Run(s, lines, lo, hi - 1).ledger, CountedAt(lines, lo, hi - 1, id);
            && Sound(l) && l.seen == Met(lines, lo, hi - 1) && "" !in l.seen
            && (id in l.toolAt <==> at.Some?) && (at.Some? ==> l.toolAt[id] == at.value)
    ensures var l, at := Run(s, lines, lo, hi).ledger, CountedAt(lines, lo, hi, id);
            && Sound(l) && l.seen == Met(lines, lo, hi) && "" !in l.seen
            && (id in l.toolAt <==> at.Some?) && (at.Some? ==> l.toolAt[id] == at.value)
  {
    var was, r := Run(s, lines, lo, hi - 1), lines[hi - 1].record.value;
    StepTables(was, Pos(lines, hi - 1), r);
    StepGrows(was, Pos(lines, hi - 1), r);
    if Answers(r) {
      FirstHourIs(s, lines, lo, hi, r.mid);
      FirstHourIs(s, lines, lo, hi - 1, r.mid);
      BlocksCount(was.ledger, BucketOf(was, r), r.agent, r.blocks, |r.blocks|, id);
      assert r.blocks[..|r.blocks|] == r.blocks;
    }
  }

  lemma {:induction false} NoneWithoutId(lines: seq<Entry>, lo: nat, hi: nat)
    requires lo <= hi <= |lines|
    ensures CountedAt(lines, lo, hi, "").None?
    decreases hi
  {
    if lo < hi {
      NoneWithoutId(lines, lo, hi - 1);
    }
  }

  /** The name a pass gives an agent is the last its lines give it, or the one it started with. */
  lemma {:induction false} NamesAre(s: Scan, lines: seq<Entry>, lo: nat, hi: nat, agent: string)
    requires lo <= hi <= |lines|
    ensures Get(Run(s, lines, lo, hi).kinds, agent, "") ==
            if NameOf(lines, lo, hi, agent) != "" then NameOf(lines, lo, hi, agent) else Get(s.kinds, agent, "")
    decreases hi
  {
    if lo < hi {
      NamesAre(s, lines, lo, hi - 1, agent);
      if lines[hi - 1].record.Some? {
        StepTables(Run(s, lines, lo, hi - 1), Pos(lines, hi - 1), lines[hi - 1].record.value);
      }
    }
  }

  /** Answers are those some lines begin, each under the agent of its first record. */
  ghost predicate AnswersOf(answers: map<string, Answer>, lines: seq<Entry>, lo: nat, hi: nat)
    requires lo <= hi <= |lines|
  {
    && (forall i | lo <= i < hi && Begins(lines, lo, i) :: AnswerAt(answers, lines[i]))
    && (forall i | lo <= i < hi && IsAnswer(lines[i]) :: lines[i].record.value.mid in answers)
    && (forall x | x in answers :: BegunIn(lines, lo, hi, x))
  }

  predicate AnswerAt(answers: map<string, Answer>, line: Entry)
    requires IsAnswer(line)
  {
    line.record.value.mid in answers && answers[line.record.value.mid].agent == line.record.value.agent
  }

  ghost predicate BegunIn(lines: seq<Entry>, lo: nat, hi: nat, x: string)
    requires lo <= hi <= |lines|
  {
    exists i :: lo <= i < hi && Begins(lines, lo, i) && lines[i].record.value.mid == x
  }

  /** The answers of a pass are those its lines begin. */
  lemma {:induction false} AnswersAre(s: Scan, lines: seq<Entry>, lo: nat, hi: nat)
    requires lo <= hi <= |lines| && s.answers == map[]
    ensures AnswersOf(Run(s, lines, lo, hi).answers, lines, lo, hi)
    decreases hi
  {
    if lo < hi {
      AnswersAre(s, lines, lo, hi - 1);
      var was := Run(s, lines, lo, hi - 1);
      if lines[hi - 1].record.Some? {
        StepTables(was, Pos(lines, hi - 1), lines[hi - 1].record.value);
      }
      AnswersMore(was.answers, Run(s, lines, lo, hi).answers, lines, lo, hi, was.lastUser);
    }
  }

  lemma AnswersMore(was: map<string, Answer>, now: map<string, Answer>, lines: seq<Entry>, lo: nat, hi: nat, lastUser: Option<int>)
    requires lo < hi <= |lines| && AnswersOf(was, lines, lo, hi - 1)
    requires now == if IsAnswer(lines[hi - 1]) then
                      var r := lines[hi - 1].record.value;
                      was[r.mid := Heard(AnswerOf(was, lastUser, r), r)]
                    else was
    ensures AnswersOf(now, lines, lo, hi)
  {
    forall i | lo <= i < hi && Begins(lines, lo, i)
      ensures AnswerAt(now, lines[i])
    {
      if i < hi - 1 {
        assert AnswerAt(was, lines[i]);
      } else {
        forall x | x in was
          ensures x != lines[i].record.value.mid
        {
          var l :| lo <= l < hi - 1 && Begins(lines, lo, l) && lines[l].record.value.mid == x;
          assert AnswersAs(lines[l], x);
        }
      }
    }
    forall x | x in now
      ensures BegunIn(lines, lo, hi, x)
    {
      if x in was {
        var i :| lo <= i < hi - 1 && Begins(lines, lo, i) && lines[i].record.value.mid == x;
        assert lo <= i < hi;
      } else {
        forall l | lo <= l < hi - 1
          ensures !AnswersAs(lines[l], x)
        {
          assert AnswersAs(lines[l], x) ==> IsAnswer(lines[l]);
        }
        assert Begins(lines, lo, hi - 1);
      }
    }
  }

  /** The hour the first record that names one names; 0 when none does. */
  function FirstNamed(lines: seq<Entry>, lo: nat, hi: nat): nat
    requires lo <= hi <= |lines|
  {
    if lo == hi then 0
    else if FirstNamed(lines, lo, hi - 1) > 0 || lines[hi - 1].record.None? then FirstNamed(lines, lo, hi - 1)
    else HourAt(lines[hi - 1].record.value)
  }

  lemma {:induction false} FirstIs(s: Scan, lines: seq<Entry>, lo: nat, hi: nat)
    requires lo <= hi <= |lines| && s.first == 0
    ensures Run(s, lines, lo, hi).first == FirstNamed(lines, lo, hi)
    ensures FirstNamed(lines, lo, hi) == 0 ==> forall i | lo <= i < hi && lines[i].record.Some? :: HourAt(lines[i].record.value) == 0
    decreases hi
  {
    if lo < hi {
      FirstIs(s, lines, lo, hi - 1);
      if lines[hi - 1].record.Some? {
        StepTables(Run(s, lines, lo, hi - 1), Pos(lines, hi - 1), lines[hi - 1].record.value);
      }
    }
  }

  predicate IsCounted(line: Entry) {
    line.record.Some? && !line.record.value.Other?
  }

  function AgentsIn(lines: seq<Entry>, lo: nat, hi: nat): set<string>
    requires lo <= hi <= |lines|
  {
    set i | lo <= i < hi && IsCounted(lines[i]) :: lines[i].record.value.agent
  }

  /** The part of the store the batch of some lines takes for its own. */
  function BatchZone(lines: seq<Entry>, lo: nat, hi: nat): Zone
    requires lo <= hi <= |lines|
  {
    Zone(FirstNamed(lines, lo, hi), AgentsIn(lines, lo, hi))
  }
}
