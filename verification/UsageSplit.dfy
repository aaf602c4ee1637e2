/** A pass over a whole file, split at a line into what stands before it and a pass that starts there. */
module UsageSplit {
  import opened Options
  import opened Lines
  import opened UsageRecords
  import opened UsageScan
  import opened UsageCut
  import opened UsageLookback
  import opened UsageTables

  ghost predicate HoursBelow(lines: seq<Entry>, lo: nat, hi: nat, h: nat)
    requires lo <= hi <= |lines|
  {
    forall i | lo <= i < hi && lines[i].record.Some? && !lines[i].record.value.Other? ::
      HourAt(lines[i].record.value) < h
  }

  ghost predicate HoursFrom(lines: seq<Entry>, lo: nat, hi: nat, h: nat)
    requires lo <= hi <= |lines|
  {
    forall i | lo <= i < hi && lines[i].record.Some? && !lines[i].record.value.Other? ::
      HourAt(lines[i].record.value) >= h
  }

  ghost predicate Below(s: Scan, h: nat) {
    && (forall k | k in s.events :: k.bucket < h)
    && (forall k | k in s.ledger.tools :: k.bucket < h)
    && (forall x | x in s.answers :: s.answers[x].bucket < h)
  }

  /** The part of the store a batch takes for its own: the rows of its agents from its first hour on; with no hour in
      it, those of its agents under no hour. */
  datatype Zone = Zone(since: nat, agents: set<string>)

  predicate In(z: Zone, bucket: nat, agent: string) {
    agent in z.agents && if z.since > 0 then bucket >= z.since else bucket == 0
  }

  /** A counted record whose hour and agent a zone holds. */
  predicate CountedIn(line: Entry, z: Zone) {
    line.record.Some? && !line.record.value.Other? && In(z, HourAt(line.record.value), line.record.value.agent)
  }

  ghost predicate RecordsOut(lines: seq<Entry>, lo: nat, hi: nat, z: Zone)
    requires lo <= hi <= |lines|
  {
    forall i | lo <= i < hi :: !CountedIn(lines[i], z)
  }

  ghost predicate RecordsIn(lines: seq<Entry>, lo: nat, hi: nat, z: Zone)
    requires lo <= hi <= |lines|
  {
    forall i | lo <= i < hi && lines[i].record.Some? && !lines[i].record.value.Other? :: CountedIn(lines[i], z)
  }

  ghost predicate Outside(s: Scan, z: Zone) {
    && (forall k | k in s.events :: !In(z, k.bucket, k.agent))
    && (forall k | k in s.ledger.tools :: !In(z, k.bucket, k.agent))
    && (forall x | x in s.answers :: !In(z, s.answers[x].bucket, s.answers[x].agent))
  }

  ghost predicate Inside(s: Scan, z: Zone) {
    && (forall k | k in s.events :: In(z, k.bucket, k.agent))
    && (forall k | k in s.ledger.tools :: In(z, k.bucket, k.agent))
    && (forall x | x in s.answers :: In(z, s.answers[x].bucket, s.answers[x].agent))
  }

  /** The records of an answer name one agent. */
  ghost predicate OneAgent(lines: seq<Entry>, n: nat)
    requires n <= |lines|
  {
    forall i, l, x | 0 <= i < l < n && AnswersAs(lines[i], x) && AnswersAs(lines[l], x) ::
      lines[i].record.value.agent == lines[l].record.value.agent
  }

  /** Every call before a place stands under the hour and the agent of a record: an answer keeps its agent, or all the
      hours are below anyway. */
  ghost predicate Filed(lines: seq<Entry>, n: nat, z: Zone)
    requires n <= |lines|
  {
    OneAgent(lines, n) || HoursBelow(lines, 0, n, z.since)
  }

  /** Every call counted is in the ledger's rows, and its id among the ids met. */
  ghost predicate Sound(l: Ledger) {
    && (forall x | x in l.toolAt :: x in l.seen && l.toolAt[x] in l.tools)
  }

  lemma {:induction false} ErrorsKeep(tools: map<ToolKey, Tool>, toolAt: map<string, ToolKey>, blocks: seq<Block>)
    ensures WithErrors(tools, toolAt, blocks).Keys == tools.Keys
    ensures forall k | k in tools :: WithErrors(tools, toolAt, blocks)[k].calls == tools[k].calls
    ensures forall k | k in tools :: WithErrors(tools, toolAt, blocks)[k].errors >= tools[k].errors
  {
    if blocks != [] {
      ErrorsKeep(tools, toolAt, blocks[..|blocks| - 1]);
    }
  }

  /** What stays of a ledger once more calls are taken down under one hour and agent. */
  ghost predicate Grown(l: Ledger, bucket: nat, agent: string, now: Ledger) {
    && l.tools.Keys <= now.tools.Keys
    && (forall k | k in now.tools && k !in l.tools :: k.bucket == bucket && k.agent == agent)
    && l.seen <= now.seen
    && l.toolAt.Keys <= now.toolAt.Keys
    && Sound(now)
  }

  lemma {:induction false} CallsGrow(l: Ledger, bucket: nat, agent: string, blocks: seq<Block>)
    requires Sound(l)
    ensures Grown(l, bucket, agent, WithCalls(l, bucket, agent, blocks))
  {
    if blocks != [] {
      CallsGrow(l, bucket, agent, blocks[..|blocks| - 1]);
    }
  }

  /** What a record does to the parts of a pass the tables are made of. */
  lemma StepTables(s: Scan, start: nat, r: Record)
    ensures var now := Step(s, start, r);
      && now.events == (if r.Other? then s.events else EventsAfter(s.events, s.lastAnswer, r))
      && now.ledger == (if r.User? then s.ledger.(tools := WithErrors(s.ledger.tools, s.ledger.toolAt, r.blocks))
                        else if Answers(r) then WithCalls(s.ledger, BucketOf(s, r), r.agent, r.blocks)
                        else s.ledger)
      && now.answers == (if Answers(r) then s.answers[r.mid := Heard(AnswerOf(s.answers, s.lastUser, r), r)] else s.answers)
      && now.kinds == (if Answers(r) && r.attribution != "" then s.kinds[r.agent := r.attribution] else s.kinds)
      && now.first == (if s.first == 0 then HourAt(r) else s.first)
  {
    match r
    case Assistant(_, _, _, _, _, _, _, _) => AssistantTables(s, start, r);
    case _ =>
  }

  lemma UserTools(s: Scan, start: nat, r: Record)
    requires r.User?
    ensures Step(s, start, r).ledger == s.ledger.(tools := WithErrors(s.ledger.tools, s.ledger.toolAt, r.blocks))
  {
  }

  lemma AssistantTables(s: Scan, start: nat, r: Record)
    requires r.Assistant?
    ensures var now := Step(s, start, r);
      && now.events == EventsAfter(s.events, s.lastAnswer, r) && now.first == (if s.first == 0 then HourAt(r) else s.first)
      && (if Answers(r)
          then now.ledger == WithCalls(s.ledger, BucketOf(s, r), r.agent, r.blocks)
            && now.answers == s.answers[r.mid := Heard(AnswerOf(s.answers, s.lastUser, r), r)]
            && now.kinds == (if r.attribution != "" then s.kinds[r.agent := r.attribution] else s.kinds)
          else now.ledger == s.ledger && now.answers == s.answers && now.kinds == s.kinds)
  {
  }

  lemma StepGrows(s: Scan, start: nat, r: Record)
    requires Sound(s.ledger)
    ensures var now := Step(s, start, r);
      && Sound(now.ledger)
      && s.events.Keys <= now.events.Keys
      && (!r.Other? ==> EventKey(HourAt(r), r.agent) in now.events)
      && (forall k | k in now.events && k !in s.events :: !r.Other? && k == EventKey(HourAt(r), r.agent))
      && s.ledger.tools.Keys <= now.ledger.tools.Keys
      && s.ledger.toolAt.Keys <= now.ledger.toolAt.Keys
      && s.ledger.seen <= now.ledger.seen
      && (forall k | k in now.ledger.tools && k !in s.ledger.tools :: Answers(r) && k.bucket == BucketOf(s, r) && k.agent == r.agent)
      && (forall x | x in s.answers :: x in now.answers && now.answers[x].bucket == s.answers[x].bucket
                                       && now.answers[x].agent == s.answers[x].agent)
      && (forall x | x in now.answers && x !in s.answers ::
            Answers(r) && x == r.mid && now.answers[x].bucket == HourAt(r) && now.answers[x].agent == r.agent)
  {
    StepTables(s, start, r);
    if r.User? {
      ErrorsKeep(s.ledger.tools, s.ledger.toolAt, r.blocks);
    } else if Answers(r) {
      CallsGrow(s.ledger, BucketOf(s, r), r.agent, r.blocks);
    }
  }

  lemma {:induction false} RunBelow(s: Scan, lines: seq<Entry>, lo: nat, hi: nat, h: nat)
    requires lo <= hi <= |lines| && HoursBelow(lines, lo, hi, h) && Below(s, h) && Sound(s.ledger)
    ensures Below(Run(s, lines, lo, hi), h) && Sound(Run(s, lines, lo, hi).ledger)
    decreases hi
  {
    if lo < hi {
      RunBelow(s, lines, lo, hi - 1, h);
      if lines[hi - 1].record.Some? {
        StepGrows(Run(s, lines, lo, hi - 1), Pos(lines, hi - 1), lines[hi - 1].record.value);
      }
    }
  }

  lemma {:induction false} AnswersKeepAgents(lines: seq<Entry>, n: nat)
    requires n <= |lines| && OneAgent(lines, n)
    ensures forall l, x | 0 <= l < n && AnswersAs(lines[l], x) ::
              x in Run(BLANK, lines, 0, n).answers && Run(BLANK, lines, 0, n).answers[x].agent == lines[l].record.value.agent
    ensures forall x | x in Run(BLANK, lines, 0, n).answers :: exists l :: 0 <= l < n && AnswersAs(lines[l], x)
  {
    if n > 0 {
      AnswersKeepAgents(lines, n - 1);
      if lines[n - 1].record.Some? {
        StepTables(Run(BLANK, lines, 0, n - 1), Pos(lines, n - 1), lines[n - 1].record.value);
      }
    }
  }

  /** Nothing counted before a place is in a zone none of its records are in. */
  lemma {:induction false} RunOutside(lines: seq<Entry>, n: nat, z: Zone)
    requires n <= |lines| && RecordsOut(lines, 0, n, z) && Filed(lines, n, z)
    ensures Outside(Run(BLANK, lines, 0, n), z) && Sound(Run(BLANK, lines, 0, n).ledger)
  {
    if HoursBelow(lines, 0, n, z.since) {
      RunBelow(BLANK, lines, 0, n, z.since);
    } else {
      RunOutsideByAgent(lines, n, z);
    }
  }

  lemma {:induction false} RunOutsideByAgent(lines: seq<Entry>, n: nat, z: Zone)
    requires n <= |lines| && RecordsOut(lines, 0, n, z) && OneAgent(lines, n)
    ensures Outside(Run(BLANK, lines, 0, n), z) && Sound(Run(BLANK, lines, 0, n).ledger)
  {
    if n > 0 {
      RunOutsideByAgent(lines, n - 1, z);
      var was := Run(BLANK, lines, 0, n - 1);
      if lines[n - 1].record.Some? {
        assert !CountedIn(lines[n - 1], z);
        HeardFromItsAgent(lines, n - 1);
        StepOutside(was, Pos(lines, n - 1), lines[n - 1].record.value, z);
      }
    }
  }

  /** A record that goes on an answer names the answer's agent. */
  lemma HeardFromItsAgent(lines: seq<Entry>, n: nat)
    requires n < |lines| && OneAgent(lines, n + 1) && lines[n].record.Some?
    ensures var s, r := Run(BLANK, lines, 0, n), lines[n].record.value;
            Answers(r) && r.mid in s.answers ==> s.answers[r.mid].agent == r.agent
  {
    var s, r := Run(BLANK, lines, 0, n), lines[n].record.value;
    AnswersKeepAgents(lines, n);
    if Answers(r) && r.mid in s.answers {
      var l :| 0 <= l < n && AnswersAs(lines[l], r.mid);
      assert AnswersAs(lines[n], r.mid);
    }
  }

  lemma StepOutside(s: Scan, start: nat, r: Record, z: Zone)
    requires Outside(s, z) && Sound(s.ledger) && (!r.Other? ==> !In(z, HourAt(r), r.agent))
    requires Answers(r) && r.mid in s.answers ==> s.answers[r.mid].agent == r.agent
    ensures Outside(Step(s, start, r), z) && Sound(Step(s, start, r).ledger)
  {
    StepGrows(s, start, r);
  }

  lemma {:induction false} RunInside(s: Scan, lines: seq<Entry>, lo: nat, hi: nat, z: Zone)
    requires lo <= hi <= |lines| && RecordsIn(lines, lo, hi, z) && Inside(s, z) && Sound(s.ledger)
    ensures Inside(Run(s, lines, lo, hi), z) && Sound(Run(s, lines, lo, hi).ledger)
    decreases hi
  {
    if lo < hi {
      RunInside(s, lines, lo, hi - 1, z);
      if lines[hi - 1].record.Some? {
        StepGrows(Run(s, lines, lo, hi - 1), Pos(lines, hi - 1), lines[hi - 1].record.value);
      }
    }
  }

  /** What a later state of a pass keeps of an earlier one. */
  ghost predicate Extends(s: Scan, now: Scan) {
    && s.events.Keys <= now.events.Keys
    && s.ledger.tools.Keys <= now.ledger.tools.Keys
    && s.ledger.toolAt.Keys <= now.ledger.toolAt.Keys
    && (forall x | x in s.answers :: x in now.answers && now.answers[x].bucket == s.answers[x].bucket
                                     && now.answers[x].agent == s.answers[x].agent)
  }

  lemma {:induction false} RunExtends(s: Scan, lines: seq<Entry>, lo: nat, hi: nat)
    requires lo <= hi <= |lines| && Sound(s.ledger)
    ensures Extends(s, Run(s, lines, lo, hi)) && Sound(Run(s, lines, lo, hi).ledger)
    decreases hi
  {
    if lo < hi {
      RunExtends(s, lines, lo, hi - 1);
      if lines[hi - 1].record.Some? {
        StepGrows(Run(s, lines, lo, hi - 1), Pos(lines, hi - 1), lines[hi - 1].record.value);
      }
    }
  }

  /** The errors of one line more. */
  function ErrorsAfter(low: map<ToolKey, Tool>, at: map<string, ToolKey>, line: Entry): map<ToolKey, Tool> {
    if line.record.Some? && line.record.value.User? then WithErrors(low, at, line.record.value.blocks) else low
  }

  /** The rows of the lines before a place, with the errors later lines report of their calls. */
  function Errors(tools: map<ToolKey, Tool>, toolAt: map<string, ToolKey>, lines: seq<Entry>, lo: nat, hi: nat): map<ToolKey, Tool>
    requires lo <= hi <= |lines|
    decreases hi
  {
    if lo == hi then tools
    else
      ErrorsAfter(Errors(tools, toolAt, lines, lo, hi - 1), toolAt, lines[hi - 1])
  }

  lemma {:induction false} ErrorsOfSplit(low: map<ToolKey, Tool>, at: map<string, ToolKey>,
                                         high: map<ToolKey, Tool>, highAt: map<string, ToolKey>, blocks: seq<Block>)
    requires low.Keys !! high.Keys && at.Keys !! highAt.Keys
    requires (forall x | x in at :: at[x] in low) && (forall x | x in highAt :: highAt[x] in high)
    ensures WithErrors(low + high, at + highAt, blocks) == WithErrors(low, at, blocks) + WithErrors(high, highAt, blocks)
  {
    if blocks != [] {
      var rest := blocks[..|blocks| - 1];
      ErrorsOfSplit(low, at, high, highAt, rest);
      ErrorsKeep(low, at, rest);
      ErrorsKeep(high, highAt, rest);
    }
  }

  /** The ledger of a whole pass, put together from the calls before a place and the calls after it. */
  ghost function Joined(low: map<ToolKey, Tool>, before: Ledger, after: Ledger): Ledger {
    Ledger(low + after.tools, before.toolAt + after.toolAt, before.seen + after.seen)
  }

  lemma {:induction false} CallsSplit(low: map<ToolKey, Tool>, before: Ledger, after: Ledger, z: Zone,
                                      bucket: nat, agent: string, blocks: seq<Block>)
    requires Sound(after) && In(z, bucket, agent)
    requires forall k | k in low :: !In(z, k.bucket, k.agent)
    requires WithCalls(after, bucket, agent, blocks).toolAt.Keys !! before.seen
    ensures WithCalls(Joined(low, before, after), bucket, agent, blocks)
            == Joined(low, before, WithCalls(after, bucket, agent, blocks))
  {
    if blocks != [] {
      var rest := blocks[..|blocks| - 1];
      var mid := WithCalls(after, bucket, agent, rest);
      CallsGrow(after, bucket, agent, rest);
      var now := WithCalls(after, bucket, agent, blocks);
      assert mid.toolAt.Keys <= now.toolAt.Keys;
      CallsSplit(low, before, after, z, bucket, agent, rest);
      var last := blocks[|blocks| - 1];
      if last.Call? {
        CalledSplit(low, before, mid, z, bucket, agent, last.id, last.name);
      }
    }
  }

  lemma CalledSplit(low: map<ToolKey, Tool>, before: Ledger, after: Ledger, z: Zone,
                    bucket: nat, agent: string, id: string, name: string)
    requires In(z, bucket, agent)
    requires forall k | k in low :: !In(z, k.bucket, k.agent)
    requires Called(after, bucket, agent, id, name).toolAt.Keys !! before.seen
    ensures Called(Joined(low, before, after), bucket, agent, id, name)
            == Joined(low, before, Called(after, bucket, agent, id, name))
  {
    var l, r := Called(Joined(low, before, after), bucket, agent, id, name), Joined(low, before, Called(after, bucket, agent, id, name));
    if id != "" && id in after.seen {
    } else if id != "" && id in before.seen {
      assert name == "" || id in Called(after, bucket, agent, id, name).toolAt.Keys;
      assert before.seen + (after.seen + {id}) == before.seen + after.seen;
    } else {
      NewCallSplit(low, before, after, z, ToolKey(bucket, agent, name), id);
    }
  }

  lemma NewCallSplit(low: map<ToolKey, Tool>, before: Ledger, after: Ledger, z: Zone, key: ToolKey, id: string)
    requires In(z, key.bucket, key.agent) && forall k | k in low :: !In(z, k.bucket, k.agent)
    ensures before.seen + (after.seen + {id}) == (before.seen + after.seen) + {id}
    ensures Get(low + after.tools, key, Tool(0, 0)) == Get(after.tools, key, Tool(0, 0))
    ensures var row := Get(after.tools, key, Tool(0, 0));
            (low + after.tools)[key := row.(calls := row.calls + 1)] == low + after.tools[key := row.(calls := row.calls + 1)]
    ensures (before.toolAt + after.toolAt)[id := key] == before.toolAt + after.toolAt[id := key]
  {
  }

  lemma PutRight<K, V>(a: map<K, V>, b: map<K, V>, k: K, v: V)
    ensures (a + b)[k := v] == a + b[k := v]
  {
  }

  /** A whole pass stands to the state before a place and a pass from it as the two put together. */
  ghost predicate Together(before: Scan, low: map<ToolKey, Tool>, whole: Scan, part: Scan) {
    && whole.events == before.events + part.events
    && whole.ledger == Joined(low, before.ledger, part.ledger)
    && whole.order == before.order + part.order
    && whole.answers == before.answers + part.answers
    && whole.kinds == before.kinds + part.kinds
    && whole.lastUser == part.lastUser
    && whole.lastAnswer == part.lastAnswer
  }

  lemma EventsSplit(before: map<EventKey, Event>, part: map<EventKey, Event>, lastAnswer: Option<int>, z: Zone, r: Record)
    requires !r.Other? && In(z, HourAt(r), r.agent)
    requires forall k | k in before :: !In(z, k.bucket, k.agent)
    ensures EventsAfter(before + part, lastAnswer, r) == before + EventsAfter(part, lastAnswer, r)
  {
    var key := EventKey(HourAt(r), r.agent);
    PutRight(before, part, key, EventAfter(Get(part, key, NO_EVENT), lastAnswer, r));
  }

  lemma LedgerSplit(before: Scan, low: map<ToolKey, Tool>, whole: Scan, part: Scan, z: Zone, start: nat, r: Record)
    requires Together(before, low, whole, part)
    requires Outside(before, z) && Sound(before.ledger) && Inside(part, z) && Sound(part.ledger)
    requires low.Keys == before.ledger.tools.Keys
    requires !r.Other? ==> In(z, HourAt(r), r.agent)
    requires Answers(r) ==> r.mid !in before.answers
    requires Step(part, start, r).ledger.toolAt.Keys !! before.ledger.seen
    ensures Step(whole, start, r).ledger ==
            Joined(if r.User? then WithErrors(low, before.ledger.toolAt, r.blocks) else low,
                   before.ledger, Step(part, start, r).ledger)
  {
    if r.User? {
      ErrorsSplit(before, low, whole, part, z, start, r);
    } else if Answers(r) {
      StepTables(whole, start, r);
      StepTables(part, start, r);
      assert r.mid in whole.answers <==> r.mid in part.answers;
      CallsSplit(low, before.ledger, part.ledger, z, BucketOf(part, r), r.agent, r.blocks);
    } else {
      StepTables(whole, start, r);
      StepTables(part, start, r);
    }
  }

  lemma ErrorsSplit(before: Scan, low: map<ToolKey, Tool>, whole: Scan, part: Scan, z: Zone, start: nat, r: Record)
    requires Together(before, low, whole, part) && Outside(before, z) && Inside(part, z) && r.User?
    requires Sound(before.ledger) && Sound(part.ledger) && low.Keys == before.ledger.tools.Keys
    requires Step(part, start, r).ledger.toolAt.Keys !! before.ledger.seen
    ensures Step(whole, start, r).ledger
         == Joined(WithErrors(low, before.ledger.toolAt, r.blocks), before.ledger, Step(part, start, r).ledger)
  {
    UserTools(whole, start, r);
    UserTools(part, start, r);
    ErrorsOfSplit(low, before.ledger.toolAt, part.ledger.tools, part.ledger.toolAt, r.blocks);
  }

  lemma StepTogether(before: Scan, low: map<ToolKey, Tool>, whole: Scan, part: Scan, z: Zone, start: nat, r: Record)
    requires Together(before, low, whole, part)
    requires Outside(before, z) && Sound(before.ledger) && Inside(part, z) && Sound(part.ledger)
    requires low.Keys == before.ledger.tools.Keys
    requires !r.Other? ==> In(z, HourAt(r), r.agent)
    requires Step(part, start, r).answers.Keys !! before.answers.Keys
    requires Step(part, start, r).ledger.toolAt.Keys !! before.ledger.seen
    ensures Together(before, if r.User? then WithErrors(low, before.ledger.toolAt, r.blocks) else low,
                     Step(whole, start, r), Step(part, start, r))
  {
    StepTables(whole, start, r);
    StepTables(part, start, r);
    StepClocks(whole, start, r);
    StepClocks(part, start, r);
    if Answers(r) {
      assert r.mid in Step(part, start, r).answers.Keys;
    }
    AnswersSplit(before, low, whole, part, start, r);
    if !r.Other? {
      EventsSplit(before.events, part.events, part.lastAnswer, z, r);
    }
    LedgerSplit(before, low, whole, part, z, start, r);
  }

  lemma OrderSplit(before: Scan, low: map<ToolKey, Tool>, whole: Scan, part: Scan, start: nat, r: Record)
    requires Together(before, low, whole, part) && (Answers(r) ==> r.mid !in before.answers)
    ensures Step(whole, start, r).order == before.order + Step(part, start, r).order
  {
    StepAnswers(whole, start, r);
    StepAnswers(part, start, r);
  }

  lemma AnswersSplit(before: Scan, low: map<ToolKey, Tool>, whole: Scan, part: Scan, start: nat, r: Record)
    requires Together(before, low, whole, part) && (Answers(r) ==> r.mid !in before.answers)
    ensures var w, p := Step(whole, start, r), Step(part, start, r);
      && w.order == before.order + p.order && w.answers == before.answers + p.answers && w.kinds == before.kinds + p.kinds
  {
    StepTables(whole, start, r);
    StepTables(part, start, r);
    OrderSplit(before, low, whole, part, start, r);
    if Answers(r) {
      assert r.mid in whole.answers <==> r.mid in part.answers;
      PutRight(before.answers, part.answers, r.mid, Heard(AnswerOf(part.answers, part.lastUser, r), r));
      PutRight(before.kinds, part.kinds, r.agent, r.attribution);
    }
  }

  lemma LineTogether(before: Scan, low: map<ToolKey, Tool>, whole: Scan, part: Scan, z: Zone, start: nat, line: Entry)
    requires Joins(before, low, whole, part)
    requires Outside(before, z) && Sound(before.ledger) && Inside(part, z) && Sound(part.ledger)
    requires line.record.Some? && !line.record.value.Other? ==> CountedIn(line, z)
    requires Alone(before, LineStep(part, start, line))
    ensures Joins(before, ErrorsAfter(low, before.ledger.toolAt, line), LineStep(whole, start, line), LineStep(part, start, line))
  {
    if line.record.Some? {
      StepTogether(before, low, whole, part, z, start, line.record.value);
      if line.record.value.User? {
        ErrorsKeep(low, before.ledger.toolAt, line.record.value.blocks);
      }
    }
  }

  /** A pass alone has answers and calls of its own. */
  ghost predicate Alone(before: Scan, part: Scan) {
    part.answers.Keys !! before.answers.Keys && part.ledger.toolAt.Keys !! before.ledger.seen
  }

  ghost predicate Joins(before: Scan, low: map<ToolKey, Tool>, whole: Scan, part: Scan) {
    Together(before, low, whole, part) && low.Keys == before.ledger.tools.Keys
  }

  lemma JoinsFirst(before: Scan, part: Scan)
    requires part == BLANK.(lastUser := before.lastUser, lastAnswer := before.lastAnswer)
    ensures Joins(before, before.ledger.tools, before, part)
  {
  }

  lemma LineGrows(before: Scan, s: Scan, start: nat, line: Entry)
    requires Sound(s.ledger) && Alone(before, LineStep(s, start, line))
    ensures Alone(before, s)
  {
    if line.record.Some? {
      StepGrows(s, start, line.record.value);
    }
  }

  lemma {:induction false} RunTogether(before: Scan, part: Scan, lines: seq<Entry>, o: nat, k: nat, z: Zone)
    requires o <= k <= |lines|
    requires Outside(before, z) && Sound(before.ledger)
    requires RecordsIn(lines, o, k, z)
    requires part == BLANK.(lastUser := before.lastUser, lastAnswer := before.lastAnswer)
    requires Alone(before, Run(part, lines, o, k))
    ensures Joins(before, Errors(before.ledger.tools, before.ledger.toolAt, lines, o, k),
                  Run(before, lines, o, k), Run(part, lines, o, k))
    decreases k
  {
    if o == k {
      JoinsFirst(before, part);
    } else {
      var was := Run(part, lines, o, k - 1);
      RunInside(part, lines, o, k - 1, z);
      LineGrows(before, was, Pos(lines, k - 1), lines[k - 1]);
      RunTogether(before, part, lines, o, k - 1, z);
      var low := Errors(before.ledger.tools, before.ledger.toolAt, lines, o, k - 1);
      LineTogether(before, low, Run(before, lines, o, k - 1), was, z, Pos(lines, k - 1), lines[k - 1]);
    }
  }
}
