/** Storing a part of a transcript and then the rest of it: when that is the same as storing it at once. */
module UsageReplay {
  import opened Options
  import opened Lines
  import opened UsageRecords
  import opened UsageScan
  import opened UsageCut
  import opened UsageLookback
  import opened UsageTables
  import opened UsageSplit
  import opened UsageLines

  /** The pass over what stands before line o, and the pass that starts at it. */
  ghost function Before(lines: seq<Entry>, o: nat): Scan
    requires o <= |lines|
  {
    Run(BLANK, lines, 0, o)
  }

  ghost function Part(lines: seq<Entry>, o: nat, k: nat): Scan
    requires o <= k <= |lines|
  {
    Run(Begin(lines, o), lines, o, k)
  }

  /** (a) No answer stands on both sides of the offset. */
  ghost predicate AnswersApart(lines: seq<Entry>, o: nat, k: nat)
    requires o <= k <= |lines|
  {
    forall i, j, x | 0 <= i < o <= j < k && AnswersAs(lines[i], x) :: !AnswersAs(lines[j], x)
  }

  /** (b) No call the lines past the offset count is made by an answer before it. */
  ghost predicate CallsApart(lines: seq<Entry>, o: nat, k: nat)
    requires o <= k <= |lines|
  {
    forall id | CountedAt(lines, o, k, id).Some? :: id !in Met(lines, 0, o)
  }

  predicate Reports(line: Entry, use: string) {
    line.record.Some? && line.record.value.User? && Failed(use) in line.record.value.blocks
  }

  /** (c) No line past the stored ones reports an error of a call counted before the offset. */
  ghost predicate ErrorsApart(lines: seq<Entry>, o: nat, j: nat, k: nat)
    requires o <= j <= k <= |lines|
  {
    forall i, use | j <= i < k && CountedAt(lines, 0, o, use).Some? :: !Reports(lines[i], use)
  }

  /** The agents of the answers some lines begin have, by the lines up to `j`, the name all lines up to `k` give them. */
  ghost predicate NamesStay(lines: seq<Entry>, lo: nat, hi: nat, j: nat, k: nat)
    requires lo <= hi <= |lines| && lo <= j <= |lines| && k <= |lines|
  {
    forall i | lo <= i < hi && Begins(lines, lo, i) ::
      NameOf(lines, lo, j, lines[i].record.value.agent) == NameOf(lines, 0, k, lines[i].record.value.agent)
  }

  /** (d) What an agent is called does not change for the rows of either side: the agents of the answers before the
      offset keep the name the stored lines last gave them, and those of the answers past it have the name the later
      lines give by themselves. */
  ghost predicate KindsSettled(lines: seq<Entry>, o: nat, j: nat, k: nat)
    requires o <= j <= k <= |lines|
  {
    NamesStay(lines, 0, o, j, k) && NamesStay(lines, o, k, k, k)
  }

  lemma CallsApartIff(lines: seq<Entry>, o: nat, k: nat)
    requires o <= k <= |lines|
    ensures CallsApart(lines, o, k) <==> Part(lines, o, k).ledger.toolAt.Keys !! Before(lines, o).ledger.seen
  {
    forall id | id != ""
      ensures id in Part(lines, o, k).ledger.toolAt <==> CountedAt(lines, o, k, id).Some?
      ensures id in Before(lines, o).ledger.seen <==> id in Met(lines, 0, o)
    {
      CallsAre(Begin(lines, o), lines, o, k, id);
      CallsAre(BLANK, lines, 0, o, id);
    }
    CallsAre(Begin(lines, o), lines, o, k, "-");
    CallsAre(BLANK, lines, 0, o, "-");
    NoneWithoutId(lines, o, k);
  }

  lemma ErrorsApartIff(lines: seq<Entry>, o: nat, j: nat, k: nat)
    requires o <= j <= k <= |lines|
    ensures ErrorsApart(lines, o, j, k) <==>
            forall i, use | j <= i < k && use in Before(lines, o).ledger.toolAt :: !Reports(lines[i], use)
  {
    forall id
      ensures id in Before(lines, o).ledger.toolAt <==> CountedAt(lines, 0, o, id).Some?
    {
      if id == "" {
        CallsAre(BLANK, lines, 0, o, "-");
        NoneWithoutId(lines, 0, o);
      } else {
        CallsAre(BLANK, lines, 0, o, id);
      }
    }
  }

  ghost predicate SameKind(a: Answer, one: map<string, string>, other: map<string, string>) {
    Get(one, a.agent, "") == Get(other, a.agent, "")
  }

  /** What agents are called, answer by answer and line by line. */
  lemma SameKindsIff(s: Scan, lines: seq<Entry>, lo: nat, hi: nat, one: map<string, string>, other: map<string, string>)
    requires lo <= hi <= |lines| && s.answers == map[]
    ensures var answers := Run(s, lines, lo, hi).answers;
            (forall x | x in answers :: SameKind(answers[x], one, other)) <==>
            forall i | lo <= i < hi && Begins(lines, lo, i) ::
              Get(one, lines[i].record.value.agent, "") == Get(other, lines[i].record.value.agent, "")
  {
    AnswersAre(s, lines, lo, hi);
    var answers := Run(s, lines, lo, hi).answers;
    if forall i | lo <= i < hi && Begins(lines, lo, i) ::
         Get(one, lines[i].record.value.agent, "") == Get(other, lines[i].record.value.agent, "") {
      forall x | x in answers
        ensures SameKind(answers[x], one, other)
      {
        var i :| lo <= i < hi && Begins(lines, lo, i) && lines[i].record.value.mid == x;
      }
    }
    if forall x | x in answers :: SameKind(answers[x], one, other) {
      forall i | lo <= i < hi && Begins(lines, lo, i)
        ensures Get(one, lines[i].record.value.agent, "") == Get(other, lines[i].record.value.agent, "")
      {
        assert SameKind(answers[lines[i].record.value.mid], one, other);
      }
    }
  }

  /** The names two passes give the agents of some answers, read off the lines. */
  lemma NamesStayIff(s: Scan, lines: seq<Entry>, lo: nat, hi: nat, j: nat, k: nat,
                     answers: map<string, Answer>, one: map<string, string>, other: map<string, string>)
    requires lo <= hi <= |lines| && lo <= j <= |lines| && k <= |lines| && s.answers == map[] && s.kinds == map[]
    requires answers == Run(s, lines, lo, hi).answers && one == Run(s, lines, lo, j).kinds && other == Before(lines, k).kinds
    ensures NamesStay(lines, lo, hi, j, k) <==> forall x | x in answers :: SameKind(answers[x], one, other)
  {
    SameKindsIff(s, lines, lo, hi, one, other);
    forall i | lo <= i < hi && Begins(lines, lo, i)
      ensures Get(one, lines[i].record.value.agent, "") == NameOf(lines, lo, j, lines[i].record.value.agent)
      ensures Get(other, lines[i].record.value.agent, "") == NameOf(lines, 0, k, lines[i].record.value.agent)
    {
      NamesAre(s, lines, lo, j, lines[i].record.value.agent);
      NamesAre(BLANK, lines, 0, k, lines[i].record.value.agent);
    }
  }

  lemma KindsSettledIff(lines: seq<Entry>, o: nat, j: nat, k: nat)
    requires o <= j <= k <= |lines|
    ensures var whole := Before(lines, k).kinds;
            KindsSettled(lines, o, j, k) <==>
            && (forall x | x in Before(lines, o).answers :: SameKind(Before(lines, o).answers[x], Before(lines, j).kinds, whole))
            && (forall x | x in Part(lines, o, k).answers :: SameKind(Part(lines, o, k).answers[x], Part(lines, o, k).kinds, whole))
  {
    var whole, part := Before(lines, k).kinds, Part(lines, o, k);
    NamesStayIff(BLANK, lines, 0, o, j, k, Before(lines, o).answers, Before(lines, j).kinds, whole);
    NamesStayIff(Begin(lines, o), lines, o, k, k, k, part.answers, part.kinds, whole);
  }

  /** (e) No record before the offset is of an hour and an agent the batch takes for its own. */
  ghost predicate HoursApart(lines: seq<Entry>, o: nat, k: nat)
    requires o <= k <= |lines|
  {
    RecordsOut(lines, 0, o, BatchZone(lines, o, k))
  }

  /** What stands in the store from before the offset and what the batch takes for its own are told apart by their hours
      and agents. */
  ghost predicate Separate(lines: seq<Entry>, o: nat, k: nat)
    requires o <= k <= |lines|
  {
    HoursApart(lines, o, k) && Filed(lines, o, BatchZone(lines, o, k))
  }

  /** The clocks the later pass starts with are the ones the whole pass holds there. */
  ghost predicate ClocksRebuilt(lines: seq<Entry>, o: nat)
    requires o <= |lines|
  {
    && Begin(lines, o).lastUser == Before(lines, o).lastUser
    && Begin(lines, o).lastAnswer == Before(lines, o).lastAnswer
  }

  lemma {:induction false} RowKeys(order: seq<string>, answers: map<string, Answer>, k: RowKey)
    requires forall x | x in order :: x in answers
    ensures k in FoldAnswers(order, answers) <==> exists x :: x in order && KeyOf(answers[x]) == k
  {
    if order != [] {
      var rest, last := order[..|order| - 1], order[|order| - 1];
      RowKeys(rest, answers, k);
      assert forall x :: x in order <==> x in rest || x == last;
    }
  }

  lemma {:induction false} RowsSplit(oa: seq<string>, aa: map<string, Answer>, ob: seq<string>, ab: map<string, Answer>, z: Zone)
    requires forall x | x in oa :: x in aa && !In(z, aa[x].bucket, aa[x].agent)
    requires forall x | x in ob :: x in ab && In(z, ab[x].bucket, ab[x].agent)
    requires aa.Keys !! ab.Keys
    ensures (forall x | x in oa + ob :: x in aa + ab)
    ensures FoldAnswers(oa + ob, aa + ab) == FoldAnswers(oa, aa) + FoldAnswers(ob, ab)
  {
    if ob != [] {
      var rest, last := ob[..|ob| - 1], ob[|ob| - 1];
      RowsSplit(oa, aa, rest, ab, z);
      assert (oa + ob)[..|oa + ob| - 1] == oa + rest;
      var key := KeyOf(ab[last]);
      RowKeys(oa, aa, key);
      var high := FoldAnswers(rest, ab);
      PutRight(FoldAnswers(oa, aa), high, key, AddAnswer(Get(high, key, NO_ROW), ab[last]));
    } else {
      assert oa + ob == oa;
      SameFold(oa, aa, aa + ab);
    }
  }

  lemma {:induction false} SameFold(order: seq<string>, one: map<string, Answer>, other: map<string, Answer>)
    requires forall x | x in order :: x in one && x in other && one[x] == other[x]
    ensures FoldAnswers(order, one) == FoldAnswers(order, other)
  {
    if order != [] {
      SameFold(order[..|order| - 1], one, other);
    }
  }

  /** The event of every counted record stays in the pass. */
  lemma {:induction false} EventsStay(s: Scan, lines: seq<Entry>, lo: nat, hi: nat, i: nat)
    requires lo <= i < hi <= |lines| && Sound(s.ledger)
    requires lines[i].record.Some? && !lines[i].record.value.Other?
    ensures EventKey(HourAt(lines[i].record.value), lines[i].record.value.agent) in Run(s, lines, lo, hi).events
    decreases hi
  {
    RunExtends(s, lines, lo, hi - 1);
    if lines[hi - 1].record.Some? {
      StepGrows(Run(s, lines, lo, hi - 1), Pos(lines, hi - 1), lines[hi - 1].record.value);
    }
    if i < hi - 1 {
      EventsStay(s, lines, lo, hi - 1, i);
    }
  }

  /** A pass that asks for no rewind met no hour before its first. */
  lemma NoRewindNoEarlierHour(lines: seq<Entry>, o: nat, k: nat, torn: nat)
    requires 0 < o <= k <= |lines|
    requires !ParseOf(lines, o, k, torn).rewind
    ensures HoursFrom(lines, o, k, ParseOf(lines, o, k, torn).since)
    ensures ParseOf(lines, o, k, torn).tables == Finish(ScanOf(lines, o, k))
  {
    PosMonotone(lines, 0, o);
    var s := ScanOf(lines, o, k);
    if s.first > 0 {
      forall i | o <= i < k && lines[i].record.Some? && !lines[i].record.value.Other?
        ensures HourAt(lines[i].record.value) >= s.first
      {
        EventsStay(Begin(lines, o), lines, o, k, i);
        var key := EventKey(HourAt(lines[i].record.value), lines[i].record.value.agent);
        assert key in Finish(s).events && key in From(Finish(s), s.first).events;
      }
    }
  }

  /** A pass that asks for no rewind takes its hours and agents from its own records. */
  lemma BatchIsItsZone(lines: seq<Entry>, o: nat, k: nat, torn: nat)
    requires 0 < o <= k <= |lines| && !ParseOf(lines, o, k, torn).rewind
    ensures var p, z := ParseOf(lines, o, k, torn), BatchZone(lines, o, k);
            && p.tables == Finish(ScanOf(lines, o, k)) && z == Zone(p.since, Agents(p.tables))
            && p.since == Part(lines, o, k).first && RecordsIn(lines, o, k, z)
            && Inside(Part(lines, o, k), z) && Sound(Part(lines, o, k).ledger)
  {
    var p, z := ParseOf(lines, o, k, torn), BatchZone(lines, o, k);
    NoRewindNoEarlierHour(lines, o, k, torn);
    FirstIs(Begin(lines, o), lines, o, k);
    assert RecordsIn(lines, o, k, z) by {
      forall i | o <= i < k && lines[i].record.Some? && !lines[i].record.value.Other?
        ensures CountedIn(lines[i], z)
      {
        assert IsCounted(lines[i]) && HourAt(lines[i].record.value) >= p.since;
      }
    }
    RunInside(Begin(lines, o), lines, o, k, z);
    BatchAgents(lines, o, k, z);
  }

  lemma BatchAgent(lines: seq<Entry>, o: nat, k: nat, a: string)
    requires o <= k <= |lines| && a in AgentsIn(lines, o, k)
    ensures a in Agents(Finish(ScanOf(lines, o, k)))
  {
    var i :| o <= i < k && IsCounted(lines[i]) && lines[i].record.value.agent == a;
    EventsStay(Begin(lines, o), lines, o, k, i);
    assert EventKey(HourAt(lines[i].record.value), a) in Finish(ScanOf(lines, o, k)).events;
  }

  lemma BatchAgents(lines: seq<Entry>, o: nat, k: nat, z: Zone)
    requires o <= k <= |lines| && Inside(Part(lines, o, k), z) && z.agents == AgentsIn(lines, o, k)
    ensures Agents(Finish(ScanOf(lines, o, k))) == z.agents
  {
    var s := ScanOf(lines, o, k);
    forall a | a in z.agents
      ensures a in Agents(Finish(s))
    {
      BatchAgent(lines, o, k, a);
    }
    forall key | key in Finish(s).rows
      ensures key.agent in z.agents
    {
      RowKeys(s.order, s.answers, key);
    }
  }

  lemma {:induction false} AnswersNameTheHour(s: Scan, lines: seq<Entry>, lo: nat, hi: nat)
    requires lo <= hi <= |lines| && s.answers == map[]
    ensures Run(s, lines, lo, hi).answers != map[] ==> Run(s, lines, lo, hi).first > 0
    decreases hi
  {
    if lo < hi {
      AnswersNameTheHour(s, lines, lo, hi - 1);
      if lines[hi - 1].record.Some? {
        StepTables(Run(s, lines, lo, hi - 1), Pos(lines, hi - 1), lines[hi - 1].record.value);
      }
    }
  }

  /** What the two sides of the offset share when nothing reaches across: the shape the tables are compared in. */
  lemma SidesJoin(lines: seq<Entry>, o: nat, k: nat, z: Zone)
    requires 0 < o <= k <= |lines|
    requires RecordsOut(lines, 0, o, z) && Filed(lines, o, z) && RecordsIn(lines, o, k, z) && ClocksRebuilt(lines, o)
    requires Part(lines, o, k).answers.Keys !! Before(lines, o).answers.Keys
    requires Part(lines, o, k).ledger.toolAt.Keys !! Before(lines, o).ledger.seen
    ensures var b := Before(lines, o);
            var low := Errors(b.ledger.tools, b.ledger.toolAt, lines, o, k);
            && Outside(b, z) && Sound(b.ledger) && Inside(Part(lines, o, k), z) && Sound(Part(lines, o, k).ledger)
            && low.Keys == b.ledger.tools.Keys
            && Together(b, low, Before(lines, k), Part(lines, o, k))
  {
    PosMonotone(lines, 0, o);
    RunOutside(lines, o, z);
    RunInside(Begin(lines, o), lines, o, k, z);
    RunTogether(Before(lines, o), Begin(lines, o), lines, o, k, z);
    RunSplit(BLANK, lines, 0, o, k);
  }

  lemma PartsNest(lines: seq<Entry>, o: nat, j: nat, k: nat)
    requires o <= j <= k <= |lines|
    ensures Extends(Part(lines, o, j), Part(lines, o, k))
  {
    RunSplit(Begin(lines, o), lines, o, j, k);
    RunExtends(Begin(lines, o), lines, o, j);
    RunExtends(Part(lines, o, j), lines, j, k);
  }

  lemma AnswersApartIff(lines: seq<Entry>, o: nat, k: nat)
    requires o <= k <= |lines|
    ensures AnswersApart(lines, o, k) <==> Part(lines, o, k).answers.Keys !! Before(lines, o).answers.Keys
  {
    RunMeets(lines, 0, o, BLANK);
    RunMeets(lines, o, k, Begin(lines, o));
    var b, p := Before(lines, o), Part(lines, o, k);
    if AnswersApart(lines, o, k) {
      forall x | x in b.answers
        ensures x !in p.answers
      {
        var i :| 0 <= i < o && AnswersAs(lines[i], x);
        assert forall j | o <= j < k :: !AnswersAs(lines[j], x);
      }
    } else {
      var i, j, x :| 0 <= i < o <= j < k && AnswersAs(lines[i], x) && AnswersAs(lines[j], x);
      assert x in b.answers && x in p.answers;
    }
  }

  lemma {:induction false} ErrorsOfLine(tools: map<ToolKey, Tool>, toolAt: map<string, ToolKey>, blocks: seq<Block>)
    requires forall x | x in toolAt :: toolAt[x] in tools
    ensures WithErrors(tools, toolAt, blocks).Keys == tools.Keys
    ensures (forall use | use in toolAt :: Failed(use) !in blocks) ==> WithErrors(tools, toolAt, blocks) == tools
    ensures forall use | use in toolAt && Failed(use) in blocks ::
              WithErrors(tools, toolAt, blocks)[toolAt[use]].errors > tools[toolAt[use]].errors
  {
    ErrorsKeep(tools, toolAt, blocks);
    if blocks != [] {
      var rest, last := blocks[..|blocks| - 1], blocks[|blocks| - 1];
      assert blocks == rest + [last];
      ErrorsKeep(tools, toolAt, rest);
      ErrorsOfLine(tools, toolAt, rest);
    }
  }

  /** Later lines add to the errors of the earlier calls exactly when one of them reports such a call. */
  lemma {:induction false} ErrorsMove(tools: map<ToolKey, Tool>, toolAt: map<string, ToolKey>, lines: seq<Entry>, o: nat, j: nat, k: nat)
    requires o <= j <= k <= |lines|
    requires forall x | x in toolAt :: toolAt[x] in tools
    ensures Errors(tools, toolAt, lines, o, k).Keys == tools.Keys
    ensures Errors(tools, toolAt, lines, o, j).Keys == tools.Keys
    ensures forall key | key in tools ::
              Errors(tools, toolAt, lines, o, k)[key].errors >= Errors(tools, toolAt, lines, o, j)[key].errors
    ensures Errors(tools, toolAt, lines, o, k) == Errors(tools, toolAt, lines, o, j) <==>
            forall i, use | j <= i < k && use in toolAt :: !Reports(lines[i], use)
    decreases k, j
  {
    if j < k {
      ErrorsMove(tools, toolAt, lines, o, j, k - 1);
      var was := Errors(tools, toolAt, lines, o, k - 1);
      var line := lines[k - 1];
      if line.record.Some? && line.record.value.User? {
        ErrorsKeep(was, toolAt, line.record.value.blocks);
        ErrorsOfLine(was, toolAt, line.record.value.blocks);
        if use :| use in toolAt && Reports(line, use) {
          assert Errors(tools, toolAt, lines, o, k)[toolAt[use]].errors > was[toolAt[use]].errors;
        }
      }
    } else if o < k {
      ErrorsMove(tools, toolAt, lines, o, k - 1, k - 1);
      if lines[k - 1].record.Some? && lines[k - 1].record.value.User? {
        ErrorsKeep(Errors(tools, toolAt, lines, o, k - 1), toolAt, lines[k - 1].record.value.blocks);
      }
    }
  }

  lemma EventsReplaced(b: map<EventKey, Event>, was: map<EventKey, Event>, now: map<EventKey, Event>, agents: set<string>, h: nat)
    requires (forall k | k in b :: !In(Zone(h, agents), k.bucket, k.agent)) && was.Keys <= now.Keys
    ensures (map k | k in b + was && !Goes(agents, h, false, k.agent, k.bucket) :: (b + was)[k]) + now == b + now
  {
  }

  lemma ToolsReplaced(b: map<ToolKey, Tool>, was: map<ToolKey, Tool>, now: map<ToolKey, Tool>, agents: set<string>, h: nat)
    requires (forall k | k in b :: !In(Zone(h, agents), k.bucket, k.agent)) && was.Keys <= now.Keys
    ensures (map k | k in b + was && !Goes(agents, h, false, k.agent, k.bucket) :: (b + was)[k]) + now == b + now
  {
  }

  /** What the store and the two parses are made of, table by table. */
  lemma Shapes(lines: seq<Entry>, o: nat, j: nat, k: nat, torn: nat)
    requires 0 < o <= j <= k <= |lines| && !ParseOf(lines, o, k, torn).rewind
    requires Separate(lines, o, k) && ClocksRebuilt(lines, o)
    requires Part(lines, o, k).answers.Keys !! Before(lines, o).answers.Keys && CallsApart(lines, o, k)
    ensures var p, b := ParseOf(lines, o, k, torn), Before(lines, o);
            && p.tables == Finish(ScanOf(lines, o, k)) && ScanOf(lines, o, k) == Part(lines, o, k)
            && ScanOf(lines, 0, j) == Before(lines, j) && ScanOf(lines, 0, k) == Before(lines, k)
            && p.since == Part(lines, o, k).first && BatchZone(lines, o, k) == Zone(p.since, Agents(p.tables))
            && Outside(b, BatchZone(lines, o, k)) && Sound(b.ledger) && Inside(Part(lines, o, k), BatchZone(lines, o, k))
            && Extends(Part(lines, o, j), Part(lines, o, k))
            && Together(b, Errors(b.ledger.tools, b.ledger.toolAt, lines, o, j), Before(lines, j), Part(lines, o, j))
            && Together(b, Errors(b.ledger.tools, b.ledger.toolAt, lines, o, k), Before(lines, k), Part(lines, o, k))
            && Inside(Part(lines, o, j), BatchZone(lines, o, k))
  {
    var z := BatchZone(lines, o, k);
    BatchIsItsZone(lines, o, k, torn);
    PartsNest(lines, o, j, k);
    CallsApartIff(lines, o, k);
    SidesJoin(lines, o, j, z);
    SidesJoin(lines, o, k, z);
  }

  lemma EventsKept(lines: seq<Entry>, o: nat, j: nat, k: nat, torn: nat)
    requires 0 < o <= j <= k <= |lines| && !ParseOf(lines, o, k, torn).rewind
    requires Separate(lines, o, k) && ClocksRebuilt(lines, o)
    requires Part(lines, o, k).answers.Keys !! Before(lines, o).answers.Keys && CallsApart(lines, o, k)
    ensures Apply(Straight(lines, j), ParseOf(lines, o, k, torn), false).events == Straight(lines, k).events
  {
    Shapes(lines, o, j, k, torn);
    var p := ParseOf(lines, o, k, torn);
    EventsReplaced(Before(lines, o).events, Part(lines, o, j).events, Part(lines, o, k).events, Agents(p.tables), p.since);
  }

  lemma ToolsKept(lines: seq<Entry>, o: nat, j: nat, k: nat, torn: nat)
    requires 0 < o <= j <= k <= |lines| && !ParseOf(lines, o, k, torn).rewind
    requires Separate(lines, o, k) && ClocksRebuilt(lines, o)
    requires Part(lines, o, k).answers.Keys !! Before(lines, o).answers.Keys && CallsApart(lines, o, k)
    ensures Apply(Straight(lines, j), ParseOf(lines, o, k, torn), false).tools == Straight(lines, k).tools
            <==> ErrorsApart(lines, o, j, k)
  {
    Shapes(lines, o, j, k, torn);
    var p := ParseOf(lines, o, k, torn);
    var b := Before(lines, o).ledger;
    var was, now := Errors(b.tools, b.toolAt, lines, o, j), Errors(b.tools, b.toolAt, lines, o, k);
    var part := Part(lines, o, k).ledger.tools;
    ErrorsMove(b.tools, b.toolAt, lines, o, j, k);
    ErrorsApartIff(lines, o, j, k);
    ToolsReplaced(was, Part(lines, o, j).ledger.tools, part, Agents(p.tables), p.since);
    LeftOfUnion(was, now, part);
  }

  lemma LeftOfUnion<K, V>(one: map<K, V>, other: map<K, V>, high: map<K, V>)
    requires one.Keys == other.Keys && one.Keys !! high.Keys
    ensures one + high == other + high <==> one == other
  {
    if one + high == other + high {
      forall k | k in one
        ensures one[k] == other[k]
      {
        assert one[k] == (one + high)[k] && other[k] == (other + high)[k];
      }
    }
  }

  lemma {:induction false} KindsDiffer(order: seq<string>, answers: map<string, Answer>, one: map<string, string>, other: map<string, string>)
    requires forall x :: x in order <==> x in answers
    ensures Kinded(FoldAnswers(order, answers), one) == Kinded(FoldAnswers(order, answers), other) <==>
            forall x | x in answers :: SameKind(answers[x], one, other)
  {
    var rows := FoldAnswers(order, answers);
    if Kinded(rows, one) == Kinded(rows, other) {
      forall x | x in answers
        ensures SameKind(answers[x], one, other)
      {
        RowKeys(order, answers, KeyOf(answers[x]));
        assert Kinded(rows, one)[KeyOf(answers[x])] == Kinded(rows, other)[KeyOf(answers[x])];
      }
    }
    if forall x | x in answers :: SameKind(answers[x], one, other) {
      forall k | k in rows
        ensures Kinded(rows, one)[k] == Kinded(rows, other)[k]
      {
        RowKeys(order, answers, k);
      }
    }
  }

  lemma RowsReplaced(b: map<RowKey, Row>, was: map<RowKey, Row>, now: map<RowKey, Row>, agents: set<string>, h: nat)
    requires forall k | k in b :: !In(Zone(h, agents), k.bucket, k.agent)
    requires forall k | k in was :: h > 0 && k.bucket >= h && k.agent in agents
    ensures (map k | k in b + was && !Goes(agents, h, false, k.agent, k.bucket) :: (b + was)[k]) + now == b + now
  {
  }

  /** The rows a later pass replaces are all of agents it has rows of itself. */
  lemma PartAgentsStay(lines: seq<Entry>, o: nat, j: nat, k: nat)
    requires o <= j <= k <= |lines|
    ensures forall key | key in FoldAnswers(ScanOf(lines, o, j).order, ScanOf(lines, o, j).answers) ::
              key.agent in Agents(Finish(ScanOf(lines, o, k))) && Part(lines, o, k).first > 0
  {
    PartsNest(lines, o, j, k);
    AnswersNameTheHour(Begin(lines, o), lines, o, k);
    var was, now := ScanOf(lines, o, j), ScanOf(lines, o, k);
    forall key | key in FoldAnswers(was.order, was.answers)
      ensures key.agent in Agents(Finish(now)) && now.first > 0
    {
      RowKeys(was.order, was.answers, key);
      var x :| x in was.order && KeyOf(was.answers[x]) == key;
      RowKeys(now.order, now.answers, KeyOf(now.answers[x]));
      assert KeyOf(now.answers[x]) in Finish(now).rows;
    }
  }

  lemma RowsBounded(order: seq<string>, answers: map<string, Answer>, z: Zone)
    requires forall x | x in order :: x in answers
    ensures (forall x | x in order :: !In(z, answers[x].bucket, answers[x].agent)) ==>
              forall k | k in FoldAnswers(order, answers) :: !In(z, k.bucket, k.agent)
    ensures (forall x | x in order :: In(z, answers[x].bucket, answers[x].agent)) ==>
              forall k | k in FoldAnswers(order, answers) :: In(z, k.bucket, k.agent)
  {
    forall k | k in FoldAnswers(order, answers)
      ensures exists x :: x in order && KeyOf(answers[x]) == k
    {
      RowKeys(order, answers, k);
    }
  }

  lemma KindedUnion(a: map<RowKey, Row>, b: map<RowKey, Row>, kinds: map<string, string>)
    ensures Kinded(a + b, kinds) == Kinded(a, kinds) + Kinded(b, kinds)
  {
  }

  lemma UnionsDiffer<K, V>(a: map<K, V>, b: map<K, V>, a': map<K, V>, b': map<K, V>)
    requires a.Keys == a'.Keys && b.Keys == b'.Keys && a.Keys !! b.Keys
    ensures a + b == a' + b' <==> a == a' && b == b'
  {
    if a + b == a' + b' {
      forall k | k in a
        ensures a[k] == a'[k]
      {
        assert a[k] == (a + b)[k] && a'[k] == (a' + b')[k];
      }
      forall k | k in b
        ensures b[k] == b'[k]
      {
        assert b[k] == (a + b)[k] && b'[k] == (a' + b')[k];
      }
    }
  }

  ghost function RowsOf(s: Scan, kinds: map<string, string>): map<RowKey, Row>
    requires forall x | x in s.order :: x in s.answers
  {
    Kinded(FoldAnswers(s.order, s.answers), kinds)
  }

  /** The rows of a whole pass are the rows of the two sides, under the names the whole pass gives. */
  lemma RowsOfWhole(b: Scan, low: map<ToolKey, Tool>, whole: Scan, part: Scan, z: Zone)
    requires Together(b, low, whole, part) && Outside(b, z) && Inside(part, z)
    requires part.answers.Keys !! b.answers.Keys
    requires (forall x :: x in b.order <==> x in b.answers) && (forall x :: x in part.order <==> x in part.answers)
    requires forall x :: x in whole.order <==> x in whole.answers
    ensures Finish(whole).rows == RowsOf(b, whole.kinds) + RowsOf(part, whole.kinds)
    ensures forall k | k in FoldAnswers(b.order, b.answers) :: !In(z, k.bucket, k.agent)
    ensures forall k | k in FoldAnswers(part.order, part.answers) :: In(z, k.bucket, k.agent)
  {
    RowsBounded(b.order, b.answers, z);
    RowsBounded(part.order, part.answers, z);
    RowsSplit(b.order, b.answers, part.order, part.answers, z);
    KindedUnion(FoldAnswers(b.order, b.answers), FoldAnswers(part.order, part.answers), whole.kinds);
  }

  lemma RowsApplied(lines: seq<Entry>, o: nat, j: nat, k: nat, torn: nat)
    requires 0 < o <= j <= k <= |lines| && !ParseOf(lines, o, k, torn).rewind
    requires Separate(lines, o, k) && ClocksRebuilt(lines, o)
    requires Part(lines, o, k).answers.Keys !! Before(lines, o).answers.Keys && CallsApart(lines, o, k)
    ensures Apply(Straight(lines, j), ParseOf(lines, o, k, torn), false).rows ==
            RowsOf(ScanOf(lines, 0, o), Before(lines, j).kinds) + RowsOf(ScanOf(lines, o, k), Part(lines, o, k).kinds)
    ensures Straight(lines, k).rows ==
            RowsOf(ScanOf(lines, 0, o), Before(lines, k).kinds) + RowsOf(ScanOf(lines, o, k), Before(lines, k).kinds)
    ensures RowsOf(ScanOf(lines, 0, o), Before(lines, k).kinds).Keys !! RowsOf(ScanOf(lines, o, k), Before(lines, k).kinds).Keys
  {
    Shapes(lines, o, j, k, torn);
    PartAgentsStay(lines, o, j, k);
    var p, b := ParseOf(lines, o, k, torn), ScanOf(lines, 0, o);
    var l, z := b.ledger, BatchZone(lines, o, k);
    RowsOfWhole(b, Errors(l.tools, l.toolAt, lines, o, j), ScanOf(lines, 0, j), ScanOf(lines, o, j), z);
    RowsOfWhole(b, Errors(l.tools, l.toolAt, lines, o, k), ScanOf(lines, 0, k), ScanOf(lines, o, k), z);
    var kinds := Before(lines, j).kinds;
    RowsReplaced(RowsOf(b, kinds), RowsOf(ScanOf(lines, o, j), kinds), p.tables.rows, Agents(p.tables), p.since);
  }

  lemma RowsKept(lines: seq<Entry>, o: nat, j: nat, k: nat, torn: nat)
    requires 0 < o <= j <= k <= |lines| && !ParseOf(lines, o, k, torn).rewind
    requires Separate(lines, o, k) && ClocksRebuilt(lines, o)
    requires Part(lines, o, k).answers.Keys !! Before(lines, o).answers.Keys && CallsApart(lines, o, k)
    ensures Apply(Straight(lines, j), ParseOf(lines, o, k, torn), false).rows == Straight(lines, k).rows
            <==> KindsSettled(lines, o, j, k)
  {
    RowsApplied(lines, o, j, k, torn);
    KindsSettledIff(lines, o, j, k);
    var b, now := ScanOf(lines, 0, o), ScanOf(lines, o, k);
    var kindsWas, kindsNow := Before(lines, j).kinds, Before(lines, k).kinds;
    UnionsDiffer(RowsOf(b, kindsWas), RowsOf(now, now.kinds), RowsOf(b, kindsNow), RowsOf(now, kindsNow));
    KindsDiffer(b.order, b.answers, kindsWas, kindsNow);
    KindsDiffer(now.order, now.answers, now.kinds, kindsNow);
  }
}
