/** What is lost when an answer or a call reaches across the offset: the counts that cannot be equal any more. */
module UsageLoss {
  import opened Options
  import opened Lines
  import opened UsageRecords
  import opened UsageScan
  import opened UsageCut
  import opened UsageLookback
  import opened UsageTables
  import opened UsageSplit
  import opened UsageReplay
  import opened UsageLines

  /** How many answers a table of rows counts. */
  ghost function Total(rows: map<RowKey, Row>): nat {
    if rows == map[] then 0
    else
      var k :| k in rows;
      rows[k].answers + Total(rows - {k})
  }

  lemma {:induction false} TotalWithout(rows: map<RowKey, Row>, k: RowKey)
    requires k in rows
    ensures Total(rows) == rows[k].answers + Total(rows - {k})
    decreases |rows|
  {
    var c :| c in rows && Total(rows) == rows[c].answers + Total(rows - {c});
    if c != k {
      assert rows - {c} - {k} == rows - {k} - {c};
      TotalWithout(rows - {c}, k);
      TotalWithout(rows - {k}, c);
    }
  }

  lemma TotalPut(rows: map<RowKey, Row>, k: RowKey, row: Row)
    ensures Total(rows[k := row]) == Total(rows) - Get(rows, k, NO_ROW).answers + row.answers
  {
    TotalWithout(rows[k := row], k);
    assert rows[k := row] - {k} == rows - {k};
    if k in rows {
      TotalWithout(rows, k);
    } else {
      assert rows - {k} == rows;
    }
  }

  lemma {:induction false} TotalKinded(rows: map<RowKey, Row>, kinds: map<string, string>)
    ensures Total(Kinded(rows, kinds)) == Total(rows)
    decreases |rows|
  {
    if rows != map[] {
      var k :| k in rows;
      TotalWithout(rows, k);
      TotalWithout(Kinded(rows, kinds), k);
      assert Kinded(rows, kinds) - {k} == Kinded(rows - {k}, kinds);
      TotalKinded(rows - {k}, kinds);
    }
  }

  /** The rows of a zone. */
  function OfZone(rows: map<RowKey, Row>, z: Zone): map<RowKey, Row> {
    map k | k in rows && In(z, k.bucket, k.agent) :: rows[k]
  }

  ghost function IdsOfZone(order: seq<string>, answers: map<string, Answer>, z: Zone): set<string>
    requires forall x | x in order :: x in answers
  {
    set x | x in order && In(z, answers[x].bucket, answers[x].agent)
  }

  /** Every answer is counted in one row, and in a row of its own hour and agent. */
  lemma {:induction false} TotalIsCount(order: seq<string>, answers: map<string, Answer>, z: Zone)
    requires forall x | x in order :: x in answers
    requires forall i, j | 0 <= i < j < |order| :: order[i] != order[j]
    ensures Total(OfZone(FoldAnswers(order, answers), z)) == |IdsOfZone(order, answers, z)|
  {
    if order != [] {
      var rest, last := order[..|order| - 1], order[|order| - 1];
      TotalIsCount(rest, answers, z);
      var rows := FoldAnswers(rest, answers);
      var a := answers[last];
      var row := AddAnswer(Get(rows, KeyOf(a), NO_ROW), a);
      ZonePut(rows, KeyOf(a), row, z);
      IdsOfZoneMore(rest, last, answers, z);
      assert order == rest + [last];
      if In(z, a.bucket, a.agent) {
        TotalPut(OfZone(rows, z), KeyOf(a), row);
      }
    }
  }

  lemma ZonePut(rows: map<RowKey, Row>, k: RowKey, row: Row, z: Zone)
    ensures OfZone(rows[k := row], z) == if In(z, k.bucket, k.agent) then OfZone(rows, z)[k := row] else OfZone(rows, z)
  {
  }

  lemma IdsOfZoneMore(rest: seq<string>, last: string, answers: map<string, Answer>, z: Zone)
    requires forall x | x in rest + [last] :: x in answers
    ensures IdsOfZone(rest + [last], answers, z)
         == IdsOfZone(rest, answers, z) + if In(z, answers[last].bucket, answers[last].agent) then {last} else {}
  {
    assert last in rest + [last];
    assert forall x | x in rest :: x in rest + [last];
  }

  /** An answer of the whole pass is one of either side; one met only past the offset is the later pass's own. */
  ghost predicate Covers(b: Scan, whole: Scan, part: Scan, z: Zone) {
    && whole.answers.Keys == b.answers.Keys + part.answers.Keys
    && (forall x | x in b.answers :: whole.answers[x].bucket == b.answers[x].bucket && whole.answers[x].agent == b.answers[x].agent)
    && (forall x | x in whole.answers && x !in b.answers ::
          whole.answers[x].bucket == part.answers[x].bucket && whole.answers[x].agent == part.answers[x].agent
          && In(z, whole.answers[x].bucket, whole.answers[x].agent))
  }

  lemma StepBuckets(s: Scan, start: nat, r: Record)
    ensures var now := Step(s, start, r);
      && now.answers.Keys == s.answers.Keys + (if Answers(r) then {r.mid} else {})
      && (forall x | x in s.answers :: now.answers[x].bucket == s.answers[x].bucket && now.answers[x].agent == s.answers[x].agent)
      && (Answers(r) && r.mid !in s.answers ==> now.answers[r.mid].bucket == HourAt(r) && now.answers[r.mid].agent == r.agent)
  {
    StepTables(s, start, r);
  }

  lemma StepCovers(b: Scan, whole: Scan, part: Scan, z: Zone, start: nat, r: Record)
    requires Covers(b, whole, part, z) && (!r.Other? ==> In(z, HourAt(r), r.agent))
    ensures Covers(b, Step(whole, start, r), Step(part, start, r), z)
  {
    StepBuckets(whole, start, r);
    StepBuckets(part, start, r);
  }

  lemma {:induction false} RunCovers(b: Scan, part: Scan, lines: seq<Entry>, o: nat, k: nat, z: Zone)
    requires o <= k <= |lines| && RecordsIn(lines, o, k, z) && part.answers == map[]
    ensures Covers(b, Run(b, lines, o, k), Run(part, lines, o, k), z)
    decreases k
  {
    if o < k {
      RunCovers(b, part, lines, o, k - 1, z);
      if lines[k - 1].record.Some? {
        StepCovers(b, Run(b, lines, o, k - 1), Run(part, lines, o, k - 1), z, Pos(lines, k - 1), lines[k - 1].record.value);
      }
    }
  }

  lemma PassCovers(lines: seq<Entry>, o: nat, k: nat, z: Zone)
    requires 0 < o <= k <= |lines| && RecordsOut(lines, 0, o, z) && Filed(lines, o, z) && RecordsIn(lines, o, k, z)
    ensures Covers(Before(lines, o), Before(lines, k), Part(lines, o, k), z)
    ensures Outside(Before(lines, o), z) && Inside(Part(lines, o, k), z)
  {
    RunCovers(Before(lines, o), Begin(lines, o), lines, o, k, z);
    RunSplit(BLANK, lines, 0, o, k);
    RunOutside(lines, o, z);
    RunInside(Begin(lines, o), lines, o, k, z);
  }

  lemma ZoneOfReplaced(was: map<RowKey, Row>, now: map<RowKey, Row>, agents: set<string>, h: nat)
    requires forall k | k in was && In(Zone(h, agents), k.bucket, k.agent) :: Goes(agents, h, false, k.agent, k.bucket)
    requires forall k | k in now :: In(Zone(h, agents), k.bucket, k.agent)
    ensures OfZone((map k | k in was && !Goes(agents, h, false, k.agent, k.bucket) :: was[k]) + now, Zone(h, agents)) == now
  {
  }

  /** A stored row of the batch's zone is met by a pass that names an hour. */
  lemma ZoneRowGoes(lines: seq<Entry>, o: nat, j: nat, k: nat, z: Zone, key: RowKey)
    requires 0 < o <= j <= k <= |lines| && RecordsOut(lines, 0, o, z) && Filed(lines, o, z) && RecordsIn(lines, o, k, z)
    requires key in Straight(lines, j).rows && In(z, key.bucket, key.agent)
    ensures key.agent in Agents(Finish(ScanOf(lines, o, k))) && Part(lines, o, k).first > 0
  {
    PassCovers(lines, o, j, z);
    PartsNest(lines, o, j, k);
    AnswersNameTheHour(Begin(lines, o), lines, o, k);
    var s, now := ScanOf(lines, 0, j), ScanOf(lines, o, k);
    RowKeys(s.order, s.answers, key);
    var x :| x in s.order && KeyOf(s.answers[x]) == key;
    assert x in Part(lines, o, j).answers;
    RowKeys(now.order, now.answers, KeyOf(now.answers[x]));
    assert KeyOf(now.answers[x]) in Finish(now).rows;
  }

  /** The stored rows of the batch's zone all give way: what stands there afterwards is the batch. */
  lemma ZoneRowsAreTheBatch(lines: seq<Entry>, o: nat, j: nat, k: nat, torn: nat)
    requires 0 < o <= j <= k <= |lines| && !ParseOf(lines, o, k, torn).rewind
    requires Separate(lines, o, k)
    ensures var p := ParseOf(lines, o, k, torn);
            OfZone(Apply(Straight(lines, j), p, false).rows, BatchZone(lines, o, k)) == p.tables.rows
  {
    var p, z := ParseOf(lines, o, k, torn), BatchZone(lines, o, k);
    BatchIsItsZone(lines, o, k, torn);
    forall key | key in Straight(lines, j).rows && In(z, key.bucket, key.agent)
      ensures Goes(Agents(p.tables), p.since, false, key.agent, key.bucket)
    {
      ZoneRowGoes(lines, o, j, k, z, key);
    }
    var now := ScanOf(lines, o, k);
    RowsBounded(now.order, now.answers, z);
    ZoneOfReplaced(Straight(lines, j).rows, p.tables.rows, Agents(p.tables), p.since);
  }

  /** A pass with every answer in its order once. */
  ghost predicate Ordered(s: Scan) {
    && (forall x :: x in s.order <==> x in s.answers)
    && (forall i, j | 0 <= i < j < |s.order| :: s.order[i] != s.order[j])
  }

  ghost function IdsIn(answers: map<string, Answer>, z: Zone): set<string> {
    set x | x in answers && In(z, answers[x].bucket, answers[x].agent)
  }

  lemma TotalOfZone(s: Scan, z: Zone)
    requires Ordered(s)
    ensures Total(OfZone(Finish(s).rows, z)) == |IdsIn(s.answers, z)|
  {
    var rows := FoldAnswers(s.order, s.answers);
    TotalIsCount(s.order, s.answers, z);
    assert IdsOfZone(s.order, s.answers, z) == IdsIn(s.answers, z);
    TotalKinded(OfZone(rows, z), s.kinds);
    assert Kinded(OfZone(rows, z), s.kinds) == OfZone(Finish(s).rows, z);
  }

  /** Two passes that share an answer do not count the answers of a zone alike. */
  lemma CountsDiffer(b: Scan, whole: Scan, part: Scan, z: Zone)
    requires Covers(b, whole, part, z) && Outside(b, z) && Inside(part, z)
    requires Ordered(whole) && Ordered(part)
    requires !(part.answers.Keys !! b.answers.Keys)
    ensures OfZone(Finish(whole).rows, z) != OfZone(Finish(part).rows, z)
  {
    TotalOfZone(whole, z);
    TotalOfZone(part, z);
    FewerFrom(b, whole, part, z);
  }

  lemma FewerFrom(b: Scan, whole: Scan, part: Scan, z: Zone)
    requires Covers(b, whole, part, z) && Outside(b, z) && Inside(part, z)
    requires !(part.answers.Keys !! b.answers.Keys)
    ensures |IdsIn(whole.answers, z)| < |IdsIn(part.answers, z)|
  {
    assert IdsIn(whole.answers, z) == part.answers.Keys - b.answers.Keys;
    assert IdsIn(part.answers, z) == part.answers.Keys;
    Smaller(part.answers.Keys, b.answers.Keys);
  }

  lemma ScansAre(lines: seq<Entry>, o: nat, k: nat)
    requires o <= k <= |lines|
    ensures ScanOf(lines, 0, k) == Before(lines, k) && Ordered(Before(lines, k))
    ensures ScanOf(lines, o, k) == Part(lines, o, k) && Ordered(Part(lines, o, k))
  {
  }

  lemma SharedAnswersCount(lines: seq<Entry>, o: nat, k: nat, z: Zone)
    requires 0 < o <= k <= |lines| && RecordsOut(lines, 0, o, z) && Filed(lines, o, z) && RecordsIn(lines, o, k, z)
    requires !AnswersApart(lines, o, k)
    ensures OfZone(Straight(lines, k).rows, z) != Finish(ScanOf(lines, o, k)).rows
  {
    PassCovers(lines, o, k, z);
    AnswersApartIff(lines, o, k);
    ScansAre(lines, o, k);
    CountsDiffer(Before(lines, o), Before(lines, k), Part(lines, o, k), z);
    AllOfZone(Part(lines, o, k), z);
  }

  /** (a) is needed: an answer on both sides is counted once by a straight parse and twice by the store. */
  lemma AnswersLost(lines: seq<Entry>, o: nat, j: nat, k: nat, torn: nat)
    requires 0 < o <= j <= k <= |lines| && !ParseOf(lines, o, k, torn).rewind
    requires Separate(lines, o, k)
    requires !AnswersApart(lines, o, k)
    ensures Apply(Straight(lines, j), ParseOf(lines, o, k, torn), false).rows != Straight(lines, k).rows
  {
    BatchIsItsZone(lines, o, k, torn);
    ZoneRowsAreTheBatch(lines, o, j, k, torn);
    SharedAnswersCount(lines, o, k, BatchZone(lines, o, k));
  }

  lemma AllOfZone(s: Scan, z: Zone)
    requires Ordered(s) && Inside(s, z)
    ensures OfZone(Finish(s).rows, z) == Finish(s).rows
  {
    RowsBounded(s.order, s.answers, z);
  }

  lemma Smaller<T>(a: set<T>, b: set<T>)
    requires !(a !! b)
    ensures |a - b| < |a|
  {
    var x :| x in a && x in b;
    assert x in a * b;
    assert a == (a - b) + (a * b);
  }

  /** The later pass never counts fewer calls than the whole one, and more as soon as it counts one met before. */
  ghost predicate CountsMore(seen: set<string>, whole: Ledger, part: Ledger, z: Zone) {
    && whole.seen == seen + part.seen
    && Sound(part)
    && (forall key: ToolKey | In(z, key.bucket, key.agent) :: CallsOf(whole, key) <= CallsOf(part, key))
    && (part.toolAt.Keys !! seen || exists key: ToolKey :: In(z, key.bucket, key.agent) && CallsOf(whole, key) < CallsOf(part, key))
  }

  lemma CalledAddsOne(l: Ledger, bucket: nat, agent: string, id: string, name: string)
    requires name != "" && !(id != "" && id in l.seen)
    ensures var own := ToolKey(bucket, agent, name);
            && CallsOf(Called(l, bucket, agent, id, name), own) == CallsOf(l, own) + 1
            && forall key | key != own :: CallsOf(Called(l, bucket, agent, id, name), key) == CallsOf(l, key)
  {
  }

  lemma CalledCountsMore(seen: set<string>, whole: Ledger, part: Ledger, z: Zone, bucket: nat, agent: string, id: string, name: string)
    requires CountsMore(seen, whole, part, z) && In(z, bucket, agent)
    ensures CountsMore(seen, Called(whole, bucket, agent, id, name), Called(part, bucket, agent, id, name), z)
  {
    var own := ToolKey(bucket, agent, name);
    var w, p := Called(whole, bucket, agent, id, name), Called(part, bucket, agent, id, name);
    if id != "" && id in part.seen {
    } else if id != "" && id in seen {
      if name != "" {
        CalledAddsOne(part, bucket, agent, id, name);
        assert w == whole && CallsOf(w, own) < CallsOf(p, own);
      }
    } else if name != "" {
      CalledAddsOne(whole, bucket, agent, id, name);
      CalledAddsOne(part, bucket, agent, id, name);
      if !(part.toolAt.Keys !! seen) {
        var key: ToolKey :| In(z, key.bucket, key.agent) && CallsOf(whole, key) < CallsOf(part, key);
        assert CallsOf(w, key) < CallsOf(p, key);
      }
    }
  }

  lemma {:induction false} CallsCountMore(seen: set<string>, whole: Ledger, part: Ledger, z: Zone, bucket: nat, agent: string, blocks: seq<Block>)
    requires CountsMore(seen, whole, part, z) && In(z, bucket, agent)
    ensures CountsMore(seen, WithCalls(whole, bucket, agent, blocks), WithCalls(part, bucket, agent, blocks), z)
  {
    if blocks != [] {
      var rest, last := blocks[..|blocks| - 1], blocks[|blocks| - 1];
      CallsCountMore(seen, whole, part, z, bucket, agent, rest);
      if last.Call? {
        CalledCountsMore(seen, WithCalls(whole, bucket, agent, rest), WithCalls(part, bucket, agent, rest), z, bucket, agent, last.id, last.name);
      }
    }
  }

  lemma ErrorsCountSame(seen: set<string>, whole: Ledger, part: Ledger, z: Zone, blocks: seq<Block>)
    requires CountsMore(seen, whole, part, z)
    ensures CountsMore(seen, whole.(tools := WithErrors(whole.tools, whole.toolAt, blocks)),
                       part.(tools := WithErrors(part.tools, part.toolAt, blocks)), z)
  {
    ErrorsKeep(whole.tools, whole.toolAt, blocks);
    ErrorsKeep(part.tools, part.toolAt, blocks);
    var w, p := whole.(tools := WithErrors(whole.tools, whole.toolAt, blocks)), part.(tools := WithErrors(part.tools, part.toolAt, blocks));
    assert forall key :: CallsOf(w, key) == CallsOf(whole, key) && CallsOf(p, key) == CallsOf(part, key);
  }

  lemma {:induction false} RunCountsMore(b: Scan, part: Scan, lines: seq<Entry>, o: nat, k: nat, z: Zone)
    requires o <= k <= |lines| && RecordsIn(lines, o, k, z)
    requires Outside(b, z) && part.answers == map[] && part.ledger == BLANK.ledger && part.events == map[]
    requires Run(part, lines, o, k).answers.Keys !! b.answers.Keys
    ensures CountsMore(b.ledger.seen, Run(b, lines, o, k).ledger, Run(part, lines, o, k).ledger, z)
    decreases k
  {
    if o == k {
      assert forall key: ToolKey | In(z, key.bucket, key.agent) :: CallsOf(b.ledger, key) == 0;
    } else {
      var w, p := Run(b, lines, o, k - 1), Run(part, lines, o, k - 1);
      RunInside(part, lines, o, k - 1, z);
      RunCovers(b, part, lines, o, k - 1, z);
      if lines[k - 1].record.Some? {
        StepGrows(p, Pos(lines, k - 1), lines[k - 1].record.value);
      }
      RunCountsMore(b, part, lines, o, k - 1, z);
      if lines[k - 1].record.Some? {
        StepCountsMore(b, w, p, z, Pos(lines, k - 1), lines[k - 1].record.value);
      }
    }
  }

  lemma StepCountsMore(b: Scan, w: Scan, p: Scan, z: Zone, start: nat, r: Record)
    requires CountsMore(b.ledger.seen, w.ledger, p.ledger, z) && Covers(b, w, p, z) && Inside(p, z)
    requires (!r.Other? ==> In(z, HourAt(r), r.agent)) && Step(p, start, r).answers.Keys !! b.answers.Keys
    ensures CountsMore(b.ledger.seen, Step(w, start, r).ledger, Step(p, start, r).ledger, z)
  {
    StepTables(w, start, r);
    StepTables(p, start, r);
    if r.User? {
      ErrorsCountSame(b.ledger.seen, w.ledger, p.ledger, z, r.blocks);
    } else if Answers(r) {
      assert r.mid in Step(p, start, r).answers.Keys;
      assert BucketOf(w, r) == BucketOf(p, r) && In(z, BucketOf(p, r), r.agent);
      CallsCountMore(b.ledger.seen, w.ledger, p.ledger, z, BucketOf(w, r), r.agent, r.blocks);
    }
  }

  /** (b) is needed: a call met before the offset is skipped by a straight parse and counted again by the later pass. */
  lemma CallsLost(lines: seq<Entry>, o: nat, j: nat, k: nat, torn: nat)
    requires 0 < o <= j <= k <= |lines| && !ParseOf(lines, o, k, torn).rewind
    requires Separate(lines, o, k)
    requires AnswersApart(lines, o, k) && !CallsApart(lines, o, k)
    ensures Apply(Straight(lines, j), ParseOf(lines, o, k, torn), false).tools != Straight(lines, k).tools
  {
    var p := ParseOf(lines, o, k, torn);
    BatchIsItsZone(lines, o, k, torn);
    var z := BatchZone(lines, o, k);
    PassCovers(lines, o, k, z);
    AnswersApartIff(lines, o, k);
    CallsApartIff(lines, o, k);
    RunCountsMore(Before(lines, o), Begin(lines, o), lines, o, k, z);
    RunSplit(BLANK, lines, 0, o, k);
    var whole, part := Before(lines, k).ledger, Part(lines, o, k).ledger;
    var key: ToolKey :| In(z, key.bucket, key.agent) && CallsOf(whole, key) < CallsOf(part, key);
    assert key in part.tools;
    assert Apply(Straight(lines, j), p, false).tools[key] == part.tools[key];
  }
}
