/** The claim the incremental parse lives by: two passes, or any number of them, leave what one pass leaves. */
module UsageTheorems {
  import opened Options
  import opened Lines
  import opened UsageRecords
  import opened UsageScan
  import opened UsageCut
  import opened UsageLookback
  import opened UsageTables
  import opened UsageSplit
  import opened UsageReplay
  import opened UsageLoss
  import opened UsageLines
  import opened UsageClocks

  /** Nothing of the stored lines before the offset is met again past it. */
  ghost predicate NothingReaches(lines: seq<Entry>, o: nat, j: nat, k: nat)
    requires o <= j <= k <= |lines|
  {
    && AnswersApart(lines, o, k)
    && CallsApart(lines, o, k)
    && ErrorsApart(lines, o, j, k)
    && KindsSettled(lines, o, j, k)
  }

  /** What a pass that keeps the store meets: nothing before the offset is of an hour and an agent it takes for its own,
      and nothing reaches across. */
  ghost predicate Parts(lines: seq<Entry>, o: nat, j: nat, k: nat)
    requires o <= j <= k <= |lines|
  {
    HoursApart(lines, o, k) && NothingReaches(lines, o, j, k)
  }

  /** What a later pass needs to be told from: the clocks of a straight pass, and calls that stand under the hour and the
      agent of a record. */
  ghost predicate Ready(lines: seq<Entry>, o: nat, k: nat)
    requires 0 < o <= k <= |lines|
  {
    ClocksKept(lines, o) && Filed(lines, o, BatchZone(lines, o, k))
  }

  /** A later pass that asks for no rewind brings the store of the first j lines to the store of the first k exactly when
      its records and those before the offset stand apart. */
  lemma PassKeepsStoreIff(lines: seq<Entry>, o: nat, j: nat, k: nat, torn: nat)
    requires 0 < o <= j <= k <= |lines| && !ParseOf(lines, o, k, torn).rewind
    requires Ready(lines, o, k)
    ensures Apply(Straight(lines, j), ParseOf(lines, o, k, torn), false) == Straight(lines, k) <==> Parts(lines, o, j, k)
  {
    ClocksRebuiltIff(lines, o);
    if HoursApart(lines, o, k) {
      SeparatePassIff(lines, o, j, k, torn);
    } else {
      var i :| 0 <= i < o && CountedIn(lines[i], BatchZone(lines, o, k));
      LateHourIsLost(lines, o, j, k, torn, i);
    }
  }

  lemma SeparatePassIff(lines: seq<Entry>, o: nat, j: nat, k: nat, torn: nat)
    requires 0 < o <= j <= k <= |lines| && !ParseOf(lines, o, k, torn).rewind
    requires Separate(lines, o, k) && ClocksRebuilt(lines, o)
    ensures Apply(Straight(lines, j), ParseOf(lines, o, k, torn), false) == Straight(lines, k) <==> NothingReaches(lines, o, j, k)
  {
    AnswersApartIff(lines, o, k);
    if !AnswersApart(lines, o, k) {
      AnswersLost(lines, o, j, k, torn);
    } else if !CallsApart(lines, o, k) {
      CallsLost(lines, o, j, k, torn);
    } else {
      EventsKept(lines, o, j, k, torn);
      ToolsKept(lines, o, j, k, torn);
      RowsKept(lines, o, j, k, torn);
    }
  }

  /** Every agent a parse has rows of, a longer parse of the same file has rows of. */
  lemma AgentsStay(lines: seq<Entry>, j: nat, k: nat)
    requires j <= k <= |lines|
    ensures Agents(Straight(lines, j)) <= Agents(Straight(lines, k))
  {
    RunSplit(BLANK, lines, 0, j, k);
    RunExtends(BLANK, lines, 0, j);
    RunExtends(Before(lines, j), lines, j, k);
    ScansAre(lines, 0, j);
    ScansAre(lines, 0, k);
    var was, now := Before(lines, j), Before(lines, k);
    forall key | key in Finish(was).rows
      ensures key.agent in Agents(Finish(now))
    {
      RowKeys(was.order, was.answers, key);
      var x :| x in was.order && KeyOf(was.answers[x]) == key;
      RowKeys(now.order, now.answers, KeyOf(now.answers[x]));
      assert KeyOf(now.answers[x]) in Finish(now).rows;
    }
  }

  lemma AllRowsGo(db: map<RowKey, Row>, now: map<RowKey, Row>, agents: set<string>, h: nat)
    requires forall k | k in db :: k.agent in agents
    ensures (map k | k in db && !Goes(agents, h, true, k.agent, k.bucket) :: db[k]) + now == now
  {
  }

  lemma AllToolsGo(db: map<ToolKey, Tool>, now: map<ToolKey, Tool>, agents: set<string>, h: nat)
    requires forall k | k in db :: k.agent in agents
    ensures (map k | k in db && !Goes(agents, h, true, k.agent, k.bucket) :: db[k]) + now == now
  {
  }

  lemma AllEventsGo(db: map<EventKey, Event>, now: map<EventKey, Event>, agents: set<string>, h: nat)
    requires forall k | k in db :: k.agent in agents
    ensures (map k | k in db && !Goes(agents, h, true, k.agent, k.bucket) :: db[k]) + now == now
  {
  }

  lemma AgentsNamed(t: Tables, agents: set<string>)
    requires Agents(t) <= agents
    ensures (forall k | k in t.rows :: k.agent in agents) && (forall k | k in t.tools :: k.agent in agents)
    ensures forall k | k in t.events :: k.agent in agents
  {
    assert forall k | k in t.rows :: k.agent in Agents(t);
    assert forall k | k in t.tools :: k.agent in Agents(t);
    assert forall k | k in t.events :: k.agent in Agents(t);
  }

  lemma RewriteReplaces(db: Tables, p: Parsed)
    requires Agents(db) <= Agents(p.tables)
    ensures Apply(db, p, true) == p.tables
  {
    var agents := Agents(p.tables);
    AgentsNamed(db, agents);
    AllRowsGo(db.rows, p.tables.rows, agents, p.since);
    AllToolsGo(db.tools, p.tables.tools, agents, p.since);
    AllEventsGo(db.events, p.tables.events, agents, p.since);
  }

  /** A rewrite with a parse from the start leaves that parse, whatever earlier parse of the file was stored. */
  lemma RewriteIsStraight(lines: seq<Entry>, j: nat, k: nat, torn: nat)
    requires j <= k <= |lines|
    ensures Apply(Straight(lines, j), ParseOf(lines, 0, k, torn), true) == Straight(lines, k)
    ensures Apply(NO_TABLES, ParseOf(lines, 0, k, torn), true) == Straight(lines, k)
  {
    AgentsStay(lines, j, k);
    FirstPassIsStraight(lines, k, torn);
    RewriteLeaves(Straight(lines, j), ParseOf(lines, 0, k, torn), Straight(lines, k));
    NoAgents();
    RewriteLeaves(NO_TABLES, ParseOf(lines, 0, k, torn), Straight(lines, k));
  }

  lemma NoAgents()
    ensures Agents(NO_TABLES) == {}
  {
  }

  lemma RewriteLeaves(db: Tables, p: Parsed, t: Tables)
    requires Agents(db) <= Agents(t) && p.tables == t
    ensures Apply(db, p, true) == t
  {
    RewriteReplaces(db, p);
  }

  lemma FirstPassIsStraight(lines: seq<Entry>, k: nat, torn: nat)
    requires k <= |lines|
    ensures ParseOf(lines, 0, k, torn).tables == Straight(lines, k)
  {
  }

  /** Every counted record names its hour. */
  ghost predicate Stamped(lines: seq<Entry>, lo: nat, hi: nat)
    requires lo <= hi <= |lines|
  {
    forall i | lo <= i < hi && lines[i].record.Some? && !lines[i].record.value.Other? :: HourAt(lines[i].record.value) > 0
  }

  predicate HasHour(line: Entry) {
    line.record.Some? && HourAt(line.record.value) > 0
  }

  /** The hours of the records never decrease in file order. */
  ghost predicate HoursRise(lines: seq<Entry>, hi: nat)
    requires hi <= |lines|
  {
    forall i, j | 0 <= i < j < hi && HasHour(lines[i]) && HasHour(lines[j]) ::
      HourAt(lines[i].record.value) <= HourAt(lines[j].record.value)
  }

  /** A line a pass may start from: the first line of an hour, with no answer of the stored lines on both sides;
      or the end of lines that name no hour. */
  ghost predicate Boundary(lines: seq<Entry>, o: nat, j: nat)
    requires o <= j <= |lines|
  {
    && (o < j ==> HasHour(lines[o]) && forall i | 0 <= i < o :: !HourIs(lines[i], HourAt(lines[o].record.value)))
    && (o == j ==> forall i | 0 <= i < j :: !HasHour(lines[i]))
    && AnswersApart(lines, o, j)
  }

  /** Where a parse says the next one starts: at the first line of an hour that stands across no other,
      or, when no line named an hour, past everything read. */
  lemma OffsetStarts(lines: seq<Entry>, lo: nat, j: nat, torn: nat) returns (o: nat)
    requires lo <= j <= |lines|
    ensures lo <= o <= j
    ensures (exists i :: lo <= i < j && HasHour(lines[i])) ==>
              && o < j && Pos(lines, o) == ParseOf(lines, lo, j, torn).offset
              && HasHour(lines[o]) && forall i | lo <= i < o :: !HourIs(lines[i], HourAt(lines[o].record.value))
    ensures !(exists i :: lo <= i < j && HasHour(lines[i])) ==>
              o == j && ParseOf(lines, lo, j, torn).offset == Pos(lines, j) + torn
    ensures forall i, l, x | lo <= i < o <= l < j && AnswersAs(lines[i], x) :: !AnswersAs(lines[l], x)
  {
    var s := ScanOf(lines, lo, j);
    RunMarks(Begin(lines, lo), lines, lo, j);
    PosOrder(lines, lo, j);
    if s.hours == map[] {
      o := j;
      forall i | lo <= i < j
        ensures !HasHour(lines[i])
      {
        assert MarksLine(lines, i, s);
      }
    } else {
      o := OffsetStartsHour(lines, lo, j, torn, s);
      SafeKeepsWhole(s, lines, lo, j, o);
    }
  }

  lemma OffsetStartsHour(lines: seq<Entry>, lo: nat, j: nat, torn: nat, s: Scan) returns (o: nat)
    requires lo <= j <= |lines| && s == ScanOf(lines, lo, j)
    requires Marked(lines, lo, j, s) && s.hours != map[]
    ensures lo <= o < j && Pos(lines, o) == ParseOf(lines, lo, j, torn).offset
    ensures HasHour(lines[o]) && forall i | lo <= i < o :: !HourIs(lines[i], HourAt(lines[o].record.value))
    ensures Safe(s.hours, Pos(lines, o))
  {
    var latest := Latest(s.hours.Keys);
    var h := CutStartsAnHour(s.hours, latest);
    assert StartsAt(lines, lo, j, h, s.hours[h].first);
    o :| lo <= o < j && HourIs(lines[o], h) && Pos(lines, o) == s.hours[h].first;
    SafeBelowIsGreatest(s.hours, s.hours[latest].first);
    PosOrder(lines, lo, o);
    forall i | lo <= i < o
      ensures !HourIs(lines[i], h)
    {
      assert MarksLine(lines, i, s);
      PosOrder(lines, i, o);
    }
  }

  /** The hour a pass reports as its first is the hour of the record its offset points at. */
  lemma {:induction false} SinceIsFirstHour(s: Scan, lines: seq<Entry>, o: nat, k: nat)
    requires o <= k <= |lines| && s.first == 0
    ensures o < k && HasHour(lines[o]) ==> Run(s, lines, o, k).first == HourAt(lines[o].record.value)
    ensures Run(s, lines, o, k).first > 0 <==> exists i :: o <= i < k && HasHour(lines[i])
    decreases k
  {
    if o < k {
      SinceIsFirstHour(s, lines, o, k - 1);
      if lines[k - 1].record.Some? {
        StepTables(Run(s, lines, o, k - 1), Pos(lines, k - 1), lines[k - 1].record.value);
      }
      if HasHour(lines[k - 1]) {
        assert o <= k - 1 < k;
      } else {
        assert forall i | o <= i < k && HasHour(lines[i]) :: i < k - 1;
      }
    }
  }

  /** With hours that never decrease, a boundary leaves every earlier hour strictly below the pass. */
  lemma BoundaryHours(lines: seq<Entry>, o: nat, j: nat, k: nat, torn: nat)
    requires o <= j <= k <= |lines| && Boundary(lines, o, j)
    requires Stamped(lines, 0, k) && HoursRise(lines, k)
    ensures HoursBelow(lines, 0, o, ParseOf(lines, o, k, torn).since)
  {
    SinceIsFirstHour(Begin(lines, o), lines, o, k);
    forall i | 0 <= i < o && lines[i].record.Some? && !lines[i].record.value.Other?
      ensures HourAt(lines[i].record.value) < ParseOf(lines, o, k, torn).since
    {
      assert HasHour(lines[i]);
      assert o < j;
      assert !HourIs(lines[i], HourAt(lines[o].record.value));
    }
  }

  /** The cut does half of condition (a): what is left to ask is that no stored answer before the offset
      goes on past the stored lines. */
  lemma CutLeavesTheTail(lines: seq<Entry>, o: nat, j: nat, k: nat)
    requires o <= j <= k <= |lines| && AnswersApart(lines, o, j)
    ensures AnswersApart(lines, o, k) <==>
            forall i, l, x | 0 <= i < o && j <= l < k && AnswersAs(lines[i], x) :: !AnswersAs(lines[l], x)
  {
  }

  /** What the store holds after a later pass, the way it is stored: a pass that met an earlier hour
      is thrown away for a parse from the start. */
  ghost function Stored(db: Tables, lines: seq<Entry>, o: nat, k: nat, torn: nat): Tables
    requires o <= k <= |lines|
  {
    var after := ParseOf(lines, o, k, torn);
    if after.rewind then Apply(db, ParseOf(lines, 0, k, torn), true) else Apply(db, after, Pos(lines, o) == 0)
  }

  /** The parse whose offset the next pass starts from. */
  ghost function Taken(lines: seq<Entry>, o: nat, k: nat, torn: nat): Parsed
    requires o <= k <= |lines|
  {
    if ParseOf(lines, o, k, torn).rewind then ParseOf(lines, 0, k, torn) else ParseOf(lines, o, k, torn)
  }

  /** One more pass, from any line: with no condition when it rewinds or starts at 0, and otherwise exactly when its
      records and those before the offset stand apart, the store stays that of a straight parse. */
  lemma PassKeepsStraight(lines: seq<Entry>, o: nat, j: nat, k: nat, torn: nat)
    requires o <= j <= k <= |lines|
    requires o > 0 && !ParseOf(lines, o, k, torn).rewind ==> Ready(lines, o, k)
    ensures Stored(Straight(lines, j), lines, o, k, torn) == Straight(lines, k) <==>
            o == 0 || ParseOf(lines, o, k, torn).rewind || Parts(lines, o, j, k)
  {
    PosOrder(lines, 0, o);
    RewriteIsStraight(lines, j, k, torn);
    if o > 0 && !ParseOf(lines, o, k, torn).rewind {
      PassKeepsStoreIff(lines, o, j, k, torn);
    }
  }

  /** Where hours never decrease, a pass from a boundary never rewinds, and its hours stand apart by themselves. */
  lemma OrderedNeverRewinds(lines: seq<Entry>, o: nat, j: nat, k: nat, torn: nat)
    requires 0 < o <= j <= k <= |lines| && Boundary(lines, o, j)
    requires Stamped(lines, 0, k) && HoursRise(lines, k)
    ensures !ParseOf(lines, o, k, torn).rewind
    ensures HoursApart(lines, o, k) && Filed(lines, o, BatchZone(lines, o, k))
  {
    PosOrder(lines, 0, o);
    BoundaryHours(lines, o, j, k, torn);
    FirstIs(Begin(lines, o), lines, o, k);
    var since := ParseOf(lines, o, k, torn).since;
    forall i | o <= i < k && lines[i].record.Some? && !lines[i].record.value.Other?
      ensures HourAt(lines[i].record.value) >= since
    {
      assert HasHour(lines[i]);
      FirstNamedIsFirst(lines, o, k, i);
    }
    NothingBefore(lines, o, k, since);
    assert HoursBelow(lines, 0, o, since) && since == BatchZone(lines, o, k).since;
  }

  /** Where hours never decrease, the first hour named is the least. */
  lemma {:induction false} FirstNamedIsFirst(lines: seq<Entry>, o: nat, k: nat, i: nat)
    requires o <= i < k <= |lines| && HasHour(lines[i]) && HoursRise(lines, k)
    ensures 0 < FirstNamed(lines, o, k) <= HourAt(lines[i].record.value)
    decreases k
  {
    if i < k - 1 {
      FirstNamedIsFirst(lines, o, k - 1, i);
    } else {
      FirstNamedOf(lines, o, k - 1);
    }
  }

  lemma {:induction false} FirstNamedOf(lines: seq<Entry>, o: nat, k: nat)
    requires o <= k <= |lines|
    ensures FirstNamed(lines, o, k) > 0 ==>
              exists i :: o <= i < k && HasHour(lines[i]) && HourAt(lines[i].record.value) == FirstNamed(lines, o, k)
    decreases k
  {
    if o < k {
      FirstNamedOf(lines, o, k - 1);
      if FirstNamed(lines, o, k) > 0 && FirstNamed(lines, o, k - 1) == 0 {
        assert HasHour(lines[k - 1]);
      }
    }
  }

  /** With nothing earlier than its first hour, a pass hands over everything it has. */
  lemma NothingBefore(lines: seq<Entry>, o: nat, k: nat, since: nat)
    requires o <= k <= |lines| && HoursFrom(lines, o, k, since)
    ensures From(Finish(ScanOf(lines, o, k)), since) == Finish(ScanOf(lines, o, k))
  {
    var s, z := ScanOf(lines, o, k), Zone(since, AgentsIn(lines, o, k));
    if since > 0 {
      forall i | o <= i < k && lines[i].record.Some? && !lines[i].record.value.Other?
        ensures CountedIn(lines[i], z)
      {
        assert IsCounted(lines[i]);
      }
      RunInside(Begin(lines, o), lines, o, k, z);
      RowsBounded(s.order, s.answers, z);
    }
    AllFrom(Finish(s), since);
  }

  lemma AllFrom(t: Tables, h: nat)
    requires forall k | k in t.rows :: k.bucket >= h
    requires forall k | k in t.tools :: k.bucket >= h
    requires forall k | k in t.events :: k.bucket >= h
    ensures From(t, h) == t
  {
    assert From(t, h).rows == t.rows && From(t, h).tools == t.tools && From(t, h).events == t.events;
  }

  lemma NoneOfTheHour(lines: seq<Entry>, o: nat, j: nat, n: nat, i: nat)
    requires o <= j <= |lines| && Boundary(lines, o, j) && i < n && o <= n < |lines| && HasHour(lines[n])
    requires Stamped(lines, 0, n + 1) && HoursRise(lines, n + 1)
    requires forall l | o <= l < n :: !HourIs(lines[l], HourAt(lines[n].record.value))
    ensures !HourIs(lines[i], HourAt(lines[n].record.value))
  {
    if i < o {
      assert HasHour(lines[o]) ==> !HourIs(lines[i], HourAt(lines[o].record.value));
    }
  }

  /** The offset a pass leaves is again a boundary of everything read. */
  lemma NextBoundary(lines: seq<Entry>, o: nat, j: nat, k: nat, torn: nat, next: nat)
    requires o <= j <= k <= |lines| && Boundary(lines, o, j)
    requires Stamped(lines, 0, k) && HoursRise(lines, k)
    requires o == 0 || AnswersApart(lines, o, k)
    requires next <= |lines| && Pos(lines, next) == ParseOf(lines, o, k, torn).offset
    requires torn == 0 || exists i :: o <= i < k && HasHour(lines[i])
    ensures next <= k && Boundary(lines, next, k)
  {
    var n := OffsetStarts(lines, o, k, torn);
    PosOrder(lines, n, next);
    assert n == next;
    if n < k {
      forall i | 0 <= i < n
        ensures !HourIs(lines[i], HourAt(lines[n].record.value))
      {
        NoneOfTheHour(lines, o, j, n, i);
      }
    }
  }

  /** Two passes: storing any line-aligned prefix and then the parse from the offset it returned is storing the whole
      file, with no condition when the second pass rewinds or starts at 0, and otherwise exactly when its records and
      those before the offset stand apart. Nothing is asked of the order of the hours. */
  lemma TwoPassesEqualOne(lines: seq<Entry>, j: nat, k: nat, o: nat)
    requires o <= j <= k <= |lines| && Pos(lines, o) == ParseOf(lines, 0, j, 0).offset
    requires o > 0 && !ParseOf(lines, o, k, 0).rewind ==> Ready(lines, o, k)
    ensures Stored(Apply(NO_TABLES, ParseOf(lines, 0, j, 0), true), lines, o, k, 0) == Straight(lines, k) <==>
            o == 0 || ParseOf(lines, o, k, 0).rewind || Parts(lines, o, j, k)
  {
    RewriteIsStraight(lines, 0, j, 0);
    PassKeepsStraight(lines, o, j, k, 0);
  }

  /** Where hours never decrease and the window tells the clocks, two passes are one exactly when nothing reaches across. */
  lemma TwoPassesInOrder(lines: seq<Entry>, j: nat, k: nat, o: nat)
    requires j <= k <= |lines| && o <= |lines| && Pos(lines, o) == ParseOf(lines, 0, j, 0).offset
    requires Stamped(lines, 0, k) && HoursRise(lines, k) && (o > 0 ==> ClocksKept(lines, o))
    ensures o <= j
    ensures Stored(Apply(NO_TABLES, ParseOf(lines, 0, j, 0), true), lines, o, k, 0) == Straight(lines, k) <==>
            o == 0 || NothingReaches(lines, o, j, k)
  {
    BoundaryOfAll(lines, j, 0, o);
    if o > 0 {
      OrderedNeverRewinds(lines, o, j, k, 0);
    }
    TwoPassesEqualOne(lines, j, k, o);
  }

  /** A parse from the start leaves a boundary, with no condition on the file. */
  lemma BoundaryOfAll(lines: seq<Entry>, j: nat, torn: nat, o: nat)
    requires j <= |lines| && o <= |lines| && Pos(lines, o) == ParseOf(lines, 0, j, torn).offset
    requires torn == 0 || exists i :: 0 <= i < j && HasHour(lines[i])
    ensures o <= j && Boundary(lines, o, j)
  {
    var n := OffsetStarts(lines, 0, j, torn);
    PosOrder(lines, n, o);
    assert n == o;
  }

  /** One pass of a run: how much of the file was written then, and the line the next pass starts from. */
  datatype Pass = Pass(lines: nat, torn: nat, next: nat)

  ghost function StartOf(passes: seq<Pass>, n: nat): nat
    requires n <= |passes|
  {
    if n == 0 then 0 else passes[n - 1].next
  }

  ghost function ReadBy(passes: seq<Pass>, n: nat): nat
    requires n <= |passes|
  {
    if n == 0 then 0 else passes[n - 1].lines
  }

  /** A run over a growing file: every pass starts where the one before it said. */
  ghost predicate IsRun(lines: seq<Entry>, passes: seq<Pass>) {
    forall n | 0 <= n < |passes| ::
      && StartOf(passes, n) <= ReadBy(passes, n) <= passes[n].lines <= |lines|
      && passes[n].next <= |lines|
      && Pos(lines, passes[n].next) == Taken(lines, StartOf(passes, n), passes[n].lines, passes[n].torn).offset
      && (passes[n].torn == 0 || exists i :: StartOf(passes, n) <= i < passes[n].lines && HasHour(lines[i]))
  }

  /** The store after the first n passes. */
  ghost function StoreAfter(lines: seq<Entry>, passes: seq<Pass>, n: nat): Tables
    requires n <= |passes| && IsRun(lines, passes)
  {
    if n == 0 then NO_TABLES
    else Stored(StoreAfter(lines, passes, n - 1), lines, StartOf(passes, n - 1), passes[n - 1].lines, passes[n - 1].torn)
  }

  ghost predicate Restarts(lines: seq<Entry>, passes: seq<Pass>, n: nat)
    requires n < |passes| && IsRun(lines, passes)
  {
    StartOf(passes, n) == 0 || ParseOf(lines, StartOf(passes, n), passes[n].lines, passes[n].torn).rewind
  }

  /** The records of this pass and those before its offset stand apart, or it reads the file from the start. */
  ghost predicate Clean(lines: seq<Entry>, passes: seq<Pass>, n: nat)
    requires n < |passes| && IsRun(lines, passes)
  {
    Restarts(lines, passes, n) || Parts(lines, StartOf(passes, n), ReadBy(passes, n), passes[n].lines)
  }

  /** The store is a straight parse after each of the first n passes. */
  ghost predicate Kept(lines: seq<Entry>, passes: seq<Pass>, n: nat)
    requires n <= |passes| && IsRun(lines, passes)
  {
    && (n > 0 ==> Kept(lines, passes, n - 1))
    && StoreAfter(lines, passes, n) == Straight(lines, ReadBy(passes, n))
  }

  ghost predicate AllClean(lines: seq<Entry>, passes: seq<Pass>, n: nat)
    requires n <= |passes| && IsRun(lines, passes)
  {
    n > 0 ==> AllClean(lines, passes, n - 1) && Clean(lines, passes, n - 1)
  }

  /** Each of the first n passes is told the clocks of a straight pass, or restarts and needs none. */
  ghost predicate AllReady(lines: seq<Entry>, passes: seq<Pass>, n: nat)
    requires n <= |passes| && IsRun(lines, passes)
  {
    n > 0 ==> AllReady(lines, passes, n - 1)
              && (Restarts(lines, passes, n - 1) || Ready(lines, StartOf(passes, n - 1), passes[n - 1].lines))
  }

  /** Any number of passes, in whatever order the hours stand: the store is a straight parse after every one of them
      exactly when every pass that does not restart is clean. */
  lemma {:induction false} RunKeepsStraight(lines: seq<Entry>, passes: seq<Pass>, n: nat)
    requires n <= |passes| && IsRun(lines, passes)
    requires AllReady(lines, passes, n)
    ensures Kept(lines, passes, n) <==> AllClean(lines, passes, n)
  {
    if n > 0 {
      RunKeepsStraight(lines, passes, n - 1);
      var o, j, p := StartOf(passes, n - 1), ReadBy(passes, n - 1), passes[n - 1];
      if Kept(lines, passes, n - 1) {
        PassKeepsStraight(lines, o, j, p.lines, p.torn);
      }
    } else {
      assert Straight(lines, 0) == NO_TABLES;
    }
  }

  /** Where hours never decrease, every pass of a clean run leaves a boundary for the next. */
  lemma {:induction false} RunLeavesBoundaries(lines: seq<Entry>, passes: seq<Pass>, n: nat)
    requires n <= |passes| && IsRun(lines, passes)
    requires Stamped(lines, 0, |lines|) && HoursRise(lines, |lines|) && AllClean(lines, passes, n)
    ensures StartOf(passes, n) <= ReadBy(passes, n) <= |lines| && Boundary(lines, StartOf(passes, n), ReadBy(passes, n))
  {
    if n > 0 {
      RunLeavesBoundaries(lines, passes, n - 1);
      LeavesBoundary(lines, StartOf(passes, n - 1), ReadBy(passes, n - 1), passes[n - 1]);
    }
  }

  lemma LeavesBoundary(lines: seq<Entry>, o: nat, j: nat, p: Pass)
    requires o <= j <= p.lines <= |lines| && Boundary(lines, o, j)
    requires Stamped(lines, 0, p.lines) && HoursRise(lines, p.lines)
    requires o == 0 || ParseOf(lines, o, p.lines, p.torn).rewind || AnswersApart(lines, o, p.lines)
    requires p.next <= |lines| && Pos(lines, p.next) == Taken(lines, o, p.lines, p.torn).offset
    requires p.torn == 0 || exists i :: o <= i < p.lines && HasHour(lines[i])
    ensures p.next <= p.lines && Boundary(lines, p.next, p.lines)
  {
    if ParseOf(lines, o, p.lines, p.torn).rewind {
      BoundaryOfAll(lines, p.lines, p.torn, p.next);
    } else {
      NextBoundary(lines, o, j, p.lines, p.torn, p.next);
    }
  }

  /** The messages counted for an hour and an agent are those of either side. */
  lemma {:induction false} MessagesAdd(b: Scan, part: Scan, lines: seq<Entry>, o: nat, k: nat, key: EventKey)
    requires o <= k <= |lines| && part.events == map[]
    ensures Get(Run(b, lines, o, k).events, key, NO_EVENT).messages ==
            Get(b.events, key, NO_EVENT).messages + Get(Run(part, lines, o, k).events, key, NO_EVENT).messages
    decreases k
  {
    if o < k {
      MessagesAdd(b, part, lines, o, k - 1, key);
      if lines[k - 1].record.Some? {
        StepMessages(Run(b, lines, o, k - 1), Pos(lines, k - 1), lines[k - 1].record.value, key);
        StepMessages(Run(part, lines, o, k - 1), Pos(lines, k - 1), lines[k - 1].record.value, key);
      }
    }
  }

  lemma StepMessages(s: Scan, start: nat, r: Record, key: EventKey)
    ensures Get(Step(s, start, r).events, key, NO_EVENT).messages ==
            Get(s.events, key, NO_EVENT).messages +
            if !r.Other? && key == EventKey(HourAt(r), r.agent) then 1 else 0
  {
    StepTables(s, start, r);
    if r.User? {
      InterruptsOnly(Get(s.events, EventKey(HourAt(r), r.agent), NO_EVENT), r.blocks);
      InterruptsKeepMessages(r);
    }
  }

  lemma InterruptsKeepMessages(r: Record)
    requires r.User?
    ensures forall e, last :: EventAfter(e, last, r).messages == e.messages + 1
  {
    forall e, last
      ensures EventAfter(e, last, r).messages == e.messages + 1
    {
      var waited := Waited(last, r);
      InterruptsOnly(e.(messages := e.messages + 1,
                        compacts := e.compacts + if r.compact then 1 else 0,
                        idle := if waited.Some? then AddIdle(e.idle, waited.value) else e.idle), r.blocks);
    }
  }

  lemma {:induction false} InterruptsOnly(e: Event, blocks: seq<Block>)
    ensures Interrupted(e, blocks).messages == e.messages
  {
    if blocks != [] {
      InterruptsOnly(e, blocks[..|blocks| - 1]);
    }
  }

  /** A record before the offset, of an hour and an agent the later pass takes for its own, is lost from the store,
      whatever the hours around it. */
  lemma LateHourIsLost(lines: seq<Entry>, o: nat, j: nat, k: nat, torn: nat, i: nat)
    requires 0 < o <= j <= k <= |lines| && i < o && !ParseOf(lines, o, k, torn).rewind
    requires CountedIn(lines[i], BatchZone(lines, o, k))
    ensures Apply(Straight(lines, j), ParseOf(lines, o, k, torn), false).events != Straight(lines, k).events
  {
    var p := ParseOf(lines, o, k, torn);
    BatchIsItsZone(lines, o, k, torn);
    var key := EventKey(HourAt(lines[i].record.value), lines[i].record.value.agent);
    MessagesAdd(Before(lines, o), Begin(lines, o), lines, o, k, key);
    RunSplit(BLANK, lines, 0, o, k);
    MessagesSeen(lines, o, i);
    if p.since == 0 {
      var l :| o <= l < k && IsCounted(lines[l]) && lines[l].record.value.agent == key.agent;
      EventsStay(Begin(lines, o), lines, o, k, l);
      assert CountedIn(lines[l], BatchZone(lines, o, k));
    }
    var after := Apply(Straight(lines, j), p, false).events;
    assert Get(after, key, NO_EVENT) == Get(p.tables.events, key, NO_EVENT);
  }

  lemma {:induction false} MessagesSeen(lines: seq<Entry>, o: nat, i: nat)
    requires i < o <= |lines| && lines[i].record.Some? && !lines[i].record.value.Other?
    ensures Get(Before(lines, o).events, EventKey(HourAt(lines[i].record.value), lines[i].record.value.agent), NO_EVENT).messages > 0
    decreases o
  {
    var key := EventKey(HourAt(lines[i].record.value), lines[i].record.value.agent);
    if i < o - 1 {
      MessagesSeen(lines, o - 1, i);
    }
    if lines[o - 1].record.Some? {
      StepMessages(Before(lines, o - 1), Pos(lines, o - 1), lines[o - 1].record.value, key);
    }
  }

  /** A half-written last line is read again by the next pass exactly when some record before it named an hour;
      otherwise the offset falls inside the line. */
  lemma TornLineIsSkipped(lines: seq<Entry>, lo: nat, j: nat, torn: nat)
    requires lo <= j < |lines| && torn < lines[j].size
    ensures (exists o: nat :: o <= |lines| && Pos(lines, o) == ParseOf(lines, lo, j, torn).offset) <==>
            torn == 0 || exists i :: lo <= i < j && HasHour(lines[i])
    ensures torn > 0 && !(exists i :: lo <= i < j && HasHour(lines[i])) ==>
            Pos(lines, j) < ParseOf(lines, lo, j, torn).offset < Pos(lines, j + 1)
  {
    var n := OffsetStarts(lines, lo, j, torn);
    if torn > 0 && !(exists i :: lo <= i < j && HasHour(lines[i])) {
      forall o: nat | o <= |lines|
        ensures Pos(lines, o) != Pos(lines, j) + torn
      {
        PosOrder(lines, o, j);
        PosOrder(lines, o, j + 1);
      }
    } else {
      assert Pos(lines, n) == ParseOf(lines, lo, j, torn).offset;
    }
  }
}
