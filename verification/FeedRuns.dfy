/** Runs stay well formed: one group per kind, one run number, no number drawn twice. */
module FeedRuns {
  import opened Options
  import opened FeedRows

  function RunNumber(row: Row): nat
    requires row.Group? || row.Thoughts?
  {
    row.run
  }

  /** Two groups of one run: one number, different kinds, different numbers inside. */
  ghost predicate Apart(a: Row, b: Row) {
    && (a.Group? || a.Thoughts?) && (b.Group? || b.Thoughts?)
    && RunNumber(a) == RunNumber(b)
    && !(a.Thoughts? && b.Thoughts?)
    && (a.Group? && b.Group? ==> a.kind != b.kind)
    && SeqsOf(a) !! SeqsOf(b)
  }

  ghost predicate NumbersDiffer(calls: seq<Call>) {
    forall i, j | 0 <= i < j < |calls| :: calls[i].seqNo != calls[j].seqNo
  }

  /** No number stands twice inside a group. */
  ghost predicate Numbered(row: Row) {
    && !row.RawThought?
    && (row.Group? ==> NumbersDiffer(row.calls))
    && (row.Thoughts? ==> forall i, j | 0 <= i < j < |row.spots| :: row.spots[i].seqNo != row.spots[j].seqNo)
  }

  /** Two groups with nothing between them that ends a run. */
  ghost predicate OneRun(rows: seq<Row>, i: nat, j: nat) {
    && i < j < |rows|
    && IsGroup(rows[i]) && IsGroup(rows[j])
    && forall k | i < k < j :: !Breaks(rows[k])
  }

  ghost predicate WellRun(rows: seq<Row>) {
    && (forall i | 0 <= i < |rows| :: Numbered(rows[i]))
    && (forall i: nat, j: nat | OneRun(rows, i, j) :: Apart(rows[i], rows[j]))
  }

  /** A row that stands for another in every run: no more numbers, the same place in the run. */
  ghost predicate StandsFor(now: Row, was: Row) {
    && Numbered(now)
    && (Breaks(was) ==> Breaks(now))
    && (IsGroup(now) ==> IsGroup(was))
    && (now.Group? ==> was.Group? && now.run == was.run && now.kind == was.kind)
    && (now.Thoughts? ==> was.Thoughts? && now.run == was.run)
    && SeqsOf(now) <= SeqsOf(was)
  }

  lemma UpdateKeeps(rows: seq<Row>, i: nat, row: Row)
    requires WellRun(rows) && i < |rows| && StandsFor(row, rows[i])
    ensures WellRun(rows[i := row])
  {
    var now := rows[i := row];
    forall a: nat, b: nat | OneRun(now, a, b)
      ensures Apart(now[a], now[b])
    {
      assert forall k | a < k < b && Breaks(rows[k]) :: Breaks(now[k]);
      assert OneRun(rows, a, b);
    }
  }

  lemma WithoutKeeps(rows: seq<Row>, i: nat)
    requires WellRun(rows) && i < |rows| && !Breaks(rows[i])
    ensures WellRun(Without(rows, i))
  {
    var now := Without(rows, i);
    assert forall k | 0 <= k < |now| :: now[k] == rows[if k < i then k else k + 1];
    forall a: nat, b: nat | OneRun(now, a, b)
      ensures Apart(now[a], now[b])
    {
      var a', b' := if a < i then a else a + 1, if b < i then b else b + 1;
      forall k | a' < k < b'
        ensures !Breaks(rows[k])
      {
        if k != i {
          assert !Breaks(now[if k < i then k else k - 1]);
        }
      }
      assert OneRun(rows, a', b');
    }
  }

  lemma SuffixKeeps(rows: seq<Row>, n: nat)
    requires WellRun(rows) && n <= |rows|
    ensures WellRun(rows[n..])
  {
    var now := rows[n..];
    forall a: nat, b: nat | OneRun(now, a, b)
      ensures Apart(now[a], now[b])
    {
      forall k | a + n < k < b + n
        ensures !Breaks(rows[k])
      {
        assert !Breaks(now[k - n]);
      }
      assert OneRun(rows, a + n, b + n);
    }
  }

  /** A group joins the run at the end of a window when it stands apart from every group of the run. */
  lemma AppendKeeps(rows: seq<Row>, row: Row)
    requires WellRun(rows) && Numbered(row)
    requires IsGroup(row) ==> forall i | TailStart(rows) <= i < |rows| && IsGroup(rows[i]) :: Apart(rows[i], row)
    ensures WellRun(rows + [row])
  {
    var now := rows + [row];
    forall a: nat, b: nat | OneRun(now, a, b)
      ensures Apart(now[a], now[b])
    {
      if b < |rows| {
        assert forall k | a < k < b :: now[k] == rows[k];
        assert OneRun(rows, a, b);
      } else {
        InLastRun(rows, row, a);
      }
    }
  }

  lemma InLastRun(rows: seq<Row>, row: Row, a: nat)
    requires OneRun(rows + [row], a, |rows|)
    ensures TailStart(rows) <= a && IsGroup(rows[a]) && (rows + [row])[a] == rows[a]
  {
    assert forall k | a <= k < |rows| :: (rows + [row])[k] == rows[k];
  }

  /** A group of the run at the end takes a number no group of the run has. */
  lemma GrowKeeps(rows: seq<Row>, i: nat, row: Row, seqNo: nat)
    requires WellRun(rows) && TailStart(rows) <= i < |rows|
    requires Numbered(row) && IsGroup(row) && IsGroup(rows[i])
    requires row.Group? ==> rows[i].Group? && row.run == rows[i].run && row.kind == rows[i].kind
    requires row.Thoughts? ==> rows[i].Thoughts? && row.run == rows[i].run
    requires SeqsOf(row) <= SeqsOf(rows[i]) + {seqNo}
    requires forall j | TailStart(rows) <= j < |rows| && IsGroup(rows[j]) :: seqNo !in SeqsOf(rows[j])
    ensures WellRun(rows[i := row])
  {
    var now := rows[i := row];
    forall a: nat, b: nat | OneRun(now, a, b)
      ensures Apart(now[a], now[b])
    {
      assert forall k | a < k < b :: Breaks(rows[k]) ==> Breaks(now[k]);
      assert OneRun(rows, a, b) && Apart(rows[a], rows[b]);
      assert a == i ==> b >= TailStart(rows);
      assert b == i ==> a >= TailStart(rows);
    }
  }

  lemma {:induction false} GroupsAre(rows: seq<Row>)
    ensures forall r :: r in Groups(rows) <==> r in rows && IsGroup(r)
  {
    if rows != [] {
      GroupsAre(rows[..|rows| - 1]);
      assert rows == rows[..|rows| - 1] + [rows[|rows| - 1]];
    }
  }

  lemma {:induction false} MaxCallBounds(calls: seq<Call>)
    ensures forall c | c in calls :: c.seqNo <= MaxCall(calls)
  {
    if calls != [] {
      MaxCallBounds(calls[..|calls| - 1]);
      assert calls == calls[..|calls| - 1] + [calls[|calls| - 1]];
    }
  }

  lemma {:induction false} MaxSpotBounds(spots: seq<Spot>)
    ensures forall s | s in spots :: s.seqNo <= MaxSpot(spots)
  {
    if spots != [] {
      MaxSpotBounds(spots[..|spots| - 1]);
      assert spots == spots[..|spots| - 1] + [spots[|spots| - 1]];
    }
  }

  lemma MaxBounds(row: Row)
    ensures forall n | n in SeqsOf(row) :: n <= MaxOf(row)
  {
    match row
    case Group(_, _, _, calls) => MaxCallBounds(calls);
    case Thoughts(_, _, _, _, _, spots) => MaxSpotBounds(spots);
    case _ =>
  }

  lemma {:induction false} NextSeqIsNew(groups: seq<Row>)
    ensures forall r | r in groups :: NextSeq(groups) !in SeqsOf(r) && forall n | n in SeqsOf(r) :: n <= MaxSeq(groups)
  {
    if groups != [] {
      NextSeqIsNew(groups[..|groups| - 1]);
      MaxBounds(groups[|groups| - 1]);
      assert groups == groups[..|groups| - 1] + [groups[|groups| - 1]];
    }
  }

  /** What the run at the end of a well formed window says: every group of it can be read, has the number
      the next item takes, and none of the numbers inside it. */
  lemma TailSays(rows: seq<Row>, pos: nat)
    requires WellRun(rows)
    ensures Readable(RunTail(rows))
    ensures forall i | TailStart(rows) <= i < |rows| && IsGroup(rows[i]) ::
              && (rows[i].Group? || rows[i].Thoughts?)
              && RunNumber(rows[i]) == RunOf(RunTail(rows), pos)
              && NextSeq(RunTail(rows)) !in SeqsOf(rows[i])
  {
    var start := TailStart(rows);
    var groups := RunTail(rows);
    GroupsAre(rows[start..]);
    NextSeqIsNew(groups);
    forall i | 0 <= i < |groups|
      ensures !groups[i].RawThought?
    {
      var j := InTail(rows, groups[i]);
    }
    forall i | start <= i < |rows| && IsGroup(rows[i])
      ensures (rows[i].Group? || rows[i].Thoughts?) && RunNumber(rows[i]) == RunOf(groups, pos)
      ensures NextSeq(groups) !in SeqsOf(rows[i])
    {
      assert Numbered(rows[i]);
      assert rows[i] in rows[start..];
      var j := InTail(rows, groups[0]);
      OneRunOneNumber(rows, start, i, j);
    }
  }

  lemma InTail(rows: seq<Row>, r: Row) returns (j: nat)
    requires WellRun(rows) && r in RunTail(rows)
    ensures TailStart(rows) <= j < |rows| && rows[j] == r && IsGroup(r) && Numbered(r)
  {
    var tail := rows[TailStart(rows)..];
    GroupsAre(tail);
    var k :| 0 <= k < |tail| && tail[k] == r;
    j := TailStart(rows) + k;
  }

  lemma OneRunOneNumber(rows: seq<Row>, start: nat, i: nat, j: nat)
    requires WellRun(rows) && NoBreak(rows, start) && start <= i < |rows| && start <= j < |rows|
    requires IsGroup(rows[i]) && IsGroup(rows[j])
    ensures (rows[i].Group? || rows[i].Thoughts?) && (rows[j].Group? || rows[j].Thoughts?)
    ensures RunNumber(rows[i]) == RunNumber(rows[j])
  {
    if i < j {
      TailIsApart(rows, start, i, j);
    } else if j < i {
      TailIsApart(rows, start, j, i);
    } else {
      assert Numbered(rows[i]);
    }
  }

  ghost predicate NoBreak(rows: seq<Row>, start: nat) {
    forall k | start <= k < |rows| :: !Breaks(rows[k])
  }

  lemma TailIsApart(rows: seq<Row>, start: nat, i: nat, j: nat)
    requires WellRun(rows) && NoBreak(rows, start) && start <= i < j < |rows| && IsGroup(rows[i]) && IsGroup(rows[j])
    ensures Apart(rows[i], rows[j])
  {
    assert OneRun(rows, i, j);
  }

  /** What the parser gives: a thought is never drawn over a thought, and a row that ends a run
      is only ever redrawn as one that does. */
  ghost predicate Steady(rows: seq<Row>, item: Item) {
    var i := PlaceOf(rows, item);
    i < |rows| ==> item.RowItem? && (Breaks(rows[i]) ==> Breaks(RowOf(item, None)))
  }

  lemma KeepThinkRuns(v: View, item: Item)
    requires item.ThinkItem? && WellRun(v.window)
    ensures WellRun(KeepThink(v, item).window)
  {
    TailSays(v.window, item.pos);
    ThinkAtRuns(v, item, RunTail(v.window), ThoughtsAt(v.window, TailStart(v.window)));
  }

  /** What a run says of its groups: one number for all of them, and a number none of them has drawn. */
  ghost predicate Says(rows: seq<Row>, groups: seq<Row>, pos: nat) {
    forall i | TailStart(rows) <= i < |rows| && IsGroup(rows[i]) ::
      && (rows[i].Group? || rows[i].Thoughts?)
      && RunNumber(rows[i]) == RunOf(groups, pos)
      && NextSeq(groups) !in SeqsOf(rows[i])
  }

  lemma ThinkAtRuns(v: View, item: Item, groups: seq<Row>, i: nat)
    requires item.ThinkItem? && WellRun(v.window) && Says(v.window, groups, item.pos)
    requires i == ThoughtsAt(v.window, TailStart(v.window))
    ensures WellRun(ThinkAt(v, item, groups, i).window)
  {
    var spot := Spot(NextSeq(groups), item.tokens, item.pos);
    ThinkAtIs(v, item, groups, i, spot);
    if i < |v.window| {
      ThoughtsGrow(v.window, groups, item.pos, i, item.count, item.tokens, spot);
    } else {
      ThoughtsStart(v.window, groups, item, spot);
    }
  }

  lemma ThinkAtIs(v: View, item: Item, groups: seq<Row>, i: nat, spot: Spot)
    requires item.ThinkItem? && i <= |v.window| && (i < |v.window| ==> v.window[i].Thoughts?)
    requires spot == Spot(NextSeq(groups), item.tokens, item.pos)
    ensures ThinkAt(v, item, groups, i).window
         == if i < |v.window| then v.window[i := Thicker(v.window[i], item.count, item.tokens, spot)]
            else v.window + [Thoughts(item.pos, item.nth, RunOf(groups, item.pos), item.count, item.tokens, [spot])]
  {
  }

  function Thicker(row: Row, count: nat, tokens: nat, spot: Spot): Row
    requires row.Thoughts?
  {
    row.(count := row.count + count, tokens := row.tokens + tokens, spots := row.spots + [spot])
  }

  lemma ThoughtsGrow(rows: seq<Row>, groups: seq<Row>, pos: nat, i: nat, count: nat, tokens: nat, spot: Spot)
    requires WellRun(rows) && Says(rows, groups, pos) && spot.seqNo == NextSeq(groups)
    requires TailStart(rows) <= i < |rows| && rows[i].Thoughts?
    ensures WellRun(rows[i := Thicker(rows[i], count, tokens, spot)])
  {
    MoreSpots(rows[i], count, tokens, spot);
    GrowKeeps(rows, i, Thicker(rows[i], count, tokens, spot), spot.seqNo);
  }

  lemma ThoughtsStart(rows: seq<Row>, groups: seq<Row>, item: Item, spot: Spot)
    requires item.ThinkItem? && WellRun(rows) && Says(rows, groups, item.pos) && spot.seqNo == NextSeq(groups)
    requires forall j | TailStart(rows) <= j < |rows| :: !rows[j].Thoughts?
    ensures WellRun(rows + [Thoughts(item.pos, item.nth, RunOf(groups, item.pos), item.count, item.tokens, [spot])])
  {
    var row := Thoughts(item.pos, item.nth, RunOf(groups, item.pos), item.count, item.tokens, [spot]);
    assert SeqsOf(row) == {spot.seqNo};
    AppendKeeps(rows, row);
  }

  lemma MoreSpots(row: Row, count: nat, tokens: nat, spot: Spot)
    requires row.Thoughts? && Numbered(row) && spot.seqNo !in SeqsOf(row)
    ensures var now := row.(count := row.count + count, tokens := row.tokens + tokens, spots := row.spots + [spot]);
            Numbered(now) && SeqsOf(now) <= SeqsOf(row) + {spot.seqNo}
  {
    forall k | 0 <= k < |row.spots|
      ensures row.spots[k].seqNo != spot.seqNo
    {
      assert row.spots[k].seqNo in SeqsOf(row);
    }
  }

  lemma MoreCalls(row: Row, call: Call)
    requires row.Group? && Numbered(row) && call.seqNo !in SeqsOf(row)
    ensures var now := row.(calls := row.calls + [call]);
            Numbered(now) && SeqsOf(now) <= SeqsOf(row) + {call.seqNo}
  {
    forall k | 0 <= k < |row.calls|
      ensures row.calls[k].seqNo != call.seqNo
    {
      assert row.calls[k].seqNo in SeqsOf(row);
    }
  }

  lemma KeepToolRuns(v: View, item: Item)
    requires item.ToolItem? && WellRun(v.window)
    ensures WellRun(KeepTool(v, item).window)
  {
    TailSays(v.window, item.pos);
    ToolAtRuns(v, item, RunTail(v.window), KindAt(v.window, TailStart(v.window), item.kind));
  }

  lemma ToolAtRuns(v: View, item: Item, groups: seq<Row>, i: nat)
    requires item.ToolItem? && WellRun(v.window) && Says(v.window, groups, item.pos)
    requires i == KindAt(v.window, TailStart(v.window), item.kind)
    ensures WellRun(ToolAt(v, item, groups, i).window)
  {
    if i < |v.window| {
      CallsGrow(v.window, groups, item.pos, i, CallOf(item, groups));
    } else {
      CallsStart(v.window, groups, item, CallOf(item, groups));
    }
  }

  lemma CallsGrow(rows: seq<Row>, groups: seq<Row>, pos: nat, i: nat, call: Call)
    requires WellRun(rows) && Says(rows, groups, pos) && call.seqNo == NextSeq(groups)
    requires TailStart(rows) <= i < |rows| && rows[i].Group?
    ensures WellRun(rows[i := rows[i].(calls := rows[i].calls + [call])])
  {
    MoreCalls(rows[i], call);
    GrowKeeps(rows, i, rows[i].(calls := rows[i].calls + [call]), call.seqNo);
  }

  lemma CallsStart(rows: seq<Row>, groups: seq<Row>, item: Item, call: Call)
    requires item.ToolItem? && WellRun(rows) && Says(rows, groups, item.pos) && call.seqNo == NextSeq(groups)
    requires forall j | TailStart(rows) <= j < |rows| :: !IsKind(rows[j], item.kind)
    ensures WellRun(rows + [Group(item.pos, item.kind, RunOf(groups, item.pos), [call])])
  {
    var row := Group(item.pos, item.kind, RunOf(groups, item.pos), [call]);
    assert SeqsOf(row) == {call.seqNo};
    AppendKeeps(rows, row);
  }

  lemma {:induction false} MarkedCallsSame(calls: seq<Call>, mark: Item)
    requires mark.Mark?
    ensures |MarkedCalls(calls, mark)| == |calls|
    ensures forall i | 0 <= i < |calls| :: MarkedCalls(calls, mark)[i].seqNo == calls[i].seqNo && MarkedCalls(calls, mark)[i].use == calls[i].use
  {
    if calls != [] {
      MarkedCallsSame(calls[1..], mark);
    }
  }

  lemma MarkedStandsFor(row: Row, mark: Item)
    requires mark.Mark? && HoldsCall(row, mark.use) && Numbered(row)
    ensures StandsFor(MarkedRow(row, mark), row)
  {
    if row.Group? {
      MarkedCallsSame(row.calls, mark);
      var now := MarkedCalls(row.calls, mark);
      forall c | c in now
        ensures c.seqNo in CallSeqs(row.calls)
      {
        var i :| 0 <= i < |now| && now[i] == c;
        assert row.calls[i].seqNo == c.seqNo;
      }
    }
  }

  lemma {:induction false} CallsWithoutNumbered(calls: seq<Call>, use: string)
    requires NumbersDiffer(calls)
    ensures NumbersDiffer(CallsWithout(calls, use))
  {
    if calls != [] {
      CallsWithoutNumbered(calls[1..], use);
      var rest := CallsWithout(calls[1..], use);
      forall i | 0 <= i < |rest|
        ensures rest[i].seqNo != calls[0].seqNo
      {
        assert rest[i] in calls[1..];
      }
      NumbersCons(calls[0], rest);
      assert [] + rest == rest;
    }
  }

  lemma NumbersCons(call: Call, rest: seq<Call>)
    requires NumbersDiffer(rest) && forall i | 0 <= i < |rest| :: rest[i].seqNo != call.seqNo
    ensures NumbersDiffer([call] + rest)
  {
    var all := [call] + rest;
    forall i, j | 0 <= i < j < |all|
      ensures all[i].seqNo != all[j].seqNo
    {
      assert all[j] == rest[j - 1];
      assert i > 0 ==> all[i] == rest[i - 1];
    }
  }

  lemma FewerStandsFor(row: Row, use: string)
    requires row.Group? && Numbered(row)
    ensures StandsFor(row.(calls := CallsWithout(row.calls, use)), row)
  {
    CallsWithoutNumbered(row.calls, use);
    forall c | c in CallsWithout(row.calls, use)
      ensures c.seqNo in CallSeqs(row.calls)
    {
      assert c in row.calls;
    }
  }

  lemma DropCallRuns(v: View, use: string)
    requires WellRun(v.window)
    ensures WellRun(DropCall(v, use).window)
  {
    var i := HolderOf(v.window, use);
    if use != "" && i < |v.window| && v.window[i].Group? {
      assert Numbered(v.window[i]);
      var calls := CallsWithout(v.window[i].calls, use);
      if calls != [] {
        FewerStandsFor(v.window[i], use);
        UpdateKeeps(v.window, i, v.window[i].(calls := calls));
      } else {
        WithoutKeeps(v.window, i);
      }
    }
  }

  lemma DropTaskRuns(v: View, use: string)
    requires WellRun(v.window)
    ensures WellRun(DropTask(v, use).window)
  {
    var i := TaskOf(v.window, use);
    if i < |v.window| {
      WithoutKeeps(v.window, i);
    }
  }

  lemma KeepRowRuns(v: View, item: Item)
    requires item.RowItem? && WellRun(v.window)
    ensures WellRun(KeepRow(v, item).window)
  {
    DropCallRuns(v, item.use);
    var v1 := if item.role == Sent then DropCall(v, item.use) else v;
    DropTaskRuns(v1, item.use);
    var v2 := if item.role == TaskDone then DropTask(v1, item.use) else v1;
    AppendKeeps(v2.window, RowOf(item, item.fixes));
  }

  lemma SettleRuns(v: View, mark: Item)
    requires mark.Mark? && WellRun(v.window)
    ensures WellRun(Settle(v, mark).window)
  {
    var i := HolderOf(v.window, mark.use);
    if i < |v.window| {
      assert Numbered(v.window[i]);
      MarkedStandsFor(v.window[i], mark);
      UpdateKeeps(v.window, i, MarkedRow(v.window[i], mark));
    }
  }

  /** Every item leaves the runs of the window well formed. */
  lemma KeepRuns(v: View, item: Item, after: Option<nat>)
    requires WellRun(v.window) && Steady(v.window, item)
    ensures WellRun(Keep(v, item, after).window)
  {
    var i := PlaceOf(v.window, item);
    if item.Mark? {
      SettleRuns(v, item);
    } else if i < |v.window| {
      UpdateKeeps(v.window, i, Redrawn(item, after));
    } else if item.ThinkItem? {
      KeepThinkRuns(v, item);
    } else if item.ToolItem? {
      KeepToolRuns(v, item);
    } else {
      KeepRowRuns(v, item);
    }
  }
}
