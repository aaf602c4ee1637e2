/** Runs on a page: they stay well formed over a whole feed, because no thought is ever drawn over a thought. */
module FeedSteady {
  import opened Options
  import opened FeedRows
  import opened FeedRuns
  import opened FeedWindow
  import opened FeedAfter

  /** What the parser gives for a record: its thoughts stand at the record, each under a number of its own, and a row
      that fixes another is one that ends a run. */
  ghost predicate Addressed(rec: Rec) {
    && (forall i | 0 <= i < |rec.items| && rec.items[i].ThinkItem? :: rec.items[i].pos == rec.pos)
    && (forall i, j | 0 <= i < j < |rec.items| && rec.items[i].ThinkItem? && rec.items[j].ThinkItem? ::
          rec.items[i].nth != rec.items[j].nth)
    && (forall i | 0 <= i < |rec.items| && rec.items[i].RowItem? && rec.items[i].fixes.Some? :: Breaks(RowOf(rec.items[i], None)))
  }

  /** A feed: records of their own positions, one after the other. */
  ghost predicate Feed(recs: seq<Rec>) {
    && (forall i, j | 0 <= i < j < |recs| :: recs[i].pos < recs[j].pos)
    && (forall i | 0 <= i < |recs| :: Addressed(recs[i]))
  }

  predicate IsThought(row: Row) {
    row.Thoughts? || row.RawThought?
  }

  function AddressOf(item: Item): set<(nat, nat)> {
    if item.ThinkItem? then {(item.pos, item.nth)} else {}
  }

  /** The addresses of the thoughts among the items. */
  function Addresses(items: seq<Item>): set<(nat, nat)> {
    if items == [] then {} else Addresses(items[..|items| - 1]) + AddressOf(items[|items| - 1])
  }

  /** Every thought of a window stands at one of these addresses. */
  ghost predicate StandAt(rows: seq<Row>, taken: set<(nat, nat)>) {
    forall i | 0 <= i < |rows| && IsThought(rows[i]) :: (rows[i].pos, NthOf(rows[i])) in taken
  }

  lemma PutStands(rows: seq<Row>, i: nat, row: Row, taken: set<(nat, nat)>)
    requires StandAt(rows, taken) && i < |rows|
    requires IsThought(row) ==> (row.pos, NthOf(row)) in taken || (IsThought(rows[i]) && row.pos == rows[i].pos && NthOf(row) == NthOf(rows[i]))
    ensures StandAt(rows[i := row], taken)
  {
  }

  lemma WithoutStands(rows: seq<Row>, i: nat, taken: set<(nat, nat)>)
    requires StandAt(rows, taken) && i < |rows|
    ensures StandAt(Without(rows, i), taken)
  {
    var now := Without(rows, i);
    assert forall k | 0 <= k < |now| :: now[k] == rows[if k < i then k else k + 1];
  }

  lemma SettleStands(v: View, mark: Item, taken: set<(nat, nat)>)
    requires mark.Mark? && StandAt(v.window, taken)
    ensures StandAt(Settle(v, mark).window, taken)
  {
    var i := HolderOf(v.window, mark.use);
    if mark.use != "" && i < |v.window| {
      PutStands(v.window, i, MarkedRow(v.window[i], mark), taken);
    }
  }

  lemma DropCallStands(v: View, use: string, taken: set<(nat, nat)>)
    requires StandAt(v.window, taken)
    ensures StandAt(DropCall(v, use).window, taken)
  {
    var i := HolderOf(v.window, use);
    if use != "" && i < |v.window| && v.window[i].Group? {
      WithoutStands(v.window, i, taken);
    }
  }

  lemma DropTaskStands(v: View, use: string, taken: set<(nat, nat)>)
    requires StandAt(v.window, taken)
    ensures StandAt(DropTask(v, use).window, taken)
  {
    var i := TaskOf(v.window, use);
    if i < |v.window| {
      WithoutStands(v.window, i, taken);
    }
  }

  lemma KeepRowStands(v: View, item: Item, taken: set<(nat, nat)>)
    requires item.RowItem? && StandAt(v.window, taken)
    ensures StandAt(KeepRow(v, item).window, taken)
  {
    DropCallStands(v, item.use, taken);
    var v1 := if item.role == Sent then DropCall(v, item.use) else v;
    DropTaskStands(v1, item.use, taken);
  }

  lemma KeepToolStands(v: View, item: Item, taken: set<(nat, nat)>)
    requires item.ToolItem? && StandAt(v.window, taken)
    ensures StandAt(KeepTool(v, item).window, taken)
  {
  }

  lemma KeepThinkStands(v: View, item: Item, taken: set<(nat, nat)>)
    requires item.ThinkItem? && StandAt(v.window, taken) && (item.pos, item.nth) in taken
    ensures StandAt(KeepThink(v, item).window, taken)
  {
  }

  lemma KeepStands(v: View, item: Item, after: Option<nat>, taken: set<(nat, nat)>)
    requires StandAt(v.window, taken)
    ensures StandAt(Keep(v, item, after).window, taken + AddressOf(item))
  {
    var all := taken + AddressOf(item);
    assert StandAt(v.window, all);
    if item.Mark? {
      SettleStands(v, item, all);
    } else if PlaceOf(v.window, item) < |v.window| {
      PutStands(v.window, PlaceOf(v.window, item), Redrawn(item, after), all);
    } else if item.ThinkItem? {
      KeepThinkStands(v, item, all);
    } else if item.ToolItem? {
      KeepToolStands(v, item, all);
    } else {
      KeepRowStands(v, item, all);
    }
  }

  /** A thought at an address no thought stands at takes no row's place; nor does any other item make a row that ends a
      run one that does not. */
  lemma ItemIsSteady(rows: seq<Row>, item: Item, taken: set<(nat, nat)>)
    requires StandAt(rows, taken) && AddressOf(item) !! taken
    requires item.RowItem? && item.fixes.Some? ==> Breaks(RowOf(item, None))
    ensures Steady(rows, item)
  {
    var i := PlaceOf(rows, item);
    if i < |rows| && IsThought(rows[i]) {
      assert (rows[i].pos, NthOf(rows[i])) in taken;
    }
  }

  lemma {:induction false} AddressesAre(items: seq<Item>, a: (nat, nat))
    ensures a in Addresses(items) <==> exists i :: 0 <= i < |items| && items[i].ThinkItem? && a == (items[i].pos, items[i].nth)
  {
    if items != [] {
      var rest := items[..|items| - 1];
      AddressesAre(rest, a);
      assert forall i | 0 <= i < |rest| :: rest[i] == items[i];
    }
  }

  lemma AddressedRest(rec: Rec)
    requires rec.items != [] && Addressed(rec)
    ensures Addressed(rec.(items := rec.items[..|rec.items| - 1]))
    ensures AddressOf(rec.items[|rec.items| - 1]) !! Addresses(rec.items[..|rec.items| - 1])
  {
    var rest, last := rec.items[..|rec.items| - 1], rec.items[|rec.items| - 1];
    assert forall i | 0 <= i < |rest| :: rest[i] == rec.items[i];
    forall a | a in AddressOf(last)
      ensures a !in Addresses(rest)
    {
      AddressesAre(rest, a);
    }
  }

  /** The items of a record, on a window whose thoughts stand elsewhere. */
  lemma {:induction false} RecordIsSteady(v: View, rec: Rec, after: Option<nat>, taken: set<(nat, nat)>)
    requires Addressed(rec) && StandAt(v.window, taken) && Addresses(rec.items) !! taken
    ensures SteadyAll(v, rec.items, after)
    ensures StandAt(KeepAll(v, rec.items, after).window, taken + Addresses(rec.items))
    decreases |rec.items|
  {
    if rec.items == [] {
      assert taken + {} == taken;
    } else {
      var rest, last := rec.items[..|rec.items| - 1], rec.items[|rec.items| - 1];
      AddressedRest(rec);
      RecordIsSteady(v, rec.(items := rest), after, taken);
      ItemIsSteady(KeepAll(v, rest, after).window, last, taken + Addresses(rest));
      KeepStands(KeepAll(v, rest, after), last, after, taken + Addresses(rest));
      assert taken + Addresses(rec.items) == taken + Addresses(rest) + AddressOf(last);
    }
  }

  /** The addresses of the thoughts of all these records. */
  function AllAddresses(recs: seq<Rec>): set<(nat, nat)> {
    if recs == [] then {} else AllAddresses(recs[..|recs| - 1]) + Addresses(recs[|recs| - 1].items)
  }

  lemma {:induction false} AddressesRise(recs: seq<Rec>, pos: nat)
    requires Feed(recs) && forall i | 0 <= i < |recs| :: recs[i].pos < pos
    ensures forall a | a in AllAddresses(recs) :: a.0 < pos
  {
    if recs != [] {
      AddressesRise(recs[..|recs| - 1], pos);
      forall a | a in Addresses(recs[|recs| - 1].items)
        ensures a.0 < pos
      {
        AddressesAre(recs[|recs| - 1].items, a);
      }
    }
  }

  /** A record's thoughts stand where no thought of an earlier record does. */
  lemma NewAddresses(recs: seq<Rec>)
    requires Feed(recs) && recs != []
    ensures Addresses(recs[|recs| - 1].items) !! AllAddresses(recs[..|recs| - 1])
  {
    var rest, last := recs[..|recs| - 1], recs[|recs| - 1];
    AddressesRise(rest, last.pos);
    forall a | a in Addresses(last.items)
      ensures a !in AllAddresses(rest)
    {
      AddressesAre(last.items, a);
    }
  }

  lemma TrimStands(v: View, limit: nat, taken: set<(nat, nat)>)
    requires StandAt(v.window, taken)
    ensures StandAt(Trim(v, limit).window, taken)
  {
  }

  /** A feed is steady through its fold. */
  lemma {:induction false} FeedIsSteady(recs: seq<Rec>, limit: nat, after: Option<nat>)
    requires Feed(recs)
    ensures AllSteady(recs, limit, after) && StandAt(Fold(EMPTY, recs, limit, after).window, AllAddresses(recs))
  {
    if recs != [] {
      var rest, last := recs[..|recs| - 1], recs[|recs| - 1];
      var v := Fold(EMPTY, rest, limit, after);
      FeedIsSteady(rest, limit, after);
      NewAddresses(recs);
      RecordIsSteady(v, last, after, AllAddresses(rest));
      TrimStands(KeepAll(v, last.items, after), limit, AllAddresses(recs));
    }
  }

  /** The view a record past a position, or up to it, is folded into. */
  function ViewFor(r: Reading, rec: Rec, after: nat): View {
    if rec.pos <= after then r.view else Finished(r)
  }

  /** A page is steady: every item that reaches its window leaves runs well formed. */
  ghost predicate PageSteady(recs: seq<Rec>, limit: nat, after: nat) {
    recs != [] ==>
      var rest, last := recs[..|recs| - 1], recs[|recs| - 1];
      var was := ReadAll(rest, limit, after);
      PageSteady(rest, limit, after) && (was.done || SteadyAll(ViewFor(was, last, after), last.items, Some(after)))
  }

  lemma ReadIs(r: Reading, rec: Rec, limit: nat, after: nat)
    requires !r.done
    ensures var v := KeepAll(ViewFor(r, rec, after), rec.items, Some(after));
            ReadRecord(r, rec, limit, after).view == if rec.pos <= after then Trim(v, limit) else v
  {
  }

  lemma {:induction false} PageIsSteady(recs: seq<Rec>, limit: nat, after: nat)
    requires Feed(recs)
    ensures PageSteady(recs, limit, after) && StandAt(ReadAll(recs, limit, after).view.window, AllAddresses(recs))
  {
    if recs != [] {
      var rest, last := recs[..|recs| - 1], recs[|recs| - 1];
      var was := ReadAll(rest, limit, after);
      PageIsSteady(rest, limit, after);
      if !was.done {
        var v := ViewFor(was, last, after);
        NewAddresses(recs);
        RecordIsSteady(v, last, Some(after), AllAddresses(rest));
        TrimStands(KeepAll(v, last.items, Some(after)), limit, AllAddresses(recs));
        ReadIs(was, last, limit, after);
      }
    }
  }

  lemma DropKnownRuns(v: View, use: string)
    requires WellRun(RowsOf(v.known))
    ensures WellRun(RowsOf(DropFromKnown(v, use).known))
  {
    var k, rows := HolderOf(RowsOf(v.known), use), RowsOf(v.known);
    if k < |v.known| && v.known[k].row.Group? {
      var row := v.known[k].row;
      var calls := CallsWithout(row.calls, use);
      assert Numbered(rows[k]);
      if calls != [] {
        FewerStandsFor(row, use);
        UpdateKeeps(rows, k, row.(calls := calls));
        assert RowsOf(v.known[k := v.known[k].(row := row.(calls := calls), touched := true)]) == rows[k := row.(calls := calls)];
      } else {
        WithoutKeeps(rows, k);
        assert RowsOf(Without(v.known, k)) == Without(rows, k);
      }
    }
  }

  lemma SettleKnownRuns(v: View, mark: Item)
    requires mark.Mark? && WellRun(RowsOf(v.known))
    ensures WellRun(RowsOf(Settle(v, mark).known))
  {
    var k, rows := HolderOf(RowsOf(v.known), mark.use), RowsOf(v.known);
    if mark.use != "" && HolderOf(v.window, mark.use) == |v.window| && k < |v.known| {
      var row := MarkedRow(rows[k], mark);
      assert Numbered(rows[k]);
      MarkedStandsFor(rows[k], mark);
      UpdateKeeps(rows, k, row);
      assert RowsOf(v.known[k := v.known[k].(row := row, touched := true)]) == rows[k := row];
    }
  }

  lemma KeepRowKnownIs(v: View, item: Item)
    requires item.RowItem?
    ensures KeepRow(v, item).known ==
            if item.role == Sent && item.use != "" && HolderOf(v.window, item.use) == |v.window| then DropFromKnown(v, item.use).known
            else v.known
  {
  }

  lemma KeepKnownRuns(v: View, item: Item, after: Option<nat>)
    requires WellRun(RowsOf(v.known))
    ensures WellRun(RowsOf(Keep(v, item, after).known))
  {
    if item.Mark? {
      SettleKnownRuns(v, item);
    } else if PlaceOf(v.window, item) == |v.window| && item.RowItem? {
      KeepRowKnownIs(v, item);
      DropKnownRuns(v, item.use);
    }
  }

  lemma {:induction false} KeepAllKnownRuns(v: View, items: seq<Item>, after: Option<nat>)
    requires WellRun(RowsOf(v.known))
    ensures WellRun(RowsOf(KeepAll(v, items, after).known))
  {
    if items != [] {
      KeepAllKnownRuns(v, items[..|items| - 1], after);
      KeepKnownRuns(KeepAll(v, items[..|items| - 1], after), items[|items| - 1], after);
    }
  }

  /** Runs are well formed among the new rows and among those the reader has. */
  ghost predicate PageRuns(v: View) {
    WellRun(v.window) && WellRun(RowsOf(v.known))
  }

  lemma CrossRuns(v: View)
    requires WellRun(v.window)
    ensures PageRuns(Cross(v))
  {
    assert RowsOf(HandOver(v.window)) == v.window;
  }

  /** Runs stay well formed through a page after a position, before it is come past and after. */
  lemma {:induction false} PageRunsStayWellFormed(recs: seq<Rec>, limit: nat, after: nat)
    requires PageSteady(recs, limit, after)
    ensures PageRuns(ReadAll(recs, limit, after).view) && PageRuns(Finished(ReadAll(recs, limit, after)))
  {
    if recs == [] {
      CrossRuns(EMPTY);
    } else {
      var rest, last := recs[..|recs| - 1], recs[|recs| - 1];
      var was := ReadAll(rest, limit, after);
      PageRunsStayWellFormed(rest, limit, after);
      if !was.done {
        var v := ViewFor(was, last, after);
        RecordRuns(v, last.items, limit, Some(after));
        KeepAllRuns(v, last.items, Some(after));
        KeepAllKnownRuns(v, last.items, Some(after));
        ReadIs(was, last, limit, after);
        CrossRuns(ReadAll(recs, limit, after).view);
      }
    }
  }

  /** Every page of a feed has well formed runs: one folded from the head, and one after a position. */
  lemma FeedRunsAreWellFormed(recs: seq<Rec>, limit: nat, after: nat)
    requires Feed(recs)
    ensures WellRun(Fold(EMPTY, recs, limit, None).window)
    ensures PageRuns(Finished(ReadAll(recs, limit, after)))
  {
    FeedIsSteady(recs, limit, None);
    RunsStayWellFormed(recs, limit, None);
    PageIsSteady(recs, limit, after);
    PageRunsStayWellFormed(recs, limit, after);
  }
}
