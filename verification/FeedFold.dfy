/** The fold as it runs: a window and the rows a reader has, changed in place item by item. */
module FeedFold {
  import opened Options
  import opened FeedRows
  import opened FeedRuns
  import opened FeedWindow
  import opened FeedAfter

  function RowsAt(rows: seq<Row>, at: seq<nat>): (r: seq<Row>)
    requires forall i | 0 <= i < |at| :: at[i] < |rows|
    ensures |r| == |at| && forall i | 0 <= i < |at| :: r[i] == rows[at[i]]
  {
    seq(|at|, i requires 0 <= i < |at| => rows[at[i]])
  }

  /** The groups of the run that starts at `start`, by where they stand. */
  ghost predicate InRun(rows: seq<Row>, at: seq<nat>, start: nat) {
    && (forall i | 0 <= i < |at| :: start <= at[i] < |rows| && IsGroup(rows[at[i]]))
    && (forall j | start <= j < |rows| && IsGroup(rows[j]) :: j in at)
    && (forall i, j | 0 <= i < j < |at| :: at[i] < at[j])
  }

  lemma GroupsUp(rows: seq<Row>, i: nat)
    requires i < |rows|
    ensures Groups(rows[i..]) == (if IsGroup(rows[i]) then [rows[i]] else []) + Groups(rows[i + 1..])
  {
    var one := [rows[i]];
    assert rows[i..] == one + rows[i + 1..];
    GroupsConcat(one, rows[i + 1..]);
    assert one[..|one| - 1] == [] && one[|one| - 1] == rows[i];
    assert Groups(one) == Groups(one[..|one| - 1]) + if IsGroup(rows[i]) then [rows[i]] else [];
  }

  lemma PrependRises(at: seq<nat>, i: nat)
    requires (forall k | 0 <= k < |at| :: i < at[k]) && forall k, m | 0 <= k < m < |at| :: at[k] < at[m]
    ensures forall k, m | 0 <= k < m < |[i] + at| :: ([i] + at)[k] < ([i] + at)[m]
  {
  }

  lemma InRunUp(rows: seq<Row>, at: seq<nat>, i: nat)
    requires i < |rows| && InRun(rows, at, i + 1)
    ensures InRun(rows, if IsGroup(rows[i]) then [i] + at else at, i)
  {
    if IsGroup(rows[i]) {
      forall j | i <= j < |rows| && IsGroup(rows[j])
        ensures j in [i] + at
      {
        assert j == i || j in at;
      }
      PrependRises(at, i);
    } else {
      forall j | i <= j < |rows| && IsGroup(rows[j])
        ensures j in at
      {
        assert j != i;
      }
    }
  }

  lemma RowsAtUp(rows: seq<Row>, at: seq<nat>, i: nat)
    requires i < |rows| && forall k | 0 <= k < |at| :: at[k] < |rows|
    ensures RowsAt(rows, [i] + at) == [rows[i]] + RowsAt(rows, at)
  {
  }

  /** What the scan has come to: the groups from i on, and no row there that ends a run. */
  ghost predicate RunUpto(rows: seq<Row>, at: seq<nat>, i: nat) {
    && i <= |rows| && (forall j | i <= j < |rows| :: !Breaks(rows[j]))
    && InRun(rows, at, i) && RowsAt(rows, at) == Groups(rows[i..])
  }

  lemma OneRowUp(rows: seq<Row>, at: seq<nat>, i: nat)
    requires i < |rows| && RunUpto(rows, at, i + 1) && !Breaks(rows[i])
    ensures RunUpto(rows, if IsGroup(rows[i]) then [i] + at else at, i)
  {
    GroupsUp(rows, i);
    InRunUp(rows, at, i);
    RowsAtUp(rows, at, i);
  }

  /** The first call with the mark's id takes the mark. */
  method MarkCall(calls: seq<Call>, mark: Item) returns (now: seq<Call>)
    requires mark.Mark?
    ensures now == MarkedCalls(calls, mark)
  {
    now := calls;
    var i := 0;
    while i < |calls|
      invariant i <= |calls| && now == calls
      invariant MarkedCalls(calls, mark) == calls[..i] + MarkedCalls(calls[i..], mark)
    {
      if calls[i].use == mark.use {
        now := calls[i := calls[i].(status := Marked(calls[i].status, mark))];
        assert calls[i..][1..] == calls[i + 1..];
        return;
      }
      assert calls[i..][1..] == calls[i + 1..];
      i := i + 1;
    }
  }

  /** One more than the greatest number drawn in the groups of a run. */
  method NextNumber(groups: seq<Row>) returns (n: nat)
    requires Readable(groups)
    ensures n == NextSeq(groups)
  {
    var most: int := -1;
    for g := 0 to |groups|
      invariant most == MaxSeq(groups[..g])
    {
      assert groups[..g + 1][..g] == groups[..g];
      var own: int := -1;
      if groups[g].Group? {
        var calls := groups[g].calls;
        for c := 0 to |calls|
          invariant own == MaxCall(calls[..c])
        {
          assert calls[..c + 1][..c] == calls[..c];
          if calls[c].seqNo > own {
            own := calls[c].seqNo;
          }
        }
        assert calls[..|calls|] == calls;
      } else if groups[g].Thoughts? {
        var spots := groups[g].spots;
        for c := 0 to |spots|
          invariant own == MaxSpot(spots[..c])
        {
          assert spots[..c + 1][..c] == spots[..c];
          if spots[c].seqNo > own {
            own := spots[c].seqNo;
          }
        }
        assert spots[..|spots|] == spots;
      }
      if own > most {
        most := own;
      }
    }
    assert groups[..|groups|] == groups;
    n := most + 1;
  }

  class Feed {
    var window: seq<Row>
    var known: seq<Known>
    var total: int
    var moreBefore: bool
    var raised: bool

    constructor ()
      ensures State() == EMPTY
    {
      window, known, total, moreBefore, raised := [], [], 0, false, false;
    }

    function State(): View
      reads this
    {
      View(window, known, total, moreBefore, raised)
    }

    /** Puts an item in the place of the first row it replaces, and says whether there was one. */
    method Place(item: Item, after: Option<nat>) returns (placed: bool)
      requires !item.Mark?
      modifies this`window
      ensures placed <==> PlaceOf(old(window), item) < |old(window)|
      ensures placed ==> !item.ToolItem? && State() == Redraw(old(State()), PlaceOf(old(window), item), item, after)
      ensures !placed ==> window == old(window)
    {
      for i := 0 to |window|
        invariant window == old(window)
        invariant forall j | 0 <= j < i :: !Replaces(item, window[j])
      {
        if Replaces(item, window[i]) {
          window := window[i := Redrawn(item, after)];
          return true;
        }
      }
      return false;
    }

    /** The last row that holds a call, of the window before the rows the reader has. */
    method FindCall(use: string) returns (found: bool, inKnown: bool, i: nat)
      ensures found ==> use != ""
      ensures use != "" ==>
        var w, k := HolderOf(window, use), HolderOf(RowsOf(known), use);
        && (found <==> w < |window| || k < |known|)
        && (found ==> (inKnown <==> w == |window|) && i == if inKnown then k else w)
    {
      found, inKnown, i := false, false, 0;
      if use == "" {
        return;
      }
      var n: nat := |window|;
      while n > 0
        invariant n <= |window|
        invariant forall j | n <= j < |window| :: !HoldsCall(window[j], use)
      {
        n := n - 1;
        if HoldsCall(window[n], use) {
          return true, false, n;
        }
      }
      n := |known|;
      while n > 0
        invariant n <= |known|
        invariant forall j | n <= j < |known| :: !HoldsCall(known[j].row, use)
      {
        n := n - 1;
        if HoldsCall(known[n].row, use) {
          assert forall j | n < j < |known| :: !HoldsCall(RowsOf(known)[j], use);
          return true, true, n;
        }
      }
      assert forall j | 0 <= j < |known| :: !HoldsCall(RowsOf(known)[j], use);
    }

    method MarkRow(row: Row, mark: Item) returns (now: Row)
      requires mark.Mark? && HoldsCall(row, mark.use)
      ensures now == MarkedRow(row, mark)
    {
      if row.Group? {
        var calls := MarkCall(row.calls, mark);
        return row.(calls := calls);
      }
      return row.(status := Marked(row.status, mark));
    }

    method Settle(mark: Item)
      requires mark.Mark?
      modifies this
      ensures State() == FeedRows.Settle(old(State()), mark)
    {
      var found, inKnown, i := FindCall(mark.use);
      if !found {
        return;
      }
      if inKnown {
        var row := MarkRow(known[i].row, mark);
        known := known[i := known[i].(row := row, touched := true)];
      } else {
        var row := MarkRow(window[i], mark);
        window := window[i := row];
      }
    }

    /** The calls of a group but those delivered. */
    method LeftCalls(calls: seq<Call>, use: string) returns (left: seq<Call>)
      ensures left == CallsWithout(calls, use)
    {
      left := [];
      for i := 0 to |calls|
        invariant left + CallsWithout(calls[i..], use) == CallsWithout(calls, use)
      {
        WithoutNext(left, calls, i, use);
        if calls[i].use != use {
          left := left + [calls[i]];
        }
      }
    }

    method DropCall(use: string)
      modifies this
      ensures State() == FeedRows.DropCall(old(State()), use)
    {
      var found, inKnown, i := FindCall(use);
      if !found {
        return;
      }
      var row := if inKnown then known[i].row else window[i];
      if !row.Group? {
        raised := true;
        return;
      }
      var calls := LeftCalls(row.calls, use);
      if inKnown {
        if calls != [] {
          known := known[i := known[i].(row := row.(calls := calls), touched := true)];
        } else {
          known := known[..i] + known[i + 1..];
        }
      } else if calls != [] {
        window := window[i := row.(calls := calls)];
      } else {
        window := window[..i] + window[i + 1..];
        total := total - 1;
      }
    }

    /** The badge groups the run at the end of the window is drawn as, by where they stand. */
    method RunGroups() returns (at: seq<nat>, ghost start: nat)
      ensures start == TailStart(window)
      ensures InRun(window, at, start)
      ensures RowsAt(window, at) == RunTail(window)
    {
      at := [];
      var i: nat := |window|;
      while i > 0 && !Breaks(window[i - 1])
        invariant i <= |window| && RunUpto(window, at, i)
      {
        i := i - 1;
        OneRowUp(window, at, i);
        at := if IsGroup(window[i]) then [i] + at else at;
      }
      TailIsUnique(window, i);
      start := i;
    }

    /** The first thoughts among the groups of the run; past the window when there are none. */
    method FindThoughts(at: seq<nat>, ghost start: nat) returns (i: nat)
      requires start <= |window| && InRun(window, at, start)
      ensures i == ThoughtsAt(window, start)
    {
      for g := 0 to |at|
        invariant forall k | 0 <= k < g :: !window[at[k]].Thoughts?
      {
        if window[at[g]].Thoughts? {
          return at[g];
        }
      }
      return |window|;
    }

    method FindKind(at: seq<nat>, ghost start: nat, kind: string) returns (i: nat)
      requires start <= |window| && InRun(window, at, start)
      ensures i == KindAt(window, start, kind)
    {
      for g := 0 to |at|
        invariant forall k | 0 <= k < g :: !IsKind(window[at[k]], kind)
      {
        if IsKind(window[at[g]], kind) {
          return at[g];
        }
      }
      return |window|;
    }

    method Join(i: nat, row: Row)
      requires i <= |window|
      modifies this
      ensures State() == if i < |old(window)| then old(State()).(window := old(window)[i := row]) else Append(old(State()), row)
    {
      if i < |window| {
        window := window[i := row];
      } else {
        window := window + [row];
        total := total + 1;
      }
    }

    method KeepThink(item: Item)
      requires item.ThinkItem?
      modifies this
      ensures State() == FeedRows.KeepThink(old(State()), item)
    {
      var at, start := RunGroups();
      var groups := RowsAt(window, at);
      if !Readable(groups) {
        raised := true;
        return;
      }
      var i := FindThoughts(at, start);
      Think(groups, i, item);
    }

    method Think(groups: seq<Row>, i: nat, item: Item)
      requires item.ThinkItem? && Readable(groups) && i <= |window| && (i < |window| ==> window[i].Thoughts?)
      modifies this
      ensures State() == ThinkAt(old(State()), item, groups, i)
    {
      var n := NextNumber(groups);
      var spot := Spot(n, item.tokens, item.pos);
      if i < |window| {
        var row := window[i];
        Join(i, row.(count := row.count + item.count, tokens := row.tokens + item.tokens, spots := row.spots + [spot]));
      } else {
        Join(i, Thoughts(item.pos, item.nth, RunOf(groups, item.pos), item.count, item.tokens, [spot]));
      }
    }

    method KeepTool(item: Item)
      requires item.ToolItem?
      modifies this
      ensures State() == FeedRows.KeepTool(old(State()), item)
    {
      var at, start := RunGroups();
      var groups := RowsAt(window, at);
      if !Readable(groups) {
        raised := true;
        return;
      }
      var i := FindKind(at, start, item.kind);
      AddCall(groups, i, item);
    }

    method AddCall(groups: seq<Row>, i: nat, item: Item)
      requires item.ToolItem? && Readable(groups) && i <= |window| && (i < |window| ==> window[i].Group?)
      modifies this
      ensures State() == ToolAt(old(State()), item, groups, i)
    {
      var n := NextNumber(groups);
      var call := Call(item.name, n, item.pos, item.index, item.use, Status(item.open, false, [], ""));
      if i < |window| {
        var row := window[i];
        Join(i, row.(calls := row.calls + [call]));
      } else {
        Join(i, Group(item.pos, item.kind, RunOf(groups, item.pos), [call]));
      }
    }

    method DropTask(use: string)
      modifies this
      ensures State() == FeedRows.DropTask(old(State()), use)
    {
      for i := 0 to |window|
        invariant State() == old(State())
        invariant forall j | 0 <= j < i :: !SameTask(window[j], use)
      {
        if SameTask(window[i], use) {
          window := window[..i] + window[i + 1..];
          total := total - 1;
          return;
        }
      }
    }

    method Keep(item: Item, after: Option<nat>)
      modifies this
      ensures State() == FeedRows.Keep(old(State()), item, after)
    {
      if item.Mark? {
        Settle(item);
        return;
      }
      var placed := Place(item, after);
      if placed {
        return;
      }
      if item.ThinkItem? {
        KeepThink(item);
      } else if item.ToolItem? {
        KeepTool(item);
      } else {
        if item.role == Sent {
          DropCall(item.use);
        }
        if item.role == TaskDone {
          DropTask(item.use);
        }
        if item.role == Mail && HasLetter(window, item) {
          return;
        }
        window := window + [RowOf(item, item.fixes)];
        total := total + 1;
      }
    }

    method KeepRecord(items: seq<Item>, after: Option<nat>)
      modifies this
      ensures State() == KeepAll(old(State()), items, after)
    {
      for i := 0 to |items|
        invariant State() == KeepAll(old(State()), items[..i], after)
      {
        assert items[..i + 1][..i] == items[..i];
        Keep(items[i], after);
      }
      assert items[..|items|] == items;
    }

    method Cut(limit: nat)
      modifies this
      ensures State() == Trim(old(State()), limit)
    {
      if |window| > limit {
        window := window[|window| - limit..];
        moreBefore := true;
      }
    }

    /** The window at the end of a stream of records. */
    method Read(recs: seq<Rec>, limit: nat)
      modifies this
      ensures State() == Fold(old(State()), recs, limit, None)
    {
      for i := 0 to |recs|
        invariant State() == Fold(old(State()), recs[..i], limit, None)
      {
        assert recs[..i + 1][..i] == recs[..i];
        KeepRecord(recs[i].items, None);
        Cut(limit);
      }
      assert recs[..|recs|] == recs;
    }

    /** The rows past a position, behind the known rows a record past it changed. */
    method ReadAfter(recs: seq<Rec>, limit: nat, after: nat) returns (items: seq<Row>)
      requires State() == EMPTY
      modifies this
      ensures items == PageAfter(recs, limit, after)
    {
      var crossed, done := false, false;
      var i := 0;
      while i < |recs| && !done
        invariant i <= |recs|
        invariant Reading(State(), crossed, done) == ReadAll(recs[..i], limit, after)
      {
        assert recs[..i + 1][..i] == recs[..i];
        if recs[i].pos <= after {
          KeepRecord(recs[i].items, Some(after));
          Cut(limit);
        } else {
          if !crossed {
            known, window, total, crossed := HandOver(window), [], 0, true;
          }
          KeepRecord(recs[i].items, Some(after));
          done := |window| >= limit;
        }
        i := i + 1;
      }
      ReadDone(recs, i, limit, after);
      if !crossed {
        known, window, total := HandOver(window), [], 0;
      }
      var again: seq<Row> := [];
      for k := 0 to |known|
        invariant again == Again(known[..k])
      {
        assert known[..k + 1][..k] == known[..k];
        if known[k].touched {
          again := again + [known[k].row];
        }
      }
      assert known[..|known|] == known;
      items := again + window;
    }
  }

  lemma {:induction false} ReadDone(recs: seq<Rec>, i: nat, limit: nat, after: nat)
    requires i <= |recs| && (i == |recs| || ReadAll(recs[..i], limit, after).done)
    ensures ReadAll(recs, limit, after) == ReadAll(recs[..i], limit, after)
    decreases |recs|
  {
    if i == |recs| {
      assert recs[..i] == recs;
    } else {
      assert recs[..|recs| - 1][..i] == recs[..i];
      ReadDone(recs[..|recs| - 1], i, limit, after);
    }
  }

  lemma WithoutNext(left: seq<Call>, calls: seq<Call>, i: nat, use: string)
    requires i < |calls|
    ensures left + CallsWithout(calls[i..], use)
         == (if calls[i].use != use then left + [calls[i]] else left) + CallsWithout(calls[i + 1..], use)
  {
    var rest := CallsWithout(calls[i + 1..], use);
    assert calls[i..][1..] == calls[i + 1..];
    assert left + ([calls[i]] + rest) == left + [calls[i]] + rest && [] + rest == rest;
  }
}
