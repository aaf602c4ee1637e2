/** A fold that lets rows go at a limit, against one that keeps them all, and a page folded from a piece
    of a conversation against the page of the whole of it. */
module FeedWindow {
  import opened Options
  import opened FeedRows

  /** One record of a transcript and what it was parsed into. */
  datatype Rec = Rec(pos: nat, items: seq<Item>)

  function Last<T>(s: seq<T>, limit: nat): (r: seq<T>)
    ensures |r| == if |s| > limit then limit else |s|
  {
    if |s| > limit then s[|s| - limit..] else s
  }

  function Trim(v: View, limit: nat): View {
    if |v.window| > limit then v.(window := Last(v.window, limit), more := true) else v
  }

  /** The fold with its limit: the window is cut at the end of every record. */
  function Fold(v: View, recs: seq<Rec>, limit: nat, after: Option<nat>): View {
    if recs == [] then v
    else Trim(KeepAll(Fold(v, recs[..|recs| - 1], limit, after), recs[|recs| - 1].items, after), limit)
  }

  /** The fold that lets nothing go. */
  function FoldAll(v: View, recs: seq<Rec>, after: Option<nat>): View {
    if recs == [] then v
    else KeepAll(FoldAll(v, recs[..|recs| - 1], after), recs[|recs| - 1].items, after)
  }

  /** The same fold with more rows above its window. */
  function Under(rows: seq<Row>, v: View, more: int, cut: bool): View {
    View(rows + v.window, v.known, v.total + more, cut, v.raised)
  }

  ghost predicate Holds(rows: seq<Row>, use: string) {
    exists i :: 0 <= i < |rows| && HoldsCall(rows[i], use)
  }

  ghost predicate EndsRun(rows: seq<Row>) {
    exists i :: 0 <= i < |rows| && Breaks(rows[i])
  }

  /** The call is found below, or nowhere above. */
  ghost predicate CallBelow(rows: seq<Row>, v: View, use: string) {
    use == "" || Holds(v.window, use) || !Holds(rows, use)
  }

  /** What an item looks for is found in the window, not in the rows above it. */
  ghost predicate Local(rows: seq<Row>, v: View, item: Item) {
    match item
    case Mark(use, _, _, _) => CallBelow(rows, v, use)
    case ToolItem(_, _, _, _, _, _, _) => EndsRun(v.window) || RunTail(rows) == []
    case ThinkItem(_, _, _, _) => PlaceOf(rows, item) == |rows| && (EndsRun(v.window) || RunTail(rows) == [])
    case RowItem(_, _, role, _, use, _, _, _) =>
      && PlaceOf(rows, item) == |rows|
      && (role == Sent ==> CallBelow(rows, v, use))
      && (role == TaskDone ==> TaskOf(rows, use) == |rows|)
      && (role == Mail ==> HasLetter(v.window, item) || !HasLetter(rows, item))
  }

  ghost predicate LocalAll(rows: seq<Row>, v: View, items: seq<Item>, after: Option<nat>) {
    items != [] ==>
      var rest := items[..|items| - 1];
      LocalAll(rows, v, rest, after) && Local(rows, KeepAll(v, rest, after), items[|items| - 1])
  }

  lemma PlaceUnder(rows: seq<Row>, window: seq<Row>, item: Item)
    ensures PlaceOf(rows + window, item) ==
            if PlaceOf(rows, item) < |rows| then PlaceOf(rows, item) else |rows| + PlaceOf(window, item)
  {
    var all := rows + window;
    assert forall j | 0 <= j < |rows| :: all[j] == rows[j];
    assert forall j | 0 <= j < |window| :: all[|rows| + j] == window[j];
    var i, k := PlaceOf(rows, item), PlaceOf(window, item);
    if i == |rows| && k < |window| {
      assert Replaces(item, all[|rows| + k]);
    }
  }

  lemma TaskUnder(rows: seq<Row>, window: seq<Row>, use: string)
    ensures TaskOf(rows + window, use) ==
            if TaskOf(rows, use) < |rows| then TaskOf(rows, use) else |rows| + TaskOf(window, use)
  {
    var all := rows + window;
    assert forall j | 0 <= j < |rows| :: all[j] == rows[j];
    assert forall j | 0 <= j < |window| :: all[|rows| + j] == window[j];
    var i, k := TaskOf(rows, use), TaskOf(window, use);
    if i == |rows| && k < |window| {
      assert SameTask(all[|rows| + k], use);
    }
  }

  lemma HolderUnder(rows: seq<Row>, window: seq<Row>, use: string)
    requires Holds(window, use) || !Holds(rows, use)
    ensures HolderOf(rows + window, use) == |rows| + HolderOf(window, use)
  {
    var all := rows + window;
    assert forall j | 0 <= j < |rows| :: all[j] == rows[j];
    assert forall j | 0 <= j < |window| :: all[|rows| + j] == window[j];
    var k := HolderOf(window, use);
    if k < |window| {
      assert HoldsCall(all[|rows| + k], use);
      forall j | |rows| + k < j < |all|
        ensures !HoldsCall(all[j], use)
      {
        assert all[j] == window[j - |rows|];
      }
    } else {
      forall j | 0 <= j < |all|
        ensures !HoldsCall(all[j], use)
      {
        if j >= |rows| {
          assert all[j] == window[j - |rows|];
        }
      }
    }
  }

  lemma TailUnder(rows: seq<Row>, window: seq<Row>)
    ensures TailStart(rows + window) == if EndsRun(window) then |rows| + TailStart(window) else TailStart(rows)
  {
    var all := rows + window;
    assert forall j | 0 <= j < |rows| :: all[j] == rows[j];
    assert forall j | 0 <= j < |window| :: all[|rows| + j] == window[j];
    var t := if EndsRun(window) then |rows| + TailStart(window) else TailStart(rows);
    if EndsRun(window) {
      assert TailStart(window) > 0;
      assert all[t - 1] == window[TailStart(window) - 1];
    }
    forall j | t <= j < |all|
      ensures !Breaks(all[j])
    {
      if j >= |rows| {
        assert all[j] == window[j - |rows|];
      }
    }
    assert t > 0 ==> Breaks(all[t - 1]);
    TailIsUnique(all, t);
  }

  lemma TailIsUnique(rows: seq<Row>, t: nat)
    requires t <= |rows| && (forall j | t <= j < |rows| :: !Breaks(rows[j])) && (t > 0 ==> Breaks(rows[t - 1]))
    ensures TailStart(rows) == t
  {
  }

  lemma {:induction false} GroupsConcat(a: seq<Row>, b: seq<Row>)
    ensures Groups(a + b) == Groups(a) + Groups(b)
  {
    if b == [] {
      assert a + b == a;
    } else {
      var rest := b[..|b| - 1];
      GroupsConcat(a, rest);
      assert (a + b)[..|a + b| - 1] == a + rest;
    }
  }

  lemma {:induction false} NoGroups(rows: seq<Row>)
    requires Groups(rows) == []
    ensures forall i | 0 <= i < |rows| :: !IsGroup(rows[i])
  {
    if rows != [] {
      NoGroups(rows[..|rows| - 1]);
    }
  }

  /** The run at the end is read from the window alone when the rows above have no part in it. */
  lemma RunUnder(rows: seq<Row>, window: seq<Row>)
    requires EndsRun(window) || RunTail(rows) == []
    ensures RunTail(rows + window) == RunTail(window)
    ensures forall j | TailStart(rows + window) <= j < |rows| :: !IsGroup((rows + window)[j])
    ensures TailStart(rows + window) <= |rows| + TailStart(window)
    ensures forall j | TailStart(rows + window) <= j < |rows| + TailStart(window) :: !IsGroup((rows + window)[j])
  {
    if EndsRun(window) {
      RunIsOwn(rows, window);
    } else {
      RunGoesOn(rows, window);
      NoGroupsAbove(rows, window);
    }
  }

  lemma RunIsOwn(rows: seq<Row>, window: seq<Row>)
    requires EndsRun(window)
    ensures RunTail(rows + window) == RunTail(window) && TailStart(rows + window) == |rows| + TailStart(window)
  {
    TailUnder(rows, window);
    SliceBelow(rows, window, TailStart(window));
  }

  lemma RunGoesOn(rows: seq<Row>, window: seq<Row>)
    requires !EndsRun(window) && RunTail(rows) == []
    ensures RunTail(rows + window) == RunTail(window) && TailStart(window) == 0 && TailStart(rows + window) == TailStart(rows)
  {
    TailUnder(rows, window);
    TailIsUnique(window, 0);
    TailOver(rows, window, TailStart(rows));
  }

  lemma SliceBelow(rows: seq<Row>, window: seq<Row>, t: nat)
    requires t <= |window|
    ensures (rows + window)[|rows| + t..] == window[t..]
  {
  }

  /** Rows without a group above a run add nothing to it. */
  lemma TailOver(rows: seq<Row>, window: seq<Row>, t: nat)
    requires t <= |rows| && Groups(rows[t..]) == []
    ensures Groups((rows + window)[t..]) == Groups(window[0..])
  {
    GroupsConcat(rows[t..], window);
    assert (rows + window)[t..] == rows[t..] + window && window[0..] == window;
  }

  lemma NoGroupsAbove(rows: seq<Row>, window: seq<Row>)
    requires RunTail(rows) == []
    ensures forall j | TailStart(rows) <= j < |rows| :: !IsGroup((rows + window)[j])
  {
    NoGroups(rows[TailStart(rows)..]);
    forall j | TailStart(rows) <= j < |rows|
      ensures !IsGroup((rows + window)[j])
    {
      assert (rows + window)[j] == rows[TailStart(rows)..][j - TailStart(rows)];
    }
  }

  lemma RunSame(rows: seq<Row>, window: seq<Row>)
    requires EndsRun(window) || RunTail(rows) == []
    ensures RunTail(rows + window) == RunTail(window)
  {
    RunUnder(rows, window);
  }

  lemma KindUnder(rows: seq<Row>, window: seq<Row>, kind: string)
    requires EndsRun(window) || RunTail(rows) == []
    ensures KindAt(rows + window, TailStart(rows + window), kind) == |rows| + KindAt(window, TailStart(window), kind)
  {
    RunUnder(rows, window);
    var all := rows + window;
    assert forall j | 0 <= j < |window| :: all[|rows| + j] == window[j];
    var k := KindAt(window, TailStart(window), kind);
    forall j | TailStart(all) <= j < |rows| + k
      ensures !IsKind(all[j], kind)
    {
      if j >= |rows| + TailStart(window) {
        assert all[j] == window[j - |rows|];
      }
    }
    if k < |window| {
      assert IsKind(all[|rows| + k], kind);
    }
  }

  lemma ThoughtsUnder(rows: seq<Row>, window: seq<Row>)
    requires EndsRun(window) || RunTail(rows) == []
    ensures ThoughtsAt(rows + window, TailStart(rows + window)) == |rows| + ThoughtsAt(window, TailStart(window))
  {
    RunUnder(rows, window);
    var all := rows + window;
    assert forall j | 0 <= j < |window| :: all[|rows| + j] == window[j];
    var k := ThoughtsAt(window, TailStart(window));
    forall j | TailStart(all) <= j < |rows| + k
      ensures !all[j].Thoughts?
    {
      if j >= |rows| + TailStart(window) {
        assert all[j] == window[j - |rows|];
      }
    }
    if k < |window| {
      assert all[|rows| + k].Thoughts?;
    }
  }

  lemma PutUnder<T>(rows: seq<T>, window: seq<T>, i: nat, row: T)
    requires i < |window|
    ensures (rows + window)[|rows| + i] == window[i]
    ensures (rows + window)[|rows| + i := row] == rows + window[i := row]
    ensures Without(rows + window, |rows| + i) == rows + Without(window, i)
    ensures (rows + window) + [row] == rows + (window + [row])
  {
    assert rows + (window + [row]) == (rows + window) + [row];
  }

  lemma AppendUnder<T>(rows: seq<T>, window: seq<T>, row: T)
    ensures (rows + window) + [row] == rows + (window + [row])
  {
  }

  lemma SettleUnder(rows: seq<Row>, v: View, mark: Item, more: int, cut: bool)
    requires mark.Mark? && CallBelow(rows, v, mark.use)
    ensures Settle(Under(rows, v, more, cut), mark) == Under(rows, Settle(v, mark), more, cut)
  {
    if mark.use != "" {
      HolderUnder(rows, v.window, mark.use);
      var i := HolderOf(v.window, mark.use);
      if i < |v.window| {
        SettleAtUnder(rows, v, mark, more, cut, i);
      } else {
        SettleKnownUnder(rows, v, mark, more, cut);
      }
      SettleIs(v, mark, i);
      SettleIs(Under(rows, v, more, cut), mark, |rows| + i);
    }
  }

  lemma SettleIs(v: View, mark: Item, i: nat)
    requires mark.Mark? && mark.use != "" && i == HolderOf(v.window, mark.use)
    ensures Settle(v, mark) == if i < |v.window| then SettleAt(v, i, mark) else SettleKnown(v, mark)
  {
  }

  lemma SettleAtUnder(rows: seq<Row>, v: View, mark: Item, more: int, cut: bool, i: nat)
    requires mark.Mark? && i < |v.window| && HoldsCall(v.window[i], mark.use)
    ensures |rows| + i < |rows + v.window| && HoldsCall((rows + v.window)[|rows| + i], mark.use)
    ensures SettleAt(Under(rows, v, more, cut), |rows| + i, mark) == Under(rows, SettleAt(v, i, mark), more, cut)
  {
    PutUnder(rows, v.window, i, MarkedRow(v.window[i], mark));
  }

  lemma SettleKnownUnder(rows: seq<Row>, v: View, mark: Item, more: int, cut: bool)
    requires mark.Mark?
    ensures SettleKnown(Under(rows, v, more, cut), mark) == Under(rows, SettleKnown(v, mark), more, cut)
  {
  }

  lemma DropCallUnder(rows: seq<Row>, v: View, use: string, more: int, cut: bool)
    requires CallBelow(rows, v, use)
    ensures DropCall(Under(rows, v, more, cut), use) == Under(rows, DropCall(v, use), more, cut)
  {
    if use != "" {
      HolderUnder(rows, v.window, use);
      DropCallUnderAt(rows, v, use, HolderOf(v.window, use), Under(rows, v, more, cut), more, cut);
    }
  }

  lemma DropCallUnderAt(rows: seq<Row>, v: View, use: string, i: nat, u: View, more: int, cut: bool)
    requires use != "" && u == Under(rows, v, more, cut)
    requires i == HolderOf(v.window, use) && |rows| + i == HolderOf(u.window, use)
    ensures DropCall(u, use) == Under(rows, DropCall(v, use), more, cut)
  {
    DropCallIs(u, use, |rows| + i);
    DropCallIs(v, use, i);
    DropUnder(rows, v, use, i, u, more, cut);
  }

  lemma DropUnder(rows: seq<Row>, v: View, use: string, i: nat, u: View, more: int, cut: bool)
    requires u == Under(rows, v, more, cut)
    ensures DropIn(u, |rows| + i, use) == Under(rows, DropIn(v, i, use), more, cut)
  {
    if i < |v.window| {
      DropFoundUnder(rows, v, use, more, cut, i);
    } else {
      DropOtherUnder(rows, v, use, more, cut);
    }
  }

  lemma DropCallIs(v: View, use: string, i: nat)
    requires use != "" && i == HolderOf(v.window, use)
    ensures DropCall(v, use) == DropIn(v, i, use)
  {
  }

  lemma DropFoundUnder(rows: seq<Row>, v: View, use: string, more: int, cut: bool, i: nat)
    requires i < |v.window|
    ensures DropFound(Under(rows, v, more, cut), |rows| + i, use) == Under(rows, DropFound(v, i, use), more, cut)
  {
    PutUnder(rows, v.window, i, v.window[i]);
    if v.window[i].Group? {
      DropAtUnder(rows, v, use, more, cut, i);
    }
  }

  lemma DropOtherUnder(rows: seq<Row>, v: View, use: string, more: int, cut: bool)
    ensures DropFromKnown(Under(rows, v, more, cut), use) == Under(rows, DropFromKnown(v, use), more, cut)
  {
  }

  lemma DropAtUnder(rows: seq<Row>, v: View, use: string, more: int, cut: bool, i: nat)
    requires i < |v.window| && v.window[i].Group? && (rows + v.window)[|rows| + i] == v.window[i]
    ensures DropAt(Under(rows, v, more, cut), |rows| + i, use) == Under(rows, DropAt(v, i, use), more, cut)
  {
    PutUnder(rows, v.window, i, v.window[i].(calls := CallsWithout(v.window[i].calls, use)));
  }

  lemma DropTaskUnder(rows: seq<Row>, v: View, use: string, more: int, cut: bool)
    requires TaskOf(rows, use) == |rows|
    ensures DropTask(Under(rows, v, more, cut), use) == Under(rows, DropTask(v, use), more, cut)
  {
    TaskUnder(rows, v.window, use);
    var i := TaskOf(v.window, use);
    if i < |v.window| {
      PutUnder(rows, v.window, i, v.window[i]);
    }
  }

  lemma LetterUnder(rows: seq<Row>, window: seq<Row>, item: Item)
    requires item.RowItem?
    ensures HasLetter(rows + window, item) <==> HasLetter(rows, item) || HasLetter(window, item)
  {
    var all := rows + window;
    if i :| 0 <= i < |rows| && SameLetter(rows[i], item) {
      assert SameLetter(all[i], item);
    }
    if i :| 0 <= i < |window| && SameLetter(window[i], item) {
      assert SameLetter(all[|rows| + i], item);
    }
  }

  lemma KeepRowUnder(rows: seq<Row>, v: View, item: Item, more: int, cut: bool)
    requires item.RowItem? && Local(rows, v, item)
    ensures KeepRow(Under(rows, v, more, cut), item) == Under(rows, KeepRow(v, item), more, cut)
  {
    if item.role == Sent {
      DropCallUnder(rows, v, item.use, more, cut);
      AppendUnder(rows, DropCall(v, item.use).window, RowOf(item, item.fixes));
    } else if item.role == TaskDone {
      DropTaskUnder(rows, v, item.use, more, cut);
      AppendUnder(rows, DropTask(v, item.use).window, RowOf(item, item.fixes));
    } else {
      LetterUnder(rows, v.window, item);
      AppendUnder(rows, v.window, RowOf(item, item.fixes));
    }
  }

  lemma ThinkAtUnder(rows: seq<Row>, v: View, item: Item, groups: seq<Row>, i: nat, more: int, cut: bool)
    requires item.ThinkItem? && i <= |v.window| && (i < |v.window| ==> v.window[i].Thoughts?)
    ensures |rows| + i < |rows + v.window| ==> (rows + v.window)[|rows| + i].Thoughts?
    ensures ThinkAt(Under(rows, v, more, cut), item, groups, |rows| + i) == Under(rows, ThinkAt(v, item, groups, i), more, cut)
  {
    var spot := Spot(NextSeq(groups), item.tokens, item.pos);
    if i < |v.window| {
      var row := v.window[i];
      PutUnder(rows, v.window, i, row.(count := row.count + item.count, tokens := row.tokens + item.tokens, spots := row.spots + [spot]));
    } else {
      AppendUnder(rows, v.window, Thoughts(item.pos, item.nth, RunOf(groups, item.pos), item.count, item.tokens, [spot]));
    }
  }

  /** Where a thought goes: the groups of the run, and the first thoughts among them. */
  ghost predicate ThinkSpot(window: seq<Row>, groups: seq<Row>, i: nat) {
    groups == RunTail(window) && i == ThoughtsAt(window, TailStart(window))
  }

  lemma ThinkSpotUnder(rows: seq<Row>, window: seq<Row>, groups: seq<Row>, i: nat)
    requires EndsRun(window) || RunTail(rows) == []
    requires ThinkSpot(window, groups, i)
    ensures ThinkSpot(rows + window, groups, |rows| + i)
  {
    RunSame(rows, window);
    ThoughtsUnder(rows, window);
  }

  lemma KeepThinkIs(v: View, item: Item, groups: seq<Row>, i: nat)
    requires item.ThinkItem? && ThinkSpot(v.window, groups, i)
    ensures i <= |v.window| && (i < |v.window| ==> v.window[i].Thoughts?)
    ensures KeepThink(v, item) == ThinkIn(v, item, groups, i)
  {
  }

  lemma KeepThinkUnder(rows: seq<Row>, v: View, item: Item, more: int, cut: bool)
    requires item.ThinkItem? && (EndsRun(v.window) || RunTail(rows) == [])
    ensures KeepThink(Under(rows, v, more, cut), item) == Under(rows, KeepThink(v, item), more, cut)
  {
    KeepThinkUnderAt(rows, v, item, RunTail(v.window), ThoughtsAt(v.window, TailStart(v.window)), Under(rows, v, more, cut), more, cut);
  }

  lemma KeepThinkUnderAt(rows: seq<Row>, v: View, item: Item, groups: seq<Row>, i: nat, u: View, more: int, cut: bool)
    requires item.ThinkItem? && (EndsRun(v.window) || RunTail(rows) == [])
    requires ThinkSpot(v.window, groups, i) && u == Under(rows, v, more, cut)
    ensures KeepThink(u, item) == Under(rows, KeepThink(v, item), more, cut)
  {
    ThinkSpotUnder(rows, v.window, groups, i);
    KeepThinkIs(v, item, groups, i);
    KeepThinkIs(u, item, groups, |rows| + i);
    ThinkInUnder(rows, v, item, groups, i, more, cut);
  }

  lemma ThinkInUnder(rows: seq<Row>, v: View, item: Item, groups: seq<Row>, i: nat, more: int, cut: bool)
    requires item.ThinkItem? && i <= |v.window| && (i < |v.window| ==> v.window[i].Thoughts?)
    ensures |rows| + i < |rows + v.window| ==> (rows + v.window)[|rows| + i].Thoughts?
    ensures ThinkIn(Under(rows, v, more, cut), item, groups, |rows| + i) == Under(rows, ThinkIn(v, item, groups, i), more, cut)
  {
    ThinkAtUnder(rows, v, item, groups, i, more, cut);
  }

  lemma ToolAtUnder(rows: seq<Row>, v: View, item: Item, groups: seq<Row>, i: nat, more: int, cut: bool)
    requires item.ToolItem? && i <= |v.window| && (i < |v.window| ==> v.window[i].Group?)
    ensures |rows| + i < |rows + v.window| ==> (rows + v.window)[|rows| + i].Group?
    ensures ToolAt(Under(rows, v, more, cut), item, groups, |rows| + i) == Under(rows, ToolAt(v, item, groups, i), more, cut)
  {
    if i < |v.window| {
      var row := v.window[i];
      PutUnder(rows, v.window, i, row.(calls := row.calls + [CallOf(item, groups)]));
    } else {
      AppendUnder(rows, v.window, Group(item.pos, item.kind, RunOf(groups, item.pos), [CallOf(item, groups)]));
    }
  }

  /** Where a call of a kind goes: the groups of the run, and the first of its kind among them. */
  ghost predicate ToolSpot(window: seq<Row>, kind: string, groups: seq<Row>, i: nat) {
    groups == RunTail(window) && i == KindAt(window, TailStart(window), kind)
  }

  lemma SpotUnder(rows: seq<Row>, window: seq<Row>, kind: string, groups: seq<Row>, i: nat)
    requires EndsRun(window) || RunTail(rows) == []
    requires ToolSpot(window, kind, groups, i)
    ensures ToolSpot(rows + window, kind, groups, |rows| + i)
  {
    RunSame(rows, window);
    KindUnder(rows, window, kind);
  }

  lemma KeepToolIs(v: View, item: Item, groups: seq<Row>, i: nat)
    requires item.ToolItem? && ToolSpot(v.window, item.kind, groups, i)
    ensures i <= |v.window| && (i < |v.window| ==> v.window[i].Group?)
    ensures KeepTool(v, item) == ToolIn(v, item, groups, i)
  {
  }

  lemma KeepToolUnder(rows: seq<Row>, v: View, item: Item, more: int, cut: bool)
    requires item.ToolItem? && (EndsRun(v.window) || RunTail(rows) == [])
    ensures KeepTool(Under(rows, v, more, cut), item) == Under(rows, KeepTool(v, item), more, cut)
  {
    KeepToolUnderAt(rows, v, item, RunTail(v.window), KindAt(v.window, TailStart(v.window), item.kind), Under(rows, v, more, cut), more, cut);
  }

  lemma KeepToolUnderAt(rows: seq<Row>, v: View, item: Item, groups: seq<Row>, i: nat, u: View, more: int, cut: bool)
    requires item.ToolItem? && (EndsRun(v.window) || RunTail(rows) == [])
    requires ToolSpot(v.window, item.kind, groups, i) && u == Under(rows, v, more, cut)
    ensures KeepTool(u, item) == Under(rows, KeepTool(v, item), more, cut)
  {
    SpotUnder(rows, v.window, item.kind, groups, i);
    KeepToolIs(v, item, groups, i);
    KeepToolIs(u, item, groups, |rows| + i);
    ToolInUnder(rows, v, item, groups, i, more, cut);
  }

  lemma ToolInUnder(rows: seq<Row>, v: View, item: Item, groups: seq<Row>, i: nat, more: int, cut: bool)
    requires item.ToolItem? && i <= |v.window| && (i < |v.window| ==> v.window[i].Group?)
    ensures |rows| + i < |rows + v.window| ==> (rows + v.window)[|rows| + i].Group?
    ensures ToolIn(Under(rows, v, more, cut), item, groups, |rows| + i) == Under(rows, ToolIn(v, item, groups, i), more, cut)
  {
    ToolAtUnder(rows, v, item, groups, i, more, cut);
  }

  lemma KeepUnder(rows: seq<Row>, v: View, item: Item, after: Option<nat>, more: int, cut: bool)
    requires Local(rows, v, item)
    ensures Keep(Under(rows, v, more, cut), item, after) == Under(rows, Keep(v, item, after), more, cut)
  {
    if item.Mark? {
      SettleUnder(rows, v, item, more, cut);
    } else {
      NoPlaceAbove(rows, v, item);
      PlaceUnder(rows, v.window, item);
      var i := PlaceOf(v.window, item);
      if i < |v.window| {
        RedrawUnder(rows, v, i, item, after, more, cut);
      } else {
        KeepNewUnder(rows, v, item, more, cut);
      }
    }
  }

  lemma NoPlaceAbove(rows: seq<Row>, v: View, item: Item)
    requires Local(rows, v, item) && !item.Mark?
    ensures PlaceOf(rows, item) == |rows|
  {
    if item.ToolItem? {
      NeverReplaces(rows, item);
    }
  }

  lemma RedrawUnder(rows: seq<Row>, v: View, i: nat, item: Item, after: Option<nat>, more: int, cut: bool)
    requires i < |v.window| && (item.ThinkItem? || item.RowItem?)
    ensures Redraw(Under(rows, v, more, cut), |rows| + i, item, after) == Under(rows, Redraw(v, i, item, after), more, cut)
  {
    PutUnder(rows, v.window, i, Redrawn(item, after));
  }

  lemma KeepNewUnder(rows: seq<Row>, v: View, item: Item, more: int, cut: bool)
    requires !item.Mark? && Local(rows, v, item)
    ensures KeepNew(Under(rows, v, more, cut), item) == Under(rows, KeepNew(v, item), more, cut)
  {
    if item.ToolItem? {
      KeepToolUnder(rows, v, item, more, cut);
    } else if item.ThinkItem? {
      KeepThinkUnder(rows, v, item, more, cut);
    } else {
      KeepRowUnder(rows, v, item, more, cut);
    }
  }

  lemma NeverReplaces(rows: seq<Row>, item: Item)
    requires item.ToolItem?
    ensures PlaceOf(rows, item) == |rows|
  {
  }

  lemma {:induction false} KeepAllUnder(rows: seq<Row>, v: View, x: View, items: seq<Item>, after: Option<nat>, more: int, cut: bool)
    requires LocalAll(rows, v, items, after) && x == Under(rows, v, more, cut)
    ensures KeepAll(x, items, after) == Under(rows, KeepAll(v, items, after), more, cut)
  {
    if items != [] {
      var rest := items[..|items| - 1];
      KeepAllUnder(rows, v, x, rest, after, more, cut);
      KeepUnder(rows, KeepAll(v, rest, after), items[|items| - 1], after, more, cut);
    }
  }

  /** Two states whose total and window length differ alike. */
  ghost predicate Counted(v: View, now: View) {
    && now.total - v.total == |now.window| - |v.window|
    && now.more == v.more
  }

  lemma KeepCounts(v: View, item: Item, after: Option<nat>)
    ensures Counted(v, Keep(v, item, after)) && |Keep(v, item, after).window| >= |v.window|
  {
    if !item.Mark? && PlaceOf(v.window, item) == |v.window| {
      if item.RowItem? {
        KeepRowCounts(v, item);
      } else {
        KeepGroupCounts(v, item);
      }
    }
  }

  lemma KeepGroupCounts(v: View, item: Item)
    requires item.ThinkItem? || item.ToolItem?
    ensures Counted(v, KeepNew(v, item)) && |KeepNew(v, item).window| >= |v.window|
  {
  }

  lemma KeepRowCounts(v: View, item: Item)
    requires item.RowItem?
    ensures Counted(v, KeepRow(v, item)) && |KeepRow(v, item).window| >= |v.window|
  {
    DropCounts(v, item.use);
  }

  lemma DropCounts(v: View, use: string)
    ensures Counted(v, DropCall(v, use)) && |DropCall(v, use).window| >= |v.window| - 1
    ensures Counted(v, DropTask(v, use)) && |DropTask(v, use).window| >= |v.window| - 1
  {
  }

  lemma {:induction false} KeepAllCounts(v: View, items: seq<Item>, after: Option<nat>)
    ensures Counted(v, KeepAll(v, items, after)) && |KeepAll(v, items, after).window| >= |v.window|
  {
    if items != [] {
      KeepAllCounts(v, items[..|items| - 1], after);
      KeepCounts(KeepAll(v, items[..|items| - 1], after), items[|items| - 1], after);
    }
  }
}
