/** What the badge groups of a window hold: every call and every thought that came, and no other. */
module FeedCounts {
  import opened Options
  import opened Sequences
  import opened FeedRows
  import opened FeedWindow

  datatype CallId = CallId(name: string, use: string, pos: nat, index: nat)

  function IdOf(c: Call): CallId {
    CallId(c.name, c.use, c.pos, c.index)
  }

  function IdsOf(calls: seq<Call>): multiset<CallId> {
    if calls == [] then multiset{} else multiset{IdOf(calls[0])} + IdsOf(calls[1..])
  }

  function RowIds(row: Row): multiset<CallId> {
    if row.Group? then IdsOf(row.calls) else multiset{}
  }

  /** The calls of a list of rows. */
  function Ids(rows: seq<Row>): multiset<CallId> {
    if rows == [] then multiset{} else Ids(rows[..|rows| - 1]) + RowIds(rows[|rows| - 1])
  }

  lemma IdsStep(rows: seq<Row>, rest: seq<Row>, last: Row)
    requires rows != [] && rest == rows[..|rows| - 1] && last == rows[|rows| - 1]
    ensures Ids(rows) == Ids(rest) + RowIds(last)
  {
  }

  lemma {:induction false} IdsConcat(a: seq<Row>, b: seq<Row>)
    ensures Ids(a + b) == Ids(a) + Ids(b)
  {
    if b == [] {
      assert a + b == a;
    } else {
      var rest, last := b[..|b| - 1], b[|b| - 1];
      IdsConcat(a, rest);
      ConcatLast(a, b);
      IdsStep(b, rest, last);
      IdsStep(a + b, a + rest, last);
    }
  }

  lemma IdsOne(row: Row)
    ensures Ids([row]) == RowIds(row)
  {
    assert [row][..0] == [];
  }

  lemma IdsThree(a: seq<Row>, row: Row, b: seq<Row>)
    ensures Ids(a + ([row] + b)) == Ids(a) + RowIds(row) + Ids(b)
    ensures Ids(a + b) == Ids(a) + Ids(b)
  {
    IdsConcat(a, [row] + b);
    IdsConcat([row], b);
    IdsConcat(a, b);
    IdsOne(row);
  }

  lemma Parts<T>(rows: seq<T>, i: nat, row: T)
    requires i < |rows|
    ensures rows == rows[..i] + ([rows[i]] + rows[i + 1..])
    ensures rows[i := row] == rows[..i] + ([row] + rows[i + 1..])
  {
  }

  lemma IdsLess(rows: seq<Row>, i: nat)
    requires i < |rows|
    ensures Ids(Without(rows, i)) + RowIds(rows[i]) == Ids(rows)
  {
    Parts(rows, i, rows[i]);
    IdsThree(rows[..i], rows[i], rows[i + 1..]);
  }

  /** A row put in the place of another: the calls of the rest stay. */
  lemma {:induction false} IdsPut(rows: seq<Row>, i: nat, row: Row, more: multiset<CallId>, less: multiset<CallId>)
    requires i < |rows| && RowIds(row) + less == RowIds(rows[i]) + more
    ensures Ids(rows[i := row]) + less == Ids(rows) + more
  {
    var n := |rows| - 1;
    var rest, last := rows[..n], rows[n];
    assert rows == rest + [last];
    if i < n {
      IdsPut(rest, i, row, more, less);
      assert rows[i := row] == rest[i := row] + [last];
      IdsPutEarlier(rest, rest[i := row], last, more, less);
    } else {
      assert rows[i := row] == rest + [row];
      IdsPutLast(rest, last, row, more, less);
    }
  }

  lemma IdsPutEarlier(rest: seq<Row>, now: seq<Row>, last: Row, more: multiset<CallId>, less: multiset<CallId>)
    requires Ids(now) + less == Ids(rest) + more
    ensures Ids(now + [last]) + less == Ids(rest + [last]) + more
  {
    IdsAppend(rest, last);
    IdsAppend(now, last);
    Swap(RowIds(last), Ids(now), less, Ids(rest), more);
  }

  lemma IdsPutLast(rest: seq<Row>, last: Row, row: Row, more: multiset<CallId>, less: multiset<CallId>)
    requires RowIds(row) + less == RowIds(last) + more
    ensures Ids(rest + [row]) + less == Ids(rest + [last]) + more
  {
    IdsAppend(rest, last);
    IdsAppend(rest, row);
    Swap(Ids(rest), RowIds(row), less, RowIds(last), more);
  }

  lemma Swap(rest: multiset<CallId>, a: multiset<CallId>, less: multiset<CallId>, b: multiset<CallId>, more: multiset<CallId>)
    requires a + less == b + more
    ensures rest + a + less == rest + b + more && a + rest + less == b + rest + more
  {
    assert a + rest == rest + a && b + rest == rest + b;
    assert rest + a + less == rest + (a + less) && rest + b + more == rest + (b + more);
  }

  lemma IdsSame(rows: seq<Row>, i: nat, row: Row)
    requires i < |rows| && RowIds(row) == RowIds(rows[i])
    ensures Ids(rows[i := row]) == Ids(rows)
  {
    IdsPut(rows, i, row, multiset{}, multiset{});
    assert Ids(rows) + multiset{} == Ids(rows);
  }

  lemma IdsAppend(rows: seq<Row>, row: Row)
    ensures Ids(rows + [row]) == Ids(rows) + RowIds(row)
  {
    IdsStep(rows + [row], rows, row);
  }

  lemma {:induction false} IdsOfMore(calls: seq<Call>, call: Call)
    ensures IdsOf(calls + [call]) == IdsOf(calls) + multiset{IdOf(call)}
  {
    if calls == [] {
      assert calls + [call] == [call];
    } else {
      IdsOfMore(calls[1..], call);
      assert (calls + [call])[1..] == calls[1..] + [call];
    }
  }

  lemma {:induction false} MarkedIds(calls: seq<Call>, mark: Item)
    requires mark.Mark?
    ensures IdsOf(MarkedCalls(calls, mark)) == IdsOf(calls)
  {
    if calls != [] && calls[0].use != mark.use {
      MarkedIds(calls[1..], mark);
      assert ([calls[0]] + MarkedCalls(calls[1..], mark))[1..] == MarkedCalls(calls[1..], mark);
    } else if calls != [] {
      var now := calls[0].(status := Marked(calls[0].status, mark));
      assert ([now] + calls[1..])[1..] == calls[1..];
    }
  }

  /** The calls of a group with an id. */
  function WithUse(calls: seq<Call>, use: string): multiset<CallId> {
    if calls == [] then multiset{}
    else (if calls[0].use == use then multiset{IdOf(calls[0])} else multiset{}) + WithUse(calls[1..], use)
  }

  lemma {:induction false} WithoutIds(calls: seq<Call>, use: string)
    ensures IdsOf(CallsWithout(calls, use)) + WithUse(calls, use) == IdsOf(calls)
    ensures forall id | id in WithUse(calls, use) :: id.use == use
  {
    if calls != [] {
      WithoutIds(calls[1..], use);
      WithoutOne(calls[0], CallsWithout(calls[1..], use), WithUse(calls[1..], use), IdsOf(calls[1..]), use);
    }
  }

  lemma WithoutOne(call: Call, left: seq<Call>, gone: multiset<CallId>, all: multiset<CallId>, use: string)
    requires IdsOf(left) + gone == all
    ensures IdsOf((if call.use != use then [call] else []) + left)
            + ((if call.use == use then multiset{IdOf(call)} else multiset{}) + gone) == multiset{IdOf(call)} + all
  {
    if call.use != use {
      assert ([call] + left)[1..] == left;
    } else {
      assert [] + left == left;
    }
  }

  /** A delivery: the card of a call whose row nothing gives its place to. */
  predicate Delivers(v: View, item: Item) {
    item.RowItem? && item.role == Sent && PlaceOf(v.window, item) == |v.window|
  }

  /** The calls a delivery takes out of the window. */
  function Delivered(v: View, item: Item): multiset<CallId> {
    if Delivers(v, item) then TakenOut(v.window, HolderOf(v.window, item.use), item.use) else multiset{}
  }

  /** The call an item brings. */
  function Brought(v: View, item: Item): multiset<CallId> {
    if item.ToolItem? && Readable(RunTail(v.window))
    then multiset{CallId(item.name, item.use, item.pos, item.index)}
    else multiset{}
  }

  /** The calls taken out of the row that holds a call. */
  function TakenOut(rows: seq<Row>, i: nat, use: string): multiset<CallId> {
    if use != "" && i < |rows| && rows[i].Group? then WithUse(rows[i].calls, use) else multiset{}
  }

  lemma DropIds(v: View, use: string)
    ensures Ids(DropCall(v, use).window) + TakenOut(v.window, HolderOf(v.window, use), use) == Ids(v.window)
  {
    if use != "" {
      DropCallIs(v, use, HolderOf(v.window, use));
      DropFoundIds(v, HolderOf(v.window, use), use);
    }
  }

  lemma DropFoundIds(v: View, i: nat, use: string)
    requires i <= |v.window| && use != ""
    ensures Ids(DropIn(v, i, use).window) + TakenOut(v.window, i, use)
         == Ids(v.window)
  {
    if i < |v.window| {
      if v.window[i].Group? {
        DropAtIds(v, i, use);
        assert DropFound(v, i, use) == DropAt(v, i, use);
      }
    } else {
      assert DropFromKnown(v, use).window == v.window;
    }
  }

  lemma DropAtIds(v: View, i: nat, use: string)
    requires i < |v.window| && v.window[i].Group?
    ensures Ids(DropAt(v, i, use).window) + WithUse(v.window[i].calls, use) == Ids(v.window)
  {
    var row := v.window[i];
    var calls := CallsWithout(row.calls, use);
    WithoutIds(row.calls, use);
    if calls == [] {
      assert IdsOf(calls) + WithUse(row.calls, use) == WithUse(row.calls, use);
      IdsLess(v.window, i);
    } else {
      IdsPut(v.window, i, row.(calls := calls), multiset{}, WithUse(row.calls, use));
    }
  }

  lemma DropTaskIds(v: View, use: string)
    ensures Ids(DropTask(v, use).window) == Ids(v.window)
  {
    var i := TaskOf(v.window, use);
    if i < |v.window| {
      IdsLess(v.window, i);
    }
  }

  lemma RowKeepsIds(v: View, item: Item)
    requires item.RowItem? && PlaceOf(v.window, item) == |v.window|
    ensures Ids(KeepRow(v, item).window) + Delivered(v, item) == Ids(v.window)
  {
    var a := if item.role == Sent then DropCall(v, item.use) else v;
    if item.role == Sent {
      DropIds(v, item.use);
    }
    RowJoins(a, item, KeepRow(v, item));
  }

  lemma RowJoins(a: View, item: Item, now: View)
    requires item.RowItem?
    requires var b := if item.role == TaskDone then DropTask(a, item.use) else a;
             now == if item.role == Mail && HasLetter(b.window, item) then b else Append(b, RowOf(item, item.fixes))
    ensures Ids(now.window) == Ids(a.window)
  {
    DropTaskIds(a, item.use);
    var b := if item.role == TaskDone then DropTask(a, item.use) else a;
    IdsAppend(b.window, RowOf(item, item.fixes));
  }

  lemma ToolBringsOne(v: View, item: Item)
    requires item.ToolItem?
    ensures Ids(KeepTool(v, item).window) == Ids(v.window) + Brought(v, item)
  {
    var groups := RunTail(v.window);
    if Readable(groups) {
      ToolAtBrings(v, item, groups, KindAt(v.window, TailStart(v.window), item.kind));
    }
  }

  lemma ToolAtBrings(v: View, item: Item, groups: seq<Row>, i: nat)
    requires item.ToolItem? && i <= |v.window| && (i < |v.window| ==> v.window[i].Group?)
    ensures Ids(ToolAt(v, item, groups, i).window) == Ids(v.window) + multiset{CallId(item.name, item.use, item.pos, item.index)}
  {
    var call := CallOf(item, groups);
    if i < |v.window| {
      IdsOfMore(v.window[i].calls, call);
      IdsPut(v.window, i, v.window[i].(calls := v.window[i].calls + [call]), multiset{IdOf(call)}, multiset{});
    } else {
      IdsOfMore([], call);
      assert [] + [call] == [call];
      IdsAppend(v.window, Group(item.pos, item.kind, RunOf(groups, item.pos), [call]));
    }
  }

  lemma ThinkKeepsIds(v: View, item: Item)
    requires item.ThinkItem?
    ensures Ids(KeepThink(v, item).window) == Ids(v.window)
  {
    var groups := RunTail(v.window);
    if Readable(groups) {
      var i := ThoughtsAt(v.window, TailStart(v.window));
      var now := ThinkAt(v, item, groups, i).window;
      if i < |v.window| {
        IdsSame(v.window, i, now[i]);
      } else {
        IdsAppend(v.window, now[|v.window|]);
      }
    }
  }

  lemma SettleKeepsIds(v: View, mark: Item)
    requires mark.Mark?
    ensures Ids(Settle(v, mark).window) == Ids(v.window)
  {
    var i := HolderOf(v.window, mark.use);
    if mark.use != "" && i < |v.window| {
      if v.window[i].Group? {
        MarkedIds(v.window[i].calls, mark);
      }
      IdsSame(v.window, i, MarkedRow(v.window[i], mark));
    }
  }

  /** An item brings its call into one group and takes out the calls it delivers; every other call of the window stays,
      whatever is settled or redrawn. */
  lemma CallsAreKept(v: View, item: Item, after: Option<nat>)
    ensures Ids(Keep(v, item, after).window) + Delivered(v, item) == Ids(v.window) + Brought(v, item)
    ensures forall id | id in Delivered(v, item) :: id.use == item.use
  {
    if Delivered(v, item) != multiset{} {
      WithoutIds(v.window[HolderOf(v.window, item.use)].calls, item.use);
    }
    if item.Mark? {
      SettleKeepsIds(v, item);
    } else {
      var i := PlaceOf(v.window, item);
      if i < |v.window| {
        RedrawKeepsIds(v, i, item, after);
      } else if item.ToolItem? {
        ToolBringsOne(v, item);
      } else if item.ThinkItem? {
        ThinkKeepsIds(v, item);
      } else {
        RowKeepsIds(v, item);
      }
    }
  }

  lemma RedrawKeepsIds(v: View, i: nat, item: Item, after: Option<nat>)
    requires i < |v.window| && !item.Mark? && Replaces(item, v.window[i])
    ensures Ids(Redraw(v, i, item, after).window) == Ids(v.window)
  {
    IdsSame(v.window, i, Redrawn(item, after));
  }

  /** How many thoughts a row stands for, and how many tokens they took. */
  function CountOf(row: Row): int {
    if row.Thoughts? then row.count else 0
  }

  function TokensOf(row: Row): int {
    if row.Thoughts? then row.tokens else 0
  }

  /** A measure of rows, over a whole window. */
  function Sum(rows: seq<Row>, of: Row -> int): int {
    if rows == [] then 0 else Sum(rows[..|rows| - 1], of) + of(rows[|rows| - 1])
  }

  lemma SumStep(rows: seq<Row>, rest: seq<Row>, last: Row, of: Row -> int)
    requires rows != [] && rest == rows[..|rows| - 1] && last == rows[|rows| - 1]
    ensures Sum(rows, of) == Sum(rest, of) + of(last)
  {
  }

  /** A row put in the place of another changes the whole by what the two differ. */
  lemma {:induction false} SumPut(rows: seq<Row>, i: nat, row: Row, of: Row -> int)
    requires i < |rows|
    ensures Sum(rows[i := row], of) == Sum(rows, of) - of(rows[i]) + of(row)
  {
    var n := |rows| - 1;
    var rest := rows[..n];
    SumStep(rows, rest, rows[n], of);
    if i < n {
      SumPut(rest, i, row, of);
      SumStep(rows[i := row], rest[i := row], rows[n], of);
    } else {
      SumStep(rows[i := row], rest, row, of);
    }
  }

  /** A thought adds its count and its tokens to the thoughts of the window. */
  lemma ThoughtAdds(v: View, item: Item)
    requires item.ThinkItem? && Readable(RunTail(v.window))
    ensures Sum(KeepThink(v, item).window, CountOf) == Sum(v.window, CountOf) + item.count
    ensures Sum(KeepThink(v, item).window, TokensOf) == Sum(v.window, TokensOf) + item.tokens
  {
    var groups, i := RunTail(v.window), ThoughtsAt(v.window, TailStart(v.window));
    var now := ThinkAt(v, item, groups, i).window;
    if i < |v.window| {
      SumPut(v.window, i, now[i], CountOf);
      SumPut(v.window, i, now[i], TokensOf);
    } else {
      SumStep(now, v.window, now[|v.window|], CountOf);
      SumStep(now, v.window, now[|v.window|], TokensOf);
    }
  }

  /** Every item of a list brings its call. */
  function BroughtAll(v: View, items: seq<Item>, after: Option<nat>): multiset<CallId> {
    if items == [] then multiset{}
    else BroughtAll(v, items[..|items| - 1], after) + Brought(KeepAll(v, items[..|items| - 1], after), items[|items| - 1])
  }

  function DeliveredAll(v: View, items: seq<Item>, after: Option<nat>): multiset<CallId> {
    if items == [] then multiset{}
    else DeliveredAll(v, items[..|items| - 1], after) + Delivered(KeepAll(v, items[..|items| - 1], after), items[|items| - 1])
  }

  /** The calls of a window and those delivered out of it are the calls there were and those brought. */
  lemma {:induction false} AllCallsAreKept(v: View, items: seq<Item>, after: Option<nat>)
    ensures Ids(KeepAll(v, items, after).window) + DeliveredAll(v, items, after) == Ids(v.window) + BroughtAll(v, items, after)
  {
    if items != [] {
      var rest := items[..|items| - 1];
      AllCallsAreKept(v, rest, after);
      var was := KeepAll(v, rest, after);
      CallsAreKept(was, items[|items| - 1], after);
      Chain(Ids(KeepAll(v, items, after).window), Delivered(was, items[|items| - 1]), Ids(was.window), Brought(was, items[|items| - 1]),
            DeliveredAll(v, rest, after), Ids(v.window), BroughtAll(v, rest, after));
    }
  }

  lemma Chain(now: multiset<CallId>, gone: multiset<CallId>, was: multiset<CallId>, come: multiset<CallId>,
              goneBefore: multiset<CallId>, first: multiset<CallId>, comeBefore: multiset<CallId>)
    requires now + gone == was + come && was + goneBefore == first + comeBefore
    ensures now + (goneBefore + gone) == first + (comeBefore + come)
  {
    assert now + (goneBefore + gone) == (now + gone) + goneBefore;
    assert (was + come) + goneBefore == (was + goneBefore) + come;
    assert (first + comeBefore) + come == first + (comeBefore + come);
  }
}
