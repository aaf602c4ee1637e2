/** A window after a position: what the reader has is folded too, and goes out again where a later record changed it. */
module FeedAfter {
  import opened Options
  import opened FeedRows
  import opened FeedRuns
  import opened FeedWindow

  /** A fold under way: whether it has come past the position, and whether its page is full. */
  datatype Reading = Reading(view: View, crossed: bool, done: bool)

  const START := Reading(EMPTY, false, false)

  function HandOver(rows: seq<Row>): (known: seq<Known>)
    ensures |known| == |rows| && forall i | 0 <= i < |rows| :: known[i] == Known(rows[i], rows[i], false)
  {
    seq(|rows|, i requires 0 <= i < |rows| => Known(rows[i], rows[i], false))
  }

  /** The rows folded so far become the ones the reader has, and a new window opens. */
  function Cross(v: View): View {
    v.(window := [], known := HandOver(v.window), total := 0)
  }

  function ReadRecord(r: Reading, rec: Rec, limit: nat, after: nat): Reading {
    if r.done then r
    else if rec.pos <= after then r.(view := Trim(KeepAll(r.view, rec.items, Some(after)), limit))
    else
      var v := KeepAll(if r.crossed then r.view else Cross(r.view), rec.items, Some(after));
      Reading(v, true, |v.window| >= limit)
  }

  function ReadAll(recs: seq<Rec>, limit: nat, after: nat): Reading {
    if recs == [] then START
    else ReadRecord(ReadAll(recs[..|recs| - 1], limit, after), recs[|recs| - 1], limit, after)
  }

  function Finished(r: Reading): View {
    if r.crossed then r.view else Cross(r.view)
  }

  /** The rows the reader has that are handed out again. */
  function Again(known: seq<Known>): seq<Row> {
    if known == [] then []
    else Again(known[..|known| - 1]) + if known[|known| - 1].touched then [known[|known| - 1].row] else []
  }

  /** The page after a position: the known rows to draw again, then the new ones. */
  function PageAfter(recs: seq<Rec>, limit: nat, after: nat): seq<Row> {
    var v := Finished(ReadAll(recs, limit, after));
    Again(v.known) + v.window
  }

  /** A row under its place and role. */
  ghost predicate SameSpot(a: Row, b: Row) {
    && a.pos == b.pos && NthOf(a) == NthOf(b)
    && (a.Group? <==> b.Group?) && (a.Thoughts? <==> b.Thoughts?) && (a.RawThought? <==> b.RawThought?)
    && (a.Plain? && b.Plain? ==> a.role == b.role)
    && (a.Group? && b.Group? ==> a.kind == b.kind && a.run == b.run)
  }

  /** The known rows are, in order, rows that were handed out; one not touched since is still as it was then. */
  ghost predicate Traced(handed: seq<Row>, known: seq<Known>, at: seq<nat>) {
    && |at| == |known|
    && (forall i, j | 0 <= i < j < |at| :: at[i] < at[j])
    && (forall i | 0 <= i < |at| :: at[i] < |handed| && known[i].was == handed[at[i]])
    && (forall i | 0 <= i < |known| :: SameSpot(known[i].row, known[i].was))
    && (forall i | 0 <= i < |known| :: !known[i].touched ==> known[i].row == known[i].was)
  }

  /** A call whatever became of it. */
  function Bare(c: Call): Call {
    c.(status := Status(false, false, [], ""))
  }

  ghost predicate Among(c: Call, calls: seq<Call>) {
    exists d :: d in calls && Bare(d) == Bare(c)
  }

  /** The calls left of a group are calls it had, and all of those but calls delivered since. */
  ghost predicate CallsLeft(was: seq<Call>, left: seq<Call>, sent: set<string>) {
    && (forall c | c in left :: Among(c, was))
    && (forall c | c in was :: Among(c, left) || c.use in sent)
  }

  ghost predicate RowLeft(was: Row, row: Row, sent: set<string>) {
    was.Group? ==> row.Group? && CallsLeft(was.calls, row.calls, sent)
  }

  /** A row the reader has that is known no longer was a group of calls every one of which was delivered since; of a
      group still known, only calls delivered since are gone. */
  ghost predicate Left(handed: seq<Row>, known: seq<Known>, at: seq<nat>, sent: set<string>) {
    && (forall i | 0 <= i < |handed| && i !in at :: handed[i].Group? && forall c | c in handed[i].calls :: c.use in sent)
    && (forall i | 0 <= i < |known| :: RowLeft(known[i].was, known[i].row, sent))
  }

  /** The calls an item delivers. */
  function SentBy(item: Item): set<string> {
    if item.RowItem? && item.role == Sent && item.use != "" then {item.use} else {}
  }

  function SentIn(items: seq<Item>): set<string> {
    if items == [] then {} else SentIn(items[..|items| - 1]) + SentBy(items[|items| - 1])
  }

  lemma FewerLeft(was: seq<Call>, calls: seq<Call>, fewer: seq<Call>, sent: set<string>, more: set<string>)
    requires CallsLeft(was, calls, sent) && CallsLeft(calls, fewer, more)
    ensures CallsLeft(was, fewer, sent + more)
  {
    forall c | c in fewer
      ensures Among(c, was)
    {
      var d :| d in calls && Bare(d) == Bare(c);
      assert Among(d, was);
    }
    forall c | c in was
      ensures Among(c, fewer) || c.use in sent + more
    {
      if Among(c, calls) {
        var d :| d in calls && Bare(d) == Bare(c);
        assert c.use == Bare(d).use == d.use;
        assert Among(d, fewer) || d.use in more;
      }
    }
  }

  lemma TouchKeeps(handed: seq<Row>, known: seq<Known>, at: seq<nat>, k: nat, row: Row, sent: set<string>, more: set<string>)
    requires Traced(handed, known, at) && Left(handed, known, at, sent) && k < |known|
    requires SameSpot(row, known[k].row) && RowLeft(known[k].row, row, more)
    ensures var known' := known[k := known[k].(row := row, touched := true)];
            Traced(handed, known', at) && Left(handed, known', at, sent + more)
  {
    if known[k].was.Group? {
      FewerLeft(known[k].was.calls, known[k].row.calls, row.calls, sent, more);
    }
  }

  lemma LeaveKeeps(handed: seq<Row>, known: seq<Known>, at: seq<nat>, k: nat, sent: set<string>, more: set<string>)
    requires Traced(handed, known, at) && Left(handed, known, at, sent) && k < |known| && known[k].row.Group?
    requires CallsLeft(known[k].row.calls, [], more)
    ensures Traced(handed, Without(known, k), Without(at, k)) && Left(handed, Without(known, k), Without(at, k), sent + more)
  {
    WithoutAt(known, k);
    WithoutAt(at, k);
    assert SameSpot(known[k].row, known[k].was);
    FewerLeft(known[k].was.calls, known[k].row.calls, [], sent, more);
    WithoutLeft(handed, known, at, k, sent, more);
  }

  lemma WithoutAt<T>(s: seq<T>, k: nat)
    requires k < |s|
    ensures forall i | 0 <= i < |s| - 1 :: Without(s, k)[i] == s[if i < k then i else i + 1]
    ensures forall x | x in s && x != s[k] :: x in Without(s, k)
  {
    forall x | x in s && x != s[k]
      ensures x in Without(s, k)
    {
      var n :| 0 <= n < |s| && s[n] == x;
      assert Without(s, k)[if n < k then n else n - 1] == x;
    }
  }

  lemma WithoutLeft(handed: seq<Row>, known: seq<Known>, at: seq<nat>, k: nat, sent: set<string>, more: set<string>)
    requires Left(handed, known, at, sent) && k < |known| == |at| && at[k] < |handed| && handed[at[k]].Group?
    requires forall c | c in handed[at[k]].calls :: c.use in sent + more
    ensures Left(handed, Without(known, k), Without(at, k), sent + more)
  {
    WithoutAt(known, k);
    WithoutAt(at, k);
    forall i | 0 <= i < |handed| && i !in Without(at, k)
      ensures handed[i].Group? && forall c | c in handed[i].calls :: c.use in sent + more
    {
      assert i == at[k] || i !in at;
    }
  }

  lemma {:induction false} MarkedAreTheCalls(calls: seq<Call>, mark: Item)
    requires mark.Mark?
    ensures |MarkedCalls(calls, mark)| == |calls|
    ensures forall i | 0 <= i < |calls| :: Bare(MarkedCalls(calls, mark)[i]) == Bare(calls[i])
  {
    if calls != [] {
      MarkedAreTheCalls(calls[1..], mark);
    }
  }

  /** A mark takes no call from the row it touches. */
  lemma MarkedAreLeft(calls: seq<Call>, mark: Item)
    requires mark.Mark?
    ensures CallsLeft(calls, MarkedCalls(calls, mark), {})
  {
    var marked := MarkedCalls(calls, mark);
    MarkedAreTheCalls(calls, mark);
    forall c | c in calls
      ensures Among(c, marked)
    {
      var i :| 0 <= i < |calls| && calls[i] == c;
      assert marked[i] in marked;
    }
    forall c | c in marked
      ensures Among(c, calls)
    {
      var i :| 0 <= i < |marked| && marked[i] == c;
      assert calls[i] in calls;
    }
  }

  lemma MarkKeeps(handed: seq<Row>, known: seq<Known>, at: seq<nat>, k: nat, row: Row, sent: set<string>)
    requires Traced(handed, known, at) && Left(handed, known, at, sent) && k < |known|
    requires SameSpot(row, known[k].row) && RowLeft(known[k].row, row, {})
    ensures var known' := known[k := known[k].(row := row, touched := true)];
            Traced(handed, known', at) && Left(handed, known', at, sent)
  {
    assert sent + {} == sent;
    TouchKeeps(handed, known, at, k, row, sent, {});
  }

  lemma MarkedRowIs(row: Row, mark: Item)
    requires mark.Mark? && HoldsCall(row, mark.use)
    ensures SameSpot(MarkedRow(row, mark), row) && RowLeft(row, MarkedRow(row, mark), {})
  {
    if row.Group? {
      MarkedAreLeft(row.calls, mark);
    }
  }

  lemma SettleKnownKeeps(handed: seq<Row>, v: View, mark: Item, at: seq<nat>, sent: set<string>)
    requires mark.Mark? && Traced(handed, v.known, at) && Left(handed, v.known, at, sent)
    ensures Traced(handed, Settle(v, mark).known, at) && Left(handed, Settle(v, mark).known, at, sent)
  {
    var k := HolderOf(RowsOf(v.known), mark.use);
    if mark.use != "" && HolderOf(v.window, mark.use) == |v.window| && k < |v.known| {
      MarkedRowIs(v.known[k].row, mark);
      MarkKeeps(handed, v.known, at, k, MarkedRow(v.known[k].row, mark), sent);
    }
  }

  lemma DropKnownKeeps(handed: seq<Row>, v: View, use: string, at: seq<nat>, sent: set<string>) returns (at': seq<nat>)
    requires Traced(handed, v.known, at) && Left(handed, v.known, at, sent)
    ensures Traced(handed, DropFromKnown(v, use).known, at') && Left(handed, DropFromKnown(v, use).known, at', sent + {use})
  {
    at' := at;
    var k := HolderOf(RowsOf(v.known), use);
    if k < |v.known| && v.known[k].row.Group? {
      var row := v.known[k].row;
      var calls := CallsWithout(row.calls, use);
      WithoutAreLeft(row.calls, use);
      if calls != [] {
        TouchKeeps(handed, v.known, at, k, row.(calls := calls), sent, {use});
      } else {
        LeaveKeeps(handed, v.known, at, k, sent, {use});
        at' := Without(at, k);
      }
    } else {
      LeftGrows(handed, v.known, at, sent, {use});
    }
  }

  lemma WithoutAreLeft(calls: seq<Call>, use: string)
    ensures CallsLeft(calls, CallsWithout(calls, use), {use})
  {
    forall c | c in CallsWithout(calls, use)
      ensures Among(c, calls)
    {
      assert c in calls;
    }
    forall c | c in calls && c.use != use
      ensures Among(c, CallsWithout(calls, use))
    {
      assert c in CallsWithout(calls, use);
    }
  }

  lemma LeftGrows(handed: seq<Row>, known: seq<Known>, at: seq<nat>, sent: set<string>, more: set<string>)
    requires Left(handed, known, at, sent)
    ensures Left(handed, known, at, sent + more)
  {
    forall i | 0 <= i < |known|
      ensures RowLeft(known[i].was, known[i].row, sent + more)
    {
    }
  }

  lemma KeepKnown(handed: seq<Row>, v: View, item: Item, after: Option<nat>, at: seq<nat>, sent: set<string>) returns (at': seq<nat>)
    requires Traced(handed, v.known, at) && Left(handed, v.known, at, sent)
    ensures Traced(handed, Keep(v, item, after).known, at') && Left(handed, Keep(v, item, after).known, at', sent + SentBy(item))
  {
    at' := at;
    LeftGrows(handed, v.known, at, sent, SentBy(item));
    if item.Mark? {
      SettleKnownKeeps(handed, v, item, at, sent);
      assert sent + SentBy(item) == sent;
    } else if PlaceOf(v.window, item) == |v.window| && item.RowItem? {
      at' := KeepRowKnown(handed, v, item, at, sent);
    }
  }

  lemma KeepRowKnown(handed: seq<Row>, v: View, item: Item, at: seq<nat>, sent: set<string>) returns (at': seq<nat>)
    requires item.RowItem? && Traced(handed, v.known, at) && Left(handed, v.known, at, sent)
    ensures Traced(handed, KeepRow(v, item).known, at') && Left(handed, KeepRow(v, item).known, at', sent + SentBy(item))
  {
    at' := at;
    LeftGrows(handed, v.known, at, sent, SentBy(item));
    if item.role == Sent && item.use != "" && HolderOf(v.window, item.use) == |v.window| {
      at' := DropKnownKeeps(handed, v, item.use, at, sent);
    }
  }

  lemma {:induction false} KeepAllKnown(handed: seq<Row>, v: View, items: seq<Item>, after: Option<nat>, at: seq<nat>, sent: set<string>)
    returns (at': seq<nat>)
    requires Traced(handed, v.known, at) && Left(handed, v.known, at, sent)
    ensures Traced(handed, KeepAll(v, items, after).known, at')
    ensures Left(handed, KeepAll(v, items, after).known, at', sent + SentIn(items))
  {
    if items == [] {
      at' := at;
      assert sent + SentIn(items) == sent;
    } else {
      var rest, item := items[..|items| - 1], items[|items| - 1];
      var mid := KeepAllKnown(handed, v, rest, after, at, sent);
      at' := KeepKnown(handed, KeepAll(v, rest, after), item, after, mid, sent + SentIn(rest));
      assert sent + SentIn(items) == sent + SentIn(rest) + SentBy(item);
    }
  }

  /** The rows the reader has: what the fold held when it came past the position. */
  function HandedOut(recs: seq<Rec>, limit: nat, after: nat): seq<Row> {
    if recs == [] then []
    else
      var was := ReadAll(recs[..|recs| - 1], limit, after);
      if was.crossed || was.done then HandedOut(recs[..|recs| - 1], limit, after)
      else if recs[|recs| - 1].pos > after then was.view.window
      else ReadRecord(was, recs[|recs| - 1], limit, after).view.window
  }

  /** The calls delivered by the records the page reads since it came past the position. */
  function SentSince(recs: seq<Rec>, limit: nat, after: nat): set<string> {
    if recs == [] then {}
    else
      var rest, rec := recs[..|recs| - 1], recs[|recs| - 1];
      var was := ReadAll(rest, limit, after);
      SentSince(rest, limit, after) + if !was.done && (was.crossed || rec.pos > after) then SentIn(rec.items) else {}
  }

  lemma {:induction false} SentInIs(items: seq<Item>, use: string)
    ensures use in SentIn(items) <==> exists n :: 0 <= n < |items| && use in SentBy(items[n])
  {
    if items != [] {
      var rest := items[..|items| - 1];
      SentInIs(rest, use);
      if n :| 0 <= n < |rest| && use in SentBy(rest[n]) {
        assert use in SentBy(items[n]);
      }
    }
  }

  /** A record past the position delivers the call, and the page was not full when it came. */
  ghost predicate SendsAt(recs: seq<Rec>, limit: nat, after: nat, use: string, i: nat) {
    i < |recs| && recs[i].pos > after && !ReadAll(recs[..i], limit, after).done && use in SentIn(recs[i].items)
  }

  ghost predicate Sends(recs: seq<Rec>, limit: nat, after: nat, use: string) {
    exists i: nat :: SendsAt(recs, limit, after, use, i)
  }

  lemma SendsNext(recs: seq<Rec>, limit: nat, after: nat, use: string)
    requires recs != []
    ensures var n := |recs| - 1;
            Sends(recs, limit, after, use) <==> Sends(recs[..n], limit, after, use) || SendsAt(recs, limit, after, use, n)
  {
    var n := |recs| - 1;
    forall i: nat | i < n
      ensures SendsAt(recs, limit, after, use, i) <==> SendsAt(recs[..n], limit, after, use, i)
    {
      assert recs[..n][..i] == recs[..i];
    }
    if i: nat :| SendsAt(recs[..n], limit, after, use, i) {
      assert SendsAt(recs, limit, after, use, i);
    }
    if i: nat :| SendsAt(recs, limit, after, use, i) && i != n {
      assert SendsAt(recs[..n], limit, after, use, i);
    }
  }

  /** Positions never fall. */
  ghost predicate Ordered(recs: seq<Rec>) {
    forall i, j | 0 <= i < j < |recs| :: recs[i].pos <= recs[j].pos
  }

  lemma {:induction false} CrossedIsPast(recs: seq<Rec>, limit: nat, after: nat)
    requires Ordered(recs)
    ensures ReadAll(recs, limit, after).crossed ==> recs != [] && recs[|recs| - 1].pos > after
  {
    if recs != [] {
      CrossedIsPast(recs[..|recs| - 1], limit, after);
    }
  }

  /** In a feed whose positions never fall, they are the calls that records past the position deliver. */
  lemma {:induction false} SentSinceIs(recs: seq<Rec>, limit: nat, after: nat, use: string)
    requires Ordered(recs)
    ensures use in SentSince(recs, limit, after) <==> Sends(recs, limit, after, use)
  {
    if recs != [] {
      SentSinceIs(recs[..|recs| - 1], limit, after, use);
      SendsNext(recs, limit, after, use);
      CrossedIsPast(recs[..|recs| - 1], limit, after);
    }
  }

  lemma HandOverTraced(v: View) returns (at: seq<nat>)
    ensures Traced(v.window, Cross(v).known, at) && Left(v.window, Cross(v).known, at, {})
  {
    at := seq(|v.window|, i => i);
    forall i | 0 <= i < |v.window|
      ensures i in at
    {
      assert at[i] == i;
    }
    forall i, c | 0 <= i < |v.window| && v.window[i].Group? && c in v.window[i].calls
      ensures Among(c, v.window[i].calls)
    {
    }
  }

  lemma {:induction false} ReadingTraced(recs: seq<Rec>, limit: nat, after: nat) returns (at: seq<nat>)
    ensures var r := ReadAll(recs, limit, after);
            && (r.done ==> r.crossed)
            && (!r.crossed ==> HandedOut(recs, limit, after) == r.view.window && SentSince(recs, limit, after) == {})
            && Traced(HandedOut(recs, limit, after), Finished(r).known, at)
            && Left(HandedOut(recs, limit, after), Finished(r).known, at, SentSince(recs, limit, after))
  {
    if recs == [] {
      at := HandOverTraced(EMPTY);
    } else {
      var rest, rec := recs[..|recs| - 1], recs[|recs| - 1];
      var was := ReadAll(rest, limit, after);
      at := ReadingTraced(rest, limit, after);
      if was.done {
        assert SentSince(recs, limit, after) == SentSince(rest, limit, after);
      } else if was.crossed || rec.pos > after {
        at := KeepAllKnown(HandedOut(recs, limit, after), Finished(was), rec.items, Some(after), at, SentSince(rest, limit, after));
      } else {
        at := HandOverTraced(ReadRecord(was, rec, limit, after).view);
      }
    }
  }

  /** Where rows handed out again stand among the known ones: once each, in feed order, all that were touched. */
  ghost predicate AgainAt(known: seq<Known>, rows: seq<Row>, from: seq<nat>) {
    && |from| == |rows|
    && (forall i, j | 0 <= i < j < |from| :: from[i] < from[j])
    && (forall i | 0 <= i < |from| :: from[i] < |known| && known[from[i]].touched && rows[i] == known[from[i]].row)
    && (forall k | 0 <= k < |known| && known[k].touched :: k in from)
  }

  lemma {:induction false} AgainIsInOrder(known: seq<Known>) returns (from: seq<nat>)
    ensures AgainAt(known, Again(known), from)
  {
    from := [];
    if known != [] {
      var n := |known| - 1;
      from := AgainIsInOrder(known[..n]);
      AgainNext(known, Again(known[..n]), from);
      if known[n].touched {
        from := from + [n];
      }
    }
  }

  /** One known row more. */
  lemma AgainNext(known: seq<Known>, rows: seq<Row>, from: seq<nat>)
    requires known != [] && AgainAt(known[..|known| - 1], rows, from)
    ensures var n := |known| - 1;
            if known[n].touched then AgainAt(known, rows + [known[n].row], from + [n]) else AgainAt(known, rows + [], from)
  {
    var n := |known| - 1;
    forall k | 0 <= k < n && known[k].touched
      ensures k in from
    {
      assert known[..n][k] == known[k];
    }
    forall i | 0 <= i < |from|
      ensures known[from[i]].touched && rows[i] == known[from[i]].row
    {
      assert known[..n][from[i]] == known[from[i]];
    }
    assert rows + [] == rows;
  }

  /** No change to a row the reader has goes unsent. Of the rows handed out before, every one still known that a
      later record altered is at the head of the page as it is now, under its own place, once, in feed order;
      every other one still known is as the reader has it; one no longer known was a group whose calls were all
      delivered since; and a group still known has every call it had but calls delivered since. */
  lemma NoChangeGoesUnsent(recs: seq<Rec>, limit: nat, after: nat) returns (at: seq<nat>, from: seq<nat>)
    ensures var handed, v := HandedOut(recs, limit, after), Finished(ReadAll(recs, limit, after));
      && PageAfter(recs, limit, after) == Again(v.known) + v.window
      && |at| == |v.known| && |from| == |Again(v.known)|
      && (forall i, j | 0 <= i < j < |at| :: at[i] < at[j])
      && (forall i, j | 0 <= i < j < |from| :: from[i] < from[j])
      && (forall i | 0 <= i < |at| :: at[i] < |handed| && SameSpot(v.known[i].row, handed[at[i]]))
      && (forall i | 0 <= i < |from| :: from[i] < |at| && Again(v.known)[i] == v.known[from[i]].row)
      && (forall i | 0 <= i < |at| && v.known[i].row != handed[at[i]] :: i in from)
      && (forall i | 0 <= i < |handed| && i !in at ::
            handed[i].Group? && forall c | c in handed[i].calls :: c.use in SentSince(recs, limit, after))
      && (forall i | 0 <= i < |at| && handed[at[i]].Group? ::
            v.known[i].row.Group? && CallsLeft(handed[at[i]].calls, v.known[i].row.calls, SentSince(recs, limit, after)))
  {
    at := ReadingTraced(recs, limit, after);
    from := AgainIsInOrder(Finished(ReadAll(recs, limit, after)).known);
  }

  /** Every item that reaches the window leaves its runs well formed, in whatever state it comes. */
  ghost predicate SteadyAll(v: View, items: seq<Item>, after: Option<nat>) {
    items != [] ==>
      var rest := items[..|items| - 1];
      SteadyAll(v, rest, after) && Steady(KeepAll(v, rest, after).window, items[|items| - 1])
  }

  lemma {:induction false} KeepAllRuns(v: View, items: seq<Item>, after: Option<nat>)
    requires WellRun(v.window) && SteadyAll(v, items, after)
    ensures WellRun(KeepAll(v, items, after).window)
  {
    if items != [] {
      var rest := items[..|items| - 1];
      KeepAllRuns(v, rest, after);
      KeepRuns(KeepAll(v, rest, after), items[|items| - 1], after);
    }
  }

  /** A record leaves runs well formed, and so does letting the head go. */
  lemma RecordRuns(v: View, items: seq<Item>, limit: nat, after: Option<nat>)
    requires WellRun(v.window) && SteadyAll(v, items, after)
    ensures WellRun(Trim(KeepAll(v, items, after), limit).window)
  {
    KeepAllRuns(v, items, after);
    TrimRuns(KeepAll(v, items, after), limit);
  }

  lemma TrimRuns(v: View, limit: nat)
    requires WellRun(v.window)
    ensures WellRun(Trim(v, limit).window)
  {
    if |v.window| > limit {
      SuffixKeeps(v.window, |v.window| - limit);
    }
  }

  ghost predicate AllSteady(recs: seq<Rec>, limit: nat, after: Option<nat>) {
    recs != [] ==>
      var rest := recs[..|recs| - 1];
      AllSteady(rest, limit, after) && SteadyAll(Fold(EMPTY, rest, limit, after), recs[|recs| - 1].items, after)
  }

  /** Runs stay well formed through a whole fold, its trimming included. */
  lemma {:induction false} RunsStayWellFormed(recs: seq<Rec>, limit: nat, after: Option<nat>)
    requires AllSteady(recs, limit, after)
    ensures WellRun(Fold(EMPTY, recs, limit, after).window)
  {
    if recs != [] {
      var n := |recs| - 1;
      RunsStayWellFormed(recs[..n], limit, after);
      RecordRuns(Fold(EMPTY, recs[..n], limit, after), recs[n].items, limit, after);
    }
  }
}
