/** The limit of a window loses nothing that is asked for, and a piece of a conversation gives the page of the whole. */
module FeedPages {
  import opened Options
  import opened FeedRows
  import opened FeedRuns
  import opened FeedWindow

  /** The rows of an unbounded window a bounded one has let go of, and the ones it still has. */
  function Gone(rows: seq<Row>, limit: nat): seq<Row> {
    rows[..|rows| - |Last(rows, limit)|]
  }

  /** Every item finds what it looks for within the last `limit` rows, as they stood when its record began. */
  ghost predicate WithinReach(recs: seq<Rec>, limit: nat, after: Option<nat>) {
    recs == [] || (WithinReach(recs[..|recs| - 1], limit, after)
                   && RecordReaches(FoldAll(EMPTY, recs[..|recs| - 1], after), recs[|recs| - 1].items, limit, after))
  }

  ghost predicate RecordReaches(v: View, items: seq<Item>, limit: nat, after: Option<nat>) {
    LocalAll(Gone(v.window, limit), v.(window := Last(v.window, limit)), items, after)
  }

  lemma LastOfConcat<T>(a: seq<T>, b: seq<T>, limit: nat)
    ensures |b| >= limit ==> Last(a + b, limit) == Last(b, limit)
    ensures |b| < limit ==> Last(a + b, limit) == Last(a, limit - |b|) + b
  {
    if |a + b| > limit {
      if |b| >= limit {
        assert (a + b)[|a + b| - limit..] == b[|b| - limit..];
      } else {
        assert (a + b)[|a + b| - limit..] == a[|a| - (limit - |b|)..] + b;
      }
    }
  }

  /** The bounded fold against the one that lets nothing go. */
  ghost predicate Refines(bounded: View, whole: View, limit: nat) {
    && bounded.window == Last(whole.window, limit)
    && bounded.total == whole.total == |whole.window|
    && bounded.known == whole.known
    && bounded.raised == whole.raised
    && (bounded.more <==> |whole.window| > limit)
  }

  lemma RecordRefines(bounded: View, whole: View, items: seq<Item>, limit: nat, after: Option<nat>)
    requires Refines(bounded, whole, limit)
    requires RecordReaches(whole, items, limit, after)
    ensures Refines(Trim(KeepAll(bounded, items, after), limit), KeepAll(whole, items, after), limit)
  {
    var gone := Gone(whole.window, limit);
    var low := whole.(window := Last(whole.window, limit));
    assert gone + low.window == whole.window;
    KeepAllUnder(gone, low, whole, items, after, 0, whole.more);
    KeepAllAlone(low, bounded, items, after);
    KeepAllCounts(low, items, after);
    KeepAllCounts(whole, items, after);
    RefinesOn(whole, KeepAll(low, items, after), KeepAll(bounded, items, after), KeepAll(whole, items, after), bounded.more, limit);
  }

  /** What comes of the last rows alone, and of the whole fold: the bounded one is its end still. */
  lemma RefinesOn(was: View, now: View, bounded: View, whole: View, more: bool, limit: nat)
    requires bounded == now.(more := more) && whole == Under(Gone(was.window, limit), now, 0, was.more)
    requires |now.window| >= |Last(was.window, limit)| && whole.total == |whole.window| && (more <==> |was.window| > limit)
    requires now.total == whole.total
    ensures Refines(Trim(bounded, limit), whole, limit)
  {
    LastOfConcat(Gone(was.window, limit), now.window, limit);
  }

  lemma KeepAllAlone(low: View, x: View, items: seq<Item>, after: Option<nat>)
    requires x == low.(more := x.more)
    ensures KeepAll(x, items, after) == KeepAll(low, items, after).(more := x.more)
  {
    NothingAbove(low, items, after);
    UnderNothing(low, 0, x.more);
    KeepAllUnder([], low, x, items, after, 0, x.more);
    UnderNothing(KeepAll(low, items, after), 0, x.more);
  }

  lemma UnderNothing(v: View, more: int, cut: bool)
    ensures Under([], v, more, cut) == v.(total := v.total + more, more := cut)
  {
    assert [] + v.window == v.window;
  }

  lemma {:induction false} NothingAbove(v: View, items: seq<Item>, after: Option<nat>)
    ensures LocalAll([], v, items, after)
  {
    if items != [] {
      NothingAbove(v, items[..|items| - 1], after);
    }
  }

  /** When everything referred to lies within reach, the window at every record boundary is exactly the last
      `limit` rows of the fold that lets nothing go, and the total is how many rows that fold has. */
  lemma {:induction false} BoundedRefinesUnbounded(recs: seq<Rec>, limit: nat, after: Option<nat>)
    requires WithinReach(recs, limit, after)
    ensures Refines(Fold(EMPTY, recs, limit, after), FoldAll(EMPTY, recs, after), limit)
  {
    if recs != [] {
      var n := |recs| - 1;
      var rest := recs[..n];
      BoundedRefinesUnbounded(rest, limit, after);
      RecordRefines(Fold(EMPTY, rest, limit, after), FoldAll(EMPTY, rest, after), recs[n].items, limit, after);
    }
  }

  /** A fold counts in its total every row it still has and every row it let go; it says more came before
      exactly when it let one go. */
  lemma {:induction false} TotalsCount(recs: seq<Rec>, limit: nat, after: Option<nat>)
    ensures var v := Fold(EMPTY, recs, limit, after);
            |v.window| <= v.total && (v.more <==> |v.window| < v.total) && (|v.window| <= limit || recs == [])
            && (v.more ==> |v.window| == limit)
  {
    if recs != [] {
      TotalsCount(recs[..|recs| - 1], limit, after);
      KeepAllCounts(Fold(EMPTY, recs[..|recs| - 1], limit, after), recs[|recs| - 1].items, after);
    }
  }

  /** Until a piece has given `limit` rows of its own, its items find what they look for among those rows,
      and nothing of it among the rows above. */
  ghost predicate Own(above: seq<Row>, recs: seq<Rec>, limit: nat) {
    forall n | 0 <= n < |recs| && |FoldAll(EMPTY, recs[..n], None).window| < limit ::
      LocalAll(above, FoldAll(EMPTY, recs[..n], None), recs[n].items, None)
  }

  /** Two folds that share the rows of the records read since: before those are a window of their own,
      and once they are. */
  ghost predicate Joined(x: View, y: View, above: seq<Row>, beneath: seq<Row>, own: View, limit: nat) {
    && |own.window| < limit
    && x.window == Last(above + own.window, limit) && y.window == Last(beneath + own.window, limit)
    && x.known == y.known == own.known && x.raised == y.raised == own.raised
  }

  ghost predicate Same(x: View, y: View, limit: nat) {
    && x.window == y.window && |x.window| == limit
    && x.known == y.known && x.raised == y.raised
  }

  /** What a record does to a window depends on nothing the fold has counted so far. */
  lemma SameKeep(x: View, y: View, items: seq<Item>)
    requires x.window == y.window && x.known == y.known && x.raised == y.raised
    ensures var x', y' := KeepAll(x, items, None), KeepAll(y, items, None);
            && x'.window == y'.window && x'.known == y'.known && x'.raised == y'.raised
            && x'.total - x.total == y'.total - y.total == |x'.window| - |x.window| >= 0
  {
    UnderNothing(x, y.total - x.total, y.more);
    KeepAllAlongside(x, y, items, y.total - x.total, y.more);
    UnderNothing(KeepAll(x, items, None), y.total - x.total, y.more);
    KeepAllCounts(x, items, None);
  }

  lemma KeepAllAlongside(x: View, y: View, items: seq<Item>, more: int, cut: bool)
    requires y == Under([], x, more, cut)
    ensures KeepAll(y, items, None) == Under([], KeepAll(x, items, None), more, cut)
  {
    NothingAbove(x, items, None);
    KeepAllUnder([], x, y, items, None, more, cut);
  }

  /** A record read by two folds that agree already leaves them agreeing. */
  lemma RecordSame(x: View, y: View, items: seq<Item>, limit: nat)
    requires Same(x, y, limit)
    ensures Same(Trim(KeepAll(x, items, None), limit), Trim(KeepAll(y, items, None), limit), limit)
    ensures Trim(KeepAll(x, items, None), limit).total - x.total == Trim(KeepAll(y, items, None), limit).total - y.total >= 0
  {
    SameKeep(x, y, items);
  }

  lemma NotAbove(above: seq<Row>, n: nat, item: Item)
    requires n <= |above|
    ensures PlaceOf(above, item) == |above| ==> PlaceOf(above[n..], item) == |above| - n
    ensures item.RowItem? && !HasLetter(above, item) ==> !HasLetter(above[n..], item)
  {
    var part := above[n..];
    forall i | 0 <= i < |part|
      ensures part[i] == above[n + i]
    {
    }
    if item.RowItem? && HasLetter(part, item) {
      var i :| 0 <= i < |part| && SameLetter(part[i], item);
      assert SameLetter(above[n + i], item);
    }
    if PlaceOf(part, item) < |part| {
      assert Replaces(item, above[n + PlaceOf(part, item)]);
    }
  }

  lemma NotHeldAbove(above: seq<Row>, n: nat, use: string)
    requires n <= |above|
    ensures !Holds(above, use) ==> !Holds(above[n..], use)
    ensures TaskOf(above, use) == |above| ==> TaskOf(above[n..], use) == |above| - n
  {
    var part := above[n..];
    if Holds(part, use) {
      var i :| 0 <= i < |part| && HoldsCall(part[i], use);
      assert HoldsCall(above[n + i], use);
    }
    if TaskOf(part, use) < |part| {
      assert SameTask(above[n + TaskOf(part, use)], use);
    }
  }

  /** The items of a record are local to any lower part of the rows above. */
  lemma LocalBelow(above: seq<Row>, n: nat, v: View, item: Item)
    requires n <= |above| && Local(above, v, item)
    ensures Local(above[n..], v, item)
  {
    NotAbove(above, n, item);
    if item.Mark? || item.RowItem? {
      NotHeldAbove(above, n, item.use);
    } else if RunTail(above) == [] {
      GroupsOfTail(above, n);
    }
  }

  lemma GroupsOfTail(above: seq<Row>, n: nat)
    requires n <= |above| && RunTail(above) == []
    ensures RunTail(above[n..]) == []
  {
    var t := TailStart(above);
    NoGroups(above[t..]);
    forall i | t <= i < |above|
      ensures !IsGroup(above[i])
    {
      assert above[i] == above[t..][i - t];
    }
    TailBelow(above, n, t);
    AllPlain(above[n..][if t > n then t - n else 0..]);
  }

  lemma TailBelow(above: seq<Row>, n: nat, t: nat)
    requires n <= |above| && t == TailStart(above)
    ensures TailStart(above[n..]) == if t > n then t - n else 0
  {
    TailIsUnique(above[n..], if t > n then t - n else 0);
  }

  lemma {:induction false} AllPlain(rows: seq<Row>)
    requires forall i | 0 <= i < |rows| :: !IsGroup(rows[i])
    ensures Groups(rows) == []
  {
    if rows != [] {
      AllPlain(rows[..|rows| - 1]);
    }
  }

  lemma {:induction false} LocalAllBelow(above: seq<Row>, n: nat, v: View, items: seq<Item>)
    requires n <= |above| && LocalAll(above, v, items, None)
    ensures LocalAll(above[n..], v, items, None)
  {
    if items != [] {
      var rest := items[..|items| - 1];
      LocalAllBelow(above, n, v, rest);
      LocalBelow(above, n, KeepAll(v, rest, None), items[|items| - 1]);
    }
  }

  /** What one record makes of a window that holds a part of the rows above and all the rows of the piece. */
  lemma RecordOnOwn(above: seq<Row>, x: View, own: View, items: seq<Item>, limit: nat)
    requires x.window == Last(above + own.window, limit) && |own.window| < limit
    requires x.known == own.known && x.raised == own.raised
    requires LocalAll(above, own, items, None)
    ensures var now := KeepAll(own, items, None);
            var x' := Trim(KeepAll(x, items, None), limit);
            && x'.window == Last(above + now.window, limit)
            && x'.known == now.known && x'.raised == now.raised
            && x'.total - x.total == now.total - own.total == |now.window| - |own.window| >= 0
  {
    var n := |above| - |Last(above, limit - |own.window|)|;
    var part := above[n..];
    WindowOfPart(above, own.window, limit);
    LocalAllBelow(above, n, own, items);
    KeepAllOnPart(part, x, own, items);
    KeepAllCounts(own, items, None);
    LastOfOwn(above, own.window, KeepAll(own, items, None).window, part, limit);
  }

  lemma KeepAllOnPart(part: seq<Row>, x: View, own: View, items: seq<Item>)
    requires x.window == part + own.window && x.known == own.known && x.raised == own.raised && LocalAll(part, own, items, None)
    ensures KeepAll(x, items, None) == Under(part, KeepAll(own, items, None), x.total - own.total, x.more)
  {
    KeepAllUnder(part, own, x, items, None, x.total - own.total, x.more);
  }

  lemma WindowOfPart(above: seq<Row>, own: seq<Row>, limit: nat)
    requires |own| < limit
    ensures Last(above + own, limit) == above[|above| - |Last(above, limit - |own|)|..] + own
  {
    LastOfConcat(above, own, limit);
  }

  lemma LastOfOwn(above: seq<Row>, was: seq<Row>, now: seq<Row>, part: seq<Row>, limit: nat)
    requires |was| < limit && |was| <= |now|
    requires part == above[|above| - |Last(above, limit - |was|)|..]
    ensures Last(part + now, limit) == Last(above + now, limit)
  {
    LastOfConcat(above, now, limit);
    LastOfConcat(part, now, limit);
    if |now| < limit {
      LastOfPart(above, part, limit - |was|, limit - |now|);
    }
  }

  lemma LastOfPart<T>(s: seq<T>, part: seq<T>, wide: nat, narrow: nat)
    requires part == s[|s| - |Last(s, wide)|..] && narrow <= wide
    ensures Last(part, narrow) == Last(s, narrow)
  {
  }

  /** One more record: the folds stay joined by the rows of the piece, or come to the same window. */
  lemma RecordJoins(x: View, y: View, above: seq<Row>, beneath: seq<Row>, own: View, items: seq<Item>, limit: nat)
    requires Joined(x, y, above, beneath, own, limit)
    requires LocalAll(above, own, items, None) && LocalAll(beneath, own, items, None)
    ensures var x', y', now := Trim(KeepAll(x, items, None), limit), Trim(KeepAll(y, items, None), limit), KeepAll(own, items, None);
            && (Joined(x', y', above, beneath, now, limit) || Same(x', y', limit))
            && now.total - own.total == |now.window| - |own.window|
            && x'.total - x.total == y'.total - y.total == now.total - own.total
  {
    RecordOnOwn(above, x, own, items, limit);
    RecordOnOwn(beneath, y, own, items, limit);
    var now := KeepAll(own, items, None);
    LastOfConcat(above, now.window, limit);
    LastOfConcat(beneath, now.window, limit);
  }

  /** Where two folds stand to one another after the records read since they parted. */
  ghost predicate Standing(x: View, y: View, x': View, y': View, own: View, limit: nat) {
    && (Joined(x', y', x.window, y.window, own, limit) || Same(x', y', limit))
    && (!Same(x', y', limit) ==> y'.total == y.total + |own.window| && own.total == |own.window|)
    && x'.total - x.total == y'.total - y.total
  }

  /** Reading on, two folds come to the same window as soon as the records read give a window of rows. */
  lemma {:induction false} ReadOn(x: View, y: View, recs: seq<Rec>, limit: nat)
    requires |x.window| <= limit && |y.window| <= limit && limit > 0
    requires x.known == y.known == [] && !x.raised && !y.raised
    requires Own(x.window, recs, limit) && Own(y.window, recs, limit)
    ensures Standing(x, y, Fold(x, recs, limit, None), Fold(y, recs, limit, None), FoldAll(EMPTY, recs, None), limit)
  {
    if recs == [] {
      assert x.window + [] == x.window && y.window + [] == y.window;
    } else {
      var n := |recs| - 1;
      var rest := recs[..n];
      assert forall m | 0 <= m < n :: rest[..m] == recs[..m];
      ReadOn(x, y, rest, limit);
      var x1, y1, own := Fold(x, rest, limit, None), Fold(y, rest, limit, None), FoldAll(EMPTY, rest, None);
      if Same(x1, y1, limit) {
        RecordSame(x1, y1, recs[n].items, limit);
      } else {
        assert LocalAll(x.window, FoldAll(EMPTY, recs[..n], None), recs[n].items, None);
        assert LocalAll(y.window, FoldAll(EMPTY, recs[..n], None), recs[n].items, None);
        RecordJoins(x1, y1, x.window, y.window, own, recs[n].items, limit);
      }
    }
  }

  lemma {:induction false} FoldSplit(v: View, a: seq<Rec>, b: seq<Rec>, limit: nat)
    ensures Fold(v, a + b, limit, None) == Fold(Fold(v, a, limit, None), b, limit, None)
  {
    if b == [] {
      assert a + b == a;
    } else {
      FoldSplit(v, a, b[..|b| - 1], limit);
      assert (a + b)[..|a + b| - 1] == a + b[..|b| - 1];
    }
  }

  /** Whether a piece that does not reach the head of the file is taken for wide enough. */
  predicate Settled(v: View, limit: nat) {
    v.total > limit * 2
  }

  /** The page of a piece is the page of the file. `before` are the records only the whole read sees, and what it
      makes of the head of the piece; `head` is that head as the piece reads it. If the head folds into at most
      `limit` rows, and no record past it looks for anything at or before it, then a piece that is settled gives
      the rows the whole file gives, and says as the whole does that more came before. */
  lemma PageOfPieceIsPageOfFile(before: seq<Rec>, head: seq<Rec>, recs: seq<Rec>, limit: nat)
    requires limit > 0
    requires var x, y := Fold(EMPTY, before, limit, None), Fold(EMPTY, head, limit, None);
             && x.known == y.known == [] && !x.raised && !y.raised
             && Own(x.window, recs, limit) && Own(y.window, recs, limit)
             && y.total <= limit
    requires Settled(Fold(EMPTY, head + recs, limit, None), limit)
    ensures var whole, piece := Fold(EMPTY, before + recs, limit, None), Fold(EMPTY, head + recs, limit, None);
            && piece.window == whole.window && piece.raised == whole.raised
            && piece.more && whole.more
  {
    var x, y := Fold(EMPTY, before, limit, None), Fold(EMPTY, head, limit, None);
    FoldSplit(EMPTY, before, recs, limit);
    FoldSplit(EMPTY, head, recs, limit);
    TotalsCount(before, limit, None);
    TotalsCount(head, limit, None);
    ReadOn(x, y, recs, limit);
    TotalsCount(before + recs, limit, None);
    TotalsCount(head + recs, limit, None);
  }
}
