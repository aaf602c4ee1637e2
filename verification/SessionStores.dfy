/** The work a session holds — shells, teammates, agents sent off, workflows — and its open calls: what bounds
    each list, and what ends what an earlier process ran. */
module SessionStores {
  import opened Options
  import opened Sequences

  const MAX_ITEMS := 40
  const MAX_OPEN := 64

  /** A time as it is written: to the second, with a fraction or without. */
  datatype Stamp = Never | At(sec: nat, frac: Option<nat>)

  /** The order of the written times: a time with a fraction is written before its bare second. */
  predicate Before(a: Stamp, b: Stamp) {
    match (a, b)
    case (_, Never) => false
    case (Never, At(_, _)) => true
    case (At(s, f), At(t, g)) => s < t || (s == t && f.Some? && (g.Some? ==> f.value < g.value))
  }

  /** A piece of work. It is at work until it is over; `done` is when it was last heard to end, if it was. A watch or an
      alarm leaves no trace when it ends. */
  datatype Work = Work(id: string, name: string, at: Stamp, leaves: bool, over: Option<string>, done: Option<Stamp>)

  predicate Live(w: Work) {
    w.over.None?
  }

  function DoneAt(w: Work): Stamp {
    if w.done.Some? then w.done.value else Never
  }

  /** Work begun in a second before the birth of the process. */
  predicate Old(w: Work, born: nat) {
    w.at.At? && w.at.sec < born
  }

  predicate OldAndLive(w: Work, born: nat) {
    Live(w) && Old(w, born)
  }

  ghost predicate OwnIds(works: seq<Work>) {
    forall i, j | 0 <= i < j < |works| :: works[i].id != works[j].id
  }

  function IndexOf(works: seq<Work>, id: string): (i: nat)
    ensures i <= |works| && (i < |works| ==> works[i].id == id)
    ensures forall j | 0 <= j < i :: works[j].id != id
  {
    if works == [] || works[0].id == id then 0 else IndexOf(works[1..], id) + 1
  }

  predicate Has(works: seq<Work>, id: string) {
    IndexOf(works, id) < |works|
  }

  /** An entry put under its id: in the place of the one there, or at the end. */
  function Put(works: seq<Work>, w: Work): seq<Work> {
    var i := IndexOf(works, w.id);
    if i < |works| then works[i := w] else works + [w]
  }

  function Drop(works: seq<Work>, id: string): seq<Work> {
    if Has(works, id) then Remove(works, IndexOf(works, id)) else works
  }

  /** The first of the entries that are over and ended earliest; the number of entries when none is over. */
  function OldestOver(works: seq<Work>): (i: nat)
    ensures i <= |works| && (i < |works| ==> !Live(works[i]))
    ensures i < |works| ==> forall j | 0 <= j < |works| && !Live(works[j]) :: !Before(DoneAt(works[j]), DoneAt(works[i]))
    ensures i == |works| ==> forall j | 0 <= j < |works| :: Live(works[j])
  {
    if works == [] then 0
    else
      var n := |works| - 1;
      var i := OldestOver(works[..n]);
      assert forall j | 0 <= j < n :: works[..n][j] == works[j];
      if Live(works[n]) then (if i == n then n + 1 else i)
      else if i == n || Before(DoneAt(works[n]), DoneAt(works[i])) then n
      else i
  }

  /** Over the limit, what is over gives way, the earliest end first. */
  function Pruned(works: seq<Work>): seq<Work>
    decreases |works|
  {
    if |works| <= MAX_ITEMS || OldestOver(works) == |works| then works else Pruned(Remove(works, OldestOver(works)))
  }

  /** Nothing at work is ever pruned, and nothing of it moves. */
  lemma {:induction false} PruneKeepsLive(works: seq<Work>, p: Work -> bool)
    requires forall w | p(w) :: Live(w)
    ensures Only(Pruned(works), p) == Only(works, p)
    decreases |works|
  {
    if |works| > MAX_ITEMS && OldestOver(works) < |works| {
      OnlyRemove(works, OldestOver(works), p);
      PruneKeepsLive(Remove(works, OldestOver(works)), p);
    }
  }

  lemma {:induction false} PruneKeepsIds(works: seq<Work>)
    requires OwnIds(works)
    ensures OwnIds(Pruned(works)) && forall w | w in Pruned(works) :: w in works
    decreases |works|
  {
    if |works| > MAX_ITEMS && OldestOver(works) < |works| {
      PruneKeepsIds(Remove(works, OldestOver(works)));
    }
  }

  /** A pruned list is within the limit, or holds only work still going on; it loses no more than it must. */
  lemma {:induction false} PruneBounds(works: seq<Work>)
    ensures |Pruned(works)| <= MAX_ITEMS || forall w | w in Pruned(works) :: Live(w)
    ensures |Pruned(works)| >= MAX_ITEMS || Pruned(works) == works
    decreases |works|
  {
    if |works| > MAX_ITEMS && OldestOver(works) < |works| {
      PruneBounds(Remove(works, OldestOver(works)));
    }
  }

  /** What is pruned ended no later than anything over that is kept. */
  lemma {:induction false} PruneTakesTheOldest(works: seq<Work>, gone: Work, kept: Work)
    requires gone in works && gone !in Pruned(works) && kept in Pruned(works) && !Live(kept)
    ensures !Before(DoneAt(kept), DoneAt(gone))
    decreases |works|
  {
    var i := OldestOver(works);
    var rest := Remove(works, i);
    PrunedIsPart(rest);
    if gone in rest {
      PruneTakesTheOldest(rest, gone, kept);
    } else {
      RemovedOne(works, i, gone);
    }
  }

  lemma RemovedOne(works: seq<Work>, i: nat, w: Work)
    requires i < |works| && w in works && w !in Remove(works, i)
    ensures w == works[i]
  {
    forall j | 0 <= j < |works| && j != i
      ensures works[j] in Remove(works, i)
    {
      if j < i {
        assert Remove(works, i)[j] == works[j];
      } else {
        assert Remove(works, i)[j - 1] == works[j];
      }
    }
  }

  lemma {:induction false} PrunedIsPart(works: seq<Work>)
    ensures forall w | w in Pruned(works) :: w in works
    decreases |works|
  {
    if |works| > MAX_ITEMS && OldestOver(works) < |works| {
      PrunedIsPart(Remove(works, OldestOver(works)));
    }
  }

  /** An entry over: how it ended, and when, when that is known. */
  function Over(w: Work, how: string, at: Stamp): Work {
    w.(over := Some(how), done := Some(if at != Never then at else DoneAt(w)))
  }

  /** Marks an entry as over, in its place, and prunes. */
  function Ended(works: seq<Work>, id: string, how: string, at: Stamp): seq<Work> {
    if Has(works, id) then Pruned(works[IndexOf(works, id) := Over(works[IndexOf(works, id)], how, at)]) else works
  }

  /** A piece of work ends as its list has it: an entry stays over, or leaves. */
  function Closed(works: seq<Work>, id: string, at: Stamp): seq<Work> {
    if Has(works, id) && works[IndexOf(works, id)].leaves then Drop(works, id) else Ended(works, id, "", at)
  }

  /** A teammate that cannot be reached: one that ever wrote keeps its place as reported, the other goes. */
  function Lost(works: seq<Work>, id: string): seq<Work> {
    if !Has(works, id) then works
    else
      var i := IndexOf(works, id);
      if DoneAt(works[i]) == Never then Drop(works, id)
      else Pruned(works[i := works[i].(over := Some("reported"))])
  }

  function IdsOf(works: seq<Work>): (ids: seq<string>)
    ensures |ids| == |works| && forall i | 0 <= i < |works| :: ids[i] == works[i].id
  {
    seq(|works|, i requires 0 <= i < |works| => works[i].id)
  }

  function EndEach(works: seq<Work>, ids: seq<string>, how: string, at: Stamp): seq<Work> {
    if ids == [] then works else Ended(EndEach(works, ids[..|ids| - 1], how, at), ids[|ids| - 1], how, at)
  }

  function LoseEach(works: seq<Work>, ids: seq<string>): seq<Work> {
    if ids == [] then works else Lost(LoseEach(works, ids[..|ids| - 1]), ids[|ids| - 1])
  }

  function LiveOf(works: seq<Work>): seq<Work> {
    Only(works, (w: Work) => Live(w))
  }

  function LiveBut(works: seq<Work>, id: string): seq<Work> {
    Only(works, (w: Work) => Live(w) && w.id != id)
  }

  lemma TakenOff(works: seq<Work>, i: nat)
    requires OwnIds(works) && i < |works|
    ensures OwnIds(Remove(works, i)) && LiveOf(Remove(works, i)) == LiveBut(works, works[i].id)
  {
    OnlyRemove(works, i, (w: Work) => Live(w) && w.id != works[i].id);
    OnlySame(Remove(works, i), (w: Work) => Live(w), (w: Work) => Live(w) && w.id != works[i].id);
  }

  lemma PutOver(works: seq<Work>, i: nat, over: Work)
    requires OwnIds(works) && i < |works| && !Live(over) && over.id == works[i].id
    ensures OwnIds(Pruned(works[i := over])) && LiveOf(Pruned(works[i := over])) == LiveBut(works, over.id)
  {
    var now := works[i := over];
    PruneKeepsLive(now, (w: Work) => Live(w));
    PruneKeepsIds(now);
    OnlyRemove(now, i, (w: Work) => Live(w));
    assert Remove(now, i) == Remove(works, i);
    TakenOff(works, i);
  }

  lemma NotThere(works: seq<Work>, id: string)
    requires !Has(works, id)
    ensures LiveOf(works) == LiveBut(works, id)
  {
    OnlySame(works, (w: Work) => Live(w), (w: Work) => Live(w) && w.id != id);
  }

  /** What ends is at work no more; nothing else at work changes, and nothing of it moves. */
  lemma EndedLive(works: seq<Work>, id: string, how: string, at: Stamp)
    requires OwnIds(works)
    ensures OwnIds(Ended(works, id, how, at)) && LiveOf(Ended(works, id, how, at)) == LiveBut(works, id)
  {
    if Has(works, id) {
      PutOver(works, IndexOf(works, id), Over(works[IndexOf(works, id)], how, at));
    } else {
      NotThere(works, id);
    }
  }

  lemma ClosedLive(works: seq<Work>, id: string, at: Stamp)
    requires OwnIds(works)
    ensures OwnIds(Closed(works, id, at)) && LiveOf(Closed(works, id, at)) == LiveBut(works, id)
  {
    if Has(works, id) && works[IndexOf(works, id)].leaves {
      TakenOff(works, IndexOf(works, id));
    } else {
      EndedLive(works, id, "", at);
    }
  }

  lemma LostLive(works: seq<Work>, id: string)
    requires OwnIds(works)
    ensures OwnIds(Lost(works, id)) && LiveOf(Lost(works, id)) == LiveBut(works, id)
  {
    if Has(works, id) {
      var i := IndexOf(works, id);
      if DoneAt(works[i]) == Never {
        TakenOff(works, i);
      } else {
        PutOver(works, i, works[i].(over := Some("reported")));
      }
    } else {
      NotThere(works, id);
    }
  }

  function LiveOutside(works: seq<Work>, ids: seq<string>): seq<Work> {
    Only(works, (w: Work) => Live(w) && w.id !in ids)
  }

  lemma LiveOutsideNone(works: seq<Work>)
    ensures LiveOutside(works, []) == LiveOf(works)
  {
    OnlySame(works, (w: Work) => Live(w) && w.id !in [], (w: Work) => Live(w));
  }

  lemma LiveOutsideMore(works: seq<Work>, was: seq<Work>, ids: seq<string>, id: string)
    requires LiveOf(was) == LiveOutside(works, ids)
    ensures LiveBut(was, id) == LiveOutside(works, ids + [id])
  {
    var live, outside, but := (w: Work) => Live(w), (w: Work) => Live(w) && w.id !in ids, (w: Work) => w.id != id;
    OnlyTwice(was, live, but);
    OnlyTwice(works, outside, but);
    OnlySame(was, Both(live, but), (w: Work) => Live(w) && w.id != id);
    OnlySame(works, Both(outside, but), (w: Work) => Live(w) && w.id !in ids + [id]);
  }

  lemma {:induction false} EndEachLive(works: seq<Work>, ids: seq<string>, how: string, at: Stamp)
    requires OwnIds(works)
    ensures OwnIds(EndEach(works, ids, how, at)) && LiveOf(EndEach(works, ids, how, at)) == LiveOutside(works, ids)
  {
    if ids == [] {
      LiveOutsideNone(works);
    } else {
      var n := |ids| - 1;
      EndEachLive(works, ids[..n], how, at);
      EndedLive(EndEach(works, ids[..n], how, at), ids[n], how, at);
      LiveOutsideMore(works, EndEach(works, ids[..n], how, at), ids[..n], ids[n]);
      assert ids == ids[..n] + [ids[n]];
    }
  }

  lemma {:induction false} LoseEachLive(works: seq<Work>, ids: seq<string>)
    requires OwnIds(works)
    ensures OwnIds(LoseEach(works, ids)) && LiveOf(LoseEach(works, ids)) == LiveOutside(works, ids)
  {
    if ids == [] {
      LiveOutsideNone(works);
    } else {
      var n := |ids| - 1;
      LoseEachLive(works, ids[..n]);
      LostLive(LoseEach(works, ids[..n]), ids[n]);
      LiveOutsideMore(works, LoseEach(works, ids[..n]), ids[..n], ids[n]);
      assert ids == ids[..n] + [ids[n]];
    }
  }

  /** The ids of what is at work since before a birth. */
  function OldIds(works: seq<Work>, born: nat): (ids: seq<string>)
    ensures forall id | id in ids :: exists w :: w in works && OldAndLive(w, born) && w.id == id
  {
    var older := Only(works, (w: Work) => OldAndLive(w, born));
    assert forall k | 0 <= k < |older| :: older[k] in older;
    IdsOf(older)
  }

  function LiveSince(works: seq<Work>, born: nat): seq<Work> {
    Only(works, (w: Work) => Live(w) && !Old(w, born))
  }

  /** Leaving out the old ones by their ids is leaving out the old ones. */
  lemma OldOutside(works: seq<Work>, born: nat)
    requires OwnIds(works)
    ensures LiveOutside(works, OldIds(works, born)) == LiveSince(works, born)
  {
    var older := Only(works, (w: Work) => OldAndLive(w, born));
    forall w | w in works
      ensures (Live(w) && w.id !in OldIds(works, born)) == (Live(w) && !Old(w, born))
    {
      if OldAndLive(w, born) {
        OnlyFinds(works, w, (x: Work) => OldAndLive(x, born));
        var k :| 0 <= k < |older| && older[k] == w;
        assert OldIds(works, born)[k] == w.id;
      } else {
        forall v | v in works && v.id == w.id
          ensures v == w
        {
        }
      }
    }
    OnlySame(works, (w: Work) => Live(w) && w.id !in OldIds(works, born), (w: Work) => Live(w) && !Old(w, born));
  }
}
