/** The matches of one search: how many there are, and the newest of them, over rows that come again. */
module SearchFound {
  import opened Options
  import opened Sequences

  datatype Role = Me | Mail | Other(name: string)
  datatype Letter = Letter(from: string, text: string, use: string)
  datatype Hit = Hit(text: string, start: nat, stop: nat)

  /** A row of the feed is known by its place, its role and its number among the rows of its role. */
  datatype Key = Key(pos: nat, role: Role, nth: nat)

  /** A row as it is read: `hits` is where its words say the question, `fixes` the role of the row it comes for. */
  datatype Item = Item(pos: nat, role: Role, nth: nat, fixes: Option<Role>, queued: bool, letter: Letter, hits: seq<Hit>)

  datatype Entry = Entry(key: Key, seqNo: nat, hit: Hit)

  function KeyOf(item: Item): Key {
    Key(item.pos, item.role, item.nth)
  }

  /** The key of the row an item comes for, when it changes the role. */
  function FixedKey(item: Item): Key {
    Key(item.pos, if item.fixes.Some? then item.fixes.value else item.role, item.nth)
  }

  /** A row that a later record draws again. */
  predicate Again(item: Item, line: nat) {
    item.pos != line || item.fixes.Some?
  }

  /** Hits are ordered by place, and within a place by when they were read. */
  predicate Before(a: Entry, b: Entry) {
    a.key.pos < b.key.pos || (a.key.pos == b.key.pos && a.seqNo < b.seqNo)
  }

  ghost predicate Rising(entries: seq<Entry>) {
    forall i, j | 0 <= i < j < |entries| :: Before(entries[i], entries[j])
  }

  /** An entry put where it belongs in a rising sequence. */
  function Insert(entries: seq<Entry>, e: Entry): seq<Entry> {
    if entries == [] || Before(e, entries[0]) then [e] + entries
    else [entries[0]] + Insert(entries[1..], e)
  }

  /** One entry more among the newest: over the limit the oldest goes. */
  function Push(kept: seq<Entry>, limit: nat, e: Entry): seq<Entry> {
    var more := Insert(kept, e);
    if |kept| < limit then more else more[1..]
  }

  function PushAll(kept: seq<Entry>, limit: nat, entries: seq<Entry>): seq<Entry> {
    if entries == [] then kept
    else Push(PushAll(kept, limit, entries[..|entries| - 1]), limit, entries[|entries| - 1])
  }

  function EntriesOf(key: Key, seqNo: nat, hits: seq<Hit>): (entries: seq<Entry>)
    ensures |entries| == |hits|
    ensures forall i | 0 <= i < |hits| :: entries[i] == Entry(key, seqNo + i + 1, hits[i])
  {
    seq(|hits|, i requires 0 <= i < |hits| => Entry(key, seqNo + i + 1, hits[i]))
  }

  function Spared(kept: seq<Entry>, key: Key): seq<Entry> {
    if kept == [] then []
    else Spared(kept[..|kept| - 1], key) + if kept[|kept| - 1].key != key then [kept[|kept| - 1]] else []
  }

  /** The state of a search. `kept` stands for the heap by its order; `counted` for the rows that may come again. */
  datatype State = State(total: int, kept: seq<Entry>, seqNo: nat, counted: map<Key, nat>, letters: set<Letter>)

  const NOTHING := State(0, [], 0, map[], {})

  function Drop(s: State, key: Key, hits: nat): State {
    s.(total := s.total - hits, kept := Spared(s.kept, key))
  }

  /** What a row comes for gives its hits back: the row it fixes, or else the row of its own key. */
  function TakeBack(s: State, item: Item): State {
    var fixed, own := FixedKey(item), KeyOf(item);
    if fixed in s.counted && s.counted[fixed] > 0 then
      Drop(s.(counted := s.counted - {fixed}), fixed, s.counted[fixed])
    else if own in s.counted && s.counted[own] > 0 then
      Drop(s.(counted := s.counted - {fixed, own}), own, s.counted[own])
    else s.(counted := s.counted - {fixed, own})
  }

  predicate Seen(letters: set<Letter>, item: Item) {
    item.role == Mail && item.letter in letters
  }

  function LettersAfter(letters: set<Letter>, item: Item): set<Letter> {
    if item.role == Mail then letters + {item.letter} else letters
  }

  /** How many hits a row counts for: a letter that arrives twice is shown once. */
  function CountedHits(letters: set<Letter>, item: Item): seq<Hit> {
    if Seen(letters, item) then [] else item.hits
  }

  function Count(s: State, limit: nat, item: Item): State {
    var hits := CountedHits(s.letters, item);
    s.(total := s.total + |hits|,
       kept := PushAll(s.kept, limit, EntriesOf(KeyOf(item), s.seqNo, hits)),
       seqNo := s.seqNo + |hits|,
       letters := LettersAfter(s.letters, item))
  }

  function Take(s: State, limit: nat, item: Item, line: nat): State {
    var back := if Again(item, line) then TakeBack(s, item) else s;
    var hits := |CountedHits(back.letters, item)|;
    var now := Count(back, limit, item);
    if hits > 0 && (Again(item, line) || item.queued) then now.(counted := now.counted[KeyOf(item) := hits]) else now
  }

  /** A row that stands in the feed, with its hits. A loose row is one the queue drew or a later record drew again. */
  datatype Row = Row(key: Key, entries: seq<Entry>, loose: bool)

  /** The feed the search goes through, with nothing let go. */
  datatype Feed = Feed(rows: seq<Row>, seqNo: nat, letters: set<Letter>)

  const NO_ROWS := Feed([], 0, {})

  predicate Matches(item: Item, row: Row) {
    row.key == KeyOf(item) || row.key == FixedKey(item)
  }

  function PlaceOf(rows: seq<Row>, item: Item): (i: nat)
    ensures i <= |rows|
    ensures i < |rows| ==> Matches(item, rows[i])
    ensures forall j | 0 <= j < i :: !Matches(item, rows[j])
  {
    if rows == [] || Matches(item, rows[0]) then 0 else PlaceOf(rows[1..], item) + 1
  }

  function Put(rows: seq<Row>, i: nat, row: Row): seq<Row>
    requires i <= |rows|
  {
    if i < |rows| then rows[i := row] else rows + [row]
  }

  /** A row comes in the place of the row it matches, or at the end; a letter that is there already does not. */
  function Draw(f: Feed, item: Item, line: nat): Feed {
    var i := PlaceOf(f.rows, item);
    var row := Row(KeyOf(item), EntriesOf(KeyOf(item), f.seqNo, item.hits), Again(item, line) || item.queued);
    if i == |f.rows| && Seen(f.letters, item) then f
    else Feed(Put(f.rows, i, row), f.seqNo + |item.hits|, LettersAfter(f.letters, item))
  }

  /** Every hit that stands. */
  function Standing(rows: seq<Row>): seq<Entry> {
    if rows == [] then [] else Standing(rows[..|rows| - 1]) + rows[|rows| - 1].entries
  }

  /** Addresses hold: a row drawn for the first time has a key of its own, a row that comes again is no letter,
      and comes for one row at most. */
  ghost predicate Placed(rows: seq<Row>, item: Item, line: nat) {
    && (!Again(item, line) ==> PlaceOf(rows, item) == |rows|)
    && (Again(item, line) ==> item.role != Mail)
    && (forall i, j | 0 <= i < |rows| && 0 <= j < |rows| && Matches(item, rows[i]) && Matches(item, rows[j]) :: i == j)
  }

  /** The row that goes is one the search can take back. */
  predicate Fair(rows: seq<Row>, item: Item) {
    var i := PlaceOf(rows, item);
    i < |rows| ==> rows[i].loose || rows[i].entries == []
  }

  ghost predicate RowsHold(rows: seq<Row>, seqNo: nat) {
    && (forall i, j | 0 <= i < j < |rows| :: rows[i].key != rows[j].key)
    && (forall i | 0 <= i < |rows| :: forall e | e in rows[i].entries :: e.key == rows[i].key && e.seqNo <= seqNo)
  }

  ghost predicate CountedHolds(counted: map<Key, nat>, rows: seq<Row>) {
    && (forall i | 0 <= i < |rows| ::
          if rows[i].loose && rows[i].entries != []
          then rows[i].key in counted && counted[rows[i].key] == |rows[i].entries|
          else rows[i].key !in counted)
    && (forall key | key in counted :: exists i :: 0 <= i < |rows| && rows[i].key == key)
  }

  ghost predicate KeptHolds(kept: seq<Entry>, limit: nat, all: seq<Entry>) {
    Rising(kept) && |kept| <= limit && forall e | e in kept :: e in all
  }

  /** What a search keeps beside the feed it goes through. */
  ghost predicate Holds(s: State, limit: nat, f: Feed) {
    && s.seqNo == f.seqNo && s.letters == f.letters
    && RowsHold(f.rows, f.seqNo) && CountedHolds(s.counted, f.rows)
    && s.total == |Standing(f.rows)| && KeptHolds(s.kept, limit, Standing(f.rows))
    && DistinctNos(Standing(f.rows))
  }

  ghost predicate DistinctNos(all: seq<Entry>) {
    forall i, j | 0 <= i < j < |all| :: all[i].seqNo != all[j].seqNo
  }

  lemma StandingStep(rows: seq<Row>, rest: seq<Row>, last: Row)
    requires rows != [] && rest == rows[..|rows| - 1] && last == rows[|rows| - 1]
    ensures Standing(rows) == Standing(rest) + last.entries
  {
  }

  lemma {:induction false} StandingConcat(a: seq<Row>, b: seq<Row>)
    ensures Standing(a + b) == Standing(a) + Standing(b)
  {
    if b == [] {
      assert a + b == a;
    } else {
      var rest, last := b[..|b| - 1], b[|b| - 1];
      StandingConcat(a, rest);
      ConcatLast(a, b);
      StandingStep(b, rest, last);
      StandingStep(a + b, a + rest, last);
      ConcatThree(Standing(a), Standing(rest), last.entries);
    }
  }

  /** A row put in a place: what stands before it and after it does not change. */
  lemma StandingPut(rows: seq<Row>, i: nat, row: Row)
    requires i <= |rows|
    ensures var a, b := Standing(rows[..i]), Standing(if i < |rows| then rows[i + 1..] else []);
            && Standing(rows) == a + (if i < |rows| then rows[i].entries else []) + b
            && Standing(Put(rows, i, row)) == a + row.entries + b
  {
    var after := if i < |rows| then rows[i + 1..] else [];
    StandingThree(rows[..i], row, after);
    PutIs(rows, i, row);
    if i < |rows| {
      StandingThree(rows[..i], rows[i], after);
      PutIs(rows, i, rows[i]);
    } else {
      assert rows == rows[..i] && Standing(rows) + [] + [] == Standing(rows);
    }
  }

  lemma PutIs(rows: seq<Row>, i: nat, row: Row)
    requires i <= |rows|
    ensures Put(rows, i, row) == rows[..i] + [row] + (if i < |rows| then rows[i + 1..] else [])
    ensures i < |rows| ==> Put(rows, i, rows[i]) == rows
  {
  }

  lemma StandingThree(a: seq<Row>, row: Row, b: seq<Row>)
    ensures Standing(a + [row] + b) == Standing(a) + row.entries + Standing(b)
  {
    StandingConcat(a + [row], b);
    assert (a + [row])[..|a|] == a;
  }

  lemma {:induction false} StandingOf(rows: seq<Row>, e: Entry)
    ensures e in Standing(rows) <==> exists i :: 0 <= i < |rows| && e in rows[i].entries
  {
    if rows != [] {
      var n := |rows| - 1;
      StandingOf(rows[..n], e);
      assert forall i | 0 <= i < n :: rows[..n][i] == rows[i];
    }
  }

  ghost predicate OlderThan(entries: seq<Entry>, seqNo: nat) {
    forall e | e in entries :: e.seqNo <= seqNo
  }

  lemma {:induction false} InsertHolds(entries: seq<Entry>, e: Entry)
    requires Rising(entries) && forall x | x in entries :: x.seqNo != e.seqNo
    ensures Rising(Insert(entries, e)) && |Insert(entries, e)| == |entries| + 1
    ensures forall x :: x in Insert(entries, e) <==> x in entries || x == e
  {
    if entries != [] && !Before(e, entries[0]) {
      var rest := entries[1..];
      InsertHolds(rest, e);
      assert entries == [entries[0]] + rest;
      var more := Insert(rest, e);
      forall x | x in more
        ensures Before(entries[0], x)
      {
        if x in rest {
          var i :| 0 <= i < |rest| && rest[i] == x;
          assert rest[i] == entries[i + 1];
        }
      }
    }
  }

  lemma PushHolds(kept: seq<Entry>, limit: nat, e: Entry)
    requires Rising(kept) && |kept| <= limit && forall x | x in kept :: x.seqNo != e.seqNo
    ensures var now := Push(kept, limit, e);
            && Rising(now) && |now| == (if |kept| < limit then |kept| + 1 else limit)
            && (forall x | x in now :: x in kept || x == e)
            && (forall x | (x in kept || x == e) && x !in now :: forall k | k in now :: Before(x, k))
            && (|kept| < limit ==> e in now && forall x | x in kept :: x in now)
            && (|kept| == limit ==> exists x :: (x in kept || x == e) && x !in now)
  {
    InsertHolds(kept, e);
    var more := Insert(kept, e);
    if |kept| == limit {
      assert more == [more[0]] + more[1..];
      assert (more[0] in kept || more[0] == e) && more[0] !in more[1..];
    }
  }

  /** What is left out is older than anything kept. */
  ghost predicate Ahead(kept: seq<Entry>, all: seq<Entry>) {
    forall x, k | x in all && x !in kept && k in kept :: Before(x, k)
  }

  ghost predicate OutBefore(kept: seq<Entry>, all: seq<Entry>, later: seq<Entry>) {
    forall x, e | x in all && x !in kept && e in later :: Before(x, e)
  }

  ghost predicate NothingOut(kept: seq<Entry>, all: seq<Entry>) {
    forall x | x in all :: x in kept
  }

  /** The newest entries: as many as the limit lets, and nothing left out is newer than one kept. */
  ghost predicate Newest(kept: seq<Entry>, limit: nat, all: seq<Entry>) {
    Ahead(kept, all) && (|kept| == limit || NothingOut(kept, all))
  }

  ghost predicate NewNos(entries: seq<Entry>, seqNo: nat) {
    forall i | 0 <= i < |entries| :: entries[i].seqNo == seqNo + i + 1
  }

  lemma {:induction false} PushAllHolds(kept: seq<Entry>, limit: nat, all: seq<Entry>, more: seq<Entry>, seqNo: nat)
    requires KeptHolds(kept, limit, all) && OlderThan(all, seqNo) && NewNos(more, seqNo)
    ensures KeptHolds(PushAll(kept, limit, more), limit, all + more)
    ensures |PushAll(kept, limit, more)| == (if |kept| + |more| <= limit then |kept| + |more| else limit)
    ensures forall x | x in PushAll(kept, limit, more) :: x in kept || x in more
    ensures |kept| + |more| <= limit ==> forall x | x in kept || x in more :: x in PushAll(kept, limit, more)
  {
    if more != [] {
      var n := |more| - 1;
      PushAllHolds(kept, limit, all, more[..n], seqNo);
      assert more == more[..n] + [more[n]];
      PushHolds(PushAll(kept, limit, more[..n]), limit, more[n]);
    }
  }

  /** Nothing newer is left out by taking in new entries, provided they are newer than what is out already,
      or there is no room. */
  lemma {:induction false} PushAllAhead(kept: seq<Entry>, limit: nat, all: seq<Entry>, more: seq<Entry>, seqNo: nat)
    requires KeptHolds(kept, limit, all) && OlderThan(all, seqNo) && NewNos(more, seqNo)
    requires Ahead(kept, all) && (|kept| == limit || OutBefore(kept, all, more))
    ensures Ahead(PushAll(kept, limit, more), all + more)
  {
    if more != [] {
      var n := |more| - 1;
      PushAllAhead(kept, limit, all, more[..n], seqNo);
      PushAllHolds(kept, limit, all, more[..n], seqNo);
      var was := PushAll(kept, limit, more[..n]);
      assert more == more[..n] + [more[n]];
      PushHolds(was, limit, more[n]);
      PushOneAhead(was, limit, all + more[..n], more[n], all + more);
    }
  }

  lemma PushOneAhead(kept: seq<Entry>, limit: nat, all: seq<Entry>, e: Entry, now: seq<Entry>)
    requires Rising(kept) && |kept| <= limit && (forall x | x in kept :: x.seqNo != e.seqNo)
    requires Ahead(kept, all) && (forall x | x in now :: x in all || x == e)
    requires |kept| < limit ==> forall x | x in all && x !in kept :: Before(x, e)
    ensures Ahead(Push(kept, limit, e), now)
  {
    PushHolds(kept, limit, e);
    var k := Push(kept, limit, e);
    forall x, y | x in now && x !in k && y in k
      ensures Before(x, y)
    {
      if x in all && x !in kept && y == e && |kept| == limit {
        var gone :| (gone in kept || gone == e) && gone !in k;
        assert Before(gone, e);
      }
    }
  }

  lemma SparedStep(kept: seq<Entry>, rest: seq<Entry>, last: Entry, key: Key)
    requires kept != [] && rest == kept[..|kept| - 1] && last == kept[|kept| - 1]
    ensures Spared(kept, key) == Spared(rest, key) + (if last.key != key then [last] else [])
    ensures forall e :: e in kept <==> e in rest || e == last
  {
    assert kept == rest + [last];
  }

  lemma {:induction false} SparedIs(kept: seq<Entry>, key: Key)
    ensures forall e :: e in Spared(kept, key) <==> e in kept && e.key != key
  {
    if kept != [] {
      var rest, last := kept[..|kept| - 1], kept[|kept| - 1];
      SparedIs(rest, key);
      SparedStep(kept, rest, last, key);
    }
  }

  lemma {:induction false} SparedRises(kept: seq<Entry>, key: Key)
    requires Rising(kept)
    ensures Rising(Spared(kept, key))
  {
    if kept != [] {
      var n := |kept| - 1;
      SparedRises(kept[..n], key);
      SparedStep(kept, kept[..n], kept[n], key);
      forall e | e in Spared(kept[..n], key)
        ensures Before(e, kept[n])
      {
        SparedIs(kept[..n], key);
        var i :| 0 <= i < n && kept[i] == e;
      }
    }
  }

  lemma {:induction false} SparedIsFewer(kept: seq<Entry>, key: Key)
    ensures |Spared(kept, key)| <= |kept|
    ensures |Spared(kept, key)| == |kept| ==> Spared(kept, key) == kept
  {
    if kept != [] {
      var rest, last := kept[..|kept| - 1], kept[|kept| - 1];
      SparedIsFewer(rest, key);
      SparedStep(kept, rest, last, key);
      assert kept == rest + [last];
    }
  }

  lemma {:induction false} SparedNone(kept: seq<Entry>, key: Key)
    requires forall e | e in kept :: e.key != key
    ensures Spared(kept, key) == kept
  {
    if kept != [] {
      var rest, last := kept[..|kept| - 1], kept[|kept| - 1];
      SparedNone(rest, key);
      SparedStep(kept, rest, last, key);
      assert kept == rest + [last];
    }
  }

  lemma SparedHolds(kept: seq<Entry>, key: Key)
    requires Rising(kept)
    ensures Rising(Spared(kept, key)) && |Spared(kept, key)| <= |kept|
    ensures forall e :: e in Spared(kept, key) <==> e in kept && e.key != key
    ensures |Spared(kept, key)| == |kept| <==> forall e | e in kept :: e.key != key
    ensures |Spared(kept, key)| == |kept| ==> Spared(kept, key) == kept
  {
    SparedIs(kept, key);
    SparedRises(kept, key);
    SparedIsFewer(kept, key);
    if forall e | e in kept :: e.key != key {
      SparedNone(kept, key);
    }
  }

  /** The feed with the row an item comes for emptied, or an empty row at its end. */
  function Emptied(rows: seq<Row>, item: Item, loose: bool): seq<Row> {
    Put(rows, PlaceOf(rows, item), Row(KeyOf(item), [], loose))
  }

  lemma EmptiedRowsHold(rows: seq<Row>, seqNo: nat, item: Item, line: nat, loose: bool)
    requires RowsHold(rows, seqNo) && Placed(rows, item, line)
    ensures RowsHold(Emptied(rows, item, loose), seqNo)
  {
    var i, now := PlaceOf(rows, item), Emptied(rows, item, loose);
    forall a, b | 0 <= a < b < |now|
      ensures now[a].key != now[b].key
    {
      if a != i && b == i {
        assert !Matches(item, rows[a]);
      } else if a == i {
        assert !Matches(item, rows[b]);
      }
    }
  }

  /** A counted key an item matches is the key of the row it comes for. */
  lemma CountedMatch(counted: map<Key, nat>, rows: seq<Row>, item: Item, line: nat, key: Key)
    requires Placed(rows, item, line) && CountedHolds(counted, rows)
    requires key in counted && (key == KeyOf(item) || key == FixedKey(item))
    ensures PlaceOf(rows, item) < |rows| && rows[PlaceOf(rows, item)].key == key && Again(item, line)
  {
    var a :| 0 <= a < |rows| && rows[a].key == key;
    assert Matches(item, rows[a]);
  }

  /** Taking back lets go of both keys an item may come for. */
  lemma TakeBackLetsGo(s: State, rows: seq<Row>, item: Item, line: nat)
    requires Placed(rows, item, line) && CountedHolds(s.counted, rows)
    ensures (if Again(item, line) then TakeBack(s, item).counted else s.counted) == s.counted - {FixedKey(item), KeyOf(item)}
  {
    var fixed, own := FixedKey(item), KeyOf(item);
    if fixed in s.counted {
      CountedMatch(s.counted, rows, item, line, fixed);
    }
    if own in s.counted {
      CountedMatch(s.counted, rows, item, line, own);
    }
  }

  /** The rows a search counted, once the row an item comes for is taken back. */
  lemma TakenBackCounted(s: State, rows: seq<Row>, item: Item, line: nat, loose: bool)
    requires Placed(rows, item, line) && CountedHolds(s.counted, rows)
    ensures CountedHolds(if Again(item, line) then TakeBack(s, item).counted else s.counted, Emptied(rows, item, loose))
  {
    TakeBackLetsGo(s, rows, item, line);
    OthersCounted(s.counted, rows, item, line, loose);
  }

  lemma OthersCounted(was: map<Key, nat>, rows: seq<Row>, item: Item, line: nat, loose: bool)
    requires Placed(rows, item, line) && CountedHolds(was, rows)
    ensures CountedHolds(was - {FixedKey(item), KeyOf(item)}, Emptied(rows, item, loose))
  {
    var i, now := PlaceOf(rows, item), Emptied(rows, item, loose);
    var counted := was - {FixedKey(item), KeyOf(item)};
    forall a | 0 <= a < |now| && a != i
      ensures a < |rows| && now[a] == rows[a] && now[a].key != FixedKey(item) && now[a].key != KeyOf(item)
    {
      assert !Matches(item, rows[a]);
    }
    forall key | key in counted
      ensures exists a :: 0 <= a < |now| && now[a].key == key
    {
      var a :| 0 <= a < |rows| && rows[a].key == key;
      assert !Matches(item, rows[a]);
      assert now[a].key == key;
    }
  }

  /** What taking back takes: the hits of the row an item comes for, when that row is a loose one. */
  lemma TakenBackIs(s: State, rows: seq<Row>, item: Item, line: nat)
    requires Placed(rows, item, line) && CountedHolds(s.counted, rows)
    ensures var i := PlaceOf(rows, item);
            var back := if Again(item, line) then TakeBack(s, item) else s;
            && back.seqNo == s.seqNo && back.letters == s.letters
            && (if i < |rows| && rows[i].loose && rows[i].entries != []
                then back.total == s.total - |rows[i].entries| && back.kept == Spared(s.kept, rows[i].key)
                else back.total == s.total && back.kept == s.kept)
  {
    var i, fixed, own := PlaceOf(rows, item), FixedKey(item), KeyOf(item);
    if fixed in s.counted {
      CountedMatch(s.counted, rows, item, line, fixed);
    }
    if own in s.counted {
      CountedMatch(s.counted, rows, item, line, own);
    }
  }

  /** An empty row in a place filled, under a key of its own. */
  lemma FilledHold(rows: seq<Row>, i: nat, row: Row, seqNo: nat, seqNo': nat)
    requires i < |rows| && RowsHold(rows, seqNo) && rows[i].key == row.key && seqNo <= seqNo'
    requires forall e | e in row.entries :: e.key == row.key && e.seqNo <= seqNo'
    ensures RowsHold(rows[i := row], seqNo')
  {
  }

  lemma FilledCounted(counted: map<Key, nat>, rows: seq<Row>, i: nat, row: Row)
    requires i < |rows| && rows[i] == row.(entries := []) && CountedHolds(counted, rows)
    requires forall a | 0 <= a < |rows| && a != i :: rows[a].key != row.key
    ensures CountedHolds(if row.loose && row.entries != [] then counted[row.key := |row.entries|] else counted, rows[i := row])
  {
    var now := rows[i := row];
    assert now[i].key == row.key;
    forall key | key in counted
      ensures exists a :: 0 <= a < |now| && now[a].key == key
    {
      var a :| 0 <= a < |rows| && rows[a].key == key;
      assert now[a].key == key;
    }
  }

  /** Hits put among others: the numbers stay apart, and the newest are kept as before. */
  lemma PutAmong(a: seq<Entry>, b: seq<Entry>, more: seq<Entry>, kept: seq<Entry>, limit: nat, seqNo: nat)
    requires DistinctNos(a + b) && OlderThan(a + b, seqNo) && NewNos(more, seqNo) && KeptHolds(kept, limit, a + b)
    ensures DistinctNos(a + more + b) && KeptHolds(PushAll(kept, limit, more), limit, a + more + b)
  {
    PushAllHolds(kept, limit, a + b, more, seqNo);
    DistinctConcat(a, b);
    DistinctConcat(a, more);
    DistinctConcat(a + more, b);
  }

  lemma DistinctConcat(a: seq<Entry>, b: seq<Entry>)
    ensures DistinctNos(a + b) <==> DistinctNos(a) && DistinctNos(b) && forall x, y | x in a && y in b :: x.seqNo != y.seqNo
  {
    var all := a + b;
    assert forall i | 0 <= i < |a| :: all[i] == a[i];
    assert forall j | 0 <= j < |b| :: all[|a| + j] == b[j];
    if DistinctNos(all) {
      forall x, y | x in a && y in b
        ensures x.seqNo != y.seqNo
      {
        var i :| 0 <= i < |a| && a[i] == x;
        var j :| 0 <= j < |b| && b[j] == y;
        assert all[i].seqNo != all[|a| + j].seqNo;
      }
      forall i, j | 0 <= i < j < |a|
        ensures a[i].seqNo != a[j].seqNo
      {
        assert all[i].seqNo != all[j].seqNo;
      }
      forall i, j | 0 <= i < j < |b|
        ensures b[i].seqNo != b[j].seqNo
      {
        assert all[|a| + i].seqNo != all[|a| + j].seqNo;
      }
    }
  }

  lemma GoneFromMiddle(a: seq<Entry>, gone: seq<Entry>, b: seq<Entry>)
    requires DistinctNos(a + gone + b)
    ensures DistinctNos(a + [] + b) && |a + [] + b| == |a + gone + b| - |gone|
    ensures forall e | e in a + gone + b && e !in gone :: e in a + [] + b
  {
    assert a + [] + b == a + b;
    DistinctConcat(a + gone, b);
    DistinctConcat(a, gone);
    DistinctConcat(a, b);
  }

  /** An emptied place takes the hits of its row away, and no other. */
  lemma StandingEmptied(rows: seq<Row>, i: nat, row: Row)
    requires i <= |rows| && row.entries == [] && DistinctNos(Standing(rows))
    ensures var was, now, gone := Standing(rows), Standing(Put(rows, i, row)), if i < |rows| then rows[i].entries else [];
            && DistinctNos(now) && |now| == |was| - |gone| && (forall e | e in was && e !in gone :: e in now)
            && (gone == [] ==> now == was)
  {
    StandingPut(rows, i, row);
    GoneFromMiddle(Standing(rows[..i]), if i < |rows| then rows[i].entries else [], Standing(if i < |rows| then rows[i + 1..] else []));
  }

  lemma KeptAfter(kept: seq<Entry>, limit: nat, was: seq<Entry>, now: seq<Entry>, gone: seq<Entry>, key: Key)
    requires KeptHolds(kept, limit, was) && (forall e | e in was && e !in gone :: e in now) && forall e | e in gone :: e.key == key
    ensures KeptHolds(Spared(kept, key), limit, now)
  {
    SparedHolds(kept, key);
  }

  /** The state in the middle of a step: the row an item comes for is taken back, and its place stands empty. */
  lemma MiddleHolds(s: State, limit: nat, f: Feed, item: Item, line: nat, loose: bool)
    requires Holds(s, limit, f) && Placed(f.rows, item, line) && Fair(f.rows, item)
    ensures Holds(if Again(item, line) then TakeBack(s, item) else s, limit, f.(rows := Emptied(f.rows, item, loose)))
  {
    var i := PlaceOf(f.rows, item);
    var now := Emptied(f.rows, item, loose);
    var back := if Again(item, line) then TakeBack(s, item) else s;
    EmptiedRowsHold(f.rows, f.seqNo, item, line, loose);
    TakenBackCounted(s, f.rows, item, line, loose);
    TakenBackIs(s, f.rows, item, line);
    var gone := if i < |f.rows| then f.rows[i].entries else [];
    StandingEmptied(f.rows, i, Row(KeyOf(item), [], loose));
    if gone != [] {
      KeptAfter(s.kept, limit, Standing(f.rows), Standing(now), gone, f.rows[i].key);
    }
  }

  lemma StandingOlder(rows: seq<Row>, seqNo: nat)
    requires RowsHold(rows, seqNo)
    ensures OlderThan(Standing(rows), seqNo)
  {
    forall e | e in Standing(rows)
      ensures e.seqNo <= seqNo
    {
      StandingOf(rows, e);
    }
  }

  lemma StandingFilled(rows: seq<Row>, i: nat, row: Row, kept: seq<Entry>, limit: nat, seqNo: nat)
    requires i < |rows| && rows[i].entries == [] && DistinctNos(Standing(rows)) && OlderThan(Standing(rows), seqNo)
    requires NewNos(row.entries, seqNo) && KeptHolds(kept, limit, Standing(rows))
    ensures var now := Standing(rows[i := row]);
            && DistinctNos(now) && KeptHolds(PushAll(kept, limit, row.entries), limit, now)
            && |now| == |Standing(rows)| + |row.entries|
  {
    StandingPut(rows, i, row);
    var a, b := Standing(rows[..i]), Standing(rows[i + 1..]);
    assert a + [] + b == a + b;
    PutAmong(a, b, row.entries, kept, limit, seqNo);
  }

  /** Counting a row whose place stands empty fills it. */
  lemma CountFills(s: State, limit: nat, f: Feed, i: nat, item: Item, loose: bool)
    requires i < |f.rows| && f.rows[i] == Row(KeyOf(item), [], loose) && Holds(s, limit, f) && !Seen(f.letters, item)
    ensures var row := Row(KeyOf(item), EntriesOf(KeyOf(item), f.seqNo, item.hits), loose);
            var now := Count(s, limit, item);
            Holds(if loose && item.hits != [] then now.(counted := s.counted[KeyOf(item) := |item.hits|]) else now, limit,
                  Feed(f.rows[i := row], f.seqNo + |item.hits|, LettersAfter(f.letters, item)))
  {
    var key := KeyOf(item);
    var row := Row(key, EntriesOf(key, f.seqNo, item.hits), loose);
    FilledHold(f.rows, i, row, f.seqNo, f.seqNo + |item.hits|);
    FilledCounted(s.counted, f.rows, i, row);
    StandingOlder(f.rows, f.seqNo);
    StandingFilled(f.rows, i, row, s.kept, limit, f.seqNo);
  }

  lemma TakeIs(s: State, limit: nat, item: Item, line: nat, loose: bool, back: State)
    requires back == (if Again(item, line) then TakeBack(s, item) else s) && !Seen(back.letters, item)
    requires loose == (Again(item, line) || item.queued)
    ensures var now := Count(back, limit, item);
            Take(s, limit, item, line) ==
            if loose && item.hits != [] then now.(counted := back.counted[KeyOf(item) := |item.hits|]) else now
  {
  }

  /** A row is drawn where an emptied one stands. */
  lemma DrawIs(f: Feed, item: Item, line: nat, loose: bool)
    requires PlaceOf(f.rows, item) < |f.rows| || !Seen(f.letters, item)
    requires loose == (Again(item, line) || item.queued)
    ensures var i, mid := PlaceOf(f.rows, item), Emptied(f.rows, item, loose);
            && i < |mid| && mid[i] == Row(KeyOf(item), [], loose)
            && Draw(f, item, line) == Feed(mid[i := Row(KeyOf(item), EntriesOf(KeyOf(item), f.seqNo, item.hits), loose)],
                                           f.seqNo + |item.hits|, LettersAfter(f.letters, item))
  {
  }

  /** Every row taken keeps the search true to the feed: its total counts the hits of the rows that stand, and what
      it keeps are hits of those, in order and within the limit. */
  lemma TakeHolds(s: State, limit: nat, f: Feed, item: Item, line: nat)
    requires Holds(s, limit, f) && Placed(f.rows, item, line) && Fair(f.rows, item)
    ensures Holds(Take(s, limit, item, line), limit, Draw(f, item, line))
  {
    var i := PlaceOf(f.rows, item);
    if i < |f.rows| || !Seen(f.letters, item) {
      var loose := Again(item, line) || item.queued;
      var back := if Again(item, line) then TakeBack(s, item) else s;
      MiddleHolds(s, limit, f, item, line, loose);
      TakeIs(s, limit, item, line, loose, back);
      DrawIs(f, item, line, loose);
      CountFills(back, limit, f.(rows := Emptied(f.rows, item, loose)), i, item, loose);
    } else {
      assert LettersAfter(s.letters, item) == s.letters;
      assert Take(s, limit, item, line) == s;
    }
  }

  /** The total stays the hits of the rows that stand exactly when the row that goes is one the search can take back. */
  lemma TotalHoldsIff(s: State, limit: nat, f: Feed, item: Item, line: nat)
    requires Holds(s, limit, f) && Placed(f.rows, item, line)
    ensures Take(s, limit, item, line).total == |Standing(Draw(f, item, line).rows)| <==> Fair(f.rows, item)
  {
    if Fair(f.rows, item) {
      TakeHolds(s, limit, f, item, line);
    } else {
      var i := PlaceOf(f.rows, item);
      TakenBackIs(s, f.rows, item, line);
      StandingPut(f.rows, i, Row(KeyOf(item), EntriesOf(KeyOf(item), f.seqNo, item.hits), Again(item, line) || item.queued));
    }
  }

  datatype Read = Read(item: Item, line: nat)

  function TakeAll(limit: nat, run: seq<Read>): State {
    if run == [] then NOTHING
    else Take(TakeAll(limit, run[..|run| - 1]), limit, run[|run| - 1].item, run[|run| - 1].line)
  }

  function DrawAll(run: seq<Read>): Feed {
    if run == [] then NO_ROWS
    else Draw(DrawAll(run[..|run| - 1]), run[|run| - 1].item, run[|run| - 1].line)
  }

  /** Every row read finds its place in the feed of the rows before it. */
  ghost predicate AllPlaced(run: seq<Read>) {
    run == [] || (AllPlaced(run[..|run| - 1])
                  && Placed(DrawAll(run[..|run| - 1]).rows, run[|run| - 1].item, run[|run| - 1].line))
  }

  /** Only rows the queue drew, rows already drawn again and rows without a hit are drawn again. */
  ghost predicate AllFair(run: seq<Read>) {
    run == [] || (AllFair(run[..|run| - 1]) && Fair(DrawAll(run[..|run| - 1]).rows, run[|run| - 1].item))
  }

  /** The total is right at every row of a run. */
  ghost predicate TotalsHold(limit: nat, run: seq<Read>) {
    && TakeAll(limit, run).total == |Standing(DrawAll(run).rows)|
    && (run == [] || TotalsHold(limit, run[..|run| - 1]))
  }

  lemma {:induction false} SearchHolds(limit: nat, run: seq<Read>)
    requires AllPlaced(run) && AllFair(run)
    ensures Holds(TakeAll(limit, run), limit, DrawAll(run))
  {
    if run != [] {
      var n := |run| - 1;
      SearchHolds(limit, run[..n]);
      TakeHolds(TakeAll(limit, run[..n]), limit, DrawAll(run[..n]), run[n].item, run[n].line);
    }
  }

  /** Over any run, the total is right at every row exactly when every row that goes can be taken back. */
  lemma {:induction false} TotalsHoldIff(limit: nat, run: seq<Read>)
    requires AllPlaced(run)
    ensures TotalsHold(limit, run) <==> AllFair(run)
  {
    if run != [] {
      var n := |run| - 1;
      TotalsHoldIff(limit, run[..n]);
      if AllFair(run[..n]) {
        SearchHolds(limit, run[..n]);
        TotalHoldsIff(TakeAll(limit, run[..n]), limit, DrawAll(run[..n]), run[n].item, run[n].line);
      }
    }
  }

  /** How many of the kept hits the row an item comes for gives back. */
  function GivenBack(kept: seq<Entry>, rows: seq<Row>, item: Item): int {
    var i := PlaceOf(rows, item);
    if i < |rows| then |kept| - |Spared(kept, rows[i].key)| else 0
  }

  /** Every hit that stands is kept, but for those of the row an item comes for. */
  ghost predicate OthersKept(kept: seq<Entry>, rows: seq<Row>, item: Item) {
    NothingOut(kept, Standing(Emptied(rows, item, false)))
  }

  lemma EmptiedStanding(rows: seq<Row>, seqNo: nat, item: Item, loose: bool, x: Entry)
    requires RowsHold(rows, seqNo)
    ensures x in Standing(Emptied(rows, item, loose)) <==>
              x in Standing(rows) && (PlaceOf(rows, item) < |rows| ==> x.key != rows[PlaceOf(rows, item)].key)
  {
    var i, now := PlaceOf(rows, item), Emptied(rows, item, loose);
    StandingOf(rows, x);
    StandingOf(now, x);
    if a :| 0 <= a < |rows| && x in rows[a].entries {
      assert a != i ==> now[a] == rows[a];
    }
    if a :| 0 <= a < |now| && x in now[a].entries {
      assert a < |rows| && now[a] == rows[a];
    }
  }

  lemma GivenBackIs(s: State, limit: nat, f: Feed, item: Item, line: nat)
    requires Holds(s, limit, f) && Placed(f.rows, item, line) && Fair(f.rows, item)
    ensures var back := if Again(item, line) then TakeBack(s, item) else s;
            && |back.kept| == |s.kept| - GivenBack(s.kept, f.rows, item) <= |s.kept|
            && (GivenBack(s.kept, f.rows, item) == 0 ==> back.kept == s.kept)
            && (GivenBack(s.kept, f.rows, item) > 0 ==> exists k :: k in s.kept && k.key.pos == item.pos)
            && (forall x :: x in back.kept <==> x in s.kept && (PlaceOf(f.rows, item) < |f.rows| ==> x.key != f.rows[PlaceOf(f.rows, item)].key))
  {
    var i := PlaceOf(f.rows, item);
    TakenBackIs(s, f.rows, item, line);
    if i < |f.rows| {
      SparedHolds(s.kept, f.rows[i].key);
      if f.rows[i].entries == [] {
        forall e | e in s.kept
          ensures e.key != f.rows[i].key
        {
          StandingOf(f.rows, e);
        }
      }
    }
  }

  /** What is kept, once the row an item comes for has given its hits back: still ahead of what is out. */
  lemma SparedAhead(s: State, limit: nat, f: Feed, item: Item, line: nat, loose: bool)
    requires Holds(s, limit, f) && Placed(f.rows, item, line) && Fair(f.rows, item) && Ahead(s.kept, Standing(f.rows))
    ensures var back := if Again(item, line) then TakeBack(s, item) else s;
            var mid := Emptied(f.rows, item, loose);
            && Ahead(back.kept, Standing(mid))
            && (forall x | x in Standing(mid) :: x in Standing(f.rows))
            && (forall x | x in Standing(mid) && x !in back.kept :: x !in s.kept)
  {
    GivenBackIs(s, limit, f, item, line);
    forall x
      ensures x in Standing(Emptied(f.rows, item, loose)) <==>
                x in Standing(f.rows) && (PlaceOf(f.rows, item) < |f.rows| ==> x.key != f.rows[PlaceOf(f.rows, item)].key)
    {
      EmptiedStanding(f.rows, f.seqNo, item, loose, x);
    }
  }

  /** The new hits of a row that gave some back stand after every hit left out before. */
  lemma NewAfterOut(s: State, limit: nat, f: Feed, item: Item, line: nat, loose: bool)
    requires Holds(s, limit, f) && Placed(f.rows, item, line) && Fair(f.rows, item) && Ahead(s.kept, Standing(f.rows))
    requires GivenBack(s.kept, f.rows, item) > 0
    ensures var back := if Again(item, line) then TakeBack(s, item) else s;
            OutBefore(back.kept, Standing(Emptied(f.rows, item, loose)), EntriesOf(KeyOf(item), f.seqNo, item.hits))
  {
    GivenBackIs(s, limit, f, item, line);
    SparedAhead(s, limit, f, item, line, loose);
    StandingOlder(f.rows, f.seqNo);
    var k :| k in s.kept && k.key.pos == item.pos;
    var mid := Standing(Emptied(f.rows, item, loose));
    forall x | x in mid && x in Standing(f.rows) && x !in s.kept
      ensures Before(x, k)
    {
    }
  }

  lemma NewestBefore(s: State, limit: nat, f: Feed, item: Item, line: nat, loose: bool)
    requires Holds(s, limit, f) && Placed(f.rows, item, line) && Fair(f.rows, item) && Newest(s.kept, limit, Standing(f.rows))
    ensures var back := if Again(item, line) then TakeBack(s, item) else s;
            var mid := Standing(Emptied(f.rows, item, loose));
            && Ahead(back.kept, mid)
            && (|back.kept| == limit || OutBefore(back.kept, mid, EntriesOf(KeyOf(item), f.seqNo, item.hits)))
            && (GivenBack(s.kept, f.rows, item) == 0 ==> Newest(back.kept, limit, mid))
  {
    GivenBackIs(s, limit, f, item, line);
    SparedAhead(s, limit, f, item, line, loose);
    if GivenBack(s.kept, f.rows, item) > 0 {
      NewAfterOut(s, limit, f, item, line, loose);
    }
  }

  /** New hits keep the newest exactly when they fill the room that is left, or nothing is left out. */
  lemma PushAllNewestIff(kept: seq<Entry>, limit: nat, all: seq<Entry>, more: seq<Entry>, now: seq<Entry>, seqNo: nat)
    requires KeptHolds(kept, limit, all) && OlderThan(all, seqNo) && NewNos(more, seqNo)
    requires Ahead(kept, all) && (|kept| == limit || OutBefore(kept, all, more))
    requires forall x :: x in now <==> x in all || x in more
    ensures Newest(PushAll(kept, limit, more), limit, now) <==> |kept| + |more| >= limit || NothingOut(kept, all)
  {
    PushAllHolds(kept, limit, all, more, seqNo);
    PushAllAhead(kept, limit, all, more, seqNo);
    if |kept| + |more| < limit && !NothingOut(kept, all) {
      var x :| x in all && x !in kept;
      assert x !in more;
      assert x in now && x !in PushAll(kept, limit, more);
    }
  }

  /** While the newest hits are kept, a row keeps them so exactly when it gives back none of the kept hits, or brings
      as many new ones, or leaves no other hit out. */
  lemma NewestKeptIff(s: State, limit: nat, f: Feed, item: Item, line: nat)
    requires Holds(s, limit, f) && Placed(f.rows, item, line) && Fair(f.rows, item)
    requires Newest(s.kept, limit, Standing(f.rows))
    ensures Newest(Take(s, limit, item, line).kept, limit, Standing(Draw(f, item, line).rows)) <==>
              || GivenBack(s.kept, f.rows, item) <= |item.hits|
              || OthersKept(s.kept, f.rows, item)
  {
    var i := PlaceOf(f.rows, item);
    if i < |f.rows| || !Seen(f.letters, item) {
      NewestRowIff(s, limit, f, item, line);
    } else {
      assert Take(s, limit, item, line).kept == s.kept;
    }
  }

  lemma NewestRowIff(s: State, limit: nat, f: Feed, item: Item, line: nat)
    requires Holds(s, limit, f) && Placed(f.rows, item, line) && Fair(f.rows, item) && !Seen(f.letters, item)
    requires Newest(s.kept, limit, Standing(f.rows))
    ensures Newest(Take(s, limit, item, line).kept, limit, Standing(Draw(f, item, line).rows)) <==>
              || GivenBack(s.kept, f.rows, item) <= |item.hits|
              || OthersKept(s.kept, f.rows, item)
  {
    var back := if Again(item, line) then TakeBack(s, item) else s;
    var mid := Standing(Emptied(f.rows, item, false));
    NewestBefore(s, limit, f, item, line, false);
    MiddleHolds(s, limit, f, item, line, false);
    OthersKeptIff(s, limit, f, item, line);
    DrawnIsMore(f, item, line);
    StandingOlder(Emptied(f.rows, item, false), f.seqNo);
    PushAllNewestIff(back.kept, limit, mid, EntriesOf(KeyOf(item), f.seqNo, item.hits), Standing(Draw(f, item, line).rows), f.seqNo);
  }

  lemma DrawnIsMore(f: Feed, item: Item, line: nat)
    requires !Seen(f.letters, item)
    ensures forall x :: x in Standing(Draw(f, item, line).rows) <==>
                          x in Standing(Emptied(f.rows, item, false)) || x in EntriesOf(KeyOf(item), f.seqNo, item.hits)
  {
    var i := PlaceOf(f.rows, item);
    StandingPut(f.rows, i, Row(KeyOf(item), [], false));
    StandingPut(f.rows, i, Row(KeyOf(item), EntriesOf(KeyOf(item), f.seqNo, item.hits), Again(item, line) || item.queued));
  }

  lemma OthersKeptIff(s: State, limit: nat, f: Feed, item: Item, line: nat)
    requires Holds(s, limit, f) && Placed(f.rows, item, line) && Fair(f.rows, item)
    requires Newest(s.kept, limit, Standing(f.rows))
    ensures var back := if Again(item, line) then TakeBack(s, item) else s;
            (|back.kept| + |item.hits| >= limit || NothingOut(back.kept, Standing(Emptied(f.rows, item, false)))) <==>
              || GivenBack(s.kept, f.rows, item) <= |item.hits|
              || OthersKept(s.kept, f.rows, item)
  {
    GivenBackIs(s, limit, f, item, line);
    SparedAhead(s, limit, f, item, line, false);
  }

  /** A row gives back no more kept hits than it brings, or leaves no other hit out. */
  ghost predicate Refills(s: State, f: Feed, item: Item) {
    GivenBack(s.kept, f.rows, item) <= |item.hits| || OthersKept(s.kept, f.rows, item)
  }

  ghost predicate AllRefill(limit: nat, run: seq<Read>) {
    run == [] || (AllRefill(limit, run[..|run| - 1])
                  && Refills(TakeAll(limit, run[..|run| - 1]), DrawAll(run[..|run| - 1]), run[|run| - 1].item))
  }

  ghost predicate AlwaysNewest(limit: nat, run: seq<Read>) {
    && Newest(TakeAll(limit, run).kept, limit, Standing(DrawAll(run).rows))
    && (run == [] || AlwaysNewest(limit, run[..|run| - 1]))
  }

  /** Over any run, the newest hits are kept at every row exactly when every row that gives hits back refills its room. */
  lemma {:induction false} AlwaysNewestIff(limit: nat, run: seq<Read>)
    requires AllPlaced(run) && AllFair(run)
    ensures AlwaysNewest(limit, run) <==> AllRefill(limit, run)
  {
    if run != [] {
      var n := |run| - 1;
      AlwaysNewestIff(limit, run[..n]);
      if AlwaysNewest(limit, run[..n]) {
        SearchHolds(limit, run[..n]);
        NewestKeptIff(TakeAll(limit, run[..n]), limit, DrawAll(run[..n]), run[n].item, run[n].line);
      }
    }
  }

  function Members(entries: seq<Entry>): (m: set<Entry>)
    ensures forall e :: e in m <==> e in entries
    ensures |m| <= |entries|
  {
    if entries == [] then {} else Members(entries[1..]) + {entries[0]}
  }

  lemma {:induction false} RisingMembers(entries: seq<Entry>)
    requires Rising(entries)
    ensures |Members(entries)| == |entries|
  {
    if entries != [] {
      RisingMembers(entries[1..]);
      assert entries[0] !in entries[1..];
    }
  }

  lemma {:induction false} DistinctMembers(all: seq<Entry>)
    requires DistinctNos(all)
    ensures |Members(all)| == |all|
  {
    if all != [] {
      DistinctMembers(all[1..]);
      assert all[0] !in all[1..];
    }
  }

  /** An answer says it is cut exactly when it leaves out a hit that stands. */
  lemma CutIffLeftOut(s: State, limit: nat, f: Feed)
    requires Holds(s, limit, f)
    ensures s.total > |s.kept| <==> !NothingOut(s.kept, Standing(f.rows))
  {
    FewerIffLeftOut(s.kept, Standing(f.rows));
  }

  lemma FewerIffLeftOut(kept: seq<Entry>, all: seq<Entry>)
    requires Rising(kept) && DistinctNos(all) && forall e | e in kept :: e in all
    ensures |all| > |kept| <==> !NothingOut(kept, all)
  {
    RisingMembers(kept);
    DistinctMembers(all);
    var k, a := Members(kept), Members(all);
    assert a == k + (a - k);
    if NothingOut(kept, all) {
      assert a == k;
    } else {
      var x :| x in all && x !in kept;
      assert x in a - k;
    }
  }
}

/** The search as it goes: each row of the feed is taken as it is read. */
module SearchGoing {
  import opened Options
  import opened SearchFound
  import Op = SearchFound

  class Found {
    const limit: nat
    var total: int
    var kept: seq<Entry>
    var seqNo: nat
    var counted: map<Key, nat>
    var letters: set<Letter>

    function State(): State
      reads this
    {
      Op.State(total, kept, seqNo, counted, letters)
    }

    constructor (limit: nat)
      ensures this.limit == limit && State() == NOTHING && Holds(State(), limit, NO_ROWS)
    {
      this.limit := limit;
      total, kept, seqNo, counted, letters := 0, [], 0, map[], {};
    }

    /** Takes back the hits of a row another one has taken the place of. */
    method Drop(key: Key, hits: nat)
      modifies this
      ensures State() == Op.Drop(old(State()), key, hits)
    {
      total := total - hits;
      var left := [];
      for i := 0 to |kept|
        invariant left == Spared(kept[..i], key)
        invariant State() == old(State()).(total := total) && total == old(total) - hits
      {
        assert kept[..i + 1][..i] == kept[..i];
        if kept[i].key != key {
          left := left + [kept[i]];
        }
      }
      assert kept[..|kept|] == kept;
      kept := left;
    }

    /** Counts the hits of a row and keeps them among the newest. */
    method Count(item: Item) returns (hits: nat)
      modifies this
      ensures State() == Op.Count(old(State()), limit, item)
      ensures hits == |CountedHits(old(letters), item)|
    {
      if item.role == Mail {
        if item.letter in letters {
          assert letters + {item.letter} == letters;
          return 0;
        }
        letters := letters + {item.letter};
      }
      hits := 0;
      ghost var entries := EntriesOf(KeyOf(item), seqNo, item.hits);
      while hits < |item.hits|
        invariant hits <= |item.hits|
        invariant seqNo == old(seqNo) + hits && total == old(total)
        invariant kept == PushAll(old(kept), limit, entries[..hits])
        invariant counted == old(counted) && letters == LettersAfter(old(letters), item)
      {
        seqNo := seqNo + 1;
        assert entries[..hits + 1][..hits] == entries[..hits];
        kept := Push(kept, limit, Entry(KeyOf(item), seqNo, item.hits[hits]));
        hits := hits + 1;
      }
      assert entries[..hits] == entries;
      total := total + hits;
    }

    /** Takes one row of the feed, read from the record at a line. The total is right after it exactly when the row
        it comes for is one the search can take back, and then everything the search keeps stays true to the feed. */
    method Take(item: Item, line: nat, ghost f: Feed)
      requires Holds(State(), limit, f) && Placed(f.rows, item, line)
      modifies this
      ensures State() == Op.Take(old(State()), limit, item, line)
      ensures total == |Standing(Draw(f, item, line).rows)| <==> Fair(f.rows, item)
      ensures Fair(f.rows, item) ==> Holds(State(), limit, Draw(f, item, line))
    {
      TotalHoldsIff(State(), limit, f, item, line);
      if Fair(f.rows, item) {
        TakeHolds(State(), limit, f, item, line);
      }
      var key := KeyOf(item);
      if Again(item, line) {
        Back(item);
      }
      var hits := Count(item);
      if hits > 0 && (Again(item, line) || item.queued) {
        counted := counted[key := hits];
      }
    }

    /** Forgets how many hits a row gave, and says how many. */
    method Pop(key: Key) returns (hits: nat)
      modifies this`counted
      ensures counted == old(counted) - {key}
      ensures hits == if key in old(counted) then old(counted)[key] else 0
    {
      hits := if key in counted then counted[key] else 0;
      counted := counted - {key};
    }

    /** The row an item fixes gives its hits back, or else the row of its own key. */
    method Back(item: Item)
      modifies this
      ensures State() == Op.TakeBack(old(State()), item)
    {
      var fixed, own := FixedKey(item), KeyOf(item);
      var hits := Pop(fixed);
      if hits > 0 {
        Drop(fixed, hits);
        return;
      }
      hits := Pop(own);
      assert counted == old(counted) - {fixed, own};
      if hits > 0 {
        Drop(own, hits);
      }
    }

    /** The answer: the kept hits from the oldest on, and whether it leaves out a hit that stands. */
    method Answer(ghost f: Feed) returns (matches: seq<Entry>, found: int, cut: bool)
      requires Holds(State(), limit, f)
      ensures |matches| <= limit && Rising(matches) && forall e | e in matches :: e in Standing(f.rows)
      ensures found == |Standing(f.rows)|
      ensures cut <==> exists e :: e in Standing(f.rows) && e !in matches
    {
      CutIffLeftOut(State(), limit, f);
      matches, found, cut := kept, total, total > |kept|;
    }
  }

  const OLD := Key(0, Me, 0)
  const NEW := Key(10, Me, 0)
  const BARE := Item(10, Me, 0, None, false, Letter("", "", ""), [])

  /** Two rows with a hit each, the second drawn by the queue. */
  function TwoRows(hit: Hit): Feed {
    Feed([Row(OLD, [Entry(OLD, 1, hit)], false), Row(NEW, [Entry(NEW, 2, hit)], true)], 2, {})
  }

  /** A search that keeps one hit has let the first go. */
  function OneKept(hit: Hit): State {
    Op.State(2, [Entry(NEW, 2, hit)], 2, map[NEW := 1], {})
  }

  lemma BareIsPlaced(hit: Hit)
    ensures var rows := TwoRows(hit).rows; PlaceOf(rows, BARE) == 1 && Placed(rows, BARE, 20) && Fair(rows, BARE)
  {
    var rows := TwoRows(hit).rows;
    assert rows[1..] == [rows[1]];
    assert !Matches(BARE, rows[0]) && Matches(BARE, rows[1]);
  }

  /** A row with a hit is read at its own record. */
  function First(hit: Hit): Read {
    Read(Item(0, Me, 0, None, false, Letter("", "", ""), [hit]), 0)
  }

  /** Then one the queue draws. */
  function Second(hit: Hit): Read {
    Read(Item(10, Me, 0, None, true, Letter("", "", ""), [hit]), 10)
  }

  lemma PushedOne(kept: seq<Entry>, limit: nat, e: Entry)
    ensures PushAll(kept, limit, [e]) == Push(kept, limit, e)
  {
    assert [e][..0] == [];
  }

  lemma FirstTaken(hit: Hit)
    ensures Op.Take(NOTHING, 1, First(hit).item, 0) == Op.State(1, [Entry(OLD, 1, hit)], 1, map[], {})
    ensures Draw(NO_ROWS, First(hit).item, 0) == Feed([Row(OLD, [Entry(OLD, 1, hit)], false)], 1, {})
  {
    assert EntriesOf(OLD, 0, [hit]) == [Entry(OLD, 1, hit)];
    PushedOne([], 1, Entry(OLD, 1, hit));
    assert Insert([], Entry(OLD, 1, hit)) == [Entry(OLD, 1, hit)];
  }

  lemma SecondTaken(hit: Hit, s: State, f: Feed)
    requires s == Op.State(1, [Entry(OLD, 1, hit)], 1, map[], {})
    requires f == Feed([Row(OLD, [Entry(OLD, 1, hit)], false)], 1, {})
    ensures Op.Take(s, 1, Second(hit).item, 10) == OneKept(hit)
    ensures Draw(f, Second(hit).item, 10) == TwoRows(hit)
    ensures Placed(f.rows, Second(hit).item, 10) && Fair(f.rows, Second(hit).item)
  {
    var e1, e2 := Entry(OLD, 1, hit), Entry(NEW, 2, hit);
    assert EntriesOf(NEW, 1, [hit]) == [e2];
    PushedOne([e1], 1, e2);
    assert Insert([e1][1..], e2) == [e2] && Insert([e1], e2) == [e1, e2] && [e1, e2][1..] == [e2];
    assert f.rows[1..] == [] && PlaceOf([], Second(hit).item) == 0;
  }

  lemma OneMoreRead(limit: nat, run: seq<Read>, r: Read)
    ensures TakeAll(limit, run + [r]) == Op.Take(TakeAll(limit, run), limit, r.item, r.line)
    ensures DrawAll(run + [r]) == Draw(DrawAll(run), r.item, r.line)
    ensures AllPlaced(run + [r]) <==> AllPlaced(run) && Placed(DrawAll(run).rows, r.item, r.line)
    ensures AllFair(run + [r]) <==> AllFair(run) && Fair(DrawAll(run).rows, r.item)
    ensures AlwaysNewest(limit, run + [r]) ==> Newest(TakeAll(limit, run + [r]).kept, limit, Standing(DrawAll(run + [r]).rows))
  {
    assert (run + [r])[..|run|] == run;
  }

  lemma TwoRead(hit: Hit)
    ensures var run := [] + [First(hit)] + [Second(hit)];
            TakeAll(1, run) == OneKept(hit) && DrawAll(run) == TwoRows(hit) && AllPlaced(run) && AllFair(run)
  {
    FirstTaken(hit);
    OneMoreRead(1, [], First(hit));
    SecondTaken(hit, TakeAll(1, [] + [First(hit)]), DrawAll([] + [First(hit)]));
    OneMoreRead(1, [] + [First(hit)], Second(hit));
  }

  /** Three rows are read, a search keeping one hit: the third is the second again without its hit. The one hit that
      stands then is not kept. */
  lemma TakenBackAfterLettingGo(hit: Hit)
    ensures var run := [First(hit), Second(hit), Read(BARE, 20)];
            && AllPlaced(run) && AllFair(run) && TakeAll(1, run).total == 1 && TakeAll(1, run).kept == []
            && Standing(DrawAll(run).rows) == [Entry(OLD, 1, hit)] && !AlwaysNewest(1, run)
  {
    var two := [] + [First(hit)] + [Second(hit)];
    assert [First(hit), Second(hit), Read(BARE, 20)] == two + [Read(BARE, 20)];
    TwoRead(hit);
    BareIsPlaced(hit);
    ThirdTaken(hit);
    OneMoreRead(1, two, Read(BARE, 20));
    assert Entry(OLD, 1, hit) in [Entry(OLD, 1, hit)];
  }

  lemma ThirdTaken(hit: Hit)
    ensures Op.Take(OneKept(hit), 1, BARE, 20).total == 1 && Op.Take(OneKept(hit), 1, BARE, 20).kept == []
    ensures Standing(Draw(TwoRows(hit), BARE, 20).rows) == [Entry(OLD, 1, hit)]
  {
    var e1, e2 := Entry(OLD, 1, hit), Entry(NEW, 2, hit);
    BareIsPlaced(hit);
    assert [e2][..0] == [] && Spared([e2], NEW) == [];
    var r1, bare := TwoRows(hit).rows[0], Row(NEW, [], true);
    assert Draw(TwoRows(hit), BARE, 20).rows == [r1, bare];
    assert [r1, bare][..1] == [r1] && [r1][..0] == [] && Standing([r1]) == [e1];
  }
}
