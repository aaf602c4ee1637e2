/** A half-written last line: what becomes of its record once it is whole. */
module UsageTorn {
  import opened Options
  import opened Lines
  import opened UsageRecords
  import opened UsageScan
  import opened UsageCut
  import opened UsageLookback
  import opened UsageTables
  import opened UsageSplit
  import opened UsageLines
  import opened UsageReplay
  import opened UsageTheorems

  /** The lines a pass reads that starts inside a line: neither part of the line is a record by itself. */
  function Broken(lines: seq<Entry>, j: nat, torn: nat): (broken: seq<Entry>)
    requires j < |lines| && 0 < torn < lines[j].size
    ensures |broken| == |lines| + 1
  {
    lines[..j] + [Line(torn, None), Line(lines[j].size - torn, None)] + lines[j + 1..]
  }

  function Messages(lines: seq<Entry>, lo: nat, hi: nat, key: EventKey): nat
    requires lo <= hi <= |lines|
  {
    if lo == hi then 0
    else Messages(lines, lo, hi - 1, key) + if IsOf(lines[hi - 1], key) then 1 else 0
  }

  predicate IsOf(line: Entry, key: EventKey) {
    IsCounted(line) && key == EventKey(HourAt(line.record.value), line.record.value.agent)
  }

  lemma {:induction false} MessagesAre(s: Scan, lines: seq<Entry>, lo: nat, hi: nat, key: EventKey)
    requires lo <= hi <= |lines| && s.events == map[]
    ensures Get(Run(s, lines, lo, hi).events, key, NO_EVENT).messages == Messages(lines, lo, hi, key)
    decreases hi
  {
    if lo < hi {
      MessagesAre(s, lines, lo, hi - 1, key);
      if lines[hi - 1].record.Some? {
        StepMessages(Run(s, lines, lo, hi - 1), Pos(lines, hi - 1), lines[hi - 1].record.value, key);
      }
    }
  }

  lemma {:induction false} MessagesSplit(lines: seq<Entry>, lo: nat, mid: nat, hi: nat, key: EventKey)
    requires lo <= mid <= hi <= |lines|
    ensures Messages(lines, lo, hi, key) == Messages(lines, lo, mid, key) + Messages(lines, mid, hi, key)
    decreases hi
  {
    if mid < hi {
      MessagesSplit(lines, lo, mid, hi - 1, key);
    }
  }

  /** Read from inside the line, the lines past it count as they do whole, and the line counts for nothing. */
  lemma {:induction false} BrokenMessages(lines: seq<Entry>, j: nat, torn: nat, k: nat, key: EventKey)
    requires j < k <= |lines| && 0 < torn < lines[j].size
    ensures Messages(Broken(lines, j, torn), j + 1, k + 1, key) == Messages(lines, j + 1, k, key)
    decreases k
  {
    var broken := Broken(lines, j, torn);
    if k == j + 1 {
      assert broken[j + 1].record.None?;
      assert Messages(broken, j + 1, j + 1, key) == 0;
    } else {
      BrokenMessages(lines, j, torn, k - 1, key);
      assert broken[k] == lines[k - 1];
    }
  }

  lemma {:induction false} SamePos(one: seq<Entry>, other: seq<Entry>, i: nat)
    requires i <= |one| && i <= |other| && one[..i] == other[..i]
    ensures Pos(one, i) == Pos(other, i)
  {
    if i > 0 {
      assert one[..i - 1] == one[..i][..i - 1] && other[..i - 1] == other[..i][..i - 1];
      assert one[i - 1] == one[..i][i - 1] && other[i - 1] == other[..i][i - 1];
      SamePos(one, other, i - 1);
    }
  }

  /** The offset inside the line is the place of its second part. */
  lemma OffsetIsInside(lines: seq<Entry>, j: nat, torn: nat)
    requires j < |lines| && 0 < torn < lines[j].size
    requires !exists i :: 0 <= i < j && HasHour(lines[i])
    ensures ParseOf(lines, 0, j, torn).offset == Pos(lines, j) + torn == Pos(Broken(lines, j, torn), j + 1)
  {
    var broken := Broken(lines, j, torn);
    var n := OffsetStarts(lines, 0, j, torn);
    assert broken[..j] == lines[..j];
    SamePos(lines, broken, j);
    assert broken[j].size == torn;
  }

  /** A half-written line after no record with an hour is lost: once it is whole, the next pass starts inside it, and
      unless that pass asks for a rewind, the store counts fewer records of the line's hour and agent than there are. */
  lemma TornRecordIsLost(lines: seq<Entry>, j: nat, torn: nat, k: nat, more: nat)
    requires j < k <= |lines| && 0 < torn < lines[j].size && IsCounted(lines[j])
    requires !exists i :: 0 <= i < j && HasHour(lines[i])
    requires !ParseOf(Broken(lines, j, torn), j + 1, k + 1, more).rewind
    ensures ParseOf(lines, 0, j, torn).offset == Pos(Broken(lines, j, torn), j + 1)
    ensures var key := EventKey(HourAt(lines[j].record.value), lines[j].record.value.agent);
            Get(Apply(Straight(lines, j), ParseOf(Broken(lines, j, torn), j + 1, k + 1, more), false).events, key, NO_EVENT).messages
            < Get(Straight(lines, k).events, key, NO_EVENT).messages
  {
    OffsetIsInside(lines, j, torn);
    var key := EventKey(HourAt(lines[j].record.value), lines[j].record.value.agent);
    StraightCounts(lines, j, key);
    StraightCounts(lines, k, key);
    PassCounts(Broken(lines, j, torn), j + 1, k + 1, more, key);
    BrokenMessages(lines, j, torn, k, key);
    OneBetween(lines, j, k, key);
    FewerAfter(Straight(lines, j), ParseOf(Broken(lines, j, torn), j + 1, k + 1, more), key);
  }

  lemma StraightCounts(lines: seq<Entry>, n: nat, key: EventKey)
    requires n <= |lines|
    ensures Get(Straight(lines, n).events, key, NO_EVENT).messages == Messages(lines, 0, n, key)
  {
    MessagesAre(BLANK, lines, 0, n, key);
  }

  /** A pass that asks for no rewind counts every record it reads. */
  lemma PassCounts(lines: seq<Entry>, o: nat, k: nat, torn: nat, key: EventKey)
    requires 0 < o <= k <= |lines| && !ParseOf(lines, o, k, torn).rewind
    ensures Get(ParseOf(lines, o, k, torn).tables.events, key, NO_EVENT).messages == Messages(lines, o, k, key)
  {
    NoRewindNoEarlierHour(lines, o, k, torn);
    MessagesAre(Begin(lines, o), lines, o, k, key);
  }

  lemma OneBetween(lines: seq<Entry>, j: nat, k: nat, key: EventKey)
    requires j < k <= |lines| && IsOf(lines[j], key)
    ensures Messages(lines, 0, k, key) == Messages(lines, 0, j, key) + 1 + Messages(lines, j + 1, k, key)
  {
    MessagesSplit(lines, 0, j, k, key);
    MessagesSplit(lines, j, j + 1, k, key);
    assert Messages(lines, j, j, key) == 0 && Messages(lines, j, j + 1, key) == 1;
  }

  /** What the store holds under a key is what one side of the offset holds. */
  lemma FewerAfter(db: Tables, p: Parsed, key: EventKey)
    ensures var m := Get(Apply(db, p, false).events, key, NO_EVENT).messages;
            m <= Get(db.events, key, NO_EVENT).messages || m == Get(p.tables.events, key, NO_EVENT).messages
  {
  }
}
