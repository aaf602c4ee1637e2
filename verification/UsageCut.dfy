/** Where the next pass starts: the latest place before the last hour that no hour stands across. */
module UsageCut {
  import opened Options
  import opened Lines
  import opened UsageRecords
  import opened UsageScan

  predicate Across(span: Span, p: nat) {
    span.first < p <= span.last
  }

  ghost predicate Safe(hours: map<nat, Span>, p: nat) {
    forall b | b in hours :: !Across(hours[b], p)
  }

  /** The greatest safe place not after p. The start of a file is always safe. */
  ghost function SafeBelow(hours: map<nat, Span>, p: nat): nat {
    if Safe(hours, p) then p
    else
      assert p > 0;
      SafeBelow(hours, p - 1)
  }

  ghost function Latest(keys: set<nat>): (latest: nat)
    requires keys != {}
    ensures latest in keys && forall k | k in keys :: k <= latest
  {
    var k :| k in keys;
    if keys == {k} then k
    else
      var rest := keys - {k};
      assert keys == rest + {k};
      var latest := Latest(rest);
      if latest < k then k else latest
  }

  ghost function Offset(hours: map<nat, Span>, end: nat, floor: nat): nat {
    if hours == map[] then Max(end, floor)
    else Max(SafeBelow(hours, hours[Latest(hours.Keys)].first), floor)
  }

  lemma {:induction false} SafeBelowIsGreatest(hours: map<nat, Span>, p: nat)
    ensures SafeBelow(hours, p) <= p && Safe(hours, SafeBelow(hours, p))
    ensures forall q: nat | q <= p && Safe(hours, q) :: q <= SafeBelow(hours, p)
  {
    if !Safe(hours, p) {
      SafeBelowIsGreatest(hours, p - 1);
    }
  }

  /** The fixpoint over the spans finds the greatest safe place, in whatever order the spans are walked. */
  method Cut(hours: map<nat, Span>, end: nat, floor: nat) returns (offset: nat)
    ensures offset == Offset(hours, end, floor)
  {
    if hours == map[] {
      return if end < floor then floor else end;
    }
    var keys := hours.Keys;
    var latest :| latest in keys;
    var left := keys - {latest};
    while left != {}
      invariant left <= keys && latest in keys && latest !in left
      invariant forall k | k in keys && k !in left :: k <= latest
      decreases |left|
    {
      var k :| k in left;
      left := left - {k};
      if k > latest {
        latest := k;
      }
    }
    assert latest == Latest(keys);
    var cut: nat := hours[latest].first;
    ghost var start := cut;
    var moved := true;
    while moved
      invariant cut <= start
      invariant forall q: nat | q <= start && Safe(hours, q) :: q <= cut
      invariant !moved ==> Safe(hours, cut)
      decreases cut + if moved then 1 else 0
    {
      moved := false;
      var todo := keys;
      ghost var before := cut;
      while todo != {}
        invariant todo <= keys
        invariant cut <= before <= start && (moved ==> cut < before) && (!moved ==> cut == before)
        invariant forall q: nat | q <= start && Safe(hours, q) :: q <= cut
        invariant !moved ==> forall b | b in keys && b !in todo :: !Across(hours[b], cut)
        decreases |todo|
      {
        var b :| b in todo;
        todo := todo - {b};
        if hours[b].last >= cut > hours[b].first {
          forall q: nat | q <= start && Safe(hours, q)
            ensures q <= hours[b].first
          {
            assert !Across(hours[b], q);
          }
          cut := hours[b].first;
          moved := true;
        }
      }
    }
    SafeBelowIsGreatest(hours, start);
    return if cut < floor then floor else cut;
  }

  /** The greatest safe place before the start of an hour is the start of an hour. */
  lemma {:induction false} CutStartsAnHour(hours: map<nat, Span>, b: nat) returns (h: nat)
    requires b in hours
    ensures h in hours && hours[h].first == SafeBelow(hours, hours[b].first)
    decreases hours[b].first
  {
    var p := hours[b].first;
    if Safe(hours, p) {
      h := b;
    } else {
      var c :| c in hours && Across(hours[c], p);
      h := CutStartsAnHour(hours, c);
      SafeBelowIsGreatest(hours, p);
      SafeBelowIsGreatest(hours, hours[c].first);
      var q := SafeBelow(hours, p);
      assert !Across(hours[c], q);
    }
  }

  /** How the marks of a pass stand to the lines [lo, hi) it has read. */
  ghost predicate Marked(lines: seq<Entry>, lo: nat, hi: nat, s: Scan)
    requires lo <= hi <= |lines|
  {
    && (forall b | b in s.hours :: b > 0 && s.hours[b].first <= s.hours[b].last < Pos(lines, hi))
    && (forall b | b in s.hours :: StartsAt(lines, lo, hi, b, s.hours[b].first))
    && (forall x | x in s.answers :: s.answers[x].bucket in s.hours)
    && (forall i | lo <= i < hi :: MarksLine(lines, i, s))
  }

  /** A record of this hour stands at this place. */
  ghost predicate StartsAt(lines: seq<Entry>, lo: nat, hi: nat, b: nat, p: nat)
    requires hi <= |lines|
  {
    exists i :: lo <= i < hi && HourIs(lines[i], b) && Pos(lines, i) == p
  }

  predicate HourIs(line: Entry, b: nat) {
    line.record.Some? && HourAt(line.record.value) == b
  }

  predicate AnswersAs(line: Entry, x: string) {
    line.record.Some? && Answers(line.record.value) && line.record.value.mid == x
  }

  predicate Within(span: Span, p: nat) {
    span.first <= p <= span.last
  }

  /** The hour of a line spans it, and so does the hour its answer is counted in. */
  ghost predicate MarksLine(lines: seq<Entry>, i: nat, s: Scan)
    requires i < |lines|
  {
    lines[i].record.Some? ==>
      var r := lines[i].record.value;
      && (HourAt(r) > 0 ==> HourAt(r) in s.hours && Within(s.hours[HourAt(r)], Pos(lines, i)))
      && (Answers(r) ==> r.mid in s.answers && s.answers[r.mid].bucket in s.hours
                         && Within(s.hours[s.answers[r.mid].bucket], Pos(lines, i)))
  }

  /** Spans only widen: a mark at a place not before any other. */
  ghost predicate Widened(was: map<nat, Span>, now: map<nat, Span>) {
    forall b | b in was :: b in now && now[b].first == was[b].first && now[b].last >= was[b].last
  }

  lemma MarkWidens(hours: map<nat, Span>, b: nat, start: nat)
    requires forall k | k in hours :: hours[k].last <= start
    ensures Widened(hours, Mark(hours, b, start))
    ensures b > 0 ==> b in Mark(hours, b, start) && Mark(hours, b, start)[b].last == start
    ensures b > 0 && b !in hours ==> Mark(hours, b, start)[b].first == start
    ensures Mark(hours, b, start).Keys == hours.Keys + if b > 0 then {b} else {}
    ensures forall k | k in Mark(hours, b, start) :: Mark(hours, b, start)[k].last <= start
  {
  }

  /** The hour an answer is counted in: the hour it was first heard in. */
  function BucketOf(s: Scan, r: Record): nat
    requires Answers(r)
  {
    if r.mid in s.answers then s.answers[r.mid].bucket else HourAt(r)
  }

  lemma StepHours(s: Scan, start: nat, r: Record)
    ensures Step(s, start, r).hours ==
            if Answers(r) then Mark(Mark(s.hours, BucketOf(s, r), start), HourAt(r), start)
            else Mark(s.hours, HourAt(r), start)
    ensures !Answers(r) ==> Step(s, start, r).answers == s.answers
    ensures Answers(r) ==> r.mid in Step(s, start, r).answers
                           && Step(s, start, r).answers[r.mid].bucket == BucketOf(s, r)
                           && Step(s, start, r).answers - {r.mid} == s.answers - {r.mid}
  {
  }

  /** What a record does to the marks: it marks its own hour and the hour of its answer. */
  ghost predicate Remarked(s: Scan, start: nat, r: Record, now: Scan) {
    && Widened(s.hours, now.hours)
    && (forall k | k in now.hours :: now.hours[k].last <= start)
    && (forall k | k in now.hours && k !in s.hours ::
          k == HourAt(r) && k > 0 && now.hours[k] == Span(start, start))
    && (forall x | x in s.answers :: x in now.answers && now.answers[x].bucket == s.answers[x].bucket)
    && (forall x | x in now.answers :: now.answers[x].bucket in now.hours)
    && (HourAt(r) > 0 ==> HourAt(r) in now.hours && now.hours[HourAt(r)].last == start)
    && (Answers(r) ==> r.mid in now.answers && now.hours[now.answers[r.mid].bucket].last == start)
  }

  lemma OthersStay<K, V>(was: map<K, V>, now: map<K, V>, k: K)
    requires now - {k} == was - {k}
    ensures forall x | x in now && x != k :: x in was && now[x] == was[x]
    ensures forall x | x in was && x != k :: x in now && now[x] == was[x]
  {
    forall x | x in now && x != k
      ensures x in was && now[x] == was[x]
    {
      assert x in now - {k};
    }
    forall x | x in was && x != k
      ensures x in now && now[x] == was[x]
    {
      assert x in was - {k};
    }
  }

  lemma StepMarks(s: Scan, start: nat, r: Record)
    requires forall k | k in s.hours :: k > 0 && s.hours[k].last <= start
    requires forall x | x in s.answers :: s.answers[x].bucket in s.hours
    ensures Remarked(s, start, r, Step(s, start, r))
  {
    StepHours(s, start, r);
    if Answers(r) {
      MarkWidens(s.hours, BucketOf(s, r), start);
      MarkWidens(Mark(s.hours, BucketOf(s, r), start), HourAt(r), start);
      OthersStay(s.answers, Step(s, start, r).answers, r.mid);
    } else {
      MarkWidens(s.hours, HourAt(r), start);
    }
  }

  lemma HourStarts(lines: seq<Entry>, lo: nat, hi: nat, s: Scan, b: nat)
    requires lo <= hi < |lines| && Marked(lines, lo, hi, s)
    requires lines[hi].record.Some? ==>
               Remarked(s, Pos(lines, hi), lines[hi].record.value, LineStep(s, Pos(lines, hi), lines[hi]))
    requires b in LineStep(s, Pos(lines, hi), lines[hi]).hours
    ensures var span := LineStep(s, Pos(lines, hi), lines[hi]).hours[b];
            b > 0 && span.first <= span.last < Pos(lines, hi + 1) && StartsAt(lines, lo, hi + 1, b, span.first)
  {
    if b in s.hours {
      assert StartsAt(lines, lo, hi, b, s.hours[b].first);
    } else {
      assert HourIs(lines[hi], b);
    }
  }

  lemma LineStaysMarked(lines: seq<Entry>, lo: nat, hi: nat, s: Scan, i: nat)
    requires lo <= i <= hi < |lines| && Marked(lines, lo, hi, s)
    requires lines[hi].record.Some? ==>
               Remarked(s, Pos(lines, hi), lines[hi].record.value, LineStep(s, Pos(lines, hi), lines[hi]))
    ensures MarksLine(lines, i, LineStep(s, Pos(lines, hi), lines[hi]))
  {
    if i < hi {
      assert MarksLine(lines, i, s);
    } else if lines[hi].record.Some? {
      MarksLast(lines, hi, s);
    }
  }

  /** One line keeps the marks in step with the lines read. */
  lemma LineMarks(lines: seq<Entry>, lo: nat, hi: nat, s: Scan)
    requires lo <= hi < |lines|
    requires Marked(lines, lo, hi, s)
    ensures Marked(lines, lo, hi + 1, LineStep(s, Pos(lines, hi), lines[hi]))
  {
    var start := Pos(lines, hi);
    var now := LineStep(s, start, lines[hi]);
    if lines[hi].record.Some? {
      StepMarks(s, start, lines[hi].record.value);
    }
    forall b | b in now.hours
      ensures b > 0 && now.hours[b].first <= now.hours[b].last < Pos(lines, hi + 1)
      ensures StartsAt(lines, lo, hi + 1, b, now.hours[b].first)
    {
      HourStarts(lines, lo, hi, s, b);
    }
    forall i | lo <= i < hi + 1
      ensures MarksLine(lines, i, now)
    {
      LineStaysMarked(lines, lo, hi, s, i);
    }
  }

  /** The spans a record widens hold the record: they start no later than it stands. */
  lemma MarksLast(lines: seq<Entry>, hi: nat, s: Scan)
    requires hi < |lines| && lines[hi].record.Some?
    requires forall k | k in s.hours :: k > 0 && s.hours[k].first <= s.hours[k].last <= Pos(lines, hi)
    requires forall x | x in s.answers :: s.answers[x].bucket in s.hours
    ensures MarksLine(lines, hi, Step(s, Pos(lines, hi), lines[hi].record.value))
  {
    StepMarks(s, Pos(lines, hi), lines[hi].record.value);
  }

  lemma {:induction false} RunMarks(s: Scan, lines: seq<Entry>, lo: nat, hi: nat)
    requires lo <= hi <= |lines|
    requires s.hours == map[] && s.answers == map[]
    ensures Marked(lines, lo, hi, Run(s, lines, lo, hi))
    decreases hi
  {
    if lo < hi {
      RunMarks(s, lines, lo, hi - 1);
      LineMarks(lines, lo, hi - 1, Run(s, lines, lo, hi - 1));
    }
  }

  /** A safe place leaves every answer and every hour of the lines read on one side of it. */
  lemma SafeKeepsWhole(s: Scan, lines: seq<Entry>, lo: nat, hi: nat, o: nat)
    requires lo <= o <= hi <= |lines|
    requires Marked(lines, lo, hi, s)
    requires Safe(s.hours, Pos(lines, o))
    ensures forall i, j, x | lo <= i < o <= j < hi && AnswersAs(lines[i], x) :: !AnswersAs(lines[j], x)
    ensures forall i, j, b | lo <= i < o <= j < hi && b > 0 && HourIs(lines[i], b) :: !HourIs(lines[j], b)
  {
    forall i, j | lo <= i < o <= j < hi && lines[i].record.Some? && lines[j].record.Some?
      ensures Answers(lines[i].record.value) && Answers(lines[j].record.value)
              ==> lines[i].record.value.mid != lines[j].record.value.mid
      ensures HourAt(lines[i].record.value) > 0
              ==> HourAt(lines[i].record.value) != HourAt(lines[j].record.value)
    {
      PosOrder(lines, i, o);
      PosOrder(lines, j, o);
      assert MarksLine(lines, i, s) && MarksLine(lines, j, s);
      var r := lines[i].record.value;
      if Answers(r) {
        assert !Across(s.hours[s.answers[r.mid].bucket], Pos(lines, o));
      }
      if HourAt(r) > 0 {
        assert !Across(s.hours[HourAt(r)], Pos(lines, o));
      }
    }
  }
}
