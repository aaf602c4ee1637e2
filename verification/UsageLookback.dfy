/** The two clocks a pass that starts inside a file is given: rebuilt from the end of what stands before it. */
module UsageLookback {
  import opened Options
  import opened Lines
  import opened UsageRecords
  import opened UsageScan
  import opened UsageCut

  const LOOKBACK := 0x10_0000

  /** What the backward look keeps: the clocks, and the answer it last met in place of every answer met. */
  datatype Look = Look(lastUser: Option<int>, lastAnswer: Option<int>, answer: Option<string>)

  const NO_LOOK := Look(None, None, None)

  function LookStep(k: Look, r: Record): Look {
    match r
    case User(stamp, _, _, human, _) =>
      k.(lastUser := if stamp.At? then MsOf(stamp) else k.lastUser,
         lastAnswer := if human then None else k.lastAnswer)
    case Assistant(stamp, _, synthetic, mid, _, _, _, _) =>
      var k := k.(lastAnswer := if stamp.At? then OrElse(MsOf(stamp), k.lastAnswer) else k.lastAnswer);
      if synthetic || k.answer == Some(mid) then k
      else k.(answer := Some(mid), lastUser := None)
    case Other(_) => k
  }

  function LookRun(lines: seq<Entry>, lo: nat, hi: nat): Look
    requires lo <= hi <= |lines|
    decreases hi
  {
    if lo == hi then NO_LOOK
    else
      var k := LookRun(lines, lo, hi - 1);
      if lines[hi - 1].record.Some? then LookStep(k, lines[hi - 1].record.value) else k
  }

  /** The first line the look reads: a look that starts inside the file drops the line it lands in. */
  function WindowStart(lines: seq<Entry>, o: nat): (w: nat)
    requires o <= |lines|
    ensures w <= o
  {
    if Pos(lines, o) <= LOOKBACK then 0 else FirstPast(lines, o, Pos(lines, o) - LOOKBACK)
  }

  function Lookback(lines: seq<Entry>, o: nat): Look
    requires o <= |lines|
  {
    LookRun(lines, WindowStart(lines, o), o)
  }

  method LookbackOf(lines: seq<Entry>, o: nat) returns (lastUser: Option<int>, lastAnswer: Option<int>)
    requires o <= |lines|
    ensures lastUser == Lookback(lines, o).lastUser && lastAnswer == Lookback(lines, o).lastAnswer
  {
    var offset := Pos(lines, o);
    var w: nat := 0;
    if offset > LOOKBACK {
      var start: nat := offset - LOOKBACK;
      w := o;
      while w > 0 && Pos(lines, w - 1) > start
        invariant w <= o && Pos(lines, w) > start
        invariant FirstPast(lines, o, start) == FirstPast(lines, w, start)
      {
        w := w - 1;
      }
    }
    lastUser, lastAnswer := None, None;
    var answer: Option<string> := None;
    var i := w;
    while i < o
      invariant w <= i <= o
      invariant Look(lastUser, lastAnswer, answer) == LookRun(lines, w, i)
    {
      var line := lines[i];
      i := i + 1;
      if line.record.None? {
        continue;
      }
      var r := line.record.value;
      if r.User? {
        if r.stamp.At? {
          lastUser := MsOf(r.stamp);
        }
        if r.human {
          lastAnswer := None;
        }
      } else if r.Assistant? {
        if r.stamp.At? {
          lastAnswer := OrElse(MsOf(r.stamp), lastAnswer);
        }
        if r.synthetic {
          continue;
        }
        if answer != Some(r.mid) {
          answer := Some(r.mid);
          lastUser := None;
        }
      }
    }
  }

  /** Every answer of these lines names its hour. */
  ghost predicate Timed(lines: seq<Entry>, lo: nat, hi: nat)
    requires lo <= hi <= |lines|
  {
    forall i | lo <= i < hi && lines[i].record.Some? ::
      var r := lines[i].record.value;
      r.Assistant? && !r.synthetic ==> HourAt(r) > 0
  }

  predicate IsAnswer(line: Entry) {
    line.record.Some? && Answers(line.record.value)
  }

  /** The records of one answer stand together among the records of answers. */
  ghost predicate Contiguous(lines: seq<Entry>, lo: nat, hi: nat)
    requires lo <= hi <= |lines|
  {
    forall j | lo <= j < hi && IsAnswer(lines[j]) :: Joined(lines, lo, j, lines[j].record.value.mid)
  }

  /** Once met, an answer is the only one met up to here. */
  ghost predicate Joined(lines: seq<Entry>, lo: nat, j: nat, x: string)
    requires lo <= j <= |lines|
  {
    forall i, k | lo <= i < k < j && AnswersAs(lines[i], x) && IsAnswer(lines[k]) :: AnswersAs(lines[k], x)
  }

  /** What the look remembers of the answers: the last one, and that the pass has met it. */
  ghost predicate LastMet(lines: seq<Entry>, lo: nat, hi: nat, k: Look)
    requires lo <= hi <= |lines|
  {
    if k.answer.None? then forall i | lo <= i < hi :: !IsAnswer(lines[i])
    else exists i :: lo <= i < hi && AnswersAs(lines[i], k.answer.value)
                     && forall j | i < j < hi :: !IsAnswer(lines[j])
  }

  ghost predicate AllMet(lines: seq<Entry>, lo: nat, hi: nat, s: Scan)
    requires lo <= hi <= |lines|
  {
    forall x :: x in s.answers <==> exists i :: lo <= i < hi && AnswersAs(lines[i], x)
  }

  /** Every answer of the lines read is kept, and no other. */
  lemma {:induction false} RunMeets(lines: seq<Entry>, lo: nat, hi: nat, s: Scan)
    requires lo <= hi <= |lines| && s.answers == map[]
    ensures AllMet(lines, lo, hi, Run(s, lines, lo, hi))
    decreases hi
  {
    if lo < hi {
      RunMeets(lines, lo, hi - 1, s);
      var was, now := Run(s, lines, lo, hi - 1), Run(s, lines, lo, hi);
      var line := lines[hi - 1];
      if line.record.Some? {
        StepHours(was, Pos(lines, hi - 1), line.record.value);
      }
      forall x
        ensures x in now.answers <==> x in was.answers || AnswersAs(line, x)
      {
        if IsAnswer(line) && x != line.record.value.mid {
          assert x in now.answers <==> x in now.answers - {line.record.value.mid};
          assert x in was.answers <==> x in was.answers - {line.record.value.mid};
        }
      }
    }
  }

  lemma {:induction false} LookMeets(lines: seq<Entry>, lo: nat, hi: nat)
    requires lo <= hi <= |lines| && Timed(lines, lo, hi)
    ensures LastMet(lines, lo, hi, LookRun(lines, lo, hi))
    decreases hi
  {
    if lo < hi {
      LookMeets(lines, lo, hi - 1);
    }
  }

  /** What one record does to the clocks of the pass. */
  lemma StepClocks(s: Scan, start: nat, r: Record)
    ensures Step(s, start, r).lastUser ==
            if r.User? && r.stamp.At? then MsOf(r.stamp)
            else if Answers(r) && r.mid !in s.answers then None
            else s.lastUser
    ensures Step(s, start, r).lastAnswer ==
            if r.User? && r.human then None
            else if r.Assistant? && r.stamp.At? then OrElse(MsOf(r.stamp), s.lastAnswer)
            else s.lastAnswer
  {
  }

  lemma LookClock(k: Look, s: Scan, start: nat, r: Record)
    requires r.Assistant? && !r.synthetic ==> HourAt(r) > 0
    requires k.lastUser == s.lastUser || k.lastUser.None?
    requires k.lastAnswer == s.lastAnswer || k.lastAnswer.None?
    requires k.answer.Some? ==> k.answer.value in s.answers
    ensures var k', s' := LookStep(k, r), Step(s, start, r);
            && (k'.lastUser == s'.lastUser || k'.lastUser.None?)
            && (k'.lastAnswer == s'.lastAnswer || k'.lastAnswer.None?)
  {
    StepClocks(s, start, r);
  }

  lemma LookClockExact(k: Look, s: Scan, start: nat, r: Record)
    requires r.Assistant? && !r.synthetic ==> HourAt(r) > 0
    requires k.lastUser == s.lastUser && k.lastAnswer == s.lastAnswer
    requires k.answer.Some? ==> k.answer.value in s.answers
    requires Answers(r) && r.mid in s.answers ==> k.answer == Some(r.mid)
    ensures LookStep(k, r).lastUser == Step(s, start, r).lastUser
    ensures LookStep(k, r).lastAnswer == Step(s, start, r).lastAnswer
  {
    StepClocks(s, start, r);
  }

  /** A look never shows a clock the pass does not hold: all a short window can do is lose one. */
  lemma {:induction false} LookNeverInvents(lines: seq<Entry>, w: nat, o: nat)
    requires w <= o <= |lines| && Timed(lines, 0, o)
    ensures var k, s := LookRun(lines, w, o), Run(BLANK, lines, 0, o);
            && (k.lastUser == s.lastUser || k.lastUser.None?)
            && (k.lastAnswer == s.lastAnswer || k.lastAnswer.None?)
    decreases o
  {
    if w < o {
      LookNeverInvents(lines, w, o - 1);
      LookMeets(lines, w, o - 1);
      RunMeets(lines, 0, o - 1, BLANK);
      if lines[o - 1].record.Some? {
        LookClock(LookRun(lines, w, o - 1), Run(BLANK, lines, 0, o - 1), Pos(lines, o - 1), lines[o - 1].record.value);
      }
    }
  }

  /** Among contiguous answers, one met before is the one met last. */
  lemma KnownIsLast(lines: seq<Entry>, o: nat, k: Look, s: Scan, x: string)
    requires o < |lines| && Contiguous(lines, 0, o + 1)
    requires LastMet(lines, 0, o, k) && AllMet(lines, 0, o, s)
    requires AnswersAs(lines[o], x) && x in s.answers
    ensures k.answer == Some(x)
  {
    assert Joined(lines, 0, o, x);
    var i :| 0 <= i < o && AnswersAs(lines[i], x);
    assert IsAnswer(lines[i]);
    var j :| 0 <= j < o && AnswersAs(lines[j], k.answer.value) && forall l | j < l < o :: !IsAnswer(lines[l]);
    assert i <= j && IsAnswer(lines[j]);
    assert i == j || AnswersAs(lines[j], x);
  }

  lemma LineIsExact(lines: seq<Entry>, o: nat, k: Look, s: Scan)
    requires o < |lines| && Timed(lines, 0, o + 1) && Contiguous(lines, 0, o + 1)
    requires k.lastUser == s.lastUser && k.lastAnswer == s.lastAnswer
    requires LastMet(lines, 0, o, k) && AllMet(lines, 0, o, s)
    requires lines[o].record.Some?
    ensures LookStep(k, lines[o].record.value).lastUser == Step(s, Pos(lines, o), lines[o].record.value).lastUser
    ensures LookStep(k, lines[o].record.value).lastAnswer == Step(s, Pos(lines, o), lines[o].record.value).lastAnswer
  {
    var r := lines[o].record.value;
    assert k.answer.Some? ==> k.answer.value in s.answers;
    if Answers(r) && r.mid in s.answers {
      KnownIsLast(lines, o, k, s, r.mid);
    }
    LookClockExact(k, s, Pos(lines, o), r);
  }

  /** A look that reaches the start of the file rebuilds exactly the clocks of the pass. */
  lemma {:induction false} LookIsExact(lines: seq<Entry>, o: nat)
    requires o <= |lines| && Timed(lines, 0, o) && Contiguous(lines, 0, o)
    ensures LookRun(lines, 0, o).lastUser == Run(BLANK, lines, 0, o).lastUser
    ensures LookRun(lines, 0, o).lastAnswer == Run(BLANK, lines, 0, o).lastAnswer
    decreases o
  {
    if 0 < o {
      LookIsExact(lines, o - 1);
      LookMeets(lines, 0, o - 1);
      RunMeets(lines, 0, o - 1, BLANK);
      if lines[o - 1].record.Some? {
        LineIsExact(lines, o - 1, LookRun(lines, 0, o - 1), Run(BLANK, lines, 0, o - 1));
      }
    }
  }

  /** A record that sets the clock of the last answer whatever stood before it. */
  predicate SetsAnswerClock(line: Entry) {
    && line.record.Some?
    && var r := line.record.value;
       (r.User? && r.human) || (r.Assistant? && MsOf(r.stamp).Some? && MsOf(r.stamp).value != 0)
  }

  /** The answer clock of a look over any window is right exactly when the window sets the clock,
      or there was none to lose. */
  lemma {:induction false} AnswerClockIsExact(lines: seq<Entry>, w: nat, o: nat)
    requires w <= o <= |lines|
    ensures LookRun(lines, w, o).lastAnswer == Run(BLANK, lines, 0, o).lastAnswer <==>
            (exists i :: w <= i < o && SetsAnswerClock(lines[i])) || Run(BLANK, lines, 0, w).lastAnswer.None?
    ensures (exists i :: w <= i < o && SetsAnswerClock(lines[i])) ||
            (LookRun(lines, w, o).lastAnswer.None? && Run(BLANK, lines, 0, o).lastAnswer == Run(BLANK, lines, 0, w).lastAnswer)
    decreases o
  {
    if w < o {
      AnswerClockIsExact(lines, w, o - 1);
      if lines[o - 1].record.Some? {
        StepClocks(Run(BLANK, lines, 0, o - 1), Pos(lines, o - 1), lines[o - 1].record.value);
      }
      if SetsAnswerClock(lines[o - 1]) {
        assert w <= o - 1 < o && SetsAnswerClock(lines[o - 1]);
      } else {
        forall i | w <= i < o && SetsAnswerClock(lines[i])
          ensures w <= i < o - 1
        {
        }
      }
    }
  }
}
