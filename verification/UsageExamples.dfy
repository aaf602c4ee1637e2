/** Transcripts on which two passes do not leave what one leaves. */
module UsageExamples {
  import opened Options
  import opened Lines
  import opened UsageRecords
  import opened UsageScan
  import opened UsageCut
  import opened UsageLookback
  import opened UsageTables
  import opened UsageSplit
  import opened UsageReplay
  import opened UsageLines
  import opened UsageClocks
  import opened UsageTheorems

  /** A later pass asks for a rewind exactly when it counted a record of an hour before its first. */
  lemma RewindIff(lines: seq<Entry>, o: nat, k: nat, torn: nat)
    requires 0 < o <= k <= |lines|
    ensures ParseOf(lines, o, k, torn).rewind <==> !HoursFrom(lines, o, k, ParseOf(lines, o, k, torn).since)
  {
    var p := ParseOf(lines, o, k, torn);
    PosMonotone(lines, 0, o);
    if !p.rewind {
      NoRewindNoEarlierHour(lines, o, k, torn);
    }
    if HoursFrom(lines, o, k, p.since) {
      NothingBefore(lines, o, k, p.since);
    }
  }

  function Prompt(hour: nat, blocks: seq<Block>): Entry {
    Line(1, Some(User(At(hour, None), "", false, false, blocks)))
  }

  function Answered(hour: nat, mid: string, blocks: seq<Block>): Entry {
    Line(1, Some(Assistant(At(hour, None), "", false, mid, "", NoUsage, blocks, "")))
  }

  const DISORDERED := [Prompt(12, []), Prompt(10, []), Prompt(13, []), Prompt(10, [])]

  lemma DisorderedOffset()
    ensures Pos(DISORDERED, 1) == ParseOf(DISORDERED, 0, 4, 0).offset
  {
    var lines := DISORDERED;
    PromptMarks(lines, 0, map[], 12);
    PromptMarks(lines, 1, map[12 := Span(0, 0)], 10);
    PromptMarks(lines, 2, map[12 := Span(0, 0), 10 := Span(1, 1)], 13);
    PromptMarks(lines, 3, map[12 := Span(0, 0), 10 := Span(1, 1), 13 := Span(2, 2)], 10);
    var hours := Run(BLANK, lines, 0, 4).hours;
    assert hours == map[12 := Span(0, 0), 10 := Span(1, 3), 13 := Span(2, 2)];
    DisorderedCut(hours);
  }

  /** A prompt marks its hour; its lines are one byte long. */
  lemma PromptMarks(lines: seq<Entry>, n: nat, was: map<nat, Span>, hour: nat)
    requires n < |lines| && lines[n] == Prompt(hour, []) && Pos(lines, n) == n && Run(BLANK, lines, 0, n).hours == was
    ensures Run(BLANK, lines, 0, n + 1).hours == Mark(was, hour, n) && Pos(lines, n + 1) == n + 1
  {
  }

  lemma DisorderedCut(hours: map<nat, Span>)
    requires hours == map[12 := Span(0, 0), 10 := Span(1, 3), 13 := Span(2, 2)]
    ensures Offset(hours, 4, 0) == 1
  {
    assert Latest(hours.Keys) == 13 by {
      assert 13 in hours.Keys && forall b | b in hours.Keys :: b <= 13;
    }
    assert Across(hours[10], 2) && Safe(hours, 1);
    assert SafeBelow(hours, 2) == SafeBelow(hours, 1) == 1;
  }

  predicate PromptOf(line: Entry, hour: nat) {
    line.record.Some? && line.record.value.User? && HourAt(line.record.value) == hour && line.record.value.agent == ""
  }

  lemma DisorderedStore(lines: seq<Entry>, o: nat, k: nat)
    requires o == 1 && k == 4 && |lines| == k
    requires PromptOf(lines[0], 12) && PromptOf(lines[1], 10) && PromptOf(lines[2], 13) && PromptOf(lines[3], 10)
    ensures !ParseOf(lines, o, k, 0).rewind
    ensures Stored(Straight(lines, k), lines, o, k, 0) != Straight(lines, k)
  {
    DisorderedSince(lines, o, k);
    RewindIff(lines, o, k, 0);
    DisorderedZone(lines, o, k);
    LateHourIsLost(lines, o, k, k, 0, 0);
  }

  lemma DisorderedSince(lines: seq<Entry>, o: nat, k: nat)
    requires o == 1 && k == 4 && |lines| == k
    requires PromptOf(lines[1], 10) && PromptOf(lines[2], 13) && PromptOf(lines[3], 10)
    ensures ParseOf(lines, o, k, 0).since == 10 && HoursFrom(lines, o, k, 10)
  {
    SinceIsFirstHour(Begin(lines, o), lines, o, k);
    assert HasHour(lines[o]);
  }

  lemma DisorderedZone(lines: seq<Entry>, o: nat, k: nat)
    requires o == 1 && k == 4 && |lines| == k
    requires PromptOf(lines[0], 12) && PromptOf(lines[1], 10)
    requires ParseOf(lines, o, k, 0).since == 10
    ensures CountedIn(lines[0], BatchZone(lines, o, k))
  {
    FirstIs(Begin(lines, o), lines, o, k);
    PosMonotone(lines, 0, o);
    assert IsCounted(lines[o]);
  }

  /** Hours 12, 10, 13, 10: the cut falls at the first 10, and the store drops every hour from 10 on,
      the hour 12 before the cut among them. */
  lemma DisorderLosesAnHour()
    ensures Pos(DISORDERED, 1) == ParseOf(DISORDERED, 0, 4, 0).offset && !ParseOf(DISORDERED, 1, 4, 0).rewind
    ensures Stored(Apply(NO_TABLES, ParseOf(DISORDERED, 0, 4, 0), true), DISORDERED, 1, 4, 0) != Straight(DISORDERED, 4)
  {
    DisorderedOffset();
    RewriteIsStraight(DISORDERED, 0, 4, 0);
    DisorderedStore(DISORDERED, 1, 4);
  }

  const LATE_ERROR := [Answered(10, "m", [Call("x", "Read")]), Prompt(11, []), Prompt(11, [Failed("x")])]

  lemma LateErrorOffset()
    ensures Pos(LATE_ERROR, 1) == ParseOf(LATE_ERROR, 0, 2, 0).offset
  {
    var lines := LATE_ERROR;
    AnswerMarks(lines, 10, "m", [Call("x", "Read")]);
    PromptMarks(lines, 1, map[10 := Span(0, 0)], 11);
    var hours := Run(BLANK, lines, 0, 2).hours;
    assert hours == map[10 := Span(0, 0), 11 := Span(1, 1)];
    LateErrorCut(hours);
  }

  lemma AnswerMarks(lines: seq<Entry>, hour: nat, mid: string, blocks: seq<Block>)
    requires lines != [] && lines[0] == Answered(hour, mid, blocks) && hour > 0 && mid != ""
    ensures Run(BLANK, lines, 0, 1).hours == map[hour := Span(0, 0)] && Pos(lines, 1) == 1
  {
    StepHours(BLANK, 0, lines[0].record.value);
  }

  lemma LateErrorCut(hours: map<nat, Span>)
    requires hours == map[10 := Span(0, 0), 11 := Span(1, 1)]
    ensures Offset(hours, 2, 0) == 1
  {
    assert Latest(hours.Keys) == 11 by {
      assert 11 in hours.Keys && forall b | b in hours.Keys :: b <= 11;
    }
    assert Safe(hours, 1);
  }

  lemma LateErrorHours(lines: seq<Entry>, o: nat, k: nat)
    requires o == 1 && k == 3 && |lines| == k
    requires IsAnswer(lines[0]) && HourIs(lines[0], 10) && PromptOf(lines[1], 11) && PromptOf(lines[2], 11)
    ensures HoursFrom(lines, o, k, 11) && Stamped(lines, 0, k) && HoursRise(lines, k)
    ensures Timed(lines, 0, o) && Contiguous(lines, 0, o)
  {
    forall i | 0 <= i < k
      ensures HasHour(lines[i]) && HourAt(lines[i].record.value) == if i == 0 then 10 else 11
    {
      assert i == 0 || i == 1 || i == 2;
    }
  }

  lemma LateErrorStore(lines: seq<Entry>, o: nat, j: nat, k: nat)
    requires o == 1 && j == 2 && k == 3 && |lines| == k
    requires IsAnswer(lines[0]) && HourIs(lines[0], 10) && CountedAt(lines, 0, o, "x").Some?
    requires PromptOf(lines[1], 11) && PromptOf(lines[2], 11) && Reports(lines[2], "x")
    requires Pos(lines, o) == ParseOf(lines, 0, j, 0).offset
    requires Pos(lines, o) <= LOOKBACK
    ensures !ParseOf(lines, o, k, 0).rewind
    ensures Stored(Apply(NO_TABLES, ParseOf(lines, 0, j, 0), true), lines, o, k, 0) != Straight(lines, k)
  {
    SinceIsFirstHour(Begin(lines, o), lines, o, k);
    assert HasHour(lines[o]);
    LateErrorHours(lines, o, k);
    RewindIff(lines, o, k, 0);
    assert !ErrorsApart(lines, o, j, k) by {
      assert j <= 2 < k && CountedAt(lines, 0, o, "x").Some? && Reports(lines[2], "x");
    }
    FullWindowTells(lines, o);
    TwoPassesInOrder(lines, j, k, o);
  }

  lemma CallIsMet(lines: seq<Entry>, o: nat)
    requires o == 1 && |lines| > 0 && lines[0] == Answered(10, "m", [Call("x", "Read")])
    ensures CountedAt(lines, 0, o, "x").Some?
  {
    assert Met(lines, 0, o - 1) == {};
    assert FirstCall([Call("x", "Read")], "x") == 0;
  }

  /** An error of a call before the cut, reported past the stored lines, is not counted. */
  lemma LateErrorIsNotCounted()
    ensures Pos(LATE_ERROR, 1) == ParseOf(LATE_ERROR, 0, 2, 0).offset && !ParseOf(LATE_ERROR, 1, 3, 0).rewind
    ensures Stored(Apply(NO_TABLES, ParseOf(LATE_ERROR, 0, 2, 0), true), LATE_ERROR, 1, 3, 0) != Straight(LATE_ERROR, 3)
  {
    LateErrorOffset();
    CallIsMet(LATE_ERROR, 1);
    LateErrorStore(LATE_ERROR, 1, 2, 3);
  }
}
