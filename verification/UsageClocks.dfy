/** When the clocks looked back for are the clocks of a straight pass, read off the lines. */
module UsageClocks {
  import opened Options
  import opened Lines
  import opened UsageRecords
  import opened UsageScan
  import opened UsageCut
  import opened UsageLookback
  import opened UsageTables
  import opened UsageSplit
  import opened UsageLines
  import opened UsageReplay

  /** A prompt with a time sets the clock of the last prompt. */
  predicate SetsUserClock(line: Entry) {
    line.record.Some? && line.record.value.User? && line.record.value.stamp.At?
  }

  function LastPrompt(lines: seq<Entry>, lo: nat, hi: nat): (u: Option<nat>)
    requires lo <= hi <= |lines|
    ensures u.Some? ==> lo <= u.value < hi && SetsUserClock(lines[u.value])
  {
    if lo == hi then None
    else if SetsUserClock(lines[hi - 1]) then Some(hi - 1)
    else LastPrompt(lines, lo, hi - 1)
  }

  /** A record the look takes for an answer's, whether or not it names an hour. */
  predicate Says(line: Entry) {
    line.record.Some? && line.record.value.Assistant? && !line.record.value.synthetic
  }

  function LastSaid(lines: seq<Entry>, lo: nat, hi: nat): Option<string>
    requires lo <= hi <= |lines|
  {
    if lo == hi then None
    else if Says(lines[hi - 1]) then Some(lines[hi - 1].record.value.mid)
    else LastSaid(lines, lo, hi - 1)
  }

  /** An answer begins among some lines: the pass takes the prompt for answered. */
  ghost predicate BeginsIn(lines: seq<Entry>, lo: nat, hi: nat)
    requires lo <= hi <= |lines|
  {
    exists l :: lo <= l < hi && Begins(lines, 0, l)
  }

  /** One answer gives way to another among some lines of a window: the look takes the prompt for answered. */
  ghost predicate TurnsIn(lines: seq<Entry>, w: nat, lo: nat, hi: nat)
    requires w <= lo <= hi <= |lines|
  {
    exists l :: lo <= l < hi && Turns(lines, w, l)
  }

  predicate Turns(lines: seq<Entry>, w: nat, l: nat)
    requires w <= l < |lines|
  {
    Says(lines[l]) && LastSaid(lines, w, l) != Some(lines[l].record.value.mid)
  }

  function PromptTime(line: Entry): Option<int>
    requires SetsUserClock(line)
  {
    MsOf(line.record.value.stamp)
  }

  lemma BeginsInNext(lines: seq<Entry>, lo: nat, hi: nat)
    requires lo < hi <= |lines|
    ensures BeginsIn(lines, lo, hi) <==> BeginsIn(lines, lo, hi - 1) || Begins(lines, 0, hi - 1)
  {
  }

  /** A stamped prompt sets the clock, and an answer that begins clears it. */
  lemma UserClockNext(lines: seq<Entry>, n: nat)
    requires n < |lines|
    ensures Run(BLANK, lines, 0, n + 1).lastUser ==
            if SetsUserClock(lines[n]) then PromptTime(lines[n])
            else if Begins(lines, 0, n) then None
            else Run(BLANK, lines, 0, n).lastUser
  {
    if lines[n].record.Some? {
      StepClocks(Run(BLANK, lines, 0, n), Pos(lines, n), lines[n].record.value);
    }
    if IsAnswer(lines[n]) {
      NewIsBegun(lines, n);
    }
  }

  lemma {:induction false} UserClockIs(lines: seq<Entry>, o: nat)
    requires o <= |lines|
    ensures var u := LastPrompt(lines, 0, o);
            Run(BLANK, lines, 0, o).lastUser ==
            if u.None? || BeginsIn(lines, u.value + 1, o) then None else PromptTime(lines[u.value])
  {
    if o > 0 {
      UserClockIs(lines, o - 1);
      UserClockNext(lines, o - 1);
      var u := LastPrompt(lines, 0, o - 1);
      if u.Some? && !SetsUserClock(lines[o - 1]) {
        BeginsInNext(lines, u.value + 1, o);
      }
    }
  }

  lemma NewIsBegun(lines: seq<Entry>, l: nat)
    requires l < |lines| && IsAnswer(lines[l])
    ensures Begins(lines, 0, l) <==> lines[l].record.value.mid !in Run(BLANK, lines, 0, l).answers
  {
    RunMeets(lines, 0, l, BLANK);
  }

  lemma {:induction false} LookIs(lines: seq<Entry>, w: nat, o: nat)
    requires w <= o <= |lines|
    ensures LookRun(lines, w, o).answer == LastSaid(lines, w, o)
    ensures var u := LastPrompt(lines, w, o);
            LookRun(lines, w, o).lastUser ==
            if u.None? || TurnsIn(lines, w, u.value + 1, o) then None else PromptTime(lines[u.value])
    decreases o
  {
    if w < o {
      LookIs(lines, w, o - 1);
      var u := LastPrompt(lines, w, o - 1);
      if u.Some? && !SetsUserClock(lines[o - 1]) {
        assert TurnsIn(lines, w, u.value + 1, o) <==> TurnsIn(lines, w, u.value + 1, o - 1) || Turns(lines, w, o - 1);
      }
    }
  }

  lemma {:induction false} LastPromptSplit(lines: seq<Entry>, w: nat, o: nat)
    requires w <= o <= |lines|
    ensures LastPrompt(lines, 0, o) == if LastPrompt(lines, w, o).Some? then LastPrompt(lines, w, o) else LastPrompt(lines, 0, w)
    decreases o
  {
    if w < o {
      LastPromptSplit(lines, w, o - 1);
    }
  }

  /** What the window must hold for the prompt clock: past its last prompt an answer gives way to another exactly when a
      new one begins; or, when it holds no prompt, the prompt before it has been answered, or has no time to tell. */
  ghost predicate UserClockKept(lines: seq<Entry>, w: nat, o: nat)
    requires w <= o <= |lines|
  {
    var u, v := LastPrompt(lines, w, o), LastPrompt(lines, 0, w);
    if u.Some? then
      PromptTime(lines[u.value]).None? || (BeginsIn(lines, u.value + 1, o) <==> TurnsIn(lines, w, u.value + 1, o))
    else v.None? || PromptTime(lines[v.value]).None? || BeginsIn(lines, v.value + 1, o)
  }

  /** The prompt clock of a look over any window is right exactly when the window holds what it must. */
  lemma UserClockIsExact(lines: seq<Entry>, w: nat, o: nat)
    requires w <= o <= |lines|
    ensures LookRun(lines, w, o).lastUser == Run(BLANK, lines, 0, o).lastUser <==> UserClockKept(lines, w, o)
  {
    LookIs(lines, w, o);
    UserClockIs(lines, o);
    LastPromptSplit(lines, w, o);
  }

  /** No answer's time is known at a place: nothing set the clock, or a person spoke last. */
  predicate AnswerUnset(lines: seq<Entry>, n: nat)
    requires n <= |lines|
  {
    n == 0 || (if SetsAnswerClock(lines[n - 1]) then lines[n - 1].record.value.User? else AnswerUnset(lines, n - 1))
  }

  lemma {:induction false} AnswerUnsetIff(lines: seq<Entry>, n: nat)
    requires n <= |lines|
    ensures Run(BLANK, lines, 0, n).lastAnswer.None? <==> AnswerUnset(lines, n)
  {
    if n > 0 {
      AnswerUnsetIff(lines, n - 1);
      if lines[n - 1].record.Some? {
        StepClocks(Run(BLANK, lines, 0, n - 1), Pos(lines, n - 1), lines[n - 1].record.value);
      }
    }
  }

  ghost predicate AnswerClockKept(lines: seq<Entry>, w: nat, o: nat)
    requires w <= o <= |lines|
  {
    (exists i :: w <= i < o && SetsAnswerClock(lines[i])) || AnswerUnset(lines, w)
  }

  /** The window before an offset tells both clocks. */
  ghost predicate ClocksKept(lines: seq<Entry>, o: nat)
    requires o <= |lines|
  {
    UserClockKept(lines, WindowStart(lines, o), o) && AnswerClockKept(lines, WindowStart(lines, o), o)
  }

  /** A later pass starts with the clocks of a straight pass exactly when the window before its offset tells them. */
  lemma ClocksRebuiltIff(lines: seq<Entry>, o: nat)
    requires 0 < o <= |lines|
    ensures ClocksRebuilt(lines, o) <==> ClocksKept(lines, o)
  {
    PosMonotone(lines, 0, o);
    var w := WindowStart(lines, o);
    UserClockIsExact(lines, w, o);
    AnswerClockIsExact(lines, w, o);
    AnswerUnsetIff(lines, w);
  }

  /** A window that reaches the start of the file tells both, where answers stand together and their times can be read. */
  lemma FullWindowTells(lines: seq<Entry>, o: nat)
    requires 0 < o <= |lines| && Pos(lines, o) <= LOOKBACK && Timed(lines, 0, o) && Contiguous(lines, 0, o)
    ensures ClocksKept(lines, o)
  {
    PosMonotone(lines, 0, o);
    LookIsExact(lines, o);
    ClocksRebuiltIff(lines, o);
  }
}
