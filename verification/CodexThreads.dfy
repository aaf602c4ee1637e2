/** The runs a session started: the threads of a codex home, each put down to the call that made it. */
module CodexThreads {
  import opened Sequences

  const WINDOW := 60_000
  const TASKS := "/.agents/tasks/"

  /** A call that may have started runs. `back` is when it came back, 0 while it is out. */
  datatype Call = Call(id: string, at: nat, back: nat, cwd: string, paths: seq<string>, resume: bool)

  /** A thread as the database keeps it. Its id stands for its rank among ids. `read` says that its row is well formed,
      `kept` that its rollout is still there. */
  datatype Thread = Thread(id: nat, made: nat, cwd: string, read: bool, kept: bool)

  datatype Run = Run(thread: Thread, call: Call)

  function Stripped(path: string): string {
    if path != "" && path[|path| - 1] == '/' then Stripped(path[..|path| - 1]) else path
  }

  predicate Starts(path: string, head: string) {
    |head| <= |path| && path[..|head|] == head
  }

  predicate Under(path: string, root: string) {
    var r := Stripped(root);
    r != "" && (path == r || Starts(path, r + "/"))
  }

  /** The part of a path before a mark; the whole of it when the mark is nowhere. */
  function BeforeMark(path: string, mark: string): string {
    if path == "" || Starts(path, mark) then "" else [path[0]] + BeforeMark(path[1..], mark)
  }

  lemma {:induction false} StrippedIs(path: string)
    ensures Stripped(path) <= path && (Stripped(path) != "" ==> Stripped(path)[|Stripped(path)| - 1] != '/')
    ensures forall k | |Stripped(path)| <= k < |path| :: path[k] == '/'
  {
    if path != "" && path[|path| - 1] == '/' {
      StrippedIs(path[..|path| - 1]);
    }
  }

  /** A path is under a root when it is the root or goes on past it with a slash: a name that only begins alike is not. */
  lemma UnderIsWithin(path: string, root: string)
    ensures Under(path, root) <==>
            var r := Stripped(root); r != "" && r <= path && (|path| > |r| ==> path[|r|] == '/')
  {
    var r := Stripped(root);
    if |path| > |r| {
      assert path[..|r| + 1] == path[..|r|] + [path[|r|]];
    }
  }

  /** What stands before a mark ends where the mark first begins. */
  lemma {:induction false} BeforeMarkIs(path: string, mark: string)
    ensures BeforeMark(path, mark) <= path
    ensures forall k | 0 <= k < |BeforeMark(path, mark)| :: !Starts(path[k..], mark)
    ensures |BeforeMark(path, mark)| < |path| ==> Starts(path[|BeforeMark(path, mark)|..], mark)
  {
    if path != "" && !Starts(path, mark) {
      var rest := path[1..];
      BeforeMarkIs(rest, mark);
      forall k | 0 <= k < |BeforeMark(path, mark)|
        ensures !Starts(path[k..], mark)
      {
        assert k > 0 ==> path[k..] == rest[k - 1..];
      }
      assert |BeforeMark(path, mark)| < |path| ==> path[|BeforeMark(path, mark)|..] == rest[|BeforeMark(rest, mark)|..];
    }
  }

  /** A task's directory stands for the project's own. */
  predicate RanIn(call: Call, cwd: string) {
    var own := Stripped(BeforeMark(cwd, TASKS));
    own != "" && (Under(own, call.cwd) || exists p :: p in call.paths && Under(p, own))
  }

  /** A thread may be put down to a call that ran where the thread did, in the window after the call. */
  predicate InWindow(c: Call, t: Thread) {
    t.made - WINDOW <= c.at <= t.made
  }

  function Till(calls: seq<Call>, until: nat): (till: map<string, nat>)
    ensures forall c | c in calls :: c.id in till
  {
    if calls == [] then map[]
    else
      var c := calls[|calls| - 1];
      Till(calls[..|calls| - 1], until)[c.id := if c.back > 0 then c.back else if until > c.at then until else c.at]
  }

  ghost predicate Covers(till: map<string, nat>, calls: seq<Call>) {
    forall c | c in calls :: c.id in till
  }

  predicate OutLong(c: Call, till: map<string, nat>)
    requires c.id in till
  {
    till[c.id] - c.at > WINDOW
  }

  predicate StillOut(c: Call, t: Thread, till: map<string, nat>)
    requires c.id in till
  {
    c.at < t.made <= till[c.id]
  }

  function Near(calls: seq<Call>, t: Thread): seq<Call> {
    Only(calls, (c: Call) => InWindow(c, t) && RanIn(c, t.cwd))
  }

  function Late(calls: seq<Call>, t: Thread, till: map<string, nat>): seq<Call> {
    Only(calls, (c: Call) => c.id in till && OutLong(c, till) && StillOut(c, t, till) && RanIn(c, t.cwd))
  }

  /** The calls of a session that ran where a thread did. */
  function Here(calls: seq<Call>, cwd: string): seq<Call> {
    Only(calls, (c: Call) => RanIn(c, cwd))
  }

  /** The calls a thread may be put down to, in the order they went out. */
  function Candidates(calls: seq<Call>, t: Thread, till: map<string, nat>): (near: seq<Call>)
    requires Covers(till, calls)
    ensures forall c | c in near :: c in calls && RanIn(c, t.cwd) && (InWindow(c, t) || StillOut(c, t, till))
  {
    if Near(calls, t) != [] then Near(calls, t) else Late(calls, t, till)
  }

  function StillOutOf(near: seq<Call>, made: nat, till: map<string, nat>): seq<Call> {
    Only(near, (c: Call) => c.id in till && till[c.id] >= made)
  }

  /** The calls weighed: those still out when the thread was made, or else all. */
  function Weighed(near: seq<Call>, made: nat, till: map<string, nat>): (weighed: seq<Call>)
    requires Covers(till, near)
    ensures near != [] ==> weighed != []
    ensures forall c | c in weighed :: c in near
  {
    if StillOutOf(near, made, till) != [] then StillOutOf(near, made, till) else near
  }

  /** The first call no thread is put down to; the number of calls when each has one. */
  function FirstFresh(calls: seq<Call>, told: set<string>): (i: nat)
    ensures i <= |calls| && (i < |calls| ==> calls[i].id !in told)
    ensures forall j | 0 <= j < i :: calls[j].id in told
  {
    if calls == [] || calls[0].id !in told then 0 else FirstFresh(calls[1..], told) + 1
  }

  function Starter(near: seq<Call>, made: nat, told: set<string>, till: map<string, nat>): Call
    requires near != [] && Covers(till, near)
  {
    var out := Weighed(near, made, till);
    var i := FirstFresh(out, told);
    if i < |out| then out[i] else out[|out| - 1]
  }

  function Told(runs: seq<Run>): set<string> {
    set r | r in runs :: r.call.id
  }

  /** A thread the session started, when it is one. */
  predicate Started(calls: seq<Call>, t: Thread, till: map<string, nat>)
    requires Covers(till, calls)
  {
    t.read && t.kept && Candidates(calls, t, till) != []
  }

  function Extend(calls: seq<Call>, runs: seq<Run>, t: Thread, till: map<string, nat>): seq<Run>
    requires Covers(till, calls)
  {
    if Started(calls, t, till) then runs + [Run(t, Starter(Candidates(calls, t, till), t.made, Told(runs), till))] else runs
  }

  /** The runs of the threads, in the order the threads were made. */
  function Assigned(calls: seq<Call>, threads: seq<Thread>, till: map<string, nat>): seq<Run>
    requires Covers(till, calls)
  {
    if threads == [] then [] else Extend(calls, Assigned(calls, threads[..|threads| - 1], till), threads[|threads| - 1], till)
  }

  ghost predicate ByTime(calls: seq<Call>) {
    forall i, j | 0 <= i < j < |calls| :: calls[i].at <= calls[j].at
  }

  ghost predicate ByMade(threads: seq<Thread>) {
    forall i, j | 0 <= i < j < |threads| ::
      threads[i].made < threads[j].made || (threads[i].made == threads[j].made && threads[i].id < threads[j].id)
  }

  function Within(threads: seq<Thread>, lo: nat, hi: nat): (some: seq<Thread>)
    ensures forall t :: t in some <==> t in threads && lo <= t.made <= hi
  {
    if threads == [] then []
    else
      var t := threads[|threads| - 1];
      Within(threads[..|threads| - 1], lo, hi) + if lo <= t.made <= hi then [t] else []
  }

  /** The end of the span threads are asked for. */
  function LastOf(calls: seq<Call>, till: map<string, nat>, over: nat): (last: nat)
    requires Covers(till, calls)
    ensures last >= over && forall c | c in calls && OutLong(c, till) :: till[c.id] <= last
  {
    if calls == [] then over
    else
      var c := calls[|calls| - 1];
      var last := LastOf(calls[..|calls| - 1], till, over);
      if OutLong(c, till) && till[c.id] > last then till[c.id] else last
  }

  lemma InSpan(calls: seq<Call>, t: Thread, till: map<string, nat>)
    requires calls != [] && ByTime(calls) && Covers(till, calls) && Started(calls, t, till)
    ensures calls[0].at <= t.made <= LastOf(calls, till, calls[|calls| - 1].at + WINDOW)
  {
    var c := Candidate(calls, t, till);
    var i :| 0 <= i < |calls| && calls[i] == c;
  }

  /** A started thread has a call it was made in the window of, or while it was long out. */
  lemma Candidate(calls: seq<Call>, t: Thread, till: map<string, nat>) returns (c: Call)
    requires Covers(till, calls) && Started(calls, t, till)
    ensures c in calls && (InWindow(c, t) || (OutLong(c, till) && StillOut(c, t, till)))
  {
    if Near(calls, t) != [] {
      c := Near(calls, t)[0];
      assert c in Near(calls, t);
    } else {
      c := Late(calls, t, till)[0];
      assert c in Late(calls, t, till);
    }
  }

  /** The span asked of the database loses no thread a call started. */
  lemma {:induction false} SpanLosesNone(calls: seq<Call>, threads: seq<Thread>, till: map<string, nat>, lo: nat, hi: nat)
    requires calls != [] && ByTime(calls) && Covers(till, calls)
    requires lo == calls[0].at && hi == LastOf(calls, till, calls[|calls| - 1].at + WINDOW)
    ensures Assigned(calls, Within(threads, lo, hi), till) == Assigned(calls, threads, till)
  {
    if threads != [] {
      var n := |threads| - 1;
      SpanLosesNone(calls, threads[..n], till, lo, hi);
      SpanOneMore(calls, threads[..n], threads[n], till, lo, hi);
      LastSplit(threads);
    }
  }

  lemma SpanOneMore(calls: seq<Call>, rest: seq<Thread>, t: Thread, till: map<string, nat>, lo: nat, hi: nat)
    requires calls != [] && ByTime(calls) && Covers(till, calls)
    requires lo == calls[0].at && hi == LastOf(calls, till, calls[|calls| - 1].at + WINDOW)
    requires Assigned(calls, Within(rest, lo, hi), till) == Assigned(calls, rest, till)
    ensures Assigned(calls, Within(rest + [t], lo, hi), till) == Assigned(calls, rest + [t], till)
  {
    var was, some := Assigned(calls, rest, till), Within(rest, lo, hi);
    AssignedMore(calls, rest, t, till);
    WithinMore(rest, t, lo, hi);
    if lo <= t.made <= hi {
      AssignedMore(calls, some, t, till);
    } else {
      OutsideSpan(calls, was, t, till, lo, hi);
    }
  }

  lemma WithinMore(threads: seq<Thread>, t: Thread, lo: nat, hi: nat)
    ensures Within(threads + [t], lo, hi) == if lo <= t.made <= hi then Within(threads, lo, hi) + [t] else Within(threads, lo, hi)
  {
    assert (threads + [t])[..|threads|] == threads;
  }

  lemma OutsideSpan(calls: seq<Call>, runs: seq<Run>, t: Thread, till: map<string, nat>, lo: nat, hi: nat)
    requires calls != [] && ByTime(calls) && Covers(till, calls)
    requires lo == calls[0].at && hi == LastOf(calls, till, calls[|calls| - 1].at + WINDOW)
    requires !(lo <= t.made <= hi)
    ensures Extend(calls, runs, t, till) == runs
  {
    if Started(calls, t, till) {
      InSpan(calls, t, till);
    }
  }

  lemma AssignedMore(calls: seq<Call>, threads: seq<Thread>, t: Thread, till: map<string, nat>)
    requires Covers(till, calls)
    ensures Assigned(calls, threads + [t], till) == Extend(calls, Assigned(calls, threads, till), t, till)
  {
    assert (threads + [t])[..|threads|] == threads;
  }

  ghost predicate FirstOfFresh(weighed: seq<Call>, told: set<string>, c: Call) {
    exists i :: 0 <= i < |weighed| && weighed[i] == c && c.id !in told && forall j | 0 <= j < i :: weighed[j].id in told
  }

  /** A run is a thread with a call of its own candidates, still out when the thread was made unless none was. It is the
      first of those weighed that no thread is put down to; a call that has a thread already gets another only when
      every call weighed has one, and it is the latest of them. */
  ghost predicate Sound(calls: seq<Call>, till: map<string, nat>, run: Run, told: set<string>)
    requires Covers(till, calls)
  {
    var t, c := run.thread, run.call;
    Started(calls, t, till) && Chosen(Candidates(calls, t, till), t.made, told, till, c)
  }

  ghost predicate Chosen(near: seq<Call>, made: nat, told: set<string>, till: map<string, nat>, c: Call)
    requires Covers(till, near)
  {
    var weighed := Weighed(near, made, till);
    && c in weighed
    && (c.id in till && till[c.id] < made ==> forall d | d in near :: till[d.id] < made)
    && (c.id !in told ==> FirstOfFresh(weighed, told, c))
    && (c.id in told ==> c == weighed[|weighed| - 1] && forall d | d in weighed :: d.id in told)
  }

  ghost predicate AllSound(calls: seq<Call>, till: map<string, nat>, runs: seq<Run>)
    requires Covers(till, calls)
  {
    runs == [] || (AllSound(calls, till, runs[..|runs| - 1])
                   && Sound(calls, till, runs[|runs| - 1], Told(runs[..|runs| - 1])))
  }

  lemma {:induction false} RunsAreSound(calls: seq<Call>, threads: seq<Thread>, till: map<string, nat>)
    requires Covers(till, calls)
    ensures AllSound(calls, till, Assigned(calls, threads, till))
  {
    if threads != [] {
      var n := |threads| - 1;
      var t, was := threads[n], Assigned(calls, threads[..n], till);
      RunsAreSound(calls, threads[..n], till);
      if Started(calls, t, till) {
        var near := Candidates(calls, t, till);
        StarterIsChosen(near, t.made, Told(was), till);
        var run := Run(t, Starter(near, t.made, Told(was), till));
        assert (was + [run])[..|was|] == was;
      }
    }
  }

  lemma StarterIsChosen(near: seq<Call>, made: nat, told: set<string>, till: map<string, nat>)
    requires near != [] && Covers(till, near)
    ensures Chosen(near, made, told, till, Starter(near, made, told, till))
  {
    var out := Weighed(near, made, till);
    var i := FirstFresh(out, told);
    assert i < |out| ==> out[i] == Starter(near, made, told, till);
    if StillOutOf(near, made, till) == [] {
      forall d | d in near
        ensures till[d.id] < made
      {
        assert d !in StillOutOf(near, made, till);
      }
    }
  }

  function ThreadsOf(runs: seq<Run>): (threads: seq<Thread>)
    ensures |threads| == |runs| && forall k | 0 <= k < |runs| :: threads[k] == runs[k].thread
  {
    seq(|runs|, k requires 0 <= k < |runs| => runs[k].thread)
  }

  function StartedOf(calls: seq<Call>, threads: seq<Thread>, till: map<string, nat>): seq<Thread>
    requires Covers(till, calls)
  {
    if threads == [] then []
    else
      var t := threads[|threads| - 1];
      StartedOf(calls, threads[..|threads| - 1], till) + if Started(calls, t, till) then [t] else []
  }

  /** Every thread with a call it may be put down to is put down to one, and to one only. */
  lemma {:induction false} EachThreadOnce(calls: seq<Call>, threads: seq<Thread>, till: map<string, nat>)
    requires Covers(till, calls)
    ensures ThreadsOf(Assigned(calls, threads, till)) == StartedOf(calls, threads, till)
  {
    if threads != [] {
      EachThreadOnce(calls, threads[..|threads| - 1], till);
    }
  }

  ghost predicate OwnIds(calls: seq<Call>) {
    forall i, j | 0 <= i < j < |calls| :: calls[i].id != calls[j].id
  }

  /** A thread made while every call in its place is still out and not a window old. */
  ghost predicate AllOut(calls: seq<Call>, t: Thread, till: map<string, nat>)
    requires Covers(till, calls)
  {
    t.read && t.kept && forall c | c in Here(calls, t.cwd) :: InWindow(c, t) && till[c.id] >= t.made
  }

  lemma OnlyOwnIds(calls: seq<Call>, p: Call -> bool)
    requires OwnIds(calls)
    ensures OwnIds(Only(calls, p))
  {
    OnlyInOrder(calls, p, (c: Call, d: Call) => c.id != d.id);
  }

  /** The first calls told, the next is taken; all told, the latest is. */
  lemma NextInTurn(here: seq<Call>, made: nat, told: set<string>, till: map<string, nat>, j: nat)
    requires here != [] && OwnIds(here) && Covers(till, here) && forall c | c in here :: till[c.id] >= made
    requires forall i | 0 <= i < |here| :: here[i].id in told <==> i < j
    ensures Starter(here, made, told, till) == here[if j < |here| then j else |here| - 1]
  {
    OnlyAll(here, (c: Call) => c.id in till && till[c.id] >= made);
    FreshInTurn(here, told, j);
  }

  lemma FreshInTurn(here: seq<Call>, told: set<string>, j: nat)
    requires forall i | 0 <= i < |here| :: here[i].id in told <==> i < j
    ensures FirstFresh(here, told) == if j < |here| then j else |here|
  {
    var i := FirstFresh(here, told);
    if j < |here| {
      assert here[j].id !in told;
      assert i < |here| && here[i].id !in told;
    }
  }

  /** One call a thread, in turn; the threads past the last call are the last call's. */
  ghost predicate InTurn(here: seq<Call>, threads: seq<Thread>, runs: seq<Run>)
    requires here != []
  {
    |runs| == |threads| && forall j | 0 <= j < |runs| :: runs[j] == Run(threads[j], here[if j < |here| then j else |here| - 1])
  }

  /** Calls in one place, all still out, take the threads made there in turn, one each in the order the calls went out
      and the threads were made; any threads more go to the latest call. */
  lemma {:induction false} CallsTakeThreadsInTurn(calls: seq<Call>, threads: seq<Thread>, till: map<string, nat>, cwd: string)
    requires Covers(till, calls) && OwnIds(calls) && Here(calls, cwd) != []
    requires EachAllOut(calls, threads, till, cwd)
    ensures InTurn(Here(calls, cwd), threads, Assigned(calls, threads, till))
  {
    if threads != [] {
      var n := |threads| - 1;
      CallsTakeThreadsInTurn(calls, threads[..n], till, cwd);
      OneMoreInTurn(calls, threads[..n], threads[n], till);
      LastSplit(threads);
    }
  }

  lemma LastSplit(threads: seq<Thread>)
    requires threads != []
    ensures threads == threads[..|threads| - 1] + [threads[|threads| - 1]]
  {
  }

  ghost predicate EachAllOut(calls: seq<Call>, threads: seq<Thread>, till: map<string, nat>, cwd: string)
    requires Covers(till, calls)
  {
    threads == [] || (EachAllOut(calls, threads[..|threads| - 1], till, cwd)
                      && threads[|threads| - 1].cwd == cwd && AllOut(calls, threads[|threads| - 1], till))
  }

  lemma OneMoreInTurn(calls: seq<Call>, rest: seq<Thread>, t: Thread, till: map<string, nat>)
    requires Covers(till, calls) && OwnIds(calls) && AllOut(calls, t, till) && Here(calls, t.cwd) != []
    requires InTurn(Here(calls, t.cwd), rest, Assigned(calls, rest, till))
    ensures InTurn(Here(calls, t.cwd), rest + [t], Assigned(calls, rest + [t], till))
  {
    AssignedMore(calls, rest, t, till);
    ExtendInTurn(calls, rest, Assigned(calls, rest, till), t, till);
  }

  lemma ExtendInTurn(calls: seq<Call>, rest: seq<Thread>, was: seq<Run>, t: Thread, till: map<string, nat>)
    requires Covers(till, calls) && OwnIds(calls) && AllOut(calls, t, till) && Here(calls, t.cwd) != []
    requires InTurn(Here(calls, t.cwd), rest, was)
    ensures InTurn(Here(calls, t.cwd), rest + [t], Extend(calls, was, t, till))
  {
    var here := Here(calls, t.cwd);
    OnlyOwnIds(calls, c => RanIn(c, t.cwd));
    HereIsWeighed(calls, t, till);
    ToldInTurn(here, was);
    NextInTurn(here, t.made, Told(was), till, |was|);
    TurnGoesOn(here, rest, was, t, Starter(here, t.made, Told(was), till));
  }

  lemma TurnGoesOn(here: seq<Call>, rest: seq<Thread>, was: seq<Run>, t: Thread, call: Call)
    requires here != [] && InTurn(here, rest, was) && call == here[if |was| < |here| then |was| else |here| - 1]
    ensures InTurn(here, rest + [t], was + [Run(t, call)])
  {
  }

  lemma HereIsWeighed(calls: seq<Call>, t: Thread, till: map<string, nat>)
    requires Covers(till, calls) && AllOut(calls, t, till) && Here(calls, t.cwd) != []
    ensures Candidates(calls, t, till) == Here(calls, t.cwd) && Started(calls, t, till)
  {
    OnlySame(calls, (c: Call) => InWindow(c, t) && RanIn(c, t.cwd), (c: Call) => RanIn(c, t.cwd));
  }

  lemma ToldInTurn(here: seq<Call>, runs: seq<Run>)
    requires here != [] && OwnIds(here)
    requires forall j | 0 <= j < |runs| :: runs[j].call == here[if j < |here| then j else |here| - 1]
    ensures forall i | 0 <= i < |here| :: here[i].id in Told(runs) <==> i < |runs|
  {
    forall i | 0 <= i < |here|
      ensures here[i].id in Told(runs) <==> i < |runs|
    {
      if i < |runs| {
        assert runs[i] in runs;
      }
    }
  }

  /** The calls between the two places a bisection finds are exactly the calls in the window. */
  lemma SliceIsWindow(calls: seq<Call>, t: Thread, lo: nat, hi: nat)
    requires lo <= hi <= |calls|
    requires forall i | 0 <= i < lo :: calls[i].at < t.made - WINDOW
    requires forall i | lo <= i < hi :: InWindow(calls[i], t)
    requires forall i | hi <= i < |calls| :: calls[i].at > t.made
    ensures Near(calls, t) == Here(calls[lo..hi], t.cwd)
  {
    var a, b, c := calls[..lo], calls[lo..hi], calls[hi..];
    assert calls == a + (b + c);
    var p := (x: Call) => InWindow(x, t) && RanIn(x, t.cwd);
    OnlyConcat(a, b + c, p);
    OnlyConcat(b, c, p);
    OnlyNone(a, p);
    OnlyNone(c, p);
    OnlySame(b, p, x => RanIn(x, t.cwd));
  }

  /** The first place whose call went out no earlier than a time, or only later when `after` says so. */
  method Bisect(calls: seq<Call>, time: int, after: bool) returns (at: nat)
    requires ByTime(calls)
    ensures at <= |calls|
    ensures forall i | 0 <= i < at :: if after then calls[i].at <= time else calls[i].at < time
    ensures forall i | at <= i < |calls| :: if after then calls[i].at > time else calls[i].at >= time
  {
    var hi: nat := |calls|;
    at := 0;
    while at < hi
      invariant at <= hi <= |calls|
      invariant forall i | 0 <= i < at :: if after then calls[i].at <= time else calls[i].at < time
      invariant forall i | hi <= i < |calls| :: if after then calls[i].at > time else calls[i].at >= time
    {
      var mid := (at + hi) / 2;
      if calls[mid].at < time || (after && calls[mid].at == time) {
        at := mid + 1;
      } else {
        hi := mid;
      }
    }
  }

  /** A call put among calls in order of time, after those of its own time. */
  function InOrder(calls: seq<Call>, c: Call): (r: seq<Call>)
    ensures |r| == |calls| + 1 && forall x :: x in r <==> x in calls || x == c
  {
    if calls == [] || calls[|calls| - 1].at <= c.at then calls + [c]
    else
      InOrder(calls[..|calls| - 1], c) + [calls[|calls| - 1]]
  }

  lemma {:induction false} InOrderByTime(calls: seq<Call>, c: Call)
    requires ByTime(calls)
    ensures ByTime(InOrder(calls, c))
  {
    if calls != [] && calls[|calls| - 1].at > c.at {
      var n := |calls| - 1;
      InOrderByTime(calls[..n], c);
      forall d | d in InOrder(calls[..n], c)
        ensures d.at <= calls[n].at
      {
        assert d in calls[..n] || d == c;
      }
    }
  }

  /** The calls that may start runs, in the order they went out. A call that resumes a thread starts none. */
  function StartsOf(calls: seq<Call>): seq<Call> {
    if calls == [] then []
    else
      var c := calls[|calls| - 1];
      var starts := StartsOf(calls[..|calls| - 1]);
      if c.at > 0 && !c.resume then InOrder(starts, c) else starts
  }

  lemma {:induction false} StartsByTime(calls: seq<Call>)
    ensures ByTime(StartsOf(calls))
    ensures forall c :: c in StartsOf(calls) <==> c in calls && c.at > 0 && !c.resume
  {
    if calls != [] {
      var n := |calls| - 1;
      StartsByTime(calls[..n]);
      assert calls == calls[..n] + [calls[n]];
      InOrderByTime(StartsOf(calls[..n]), calls[n]);
    }
  }

  function Reversed(runs: seq<Run>): (r: seq<Run>)
    ensures |r| == |runs| && forall i | 0 <= i < |runs| :: r[i] == runs[|runs| - 1 - i]
  {
    seq(|runs|, i requires 0 <= i < |runs| => runs[|runs| - 1 - i])
  }

  /** The call a thread is put down to, when there is one. */
  method CallOf(starts: seq<Call>, t: Thread, told: set<string>, till: map<string, nat>) returns (found: bool, call: Call)
    requires ByTime(starts) && Covers(till, starts) && starts != []
    ensures found <==> Started(starts, t, till)
    ensures found ==> call == Starter(Candidates(starts, t, till), t.made, told, till)
  {
    found, call := false, starts[0];
    if t.read {
      var lo := Bisect(starts, t.made - WINDOW, false);
      var hi := Bisect(starts, t.made, true);
      assert hi < |starts| ==> starts[hi].at > t.made;
      SliceIsWindow(starts, t, lo, hi);
      var near := Here(starts[lo..hi], t.cwd);
      if near == [] {
        near := Late(starts, t, till);
      }
      if near != [] && t.kept {
        found, call := true, Starter(near, t.made, told, till);
      }
    }
  }

  /** The runs of the calls of a session, the newest first. `threads` are the runs the home ever had, as the database
      orders them. The bounded query, the bisection and the set of told calls give what weighing every call for every
      thread gives. */
  method Runs(calls: seq<Call>, threads: seq<Thread>, until: nat) returns (runs: seq<Run>)
    ensures runs == Reversed(Assigned(StartsOf(calls), threads, Till(StartsOf(calls), until)))
  {
    var starts := StartsOf(calls);
    var till := Till(starts, until);
    StartsByTime(calls);
    if starts == [] {
      NoneStarted(threads, till);
      return [];
    }
    var last := LastOf(starts, till, starts[|starts| - 1].at + WINDOW);
    SpanLosesNone(starts, threads, till, starts[0].at, last);
    var out := Assign(starts, Within(threads, starts[0].at, last), till);
    runs := Reversed(out);
  }

  method Assign(starts: seq<Call>, rows: seq<Thread>, till: map<string, nat>) returns (out: seq<Run>)
    requires ByTime(starts) && Covers(till, starts) && starts != []
    ensures out == Assigned(starts, rows, till)
  {
    out := [];
    var told: set<string> := {};
    var i: nat := 0;
    while i < |rows|
      invariant i <= |rows| && out == Assigned(starts, rows[..i], till) && told == Told(out)
    {
      OneMore(rows, i);
      AssignedMore(starts, rows[..i], rows[i], till);
      var found, call := CallOf(starts, rows[i], told, till);
      if found {
        ToldMore(out, Run(rows[i], call));
        told := told + {call.id};
        out := out + [Run(rows[i], call)];
      }
      i := i + 1;
    }
    assert rows[..i] == rows;
  }

  lemma OneMore(rows: seq<Thread>, i: nat)
    requires i < |rows|
    ensures rows[..i + 1] == rows[..i] + [rows[i]]
  {
  }

  lemma ToldMore(runs: seq<Run>, run: Run)
    ensures Told(runs + [run]) == Told(runs) + {run.call.id}
  {
    assert run in runs + [run];
    forall r | r in runs
      ensures r in runs + [run]
    {
    }
  }

  lemma {:induction false} NoneStarted(threads: seq<Thread>, till: map<string, nat>)
    ensures Assigned([], threads, till) == []
  {
    if threads != [] {
      NoneStarted(threads[..|threads| - 1], till);
    }
  }
}
