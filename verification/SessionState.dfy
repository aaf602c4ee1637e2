/** The state of a session: what happens to it record by record, and what a new process lets go. */
module SessionState {
  import opened Options
  import opened Sequences
  import opened SessionStores

  /** A call still waiting for its result; `agent` says that a subagent made it. */
  datatype Call = Call(use: string, tool: string, agent: bool, at: Stamp)

  /** `born` is when the process of the session was born, 0 while that is not known. */
  datatype State = State(tasks: seq<Work>, bg: seq<Work>, flows: seq<Work>, agents: seq<Work>, calls: seq<Call>,
                         flowIds: map<string, string>, born: nat)

  const NOTHING := State([], [], [], [], [], map[], 0)

  ghost predicate Holds(s: State) {
    OwnIds(s.tasks) && OwnIds(s.bg) && OwnIds(s.flows) && OwnIds(s.agents) && OwnUses(s.calls) && |s.calls| <= MAX_OPEN
  }

  ghost predicate OwnUses(calls: seq<Call>) {
    forall i, j | 0 <= i < j < |calls| :: calls[i].use != calls[j].use
  }

  /** The end of a task: the id of an agent sent off to work ends the agent. */
  function Finish(s: State, id: string, at: Stamp, how: string): State {
    if Has(s.bg, id) then s.(bg := Ended(s.bg, id, if how == "" then "completed" else how, at))
    else s.(tasks := Closed(s.tasks, id, at))
  }

  function FinishEach(s: State, ids: seq<string>, at: Stamp): State {
    if ids == [] then s else Finish(FinishEach(s, ids[..|ids| - 1], at), ids[|ids| - 1], at, "")
  }

  function FlowIdsBut(flowIds: map<string, string>, gone: seq<string>): map<string, string> {
    map t | t in flowIds && flowIds[t] !in gone :: flowIds[t]
  }

  function CallsSince(calls: seq<Call>, stamp: Stamp): seq<Call> {
    Only(calls, (c: Call) => !Before(c.at, stamp))
  }

  /** What the previous process of the session took with it is let go: teammates, then tasks, agents, workflows, calls. */
  function LetGo(s: State, born: nat): State {
    EndOld(FinishEach(s.(agents := LoseEach(s.agents, OldIds(s.agents, born))), OldIds(s.tasks, born), At(born, None)), born)
  }

  /** The agents sent off and the workflows from before a birth end, and the calls from before it are let go. */
  function EndOld(t: State, born: nat): State {
    var stamp := At(born, None);
    t.(bg := EndEach(t.bg, OldIds(t.bg, born), "killed", stamp),
       flows := EndEach(t.flows, OldIds(t.flows, born), "killed", stamp),
       flowIds := FlowIdsBut(t.flowIds, OldIds(t.flows, born)),
       calls := CallsSince(t.calls, stamp))
  }

  /** No task at work since before a birth shares its id with an agent. */
  predicate Apart(s: State, born: nat) {
    forall id | id in OldIds(s.tasks, born) :: !Has(s.bg, id)
  }

  lemma NoOldLeft(works: seq<Work>, born: nat, was: seq<Work>)
    requires LiveOf(works) == LiveSince(was, born)
    ensures forall w | w in works :: !OldAndLive(w, born)
    ensures OldIds(works, born) == []
  {
    forall w | w in works
      ensures !OldAndLive(w, born)
    {
      assert Live(w) ==> w in LiveOf(works) by {
        if Live(w) {
          OnlyFinds(works, w, (x: Work) => Live(x));
        }
      }
    }
    OnlyNone(works, (w: Work) => OldAndLive(w, born));
  }

  lemma {:induction false} FinishEachFrame(s: State, ids: seq<string>, at: Stamp)
    ensures var t := FinishEach(s, ids, at);
            t.flows == s.flows && t.agents == s.agents && t.calls == s.calls && t.flowIds == s.flowIds && t.born == s.born
  {
    if ids != [] {
      FinishEachFrame(s, ids[..|ids| - 1], at);
    }
  }

  /** Tasks that share no id with an agent are all closed, and no agent is. */
  lemma {:induction false} FinishEachApart(s: State, ids: seq<string>, at: Stamp)
    requires OwnIds(s.tasks) && forall id | id in ids :: !Has(s.bg, id)
    ensures var t := FinishEach(s, ids, at);
            t.bg == s.bg && OwnIds(t.tasks) && LiveOf(t.tasks) == LiveOutside(s.tasks, ids)
  {
    if ids == [] {
      LiveOutsideNone(s.tasks);
    } else {
      var n := |ids| - 1;
      FinishEachApart(s, ids[..n], at);
      var was := FinishEach(s, ids[..n], at);
      assert !Has(s.bg, ids[n]);
      ClosedLive(was.tasks, ids[n], at);
      LiveOutsideMore(s.tasks, was.tasks, ids[..n], ids[n]);
      assert ids == ids[..n] + [ids[n]];
    }
  }

  lemma {:induction false} FinishEachHolds(s: State, ids: seq<string>, at: Stamp)
    requires OwnIds(s.tasks) && OwnIds(s.bg)
    ensures OwnIds(FinishEach(s, ids, at).tasks) && OwnIds(FinishEach(s, ids, at).bg)
  {
    if ids != [] {
      var n := |ids| - 1;
      FinishEachHolds(s, ids[..n], at);
      FinishHolds(FinishEach(s, ids[..n], at), ids[n], at, "");
    }
  }

  lemma FinishHolds(s: State, id: string, at: Stamp, how: string)
    requires OwnIds(s.tasks) && OwnIds(s.bg)
    ensures OwnIds(Finish(s, id, at, how).tasks) && OwnIds(Finish(s, id, at, how).bg)
  {
    ClosedLive(s.tasks, id, at);
    EndedLive(s.bg, id, if how == "" then "completed" else how, at);
  }

  ghost predicate DistinctIds(ids: seq<string>) {
    forall i, j | 0 <= i < j < |ids| :: ids[i] != ids[j]
  }

  /** The first task that shares its id with an agent ends the agent instead, and stays at work. */
  lemma {:induction false} SharedStays(s: State, ids: seq<string>, at: Stamp, k: nat)
    requires OwnIds(s.tasks) && OwnIds(s.bg) && DistinctIds(ids)
    requires k < |ids| && Has(s.bg, ids[k]) && forall j | 0 <= j < k :: !Has(s.bg, ids[j])
    ensures forall w | w in LiveOf(s.tasks) && w.id == ids[k] :: w in LiveOf(FinishEach(s, ids, at).tasks)
  {
    var n := |ids| - 1;
    var was := FinishEach(s, ids[..n], at);
    if k == n {
      FirstSharedStays(s, ids, at);
    } else {
      SharedStays(s, ids[..n], at, k);
      FinishEachHolds(s, ids[..n], at);
      OtherStays(was, ids[n], at, ids[k]);
    }
  }

  lemma FirstSharedStays(s: State, ids: seq<string>, at: Stamp)
    requires OwnIds(s.tasks) && OwnIds(s.bg) && DistinctIds(ids) && ids != [] && Has(s.bg, ids[|ids| - 1])
    requires forall j | 0 <= j < |ids| - 1 :: !Has(s.bg, ids[j])
    ensures forall w | w in LiveOf(s.tasks) && w.id == ids[|ids| - 1] :: w in LiveOf(FinishEach(s, ids, at).tasks)
  {
    var n := |ids| - 1;
    FinishEachApart(s, ids[..n], at);
    forall w | w in LiveOf(s.tasks) && w.id == ids[n]
      ensures w in LiveOutside(s.tasks, ids[..n])
    {
      OnlyFinds(s.tasks, w, (x: Work) => Live(x) && x.id !in ids[..n]);
    }
  }

  lemma OtherStays(s: State, id: string, at: Stamp, kept: string)
    requires OwnIds(s.tasks) && id != kept
    ensures forall w | w in LiveOf(s.tasks) && w.id == kept :: w in LiveOf(Finish(s, id, at, "").tasks)
  {
    ClosedLive(s.tasks, id, at);
    forall w | w in LiveOf(s.tasks) && w.id == kept
      ensures w in LiveBut(s.tasks, id)
    {
      OnlyFinds(s.tasks, w, (x: Work) => Live(x) && x.id != id);
    }
  }

  lemma OldIdsDistinct(works: seq<Work>, born: nat)
    requires OwnIds(works)
    ensures DistinctIds(OldIds(works, born))
  {
    OnlyInOrder(works, (w: Work) => OldAndLive(w, born), (v: Work, w: Work) => v.id != w.id);
  }

  /** No task at work since before the birth is left exactly when none of them shares its id with an agent. */
  lemma NoOldTaskLeftIff(s: State, born: nat)
    requires Holds(s)
    ensures (forall w | w in LetGo(s, born).tasks :: !OldAndLive(w, born)) <==> Apart(s, born)
  {
    var lost := s.(agents := LoseEach(s.agents, OldIds(s.agents, born)));
    var ids, stamp := OldIds(s.tasks, born), At(born, None);
    if Apart(s, born) {
      FinishEachApart(lost, ids, stamp);
      OldOutside(s.tasks, born);
      NoOldLeft(FinishEach(lost, ids, stamp).tasks, born, s.tasks);
    } else {
      OldIdsDistinct(s.tasks, born);
      var k := FirstShared(s.bg, ids);
      SharedStays(lost, ids, stamp, k);
      assert ids[k] in ids;
      var w :| w in s.tasks && OldAndLive(w, born) && w.id == ids[k];
      OnlyFinds(s.tasks, w, (x: Work) => Live(x));
      assert w in LiveOf(FinishEach(lost, ids, stamp).tasks);
      assert w in LetGo(s, born).tasks;
    }
  }

  lemma {:induction false} FirstShared(bg: seq<Work>, ids: seq<string>) returns (k: nat)
    requires exists id :: id in ids && Has(bg, id)
    ensures k < |ids| && Has(bg, ids[k]) && forall j | 0 <= j < k :: !Has(bg, ids[j])
  {
    k := 0;
    if !Has(bg, ids[0]) {
      assert exists id :: id in ids[1..] && Has(bg, id);
      var m := FirstShared(bg, ids[1..]);
      k := m + 1;
      assert forall j | 0 < j < k :: ids[j] == ids[1..][j - 1];
    }
  }

  /** What is at work in each list after a birth is exactly what was at work and began no earlier than the birth's second,
      in its order; and the calls that are left are exactly those not made before. */
  lemma NothingOutlives(s: State, born: nat)
    requires Holds(s) && Apart(s, born)
    ensures var t := LetGo(s, born);
            && LiveOf(t.agents) == LiveSince(s.agents, born) && LiveOf(t.tasks) == LiveSince(s.tasks, born)
            && LiveOf(t.bg) == LiveSince(s.bg, born) && LiveOf(t.flows) == LiveSince(s.flows, born)
            && (forall c :: c in t.calls <==> c in s.calls && !Before(c.at, At(born, None)))
            && OwnIds(t.agents) && OwnIds(t.tasks) && OwnIds(t.bg) && OwnIds(t.flows)
  {
    var stamp := At(born, None);
    var lost := s.(agents := LoseEach(s.agents, OldIds(s.agents, born)));
    LoseEachLive(s.agents, OldIds(s.agents, born));
    OldOutside(s.agents, born);
    FinishEachFrame(lost, OldIds(s.tasks, born), stamp);
    FinishEachApart(lost, OldIds(s.tasks, born), stamp);
    OldOutside(s.tasks, born);
    EndEachLive(s.bg, OldIds(s.bg, born), "killed", stamp);
    OldOutside(s.bg, born);
    EndEachLive(s.flows, OldIds(s.flows, born), "killed", stamp);
    OldOutside(s.flows, born);
    forall c | c in s.calls && !Before(c.at, stamp)
      ensures c in CallsSince(s.calls, stamp)
    {
      assert c in CallsSince(s.calls, stamp) <==> c in s.calls && !Before(c.at, stamp);
    }
  }

  /** Whatever the ids, no agent, workflow or teammate at work since before the birth is left. */
  lemma NoOldAgentLeft(s: State, born: nat)
    requires Holds(s)
    ensures var t := LetGo(s, born); forall w | w in t.agents || w in t.bg || w in t.flows :: !OldAndLive(w, born)
  {
    var stamp := At(born, None);
    var lost := s.(agents := LoseEach(s.agents, OldIds(s.agents, born)));
    var t := FinishEach(lost, OldIds(s.tasks, born), stamp);
    LoseEachLive(s.agents, OldIds(s.agents, born));
    OldOutside(s.agents, born);
    NoOldLeft(lost.agents, born, s.agents);
    FinishEachFrame(lost, OldIds(s.tasks, born), stamp);
    FinishEachHolds(lost, OldIds(s.tasks, born), stamp);
    EndEachLive(t.bg, OldIds(t.bg, born), "killed", stamp);
    OldOutside(t.bg, born);
    NoOldLeft(EndEach(t.bg, OldIds(t.bg, born), "killed", stamp), born, t.bg);
    EndEachLive(s.flows, OldIds(s.flows, born), "killed", stamp);
    OldOutside(s.flows, born);
    NoOldLeft(EndEach(s.flows, OldIds(s.flows, born), "killed", stamp), born, s.flows);
  }

  /** Letting go twice is letting go once. */
  lemma LetGoTwice(s: State, born: nat)
    requires Holds(s) && Apart(s, born)
    ensures LetGo(LetGo(s, born), born) == LetGo(s, born)
  {
    var t := LetGo(s, born);
    NothingOutlives(s, born);
    NoOldLeft(t.agents, born, s.agents);
    NoOldLeft(t.tasks, born, s.tasks);
    NoOldLeft(t.bg, born, s.bg);
    NoOldLeft(t.flows, born, s.flows);
    OnlyAll(t.calls, (c: Call) => !Before(c.at, At(born, None)));
    assert FlowIdsBut(t.flowIds, []) == t.flowIds;
  }

  /** What an agent was before a letter woke it. */
  datatype Was = Was(id: string, how: string, done: Option<Stamp>)

  /** The agent sent off last under a name; the number of agents when none was. */
  function LatestNamed(bg: seq<Work>, name: string): (i: nat)
    ensures i <= |bg| && (i < |bg| ==> bg[i].name == name)
    ensures i < |bg| ==> forall j | 0 <= j < |bg| && bg[j].name == name ::
              if j < i then Before(bg[j].at, bg[i].at) else !Before(bg[i].at, bg[j].at)
    ensures i == |bg| ==> forall j | 0 <= j < |bg| :: bg[j].name != name
  {
    if bg == [] then 0
    else
      var n := |bg| - 1;
      var i := LatestNamed(bg[..n], name);
      assert forall j | 0 <= j < n :: bg[..n][j] == bg[j];
      if bg[n].name != name then (if i == n then n + 1 else i)
      else if i == n then n
      else if Before(bg[i].at, bg[n].at) then (BeforeChain(bg, i, n, name); n)
      else i
  }

  lemma BeforeChain(bg: seq<Work>, i: nat, n: nat, name: string)
    requires i < n < |bg| && Before(bg[i].at, bg[n].at)
    requires forall j | 0 <= j < n && bg[j].name == name ::
               if j < i then Before(bg[j].at, bg[i].at) else !Before(bg[i].at, bg[j].at)
    ensures forall j | 0 <= j < n && bg[j].name == name :: Before(bg[j].at, bg[n].at)
  {
  }

  /** Whom a letter is to: an agent by its id, or the latest sent off under the name. */
  function Addressed(bg: seq<Work>, to_: string): (i: nat)
    ensures i <= |bg|
  {
    if Has(bg, to_) || to_ == "" then IndexOf(bg, to_) else LatestNamed(bg, to_)
  }

  datatype Woke = Woke(bg: seq<Work>, was: Option<Was>)

  /** A letter to an agent that is over brings it back to work. */
  function Woken(bg: seq<Work>, to_: string): Woke {
    var i := Addressed(bg, to_);
    if i == |bg| || Live(bg[i]) then Woke(bg, None)
    else Woke(bg[i := bg[i].(over := None, done := None)], Some(Was(bg[i].id, bg[i].over.value, bg[i].done)))
  }

  /** A refused letter puts back the agent its sending woke. */
  function Unwoken(bg: seq<Work>, was: Option<Was>): seq<Work> {
    if was.None? || !Has(bg, was.value.id) then bg
    else
      var i := IndexOf(bg, was.value.id);
      if !Live(bg[i]) then bg
      else bg[i := bg[i].(over := Some(was.value.how), done := if was.value.done.Some? then was.value.done else bg[i].done)]
  }

  lemma IndexOfOwn(works: seq<Work>, i: nat)
    requires OwnIds(works) && i < |works|
    ensures IndexOf(works, works[i].id) == i
  {
  }

  /** A refused letter, whatever has happened since. No work but the agent its sending woke changes. That agent, still at
      work, is over again as it was over before, with the answer it had then or, having had none, the one it has had
      since; over by now, or gone, it stays so. Woken and not touched since, it is exactly the agent before the letter. */
  lemma RefusedLetterRestores(bg: seq<Work>, to_: string, now: seq<Work>)
    requires OwnIds(bg) && OwnIds(now) && Woken(bg, to_).was.Some?
    ensures var i, back := Addressed(bg, to_), Unwoken(now, Woken(bg, to_).was);
      && i < |bg| && !Live(bg[i]) && |back| == |now|
      && (forall j | 0 <= j < |now| && (now[j].id != bg[i].id || !Live(now[j])) :: back[j] == now[j])
      && (forall j | 0 <= j < |now| && now[j].id == bg[i].id && Live(now[j]) ::
            back[j] == now[j].(over := bg[i].over, done := if bg[i].done.Some? then bg[i].done else now[j].done))
      && (forall j | 0 <= j < |now| && now[j] == Woken(bg, to_).bg[i] :: back[j] == bg[i])
  {
    var id := Woken(bg, to_).was.value.id;
    if j :| 0 <= j < |now| && now[j].id == id {
      IndexOfOwn(now, j);
    }
  }

  /** A refused letter undoes its sending. */
  lemma RefusedAtOnce(bg: seq<Work>, to_: string)
    requires OwnIds(bg)
    ensures Unwoken(Woken(bg, to_).bg, Woken(bg, to_).was) == bg
  {
    var w := Woken(bg, to_);
    if w.was.Some? {
      var i := Addressed(bg, to_);
      IndexOfOwn(w.bg, i);
      RefusedLetterRestores(bg, to_, w.bg);
    }
  }

  /** A call opened stands last; over the limit the oldest are let go. */
  function Opened(calls: seq<Call>, c: Call): seq<Call> {
    var more := Only(calls, (d: Call) => d.use != c.use) + [c];
    if |more| > MAX_OPEN then more[|more| - MAX_OPEN..] else more
  }

  function ClosedCall(calls: seq<Call>, use: string): seq<Call> {
    Only(calls, (c: Call) => c.use != use)
  }

  function TurnOver(calls: seq<Call>): seq<Call> {
    Only(calls, (c: Call) => c.agent)
  }

  lemma OwnUsesKept(calls: seq<Call>, p: Call -> bool)
    requires OwnUses(calls)
    ensures OwnUses(Only(calls, p))
  {
    OnlyInOrder(calls, p, (c: Call, d: Call) => c.use != d.use);
  }

  /** The calls kept are the newest: a call let go by another had the limit of newer calls after it. */
  lemma OpenedKeepsNewest(calls: seq<Call>, c: Call)
    requires OwnUses(calls)
    ensures OwnUses(Opened(calls, c)) && |Opened(calls, c)| <= MAX_OPEN
    ensures Opened(calls, c)[|Opened(calls, c)| - 1] == c
    ensures var more := ClosedCall(calls, c.use) + [c];
            exists n :: 0 <= n <= |more| && Opened(calls, c) == more[n..] && (n > 0 ==> |more| - n == MAX_OPEN)
  {
    var more := ClosedCall(calls, c.use) + [c];
    OwnUsesKept(calls, (d: Call) => d.use != c.use);
    forall i | 0 <= i < |more| - 1
      ensures more[i].use != c.use
    {
      assert more[i] in ClosedCall(calls, c.use);
    }
    var n := if |more| > MAX_OPEN then |more| - MAX_OPEN else 0;
    assert Opened(calls, c) == more[n..];
  }

  /** What a record does to the state. */
  datatype Event =
    | TaskLeft(work: Work, prunes: bool)
    | TaskGone(id: string)
    | Ends(id: string, how: string, at: Stamp)
    | SentOff(work: Work)
    | Letter(to_: string)
    | Refused(was: Was, teammate: Option<string>)
    | FlowLaunched(work: Work, task: string, use: string)
    | FlowEnds(run: string, how: string, at: Stamp)
    | Spawned(work: Work)
    | Reported(name: string, at: Stamp)
    | AgentGone(name: string)
    | CallOpened(call: Call)
    | CallClosed(use: string)
    | TurnEnds
    | Read(born: Option<nat>)

  function Flows(s: State, run: string, how: string, at: Stamp): State {
    if !Has(s.flows, run) then s
    else s.(flows := Ended(s.flows, run, if how == "" then "completed" else how, at), flowIds := FlowIdsBut(s.flowIds, [run]))
  }

  function ReportedWork(works: seq<Work>, name: string, at: Stamp): seq<Work> {
    if !Has(works, name) then works
    else
      var i := IndexOf(works, name);
      Pruned(works[i := works[i].(over := Some("reported"), done := Some(at))])
  }

  function FlowIdsWith(flowIds: map<string, string>, task: string, use: string, run: string): map<string, string> {
    var more := flowIds[task := run];
    if use == "" then more else more[use := run]
  }

  /** What a read of the transcript ends with: once a birth is known, every read lets go what stood before it. */
  function ReadOn(s: State): State {
    if s.born > 0 then LetGo(s, s.born) else s
  }

  function Do(s: State, e: Event): State {
    match e
    case TaskLeft(w, prunes) => s.(tasks := if prunes then Pruned(Put(s.tasks, w)) else Put(s.tasks, w))
    case TaskGone(id) => s.(tasks := Drop(s.tasks, id))
    case Ends(id, how, at) => Finish(s, id, at, how)
    case SentOff(w) => s.(bg := Pruned(Put(s.bg, w)))
    case Letter(to_) =>
      s.(bg := Woken(s.bg, to_).bg,
         agents := if Has(s.agents, to_) then s.agents[IndexOf(s.agents, to_) := s.agents[IndexOf(s.agents, to_)].(over := None)]
                   else s.agents)
    case Refused(was, teammate) =>
      s.(agents := if teammate.Some? then Lost(s.agents, teammate.value) else s.agents, bg := Unwoken(s.bg, Some(was)))
    case FlowLaunched(w, task, use) =>
      s.(flows := Pruned(Put(s.flows, w)), flowIds := FlowIdsWith(s.flowIds, task, use, w.id))
    case FlowEnds(run, how, at) => Flows(s, run, how, at)
    case Spawned(w) => s.(agents := Pruned(Put(s.agents, w)))
    case Reported(name, at) => s.(agents := ReportedWork(s.agents, name, at))
    case AgentGone(name) => s.(agents := Drop(s.agents, name))
    case CallOpened(c) => if c.use == "" then s else s.(calls := Opened(s.calls, c))
    case CallClosed(use) => s.(calls := ClosedCall(s.calls, use))
    case TurnEnds => s.(calls := TurnOver(s.calls))
    case Read(born) => ReadOn(s.(born := if born.Some? && born.value > 0 then born.value else s.born))
  }

  function RunOf(events: seq<Event>): State {
    if events == [] then NOTHING else Do(RunOf(events[..|events| - 1]), events[|events| - 1])
  }

  lemma PutOwn(works: seq<Work>, w: Work)
    requires OwnIds(works)
    ensures OwnIds(Put(works, w)) && OwnIds(Pruned(Put(works, w)))
  {
    PruneKeepsIds(Put(works, w));
  }

  lemma ChangedOwn(works: seq<Work>, i: nat, w: Work)
    requires OwnIds(works) && i < |works| && w.id == works[i].id
    ensures OwnIds(works[i := w]) && OwnIds(Pruned(works[i := w]))
  {
    PruneKeepsIds(works[i := w]);
  }

  lemma DropOwn(works: seq<Work>, id: string)
    requires OwnIds(works)
    ensures OwnIds(Drop(works, id))
  {
  }

  lemma TasksOwn(s: State, e: Event)
    requires Holds(s) && !e.Read?
    ensures OwnIds(Do(s, e).tasks) && OwnIds(Do(s, e).bg)
  {
    match e
    case TaskLeft(w, _) => PutOwn(s.tasks, w);
    case TaskGone(id) => DropOwn(s.tasks, id);
    case Ends(id, how, at) => FinishHolds(s, id, at, how);
    case SentOff(w) => PutOwn(s.bg, w);
    case _ =>
  }

  lemma FlowsOwn(s: State, e: Event)
    requires Holds(s) && !e.Read?
    ensures OwnIds(Do(s, e).flows)
  {
    match e
    case FlowLaunched(w, _, _) => PutOwn(s.flows, w);
    case FlowEnds(run, how, at) => EndedLive(s.flows, run, if how == "" then "completed" else how, at);
    case _ =>
  }

  lemma AgentsOwn(s: State, e: Event)
    requires Holds(s) && !e.Read?
    ensures OwnIds(Do(s, e).agents)
  {
    match e
    case Refused(_, teammate) =>
      if teammate.Some? {
        LostLive(s.agents, teammate.value);
      }
    case Spawned(w) => PutOwn(s.agents, w);
    case Reported(name, at) =>
      if Has(s.agents, name) {
        var i := IndexOf(s.agents, name);
        ChangedOwn(s.agents, i, s.agents[i].(over := Some("reported"), done := Some(at)));
      }
    case AgentGone(name) => DropOwn(s.agents, name);
    case _ =>
  }

  lemma WorkOwn(s: State, e: Event)
    requires Holds(s) && !e.Read?
    ensures var t := Do(s, e); OwnIds(t.tasks) && OwnIds(t.bg) && OwnIds(t.flows) && OwnIds(t.agents)
  {
    TasksOwn(s, e);
    FlowsOwn(s, e);
    AgentsOwn(s, e);
  }

  lemma CallsOwn(s: State, e: Event)
    requires Holds(s) && !e.Read?
    ensures OwnUses(Do(s, e).calls) && |Do(s, e).calls| <= MAX_OPEN
  {
    match e
    case CallOpened(c) => OpenedKeepsNewest(s.calls, c);
    case CallClosed(use) => OwnUsesKept(s.calls, (c: Call) => c.use != use);
    case TurnEnds => OwnUsesKept(s.calls, (c: Call) => c.agent);
    case _ =>
  }

  lemma LetGoHolds(s: State, born: nat)
    requires Holds(s)
    ensures Holds(LetGo(s, born))
  {
    var stamp := At(born, None);
    var lost := s.(agents := LoseEach(s.agents, OldIds(s.agents, born)));
    var t := FinishEach(lost, OldIds(s.tasks, born), stamp);
    LoseEachLive(s.agents, OldIds(s.agents, born));
    FinishEachFrame(lost, OldIds(s.tasks, born), stamp);
    FinishEachHolds(lost, OldIds(s.tasks, born), stamp);
    EndEachLive(t.bg, OldIds(t.bg, born), "killed", stamp);
    EndEachLive(s.flows, OldIds(s.flows, born), "killed", stamp);
    OwnUsesKept(s.calls, (c: Call) => !Before(c.at, stamp));
  }

  /** Nothing at work began before the process was born. */
  ghost predicate NothingOld(s: State, born: nat) {
    forall w | w in s.tasks || w in s.bg || w in s.flows || w in s.agents :: !OldAndLive(w, born)
  }

  lemma LetGoIs(s: State, born: nat, lost: State, t: State)
    requires lost == s.(agents := LoseEach(s.agents, OldIds(s.agents, born)))
    requires t == FinishEach(lost, OldIds(s.tasks, born), At(born, None))
    ensures t.flows == s.flows && LetGo(s, born) == EndOld(t, born)
  {
    FinishEachFrame(lost, OldIds(s.tasks, born), At(born, None));
  }

  lemma LetGoSays(s: State, born: nat)
    requires Holds(s)
    ensures Holds(LetGo(s, born)) && (Apart(s, born) ==> NothingOld(LetGo(s, born), born))
  {
    LetGoHolds(s, born);
    NoOldAgentLeft(s, born);
    NoOldTaskLeftIff(s, born);
  }

  lemma StepHolds(s: State, e: Event)
    requires Holds(s)
    ensures Holds(Do(s, e))
  {
    if e.Read? {
      var b := if e.born.Some? && e.born.value > 0 then e.born.value else s.born;
      LetGoHolds(s.(born := b), b);
    } else {
      WorkOwn(s, e);
      CallsOwn(s, e);
    }
  }

  /** Over any run of records and reads, every list keeps one entry an id, and the open calls stay within their limit. */
  lemma {:induction false} RunHolds(events: seq<Event>)
    ensures Holds(RunOf(events))
  {
    if events != [] {
      RunHolds(events[..|events| - 1]);
      StepHolds(RunOf(events[..|events| - 1]), events[|events| - 1]);
    }
  }

  /** Whatever happened before, a read that knows the birth of the process leaves nothing at work from before it, provided
      tasks and agents go by ids of their own. */
  lemma AfterARead(events: seq<Event>, born: nat)
    requires born > 0 && Apart(RunOf(events), born)
    ensures var t := RunOf(events + [Read(Some(born))]);
            && (forall w | w in t.tasks || w in t.bg || w in t.flows || w in t.agents :: !OldAndLive(w, born))
            && (forall c | c in t.calls :: !Before(c.at, At(born, None)))
            && Do(t, Read(Some(born))) == t && Do(t, Read(None)) == t
  {
    var all := events + [Read(Some(born))];
    assert all[..|all| - 1] == events && all[|all| - 1] == Read(Some(born));
    RunHolds(events);
    ReadLeavesNoneOld(RunOf(events), born);
  }

  lemma ReadLeavesNoneOld(was: State, born: nat)
    requires born > 0 && Holds(was) && Apart(was, born)
    ensures var t := Do(was, Read(Some(born)));
            && (forall w | w in t.tasks || w in t.bg || w in t.flows || w in t.agents :: !OldAndLive(w, born))
            && (forall c | c in t.calls :: !Before(c.at, At(born, None)))
            && Do(t, Read(Some(born))) == t && Do(t, Read(None)) == t
  {
    var s := was.(born := born);
    NoOldAgentLeft(s, born);
    NoOldTaskLeftIff(s, born);
    NothingOutlives(s, born);
    LetGoAgain(s);
  }

  lemma LetGoAgain(s: State)
    requires s.born > 0 && Holds(s) && Apart(s, s.born)
    ensures var t := LetGo(s, s.born); t.born == s.born && Do(t, Read(Some(s.born))) == t && Do(t, Read(None)) == t
  {
    LetGoTwice(s, s.born);
    BornKept(s, s.born);
    ReadAgain(LetGo(s, s.born), s.born);
  }

  lemma BornKept(s: State, born: nat)
    ensures LetGo(s, born).born == s.born
  {
    FinishEachFrame(s.(agents := LoseEach(s.agents, OldIds(s.agents, born))), OldIds(s.tasks, born), At(born, None));
  }

  lemma ReadAgain(t: State, born: nat)
    requires t.born == born > 0 && LetGo(t, born) == t
    ensures Do(t, Read(Some(born))) == t && Do(t, Read(None)) == t
  {
    assert t.(born := born) == t;
  }
}

/** The state of a session, changed in place as its records are read. */
module SessionKept {
  import opened Options
  import opened Sequences
  import opened SessionStores
  import opened SessionState
  import Op = SessionState

  class Session {
    var tasks: seq<Work>
    var bg: seq<Work>
    var flows: seq<Work>
    var agents: seq<Work>
    var calls: seq<Call>
    var flowIds: map<string, string>
    var born: nat

    function State(): Op.State
      reads this
    {
      Op.State(tasks, bg, flows, agents, calls, flowIds, born)
    }

    constructor ()
      ensures State() == NOTHING && Holds(State())
    {
      tasks, bg, flows, agents, calls, flowIds, born := [], [], [], [], [], map[], 0;
    }

    /** Prunes a list: what is over gives way until the list is within its limit. */
    static method Prune(works: seq<Work>) returns (kept: seq<Work>)
      ensures kept == Pruned(works)
    {
      kept := works;
      while |kept| > MAX_ITEMS && OldestOver(kept) < |kept|
        invariant Pruned(kept) == Pruned(works)
        decreases |kept|
      {
        kept := Remove(kept, OldestOver(kept));
      }
    }

    /** Ends an agent sent off to work; tells whether the id was one of them. */
    method EndAgent(id: string, how: string, at: Stamp) returns (found: bool)
      modifies this`bg
      ensures found == Has(old(bg), id) && bg == Ended(old(bg), id, how, at)
    {
      var i: nat := IndexOf(bg, id);
      found := i < |bg|;
      if found {
        bg := Prune(bg[i := Over(bg[i], how, at)]);
      }
    }

    method Finish(id: string, at: Stamp, how: string)
      modifies this`bg, this`tasks
      ensures State() == Op.Finish(old(State()), id, at, how)
    {
      var found := EndAgent(id, if how == "" then "completed" else how, at);
      if found {
        return;
      }
      var i: nat := IndexOf(tasks, id);
      if i == |tasks| {
        return;
      }
      if tasks[i].leaves {
        tasks := Remove(tasks, i);
      } else {
        tasks := Prune(tasks[i := Over(tasks[i], "", at)]);
      }
    }

    /** Lets a teammate go that cannot be reached. */
    method Lose(name: string)
      modifies this`agents
      ensures agents == Lost(old(agents), name)
    {
      var i: nat := IndexOf(agents, name);
      if i == |agents| {
        return;
      }
      if DoneAt(agents[i]) == Never {
        agents := Remove(agents, i);
      } else {
        agents := Prune(agents[i := agents[i].(over := Some("reported"))]);
      }
    }

    method FinishFlow(run: string, how: string, at: Stamp)
      modifies this`flows, this`flowIds
      ensures State() == Flows(old(State()), run, how, at)
    {
      var i: nat := IndexOf(flows, run);
      if i == |flows| {
        return;
      }
      flows := Prune(flows[i := Over(flows[i], if how == "" then "completed" else how, at)]);
      flowIds := FlowIdsBut(flowIds, [run]);
    }

    /** A letter wakes the agent it is to; `was` is what a refusal puts back. */
    method Wake(to_: string) returns (was: Option<Was>)
      modifies this`bg
      ensures Woke(bg, was) == Woken(old(bg), to_)
    {
      var i: nat := Addressed(bg, to_);
      if i == |bg| || Live(bg[i]) {
        return None;
      }
      was := Some(Was(bg[i].id, bg[i].over.value, bg[i].done));
      bg := bg[i := bg[i].(over := None, done := None)];
    }

    method Unwake(was: Option<Was>)
      modifies this`bg
      ensures bg == Unwoken(old(bg), was)
    {
      if was == None {
        return;
      }
      var i: nat := IndexOf(bg, was.value.id);
      if i == |bg| || !Live(bg[i]) {
        return;
      }
      bg := bg[i := bg[i].(over := Some(was.value.how), done := if was.value.done.Some? then was.value.done else bg[i].done)];
    }

    method OpenCall(c: Call)
      modifies this`calls
      ensures calls == if c.use == "" then old(calls) else Opened(old(calls), c)
    {
      if c.use == "" {
        return;
      }
      calls := ClosedCall(calls, c.use) + [c];
      ghost var more := calls;
      while |calls| > MAX_OPEN
        invariant |calls| <= |more| && calls == more[|more| - |calls|..]
        invariant |more| > MAX_OPEN ==> |calls| >= MAX_OPEN
        invariant |more| <= MAX_OPEN ==> calls == more
      {
        calls := calls[1..];
      }
    }

    /** Lets go what the previous process took with it. Nothing at work from before the birth is left, provided tasks
        and agents go by ids of their own. */
    method LetGoBeforeBirth(born: nat)
      requires Holds(State())
      modifies this
      ensures State() == LetGo(old(State()), born) && Holds(State())
      ensures Apart(old(State()), born) ==> NothingOld(State(), born)
    {
      ghost var was := State();
      LoseOlder(born);
      ghost var lost := State();
      FinishOlder(tasks, born);
      LetGoIs(was, born, lost, State());
      LetGoSays(was, born);
      EndTheRest(born);
    }

    method EndTheRest(born: nat)
      requires OwnIds(flows)
      modifies this
      ensures State() == EndOld(old(State()), born)
    {
      EndOlder(born);
      FinishOlderFlows(born);
      calls := CallsSince(calls, At(born, None));
    }

    /** What a read ends with. */
    method ReadOn(known: Option<nat>)
      requires Holds(State())
      modifies this
      ensures State() == Do(old(State()), Read(known)) && Holds(State())
    {
      StepHolds(State(), Read(known));
      if known.Some? && known.value > 0 {
        born := known.value;
      }
      if born > 0 {
        LetGoBeforeBirth(born);
      }
    }

    method LoseOlder(born: nat)
      modifies this`agents
      ensures agents == LoseEach(old(agents), OldIds(old(agents), born))
    {
      var gone := OldIds(agents, born);
      var i: nat := 0;
      while i < |gone|
        invariant i <= |gone| && agents == LoseEach(old(agents), gone[..i])
      {
        assert gone[..i + 1][..i] == gone[..i];
        Lose(gone[i]);
        i := i + 1;
      }
      assert gone[..i] == gone;
    }

    method FinishOlder(open: seq<Work>, born: nat)
      modifies this`bg, this`tasks
      ensures State() == FinishEach(old(State()), OldIds(open, born), At(born, None))
    {
      var gone := OldIds(open, born);
      var i: nat := 0;
      while i < |gone|
        invariant i <= |gone| && State() == FinishEach(old(State()), gone[..i], At(born, None))
      {
        FinishEachNext(old(State()), gone, i, At(born, None));
        Finish(gone[i], At(born, None), "");
        i := i + 1;
      }
      assert gone[..i] == gone;
    }

    method EndOlder(born: nat)
      modifies this`bg
      ensures bg == EndEach(old(bg), OldIds(old(bg), born), "killed", At(born, None))
    {
      var gone := OldIds(bg, born);
      var i: nat := 0;
      while i < |gone|
        invariant i <= |gone| && bg == EndEach(old(bg), gone[..i], "killed", At(born, None))
      {
        EndEachNext(old(bg), gone, i, "killed", At(born, None));
        var found := EndAgent(gone[i], "killed", At(born, None));
        i := i + 1;
      }
      assert gone[..i] == gone;
    }

    method FinishOlderFlows(born: nat)
      requires OwnIds(flows)
      modifies this`flows, this`flowIds
      ensures flows == EndEach(old(flows), OldIds(old(flows), born), "killed", At(born, None))
      ensures flowIds == FlowIdsBut(old(flowIds), OldIds(old(flows), born))
    {
      var gone := OldIds(flows, born);
      var i: nat := 0;
      OldIdsDistinct(flows, born);
      while i < |gone|
        invariant i <= |gone| && flows == EndEach(old(flows), gone[..i], "killed", At(born, None))
        invariant flowIds == FlowIdsBut(old(flowIds), gone[..i])
      {
        EndEachNext(old(flows), gone, i, "killed", At(born, None));
        StillThere(old(flows), gone, i, born);
        IdsNext(old(flowIds), gone, i);
        FinishFlow(gone[i], "killed", At(born, None));
        i := i + 1;
      }
      assert gone[..i] == gone;
    }
  }

  lemma FinishEachNext(s: Op.State, ids: seq<string>, i: nat, at: Stamp)
    requires i < |ids|
    ensures FinishEach(s, ids[..i + 1], at) == Op.Finish(FinishEach(s, ids[..i], at), ids[i], at, "")
  {
    assert ids[..i + 1][..i] == ids[..i];
  }

  lemma EndEachNext(works: seq<Work>, ids: seq<string>, i: nat, how: string, at: Stamp)
    requires i < |ids|
    ensures EndEach(works, ids[..i + 1], how, at) == Ended(EndEach(works, ids[..i], how, at), ids[i], how, at)
  {
    assert ids[..i + 1][..i] == ids[..i];
  }

  lemma IdsNext(flowIds: map<string, string>, ids: seq<string>, i: nat)
    requires i < |ids|
    ensures FlowIdsBut(flowIds, ids[..i + 1]) == FlowIdsBut(FlowIdsBut(flowIds, ids[..i]), [ids[i]])
  {
    assert ids[..i + 1] == ids[..i] + [ids[i]];
  }

  /** A run not ended yet is still in its list. */
  lemma StillThere(works: seq<Work>, gone: seq<string>, i: nat, born: nat)
    requires OwnIds(works) && gone == OldIds(works, born) && DistinctIds(gone) && i < |gone|
    ensures Has(EndEach(works, gone[..i], "killed", At(born, None)), gone[i])
  {
    var now := EndEach(works, gone[..i], "killed", At(born, None));
    EndEachLive(works, gone[..i], "killed", At(born, None));
    assert gone[i] in gone;
    var w :| w in works && OldAndLive(w, born) && w.id == gone[i];
    OnlyFinds(works, w, (x: Work) => Live(x) && x.id !in gone[..i]);
    assert w in LiveOf(now);
  }
}
