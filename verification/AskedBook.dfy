/** The questions of the conversations still standing, and the file that keeps them. */
module AskedBook {
  import opened Options
  import opened Sequences

  /** A time as it is written: its rank among written times, 0 for none, and its seconds when it can be read. */
  datatype Stamp = Stamp(rank: nat, sec: Option<int>)

  /** `no` tells questions apart by when they came. */
  datatype Ask = Ask(no: nat, session: string, use: string, at: Stamp)

  /** What a store may hold for a conversation: a line of questions, some of them no questions at all; the one
      question of an older store; or something else. */
  datatype Stored = Line(items: seq<Option<Ask>>) | Single(ask: Ask) | Junk

  /** A store that cannot be read as a map is None. */
  type File = Option<map<string, Stored>>

  type Asks = map<string, seq<Ask>>

  const MAX_AGE := 86_400.0
  const IDLE_GRACE := 5.0

  function OnlyAsks(items: seq<Option<Ask>>): seq<Ask> {
    if items == [] then []
    else OnlyAsks(items[..|items| - 1]) + if items[|items| - 1].Some? then [items[|items| - 1].value] else []
  }

  function QueueOf(stored: Stored): seq<Ask> {
    match stored
    case Line(items) => OnlyAsks(items)
    case Single(ask) => [ask]
    case Junk => []
  }

  /** What a book opened on a file holds. */
  function Loaded(file: File): Asks {
    if file.None? then map[]
    else map k | k in file.value && QueueOf(file.value[k]) != [] :: QueueOf(file.value[k])
  }

  function LineOf(queue: seq<Ask>): Stored {
    Line(seq(|queue|, i requires 0 <= i < |queue| => Some(queue[i])))
  }

  /** The file a book writes. */
  function Written(asks: Asks): File {
    Some(map k | k in asks :: LineOf(asks[k]))
  }

  lemma {:induction false} LineRoundTrip(queue: seq<Ask>)
    ensures QueueOf(LineOf(queue)) == queue
  {
    if queue != [] {
      var n := |queue| - 1;
      LineRoundTrip(queue[..n]);
      assert LineOf(queue).items[..n] == LineOf(queue[..n]).items;
    }
  }

  /** No conversation is kept without a question. */
  ghost predicate Tidy(asks: Asks) {
    forall k | k in asks :: asks[k] != []
  }

  /** What a book writes is what a book opened on it holds. */
  lemma WrittenIsLoaded(asks: Asks)
    requires Tidy(asks)
    ensures Loaded(Written(asks)) == asks
  {
    forall k | k in asks
      ensures QueueOf(Written(asks).value[k]) == asks[k]
    {
      LineRoundTrip(asks[k]);
    }
  }

  function Waiting(asks: Asks, session: string): seq<Ask> {
    if session in asks then asks[session] else []
  }

  function With(asks: Asks, session: string, queue: seq<Ask>): Asks {
    if queue == [] then asks - {session} else asks[session := queue]
  }

  /** What the transcript of a conversation says of its questions. */
  datatype Heard = Heard(uses: set<string>, ended: Stamp, prompted: Stamp, heard: Stamp, now: real)

  predicate Outlived(at: Stamp, end: Stamp) {
    at.sec.Some? && end.sec.Some? && end.sec.value > at.sec.value
  }

  predicate AskedIdle(at: Stamp, h: Heard) {
    && at.sec.Some? && h.ended.sec.Some? && at.sec.value > h.ended.sec.value && h.heard.rank > 0
    && h.heard.rank <= h.ended.rank && h.now - at.sec.value as real >= IDLE_GRACE
  }

  predicate Settled(ask: Ask, h: Heard) {
    (ask.use != "" && ask.use in h.uses) || AskedIdle(ask.at, h) || Outlived(ask.at, h.ended) || Outlived(ask.at, h.prompted)
  }

  predicate Fresh(ask: Ask, now: real) {
    ask.at.sec.Some? && now - ask.at.sec.value as real <= MAX_AGE
  }

  function Unsettled(queue: seq<Ask>, h: Heard): seq<Ask> {
    Only(queue, (a: Ask) => !Settled(a, h))
  }

  function FreshOf(queue: seq<Ask>, now: real): seq<Ask> {
    Only(queue, (a: Ask) => Fresh(a, now))
  }

  datatype Event =
    | Put(ask: Ask)
    | Drop(session: string)
    | Answered(session: string, said: Heard)
    | Sweep(alive: set<string>, now: real)

  function Swept(asks: Asks, alive: set<string>, now: real): Asks {
    map k | k in asks && k in alive && FreshOf(asks[k], now) != [] :: FreshOf(asks[k], now)
  }

  /** What the questions are to become. */
  function Wanted(asks: Asks, e: Event): Asks {
    match e
    case Put(ask) => asks[ask.session := Waiting(asks, ask.session) + [ask]]
    case Drop(session) => asks - {session}
    case Answered(session, said) => if session in asks then With(asks, session, Unsettled(asks[session], said)) else asks
    case Sweep(alive, now) => Swept(asks, alive, now)
  }

  /** Questions stand in the order they came. */
  ghost predicate Rising(queue: seq<Ask>) {
    forall i, j | 0 <= i < j < |queue| :: queue[i].no < queue[j].no
  }

  ghost predicate InOrder(asks: Asks, next: nat) {
    forall k | k in asks :: Rising(asks[k]) && forall a | a in asks[k] :: a.no < next
  }

  lemma OnlyRises(queue: seq<Ask>, p: Ask -> bool)
    requires Rising(queue)
    ensures Rising(Only(queue, p))
  {
    OnlyInOrder(queue, p, (a: Ask, b: Ask) => a.no < b.no);
  }

  /** Memory and file. An event whose write fails leaves both as they were. */
  datatype Book = Book(asks: Asks, file: File)

  function Open(file: File): Book {
    Book(Loaded(file), file)
  }

  function Do(b: Book, e: Event, ok: bool): Book {
    var asks := Wanted(b.asks, e);
    if asks == b.asks || !ok then b else Book(asks, Written(asks))
  }

  datatype Step = Step(event: Event, ok: bool)

  function RunOf(file: File, steps: seq<Step>): Book {
    if steps == [] then Open(file)
    else Do(RunOf(file, steps[..|steps| - 1]), steps[|steps| - 1].event, steps[|steps| - 1].ok)
  }

  /** The number the next question may have, as questions come in order. */
  function NextNo(first: nat, steps: seq<Step>): nat {
    if steps == [] then first
    else
      var s := steps[|steps| - 1];
      if s.event.Put? then s.event.ask.no + 1 else NextNo(first, steps[..|steps| - 1])
  }

  /** Questions are numbered as they come, after those of the store. */
  ghost predicate Numbered(first: nat, steps: seq<Step>) {
    steps == [] || (Numbered(first, steps[..|steps| - 1])
                    && (steps[|steps| - 1].event.Put? ==> steps[|steps| - 1].event.ask.no >= NextNo(first, steps[..|steps| - 1])))
  }

  lemma TidyWanted(asks: Asks, e: Event)
    requires Tidy(asks)
    ensures Tidy(Wanted(asks, e))
  {
  }

  /** After any run of events, with writes that fail and writes that do not, memory is what a book opened on the file
      holds: an agent that starts again finds the questions as they stood. */
  lemma {:induction false} MemoryIsTheFile(file: File, steps: seq<Step>)
    ensures var b := RunOf(file, steps); Tidy(b.asks) && Loaded(b.file) == b.asks
  {
    if steps != [] {
      var s := steps[|steps| - 1];
      var was := RunOf(file, steps[..|steps| - 1]);
      MemoryIsTheFile(file, steps[..|steps| - 1]);
      TidyWanted(was.asks, s.event);
      WrittenIsLoaded(Wanted(was.asks, s.event));
    }
  }

  lemma OrderKept(asks: Asks, e: Event, next: nat)
    requires InOrder(asks, next) && (e.Put? ==> e.ask.no >= next)
    ensures InOrder(Wanted(asks, e), if e.Put? then e.ask.no + 1 else next)
  {
    match e
    case Put(_) =>
    case Drop(_) =>
    case Answered(session, said) =>
      if session in asks {
        OnlyRises(asks[session], (a: Ask) => !Settled(a, said));
      }
    case Sweep(alive, now) =>
      forall k | k in asks
        ensures Rising(FreshOf(asks[k], now)) && forall a | a in FreshOf(asks[k], now) :: a in asks[k]
      {
        OnlyRises(asks[k], (a: Ask) => Fresh(a, now));
      }
  }

  /** A conversation's questions stand in the order they came, after any run of events and failed writes. */
  lemma {:induction false} ArrivalOrderKept(file: File, steps: seq<Step>, first: nat)
    requires InOrder(Loaded(file), first) && Numbered(first, steps)
    ensures InOrder(RunOf(file, steps).asks, NextNo(first, steps))
  {
    if steps != [] {
      var s := steps[|steps| - 1];
      var was := RunOf(file, steps[..|steps| - 1]).asks;
      ArrivalOrderKept(file, steps[..|steps| - 1], first);
      OrderKept(was, s.event, NextNo(first, steps[..|steps| - 1]));
    }
  }

  /** Once what was heard is taken in, the question offered is the first that came of those it does not settle, and taking
      the same in again changes nothing. */
  lemma AnsweredOnce(asks: Asks, session: string, h: Heard)
    requires Tidy(asks)
    ensures var now := Wanted(asks, Answered(session, h));
            && Waiting(now, session) == Unsettled(Waiting(asks, session), h)
            && (forall a | a in Waiting(now, session) :: !Settled(a, h))
            && (forall k | k != session :: Waiting(now, k) == Waiting(asks, k))
            && Wanted(now, Answered(session, h)) == now
  {
    var now := Wanted(asks, Answered(session, h));
    OnlyAll(Waiting(now, session), (a: Ask) => !Settled(a, h));
  }

  /** A question leaves only by an event that drops its conversation, settles it or finds it stale. */
  lemma NoQuestionVanishes(asks: Asks, e: Event, a: Ask)
    requires Tidy(asks) && a in Waiting(asks, a.session)
    ensures a !in Waiting(Wanted(asks, e), a.session) <==>
              || (e.Drop? && e.session == a.session)
              || (e.Answered? && e.session == a.session && Settled(a, e.said))
              || (e.Sweep? && (a.session !in e.alive || !Fresh(a, e.now)))
  {
    if e.Answered? {
      AnsweredOnce(asks, e.session, e.said);
    }
  }
}

/** The book itself: every change goes to the file first, and is undone when the file does not take it. */
module AskedBookKept {
  import opened Options
  import opened Sequences
  import opened AskedBook
  import Op = AskedBook

  class Book {
    var asks: Asks
    var file: File

    function State(): Op.Book
      reads this
    {
      Op.Book(asks, file)
    }

    ghost predicate Valid()
      reads this
    {
      Tidy(asks) && Loaded(file) == asks
    }

    /** A book opened on a file holds what the file holds. */
    constructor (file: File)
      ensures Valid() && State() == Open(file)
    {
      this.file := file;
      asks := Loaded(file);
    }

    /** Writes the questions, or puts back what was before. `ok` says whether the file took them. */
    method Commit(before: Asks, ok: bool) returns (kept: bool)
      requires Tidy(asks)
      modifies this
      ensures kept == ok
      ensures State() == if ok then Op.Book(old(asks), Written(old(asks))) else Op.Book(before, old(file))
    {
      if ok {
        file := Written(asks);
      } else {
        asks := before;
      }
      kept := ok;
    }

    method Put(ask: Ask, ok: bool) returns (kept: bool)
      requires Valid()
      modifies this
      ensures Valid() && State() == Do(old(State()), Event.Put(ask), ok) && kept == ok
    {
      var before := asks;
      asks := asks[ask.session := Waiting(asks, ask.session) + [ask]];
      WrittenIsLoaded(asks);
      assert |asks[ask.session]| == |Waiting(before, ask.session)| + 1;
      kept := Commit(before, ok);
    }

    method Of(session: string) returns (first: Option<Ask>)
      ensures first == if Waiting(asks, session) == [] then None else Some(Waiting(asks, session)[0])
    {
      first := if session in asks && asks[session] != [] then Some(asks[session][0]) else None;
    }

    method Drop(session: string, ok: bool) returns (gone: Option<seq<Ask>>)
      requires Valid()
      modifies this
      ensures Valid() && State() == Do(old(State()), Event.Drop(session), ok)
      ensures gone == if session in old(asks) && ok then Some(old(asks)[session]) else None
    {
      if session !in asks {
        assert asks - {session} == asks;
        return None;
      }
      var before := asks;
      asks := asks - {session};
      WrittenIsLoaded(asks);
      assert session in before && session !in asks;
      var kept := Commit(before, ok);
      gone := if kept then Some(before[session]) else None;
    }

    method Answered(session: string, said: Heard, ok: bool) returns (changed: bool)
      requires Valid()
      modifies this
      ensures Valid() && State() == Do(old(State()), Event.Answered(session, said), ok)
      ensures changed <==> ok && exists a :: a in Waiting(old(asks), session) && Settled(a, said)
    {
      var waiting := Waiting(asks, session);
      if waiting == [] {
        return false;
      }
      var left := Unsettled(waiting, said);
      if |left| == |waiting| {
        if exists a :: a in waiting && Settled(a, said) {
          OnlyFewer(waiting, (a: Ask) => !Settled(a, said));
        }
        OnlyAll(waiting, (a: Ask) => !Settled(a, said));
        assert asks[session := left] == asks;
        return false;
      }
      if forall a | a in waiting :: !Settled(a, said) {
        OnlyAll(waiting, (a: Ask) => !Settled(a, said));
      }
      var before := asks;
      asks := With(asks, session, left);
      TidyWanted(before, Event.Answered(session, said));
      WrittenIsLoaded(asks);
      assert Waiting(asks, session) == left && left != waiting;
      changed := Commit(before, ok);
    }

    /** Forgets the questions of dead sessions and the very old ones, and names the conversations that lost any. */
    method Sweep(alive: set<string>, now: real, ok: bool) returns (gone: set<string>)
      requires Valid()
      modifies this
      ensures Valid() && State() == Do(old(State()), Event.Sweep(alive, now), ok)
      ensures gone == if ok then set k | k in old(asks) && (k !in alive || FreshOf(old(asks)[k], now) != old(asks)[k]) else {}
    {
      var stale := set k | k in asks && (k !in alive || FreshOf(asks[k], now) != asks[k]);
      if stale == {} {
        assert Swept(asks, alive, now) == asks by {
          forall k | k in asks
            ensures k in alive && FreshOf(asks[k], now) == asks[k]
          {
            assert k !in stale;
          }
        }
        return {};
      }
      var before := asks;
      asks := Swept(asks, alive, now);
      TidyWanted(before, Event.Sweep(alive, now));
      WrittenIsLoaded(asks);
      assert asks != before by {
        var k :| k in stale;
      }
      var kept := Commit(before, ok);
      gone := if kept then stale else {};
    }
  }
}
