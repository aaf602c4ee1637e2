/** The queue of prompts typed while the model was answering: how each gets in and how it leaves. */
module PromptQueue {
  import opened Options

  datatype Role = Me | Command | Shell | Other(name: string)
  datatype Mark = NoMark | Queued | Withdrawn

  /** A row of the feed the queue drew, at the place of the record that drew it. */
  datatype Prompt = Prompt(pos: nat, role: Role, text: string, mark: Mark)

  /** `last` is the prompt that has just been handed over. */
  datatype Queue = Queue(waiting: seq<Prompt>, last: Option<Prompt>)

  const NO_QUEUE := Queue([], None)

  function Delivered(p: Prompt): Prompt {
    p.(mark := NoMark)
  }

  function TakenBack(p: Prompt): Prompt {
    p.(mark := Withdrawn)
  }

  function IndexOf(waiting: seq<Prompt>, text: string): (i: nat)
    ensures i <= |waiting|
    ensures i < |waiting| ==> waiting[i].text == text
    ensures forall j | 0 <= j < i :: waiting[j].text != text
  {
    if waiting == [] || waiting[0].text == text then 0 else IndexOf(waiting[1..], text) + 1
  }

  function Without<T>(s: seq<T>, i: nat): seq<T>
    requires i < |s|
  {
    s[..i] + s[i + 1..]
  }

  function Commands(waiting: seq<Prompt>): seq<Prompt> {
    if waiting == [] then []
    else (if waiting[0].role == Command then [waiting[0]] else []) + Commands(waiting[1..])
  }

  function Messages(waiting: seq<Prompt>): seq<Prompt> {
    if waiting == [] then []
    else (if waiting[0].role != Command then [waiting[0]] else []) + Messages(waiting[1..])
  }

  /** What may be done to the queue. */
  datatype Op =
    | Enqueue(prompt: Prompt)
    | Drain
    | Read
    | Head
    | ByText(text: string)
    | Drawn(text: string, waiting: bool)

  /** The queue after an operation, and the prompts that left it by it. */
  datatype Step = Step(queue: Queue, left: seq<Prompt>, given: seq<Prompt>)

  function TakeByText(q: Queue, text: string): Step {
    var i := IndexOf(q.waiting, text);
    if i == |q.waiting| then Step(q, [], [])
    else Step(Queue(Without(q.waiting, i), Some(q.waiting[i])), [q.waiting[i]], [q.waiting[i]])
  }

  /** `given` is what the caller is handed, `left` what is no longer waiting. */
  function Do(q: Queue, op: Op): Step {
    match op
    case Enqueue(p) => Step(q.(waiting := q.waiting + [p]), [], [])
    case Drain => Step(q.(waiting := []), q.waiting, q.waiting)
    case Read => Step(q.(waiting := Commands(q.waiting)), Messages(q.waiting), Messages(q.waiting))
    case Head =>
      if q.waiting == [] then Step(q.(last := None), [], [])
      else Step(Queue(q.waiting[1..], Some(q.waiting[0])), [q.waiting[0]], [q.waiting[0]])
    case ByText(text) => TakeByText(q, text)
    case Drawn(text, waiting) => TakeDrawn(q, text, waiting)
  }

  function TakeDrawn(q: Queue, text: string, waiting: bool): Step {
    var found := if waiting then TakeByText(q, text) else Step(q, [], []);
    if found.given != [] then found.(queue := found.queue.(last := None))
    else if q.last.Some? && q.last.value.text == text
    then Step(q.(last := None), [], [q.last.value])
    else found
  }

  /** A run of operations: the queue at its end and everything that left it, in order. */
  datatype Run = Run(queue: Queue, enqueued: seq<Prompt>, left: seq<Prompt>, drawn: seq<Prompt>)

  function Extend(r: Run, op: Op): Run {
    var s := Do(r.queue, op);
    Run(s.queue,
        if op.Enqueue? then r.enqueued + [op.prompt] else r.enqueued,
        r.left + s.left,
        if op.Drawn? then r.drawn + s.given else r.drawn)
  }

  function RunOf(ops: seq<Op>): Run {
    if ops == [] then Run(NO_QUEUE, [], [], []) else Extend(RunOf(ops[..|ops| - 1]), ops[|ops| - 1])
  }

  /** Prompts stand at the places of their records: two never share one, and later ones stand later. */
  ghost predicate InOrder(prompts: seq<Prompt>) {
    forall i, j | 0 <= i < j < |prompts| :: prompts[i].pos < prompts[j].pos
  }

  /** One sequence is another with some of it left out. */
  ghost predicate PartOf(part: seq<Prompt>, whole: seq<Prompt>, at: seq<nat>) {
    && |at| == |part|
    && (forall i, j | 0 <= i < j < |at| :: at[i] < at[j])
    && (forall i | 0 <= i < |at| :: at[i] < |whole| && whole[at[i]] == part[i])
  }

  lemma {:induction false} SplitByRole(waiting: seq<Prompt>)
    ensures multiset(waiting) == multiset(Commands(waiting)) + multiset(Messages(waiting))
    ensures forall p | p in Commands(waiting) :: p in waiting && p.role == Command
    ensures forall p | p in Messages(waiting) :: p in waiting && p.role != Command
  {
    if waiting != [] {
      SplitByRole(waiting[1..]);
      assert waiting == [waiting[0]] + waiting[1..];
    }
  }

  function Up(at: seq<nat>): (up: seq<nat>)
    ensures |up| == |at| && forall i | 0 <= i < |at| :: up[i] == at[i] + 1
  {
    seq(|at|, i requires 0 <= i < |at| => at[i] + 1)
  }

  lemma FirstOut(part: seq<Prompt>, whole: seq<Prompt>, at: seq<nat>)
    requires whole != [] && PartOf(part, whole[1..], at)
    ensures PartOf(part, whole, Up(at))
  {
  }

  lemma FirstIn(part: seq<Prompt>, whole: seq<Prompt>, at: seq<nat>)
    requires whole != [] && PartOf(part, whole, at) && forall i | 0 <= i < |at| :: at[i] > 0
    ensures PartOf([whole[0]] + part, whole, [0] + at)
  {
  }

  /** The commands of a queue, in its order. */
  lemma {:induction false} CommandsInOrder(waiting: seq<Prompt>) returns (at: seq<nat>)
    ensures PartOf(Commands(waiting), waiting, at)
  {
    at := [];
    if waiting != [] {
      var rest := CommandsInOrder(waiting[1..]);
      at := Up(rest);
      FirstOut(Commands(waiting[1..]), waiting, rest);
      if waiting[0].role == Command {
        FirstIn(Commands(waiting[1..]), waiting, at);
        at := [0] + at;
      } else {
        assert Commands(waiting) == Commands(waiting[1..]);
      }
    }
  }

  lemma PartTransitive(a: seq<Prompt>, b: seq<Prompt>, c: seq<Prompt>, ab: seq<nat>, bc: seq<nat>) returns (ac: seq<nat>)
    requires PartOf(a, b, ab) && PartOf(b, c, bc)
    ensures PartOf(a, c, ac)
  {
    ac := seq(|a|, i requires 0 <= i < |a| => bc[ab[i]]);
  }

  lemma AllOf(waiting: seq<Prompt>) returns (at: seq<nat>)
    ensures PartOf(waiting, waiting, at)
  {
    at := seq(|waiting|, i => i);
  }

  lemma OneOut(waiting: seq<Prompt>, cut: nat) returns (at: seq<nat>)
    requires cut < |waiting|
    ensures PartOf(Without(waiting, cut), waiting, at)
  {
    at := seq(|waiting| - 1, i => if i >= cut then i + 1 else i);
  }

  lemma TakenInOrder(q: Queue, text: string) returns (at: seq<nat>)
    ensures PartOf(TakeByText(q, text).queue.waiting, q.waiting, at)
  {
    var i := IndexOf(q.waiting, text);
    if i < |q.waiting| {
      at := OneOut(q.waiting, i);
    } else {
      at := AllOf(q.waiting);
    }
  }

  lemma HeadInOrder(q: Queue) returns (at: seq<nat>)
    ensures PartOf(Do(q, Head).queue.waiting, q.waiting, at)
  {
    if q.waiting == [] {
      at := [];
    } else {
      at := OneOut(q.waiting, 0);
      assert Without(q.waiting, 0) == q.waiting[1..];
    }
  }

  lemma DrawnInOrder(q: Queue, text: string, waiting: bool) returns (at: seq<nat>)
    ensures PartOf(TakeDrawn(q, text, waiting).queue.waiting, q.waiting, at)
  {
    if waiting {
      at := TakenInOrder(q, text);
    } else {
      at := AllOf(q.waiting);
    }
  }

  /** What stays waiting keeps its order. */
  lemma StepKeepsOrder(q: Queue, op: Op) returns (at: seq<nat>)
    ensures PartOf(Do(q, op).queue.waiting, if op.Enqueue? then q.waiting + [op.prompt] else q.waiting, at)
  {
    match op
    case Enqueue(p) => at := AllOf(q.waiting + [p]);
    case Drain => at := [];
    case Read => at := CommandsInOrder(q.waiting);
    case Head => at := HeadInOrder(q);
    case ByText(text) => at := TakenInOrder(q, text);
    case Drawn(text, waiting) => at := DrawnInOrder(q, text, waiting);
  }

  lemma WithoutMultiset<T>(s: seq<T>, i: nat)
    requires i < |s|
    ensures multiset(s) == multiset(Without(s, i)) + multiset{s[i]}
  {
    assert s == s[..i] + [s[i]] + s[i + 1..];
  }

  lemma TakenConserves(q: Queue, text: string)
    ensures multiset(q.waiting) == multiset(TakeByText(q, text).queue.waiting) + multiset(TakeByText(q, text).left)
  {
    var i := IndexOf(q.waiting, text);
    if i < |q.waiting| {
      WithoutMultiset(q.waiting, i);
    }
  }

  /** An operation makes nothing of its own and loses nothing: what was waiting waits or has left. */
  lemma StepConserves(q: Queue, op: Op)
    ensures multiset(q.waiting) + (if op.Enqueue? then multiset{op.prompt} else multiset{}) ==
            multiset(Do(q, op).queue.waiting) + multiset(Do(q, op).left)
  {
    match op
    case Enqueue(p) =>
    case Drain =>
    case Read => SplitByRole(q.waiting);
    case Head =>
      if q.waiting != [] {
        assert q.waiting == [q.waiting[0]] + q.waiting[1..];
      }
    case ByText(text) => TakenConserves(q, text);
    case Drawn(text, _) => TakenConserves(q, text);
  }

  ghost predicate Conserved(r: Run) {
    multiset(r.enqueued) == multiset(r.queue.waiting) + multiset(r.left)
  }

  lemma ExtendConserves(r: Run, op: Op)
    requires Conserved(r)
    ensures Conserved(Extend(r, op))
  {
    StepConserves(r.queue, op);
    var now := Extend(r, op);
    assert multiset(now.left) == multiset(r.left) + multiset(Do(r.queue, op).left);
    var more := if op.Enqueue? then multiset{op.prompt} else multiset{};
    assert multiset(now.enqueued) == multiset(r.enqueued) + more;
    var w, l := multiset(r.queue.waiting), multiset(r.left);
    assert (w + l) + more == (w + more) + l;
    var w', l' := multiset(now.queue.waiting), multiset(Do(r.queue, op).left);
    assert (w' + l') + l == w' + (l + l');
  }

  /** Every prompt ever queued is waiting or has left, and none has left twice or out of nowhere. */
  lemma {:induction false} QueueConserves(ops: seq<Op>)
    ensures Conserved(RunOf(ops))
  {
    if ops != [] {
      QueueConserves(ops[..|ops| - 1]);
      ExtendConserves(RunOf(ops[..|ops| - 1]), ops[|ops| - 1]);
    }
  }

  lemma PartMore(part: seq<Prompt>, whole: seq<Prompt>, at: seq<nat>, p: Prompt)
    requires PartOf(part, whole, at)
    ensures PartOf(part + [p], whole + [p], at + [|whole|])
  {
    var more := at + [|whole|];
    forall i | 0 <= i < |more|
      ensures more[i] < |whole + [p]| && (whole + [p])[more[i]] == (part + [p])[i]
    {
    }
  }

  lemma ExtendKeepsOrder(was: Run, op: Op, up: seq<nat>) returns (at: seq<nat>)
    requires PartOf(was.queue.waiting, was.enqueued, up)
    ensures PartOf(Extend(was, op).queue.waiting, Extend(was, op).enqueued, at)
  {
    var down := StepKeepsOrder(was.queue, op);
    var now := Extend(was, op);
    if op.Enqueue? {
      var more := up + [|was.enqueued|];
      PartMore(was.queue.waiting, was.enqueued, up, op.prompt);
      at := PartTransitive(now.queue.waiting, was.queue.waiting + [op.prompt], was.enqueued + [op.prompt], down, more);
    } else {
      at := PartTransitive(now.queue.waiting, was.queue.waiting, was.enqueued, down, up);
    }
  }

  /** Waiting prompts stand in the order they were queued in. */
  lemma {:induction false} QueueKeepsOrder(ops: seq<Op>) returns (at: seq<nat>)
    ensures PartOf(RunOf(ops).queue.waiting, RunOf(ops).enqueued, at)
  {
    if ops == [] {
      at := [];
    } else {
      var up := QueueKeepsOrder(ops[..|ops| - 1]);
      at := ExtendKeepsOrder(RunOf(ops[..|ops| - 1]), ops[|ops| - 1], up);
    }
  }

  /** Reading leaves exactly the commands. */
  lemma ReadLeavesCommands(q: Queue)
    ensures var s := Do(q, Read);
            && (forall p | p in s.queue.waiting :: p.role == Command && p in q.waiting)
            && (forall p | p in s.given :: p.role != Command && p in q.waiting)
            && multiset(q.waiting) == multiset(s.queue.waiting) + multiset(s.given)
  {
    SplitByRole(q.waiting);
  }

  /** A prompt that may still be handed out by `Drawn`. */
  ghost predicate Drawable(q: Queue, p: Prompt) {
    p in q.waiting || q.last == Some(p)
  }

  /** What is drawn was never drawn before and can never be drawn again. */
  ghost predicate DrawnOnce(r: Run) {
    && (forall i, j | 0 <= i < j < |r.drawn| :: r.drawn[i] != r.drawn[j])
    && (forall p | p in r.drawn :: !Drawable(r.queue, p) && p in r.enqueued)
    && (r.queue.last.Some? ==> r.queue.last.value !in r.queue.waiting && r.queue.last.value in r.enqueued)
  }

  lemma DistinctCount(s: seq<Prompt>, p: Prompt)
    requires InOrder(s)
    ensures multiset(s)[p] <= 1
  {
    if i :| 0 <= i < |s| && s[i] == p {
      WithoutMultiset(s, i);
      var rest := Without(s, i);
      forall k | 0 <= k < |rest|
        ensures rest[k] != p
      {
        assert rest[k] == s[if k < i then k else k + 1];
      }
      assert p !in rest;
      assert multiset(rest)[p] == 0;
    } else {
      assert p !in s;
    }
  }

  /** No row of the queue is drawn twice. */
  lemma {:induction false} DrawnAtMostOnce(ops: seq<Op>)
    requires InOrder(RunOf(ops).enqueued)
    ensures DrawnOnce(RunOf(ops))
  {
    if ops != [] {
      var was, op := RunOf(ops[..|ops| - 1]), ops[|ops| - 1];
      var enqueued := Extend(was, op).enqueued;
      assert InOrder(was.enqueued) by {
        assert forall i | 0 <= i < |was.enqueued| :: enqueued[i] == was.enqueued[i];
      }
      DrawnAtMostOnce(ops[..|ops| - 1]);
      QueueConserves(ops[..|ops| - 1]);
      StepDrawsOnce(was, op);
    }
  }

  lemma StepDrawsOnce(was: Run, op: Op)
    requires DrawnOnce(was) && Conserved(was)
    requires InOrder(was.enqueued) && InOrder(Extend(was, op).enqueued)
    ensures DrawnOnce(Extend(was, op))
  {
    var q := was.queue;
    match op
    case Enqueue(p) =>
      var enqueued := was.enqueued + [p];
      forall i | 0 <= i < |was.enqueued|
        ensures was.enqueued[i] != p
      {
        assert enqueued[i].pos < enqueued[|was.enqueued|].pos;
      }
    case Drain =>
    case Read => SplitByRole(q.waiting);
    case Head =>
      if q.waiting != [] {
        TakenIsGone(was, 0);
      }
    case ByText(text) => TextDrawsOnce(was, text);
    case Drawn(text, waiting) => DrawnDrawsOnce(was, text, waiting);
  }

  lemma DrawnDrawsOnce(was: Run, text: string, waiting: bool)
    requires DrawnOnce(was) && Conserved(was) && InOrder(was.enqueued)
    ensures DrawnOnce(Extend(was, Drawn(text, waiting)))
  {
    var q, i := was.queue, IndexOf(was.queue.waiting, text);
    if waiting && i < |q.waiting| {
      TakenIsGone(was, i);
      GivenOnce(was, q.waiting[i], Queue(Without(q.waiting, i), None), Extend(was, Drawn(text, waiting)));
    } else if q.last.Some? && q.last.value.text == text {
      GivenOnce(was, q.last.value, q.(last := None), Extend(was, Drawn(text, waiting)));
    } else {
      assert Extend(was, Drawn(text, waiting)).drawn == was.drawn;
    }
  }

  /** A prompt that could be drawn, given once, is drawn for the first time and can be drawn no more. */
  lemma GivenOnce(was: Run, p: Prompt, q: Queue, now: Run)
    requires DrawnOnce(was) && Drawable(was.queue, p) && p in was.enqueued
    requires now.queue == q && now.enqueued == was.enqueued && now.drawn == was.drawn + [p]
    requires q.last.None? && p !in q.waiting && forall x | x in q.waiting :: x in was.queue.waiting
    ensures DrawnOnce(now)
  {
  }

  lemma TextDrawsOnce(was: Run, text: string)
    requires DrawnOnce(was) && Conserved(was) && InOrder(was.enqueued)
    ensures DrawnOnce(Extend(was, ByText(text)))
  {
    var i := IndexOf(was.queue.waiting, text);
    if i < |was.queue.waiting| {
      TakenIsGone(was, i);
    }
  }

  /** A prompt taken out of the queue is nowhere else in it. */
  lemma TakenIsGone(r: Run, i: nat)
    requires Conserved(r) && InOrder(r.enqueued) && i < |r.queue.waiting|
    ensures r.queue.waiting[i] in r.enqueued
    ensures r.queue.waiting[i] !in Without(r.queue.waiting, i)
    ensures i == 0 ==> Without(r.queue.waiting, i) == r.queue.waiting[1..]
    ensures forall p | p in Without(r.queue.waiting, i) :: p in r.queue.waiting
  {
    var w := r.queue.waiting;
    DistinctCount(r.enqueued, w[i]);
    WithoutMultiset(w, i);
    assert multiset(w)[w[i]] <= multiset(r.enqueued)[w[i]];
    assert w[i] in multiset(r.enqueued);
    assert multiset(Without(w, i))[w[i]] == 0;
  }

  /** The queue as the parser holds it, changed in place. */
  class Pending {
    var waiting: seq<Prompt>
    var last: Option<Prompt>

    constructor ()
      ensures State() == NO_QUEUE
    {
      waiting, last := [], None;
    }

    function State(): Queue
      reads this
    {
      Queue(waiting, last)
    }

    /** A copy that a throwaway read may spoil. */
    method Clone() returns (twin: Pending)
      ensures fresh(twin) && twin.State() == State()
    {
      twin := new Pending();
      twin.waiting, twin.last := waiting, last;
    }

    method Enqueue(p: Prompt)
      modifies this
      ensures State() == Do(old(State()), Op.Enqueue(p)).queue
    {
      waiting := waiting + [p];
    }

    method Drain() returns (out: seq<Prompt>)
      modifies this
      ensures State() == Do(old(State()), Op.Drain).queue && out == Do(old(State()), Op.Drain).given
    {
      out, waiting := waiting, [];
    }

    method Read() returns (out: seq<Prompt>)
      modifies this
      ensures State() == Do(old(State()), Op.Read).queue && out == Do(old(State()), Op.Read).given
    {
      out := [];
      var commands: seq<Prompt> := [];
      for i := 0 to |waiting|
        invariant waiting == old(waiting) && last == old(last)
        invariant out + Messages(waiting[i..]) == Messages(waiting)
        invariant commands + Commands(waiting[i..]) == Commands(waiting)
      {
        ReadOne(waiting, i, out, commands);
        if waiting[i].role != Command {
          out := out + [waiting[i]];
        } else {
          commands := commands + [waiting[i]];
        }
      }
      waiting := commands;
    }

    method Head() returns (item: Option<Prompt>)
      modifies this
      ensures State() == Do(old(State()), Op.Head).queue
      ensures item == if old(waiting) == [] then None else Some(old(waiting)[0])
    {
      if waiting == [] {
        item := None;
      } else {
        item, waiting := Some(waiting[0]), waiting[1..];
      }
      last := item;
    }

    method ByText(text: string) returns (item: Option<Prompt>)
      modifies this
      ensures var s := Do(old(State()), Op.ByText(text));
              State() == s.queue && item == if s.given == [] then None else Some(s.given[0])
    {
      for i := 0 to |waiting|
        invariant State() == old(State())
        invariant forall j | 0 <= j < i :: waiting[j].text != text
      {
        if waiting[i].text == text {
          item := Some(waiting[i]);
          last := item;
          waiting := waiting[..i] + waiting[i + 1..];
          return;
        }
      }
      item := None;
    }

    method Drawn(text: string, inQueue: bool) returns (item: Option<Prompt>)
      modifies this
      ensures var s := Do(old(State()), Op.Drawn(text, inQueue));
              State() == s.queue && item == if s.given == [] then None else Some(s.given[0])
    {
      item := None;
      if inQueue {
        item := ByText(text);
      }
      if item.None? && last.Some? && last.value.text == text {
        item := last;
      }
      if item.Some? {
        last := None;
      }
    }
  }

  lemma ReadOne(waiting: seq<Prompt>, i: nat, out: seq<Prompt>, commands: seq<Prompt>)
    requires i < |waiting|
    ensures var first := waiting[i];
            && (if first.role != Command
                then out + Messages(waiting[i..]) == (out + [first]) + Messages(waiting[i + 1..])
                     && commands + Commands(waiting[i..]) == commands + Commands(waiting[i + 1..])
                else out + Messages(waiting[i..]) == out + Messages(waiting[i + 1..])
                     && commands + Commands(waiting[i..]) == (commands + [first]) + Commands(waiting[i + 1..]))
  {
    assert waiting[i..][1..] == waiting[i + 1..];
    var first := waiting[i];
    assert out + ([first] + Messages(waiting[i + 1..])) == (out + [first]) + Messages(waiting[i + 1..]);
    assert commands + ([first] + Commands(waiting[i + 1..])) == (commands + [first]) + Commands(waiting[i + 1..]);
    assert [] + Messages(waiting[i + 1..]) == Messages(waiting[i + 1..]);
    assert [] + Commands(waiting[i + 1..]) == Commands(waiting[i + 1..]);
  }
}
