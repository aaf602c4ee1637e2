/** What a record of a transcript is drawn as, and what the parser remembers of it: the queue, the open calls,
    the commands waiting for an answer. */
module TranscriptRows {
  import opened Options
  import opened PromptQueue
  import opened Sequences

  datatype Block =
    | Words(text: string)
    | Use(id: string, name: string)
    | Letter(id: string, name: string, text: string)
    | Notify(id: string, name: string, text: string)

  /** `lost` says the answer to a letter or to a call of the person refused it. */
  datatype Result = Result(use: string, lost: bool)

  datatype Record =
    | Typed(text: string, shown: string, command: bool)
    | TakenBack(text: string)
    | HandedOver(text: string)
    | Answer(blocks: seq<Block>)
    | Results(results: seq<Result>)
    | Ended
    | Said(text: string, shown: string, queued: bool)
    | CommandRan(uuid: string, typed: string)
    | CommandAnswered(parent: string, says: string)
    | Attached(text: string, shown: string)

  /** A call still waiting for its answer. */
  datatype CallInfo = CallInfo(tool: string, cut: bool, letter: bool, notify: bool)

  /** A row of the feed, or a mark of what became of a call. */
  datatype Item =
    | ResultMark(use: string, lost: bool)
    | CutoffMark(use: string)
    | Row(pos: nat, nth: nat, role: Role, text: string, mark: Mark, fixes: Option<Role>, use: string, open: bool, done: bool)

  /** What the parser keeps between records. `uses` is the order the open calls came in. */
  datatype Known = Known(queue: Queue, texts: set<string>, uses: seq<string>, calls: map<string, CallInfo>,
                         unanswered: map<string, Item>)

  const NOTHING := Known(NO_QUEUE, {}, [], map[], map[])

  datatype Parse = Parse(known: Known, items: seq<Item>)

  function Drawn(p: Prompt): Item {
    Row(p.pos, 0, p.role, p.text, p.mark, None, "", false, false)
  }

  function DrawnAll(prompts: seq<Prompt>): (rows: seq<Item>)
    ensures |rows| == |prompts| && forall i | 0 <= i < |rows| :: rows[i] == Drawn(prompts[i])
  {
    seq(|prompts|, i requires 0 <= i < |prompts| => Drawn(prompts[i]))
  }

  function DeliveredAll(prompts: seq<Prompt>): (out: seq<Prompt>)
    ensures |out| == |prompts| && forall i | 0 <= i < |out| :: out[i] == Delivered(prompts[i])
  {
    seq(|prompts|, i requires 0 <= i < |prompts| => Delivered(prompts[i]))
  }

  function TakenBackAll(prompts: seq<Prompt>): (out: seq<Prompt>)
    ensures |out| == |prompts| && forall i | 0 <= i < |out| :: out[i] == PromptQueue.TakenBack(prompts[i])
  {
    seq(|prompts|, i requires 0 <= i < |prompts| => PromptQueue.TakenBack(prompts[i]))
  }

  /** The calls the turn now over left without a result, each marked once, in the order they came. */
  function Cutoff(uses: seq<string>, calls: map<string, CallInfo>): (r: (map<string, CallInfo>, seq<Item>))
    ensures r.0.Keys == calls.Keys
  {
    if uses == [] then (calls, [])
    else
      var rest := Cutoff(uses[..|uses| - 1], calls);
      var u := uses[|uses| - 1];
      if u == "" || u !in rest.0 || rest.0[u].cut then rest
      else (rest.0[u := rest.0[u].(cut := true)], rest.1 + [CutoffMark(u)])
  }

  /** The open calls a cutoff finds, in the order they came. */
  function StillOpen(uses: seq<string>, calls: map<string, CallInfo>): seq<string> {
    Only(uses, (u: string) => u != "" && u in calls && !calls[u].cut)
  }

  function CutAll(calls: map<string, CallInfo>, open: seq<string>): map<string, CallInfo> {
    map u | u in calls :: if u in open then calls[u].(cut := true) else calls[u]
  }

  function Marks(open: seq<string>): (marks: seq<Item>)
    ensures |marks| == |open| && forall i | 0 <= i < |open| :: marks[i] == CutoffMark(open[i])
  {
    seq(|open|, i requires 0 <= i < |open| => CutoffMark(open[i]))
  }

  /** Every call still open is marked once, in the order the calls came, and it alone changes. */
  lemma {:induction false} CutoffMarksOpen(uses: seq<string>, calls: map<string, CallInfo>)
    requires forall i, j | 0 <= i < j < |uses| :: uses[i] != uses[j]
    ensures Cutoff(uses, calls) == (CutAll(calls, StillOpen(uses, calls)), Marks(StillOpen(uses, calls)))
  {
    if uses == [] {
      assert CutAll(calls, []) == calls;
    } else {
      var rest, last := uses[..|uses| - 1], uses[|uses| - 1];
      CutoffMarksOpen(rest, calls);
      OnlyStep(uses, rest, last, (u: string) => u != "" && u in calls && !calls[u].cut);
      CutOneMore(calls, StillOpen(rest, calls), last);
    }
  }

  lemma CutOneMore(calls: map<string, CallInfo>, open: seq<string>, use: string)
    requires use !in open
    ensures use in calls ==> CutAll(calls, open)[use] == calls[use]
    ensures use in calls ==> CutAll(calls, open)[use := calls[use].(cut := true)] == CutAll(calls, open + [use])
    ensures Marks(open) + [CutoffMark(use)] == Marks(open + [use]) && open + [] == open
  {
  }

  /** A second cutoff marks nothing. */
  lemma CutoffOnce(uses: seq<string>, calls: map<string, CallInfo>)
    requires forall i, j | 0 <= i < j < |uses| :: uses[i] != uses[j]
    ensures Cutoff(uses, Cutoff(uses, calls).0) == (Cutoff(uses, calls).0, [])
  {
    var open, now := StillOpen(uses, calls), Cutoff(uses, calls).0;
    CutoffMarksOpen(uses, calls);
    CutoffMarksOpen(uses, now);
    forall u | u in uses && u != "" && u in now
      ensures now[u].cut
    {
      if !calls[u].cut {
        OnlyFinds(uses, u, (x: string) => x != "" && x in calls && !calls[x].cut);
      }
    }
    OnlyNone(uses, (u: string) => u != "" && u in now && !now[u].cut);
    assert CutAll(now, []) == now;
  }

  function CutoffOf(k: Known): Parse {
    var r := Cutoff(k.uses, k.calls);
    Parse(k.(calls := r.0), r.1)
  }

  function Opened(k: Known, id: string, info: CallInfo): Known {
    k.(uses := if id in k.calls then k.uses else k.uses + [id], calls := k.calls[id := info])
  }

  function OutOf(uses: seq<string>, use: string): (left: seq<string>)
    ensures forall u :: u in left <==> u in uses && u != use
  {
    if uses == [] then []
    else OutOf(uses[..|uses| - 1], use) + if uses[|uses| - 1] != use then [uses[|uses| - 1]] else []
  }

  function Closed(k: Known, use: string): Known {
    k.(uses := OutOf(k.uses, use), calls := k.calls - {use})
  }

  function Plain(pos: nat, role: string, text: string, use: string, open: bool): Item {
    Row(pos, 0, Other(role), text, NoMark, None, use, open, false)
  }

  /** A block of an answer: words are a row; a call is opened, and a letter and a call of the person
      are remembered as such. */
  function BlockOf(k: Known, pos: nat, b: Block): Parse {
    match b
    case Words(text) => Parse(k, if text == "" then [] else [Plain(pos, "ai", text, "", false)])
    case Use(id, name) =>
      Parse(Opened(k, id, CallInfo(name, false, false, false)), [Plain(pos, "tool", name, id, id != "")])
    case Letter(id, name, text) =>
      if text == "" then Parse(Opened(k, id, CallInfo(name, false, false, false)), [Plain(pos, "tool", name, id, id != "")])
      else Parse(Opened(k, id, CallInfo(name, false, id != "", false)), [Plain(pos, "mail", text, id, id != "")])
    case Notify(id, name, text) =>
      Parse(Opened(k, id, CallInfo(name, false, false, id != "")), [Plain(pos, "call", text, id, id != "")])
  }

  function BlocksOf(k: Known, pos: nat, blocks: seq<Block>): Parse {
    if blocks == [] then Parse(k, [])
    else
      var rest := BlocksOf(k, pos, blocks[..|blocks| - 1]);
      var last := BlockOf(rest.known, pos, blocks[|blocks| - 1]);
      Parse(last.known, rest.items + last.items)
  }

  function ResultsOf(k: Known, results: seq<Result>): Parse {
    if results == [] then Parse(k, [])
    else
      var rest := ResultsOf(k, results[..|results| - 1]);
      var last := ResultOf(rest.known, results[|results| - 1]);
      Parse(last.known, rest.items + last.items)
  }

  /** A result closes its call and marks it; the answer to a letter or to a call of the person may have refused it. */
  function ResultOf(k: Known, r: Result): Parse {
    Parse(Closed(k, r.use),
          if r.use != "" && r.use in k.calls
          then [ResultMark(r.use, (k.calls[r.use].letter || k.calls[r.use].notify) && r.lost)] else [])
  }

  function WithCutoff(p: Parse): Parse {
    var c := CutoffOf(p.known);
    Parse(c.known, p.items + c.items)
  }

  /** The queue draws a prompt where it was typed. */
  function TypedOf(k: Known, pos: nat, r: Record): Parse
    requires r.Typed?
  {
    if r.text == "" then Parse(k, [])
    else
      var p := Prompt(pos, if r.command then Command else Me, r.shown, Queued);
      Parse(k.(texts := k.texts + {r.text}, queue := Do(k.queue, Enqueue(p)).queue), [Drawn(p)])
  }

  /** A prompt given back by its words, or the whole queue when the words name none. */
  function TakenBackOf(k: Known, text: string): Parse {
    var found := if text != "" then Do(k.queue, ByText(text)) else Step(k.queue, [], []);
    var step := if found.given != [] then found else Do(found.queue, Drain);
    Parse(k.(queue := step.queue), DrawnAll(TakenBackAll(step.given)))
  }

  function HandedOverOf(k: Known, text: string): Parse {
    var step := if text != "" then Do(k.queue, ByText(text)) else Do(k.queue, Head);
    Parse(k.(queue := step.queue), DrawnAll(DeliveredAll(step.given)))
  }

  function AnswerOf(k: Known, pos: nat, blocks: seq<Block>): Parse {
    var step := Do(k.queue, Read);
    var rest := BlocksOf(k.(queue := step.queue), pos, blocks);
    Parse(rest.known, DrawnAll(DeliveredAll(step.given)) + rest.items)
  }

  /** A prompt of the person ends the turn before it; one that came through the queue is the row the queue drew. */
  function SaidOf(k: Known, pos: nat, r: Record): Parse
    requires r.Said?
  {
    if r.queued && r.text in k.texts then
      var step := Do(k.queue, ByText(r.text));
      WithCutoff(Parse(k.(queue := step.queue), DrawnAll(DeliveredAll(step.given))))
    else
      WithCutoff(Parse(k.(texts := k.texts + {r.text}), [Row(pos, 0, Me, r.shown, NoMark, None, "", false, false)]))
  }

  /** The card of a command: the one the queue drew, or its own, in the place of a bubble the queue drew for it. */
  function CommandOf(k: Known, pos: nat, uuid: string, typed: string): Parse {
    var step := Do(k.queue, PromptQueue.Drawn(typed, false));
    var k := k.(queue := step.queue);
    var own := Row(pos, 0, Command, typed, NoMark, None, "", false, false);
    if step.given != [] && step.given[0].role == Command then
      Parse(Remembered(k, uuid, Drawn(Delivered(step.given[0]))), [])
    else
      var p := WithCutoff(Parse(k, [if step.given == [] then own
                                    else own.(pos := step.given[0].pos, fixes := Some(step.given[0].role))]));
      Parse(Remembered(p.known, uuid, if step.given == [] then own else own.(pos := step.given[0].pos)), p.items)
  }

  function Remembered(k: Known, uuid: string, card: Item): Known {
    if uuid == "" then k else k.(unanswered := k.unanswered[uuid := card])
  }

  /** The answer to a command comes on its card, once; one whose command was never seen is a card of its own. */
  function CommandAnsweredOf(k: Known, pos: nat, parent: string, says: string): Parse {
    if parent != "" && parent in k.unanswered && k.unanswered[parent].Row? then
      Parse(k.(unanswered := k.unanswered - {parent}), [k.unanswered[parent].(text := says, done := true)])
    else if says != "" then Parse(k, [Row(pos, 0, Command, says, NoMark, None, "", false, true)])
    else Parse(k, [])
  }

  function AttachedOf(k: Known, pos: nat, text: string, shown: string): Parse {
    if text == "" || text in k.texts then Parse(k, [])
    else
      var p := Prompt(pos, Me, shown, Queued);
      Parse(k.(texts := k.texts + {text}, queue := Do(k.queue, Enqueue(p)).queue), [Drawn(p)])
  }

  /** The rows of a record before they are numbered. */
  function RowsOf(k: Known, pos: nat, r: Record): Parse {
    match r
    case Typed(_, _, _) => TypedOf(k, pos, r)
    case TakenBack(text) => TakenBackOf(k, text)
    case HandedOver(text) => HandedOverOf(k, text)
    case Answer(blocks) => AnswerOf(k, pos, blocks)
    case Results(results) => ResultsOf(k, results)
    case Ended => CutoffOf(k)
    case Said(_, _, _) => SaidOf(k, pos, r)
    case CommandRan(uuid, typed) => CommandOf(k, pos, uuid, typed)
    case CommandAnswered(parent, says) => CommandAnsweredOf(k, pos, parent, says)
    case Attached(text, shown) => AttachedOf(k, pos, text, shown)
  }

  /** A row that stands at its own record, not one drawn again. */
  predicate IsOwn(item: Item, pos: nat) {
    item.Row? && item.pos == pos
  }

  /** How many of these rows are the record's own rows of a role. */
  function CountRole(items: seq<Item>, pos: nat, role: Role): nat {
    if items == [] then 0
    else CountRole(items[..|items| - 1], pos, role) +
         if IsOwn(items[|items| - 1], pos) && items[|items| - 1].role == role then 1 else 0
  }

  /** Rows of one role in one record are numbered; a row drawn again is not. */
  function Numbered(items: seq<Item>, pos: nat): (out: seq<Item>)
    ensures |out| == |items|
  {
    if items == [] then []
    else
      var rest, last := items[..|items| - 1], items[|items| - 1];
      Numbered(rest, pos) + [if IsOwn(last, pos) then last.(nth := CountRole(rest, pos, last.role)) else last]
  }

  function ParseOf(k: Known, pos: nat, r: Record): Parse {
    var p := RowsOf(k, pos, r);
    Parse(p.known, Numbered(p.items, pos))
  }

  /** The open calls are listed once each, in the order they came. */
  ghost predicate Listed(k: Known) {
    && (forall u :: u in k.uses <==> u in k.calls)
    && (forall i, j | 0 <= i < j < |k.uses| :: k.uses[i] != k.uses[j])
  }

  lemma {:induction false} CountGrows(items: seq<Item>, pos: nat, role: Role, i: nat)
    requires i <= |items|
    ensures CountRole(items[..i], pos, role) <= CountRole(items, pos, role)
    ensures i < |items| && IsOwn(items[i], pos) && items[i].role == role ==>
              CountRole(items[..i], pos, role) < CountRole(items, pos, role)
  {
    if i < |items| {
      var rest := items[..|items| - 1];
      assert rest[..i] == items[..i];
      CountGrows(rest, pos, role, i);
    } else {
      assert items[..i] == items;
    }
  }

  /** No two rows of a record that stand at the record share an address. */
  lemma {:induction false} AddressesAreUnique(items: seq<Item>, pos: nat)
    ensures var out := Numbered(items, pos);
      && (forall i | 0 <= i < |out| :: IsOwn(out[i], pos) <==> IsOwn(items[i], pos))
      && (forall i | 0 <= i < |out| && IsOwn(out[i], pos) ::
            out[i].role == items[i].role && out[i].nth == CountRole(items[..i], pos, items[i].role))
      && (forall i | 0 <= i < |out| && !IsOwn(items[i], pos) :: out[i] == items[i])
      && (forall i, j | 0 <= i < j < |out| && IsOwn(out[i], pos) && IsOwn(out[j], pos) && out[i].role == out[j].role ::
            out[i].nth < out[j].nth)
  {
    if items != [] {
      var n := |items| - 1;
      var rest := items[..n];
      AddressesAreUnique(rest, pos);
      assert forall i | 0 <= i < n :: rest[..i] == items[..i];
      forall i | 0 <= i < n && IsOwn(items[i], pos) && IsOwn(items[n], pos) && items[i].role == items[n].role
        ensures CountRole(items[..i], pos, items[i].role) < CountRole(rest, pos, items[n].role)
      {
        CountGrows(rest, pos, items[i].role, i);
      }
    }
  }

  /** Only a prompt of the person and a command's card are ever drawn again. */
  predicate IsPrompt(role: Role) {
    role == Me || role == Command
  }

  ghost predicate AllPrompts(prompts: seq<Prompt>) {
    forall i | 0 <= i < |prompts| :: IsPrompt(prompts[i].role)
  }

  ghost predicate PromptsWait(q: Queue) {
    AllPrompts(q.waiting) && (q.last.Some? ==> IsPrompt(q.last.value.role))
  }

  predicate IsCard(item: Item) {
    item.Row? && IsPrompt(item.role) && item.fixes.None?
  }

  /** What the parser remembers to draw again: prompts, and the cards of commands. */
  ghost predicate Sound(k: Known) {
    PromptsWait(k.queue) && forall u | u in k.unanswered :: IsCard(k.unanswered[u])
  }

  /** A row stands at its record or is one drawn again, and only a command's card fixes another. */
  predicate Fits(item: Item, pos: nat) {
    item.Row? ==> (item.pos == pos || IsPrompt(item.role)) && (item.fixes.Some? ==> item.role == Command)
  }

  ghost predicate AllFit(items: seq<Item>, pos: nat) {
    forall i | 0 <= i < |items| :: Fits(items[i], pos)
  }

  lemma {:induction false} PartsWait(waiting: seq<Prompt>)
    requires AllPrompts(waiting)
    ensures AllPrompts(Commands(waiting)) && AllPrompts(Messages(waiting))
  {
    if waiting != [] {
      PartsWait(waiting[1..]);
    }
  }

  lemma TakenWaits(q: Queue, text: string)
    requires PromptsWait(q)
    ensures PromptsWait(TakeByText(q, text).queue) && AllPrompts(TakeByText(q, text).given)
  {
  }

  lemma StepWaits(q: Queue, op: Op)
    requires PromptsWait(q) && (op.Enqueue? ==> IsPrompt(op.prompt.role))
    ensures PromptsWait(Do(q, op).queue) && AllPrompts(Do(q, op).given)
  {
    match op
    case Enqueue(p) =>
    case Drain =>
    case Read => PartsWait(q.waiting);
    case Head =>
    case ByText(text) => TakenWaits(q, text);
    case Drawn(text, _) => TakenWaits(q, text);
  }

  lemma {:induction false} BlocksFit(k: Known, pos: nat, blocks: seq<Block>)
    ensures AllFit(BlocksOf(k, pos, blocks).items, pos)
    ensures BlocksOf(k, pos, blocks).known.queue == k.queue && BlocksOf(k, pos, blocks).known.unanswered == k.unanswered
  {
    if blocks != [] {
      BlocksFit(k, pos, blocks[..|blocks| - 1]);
    }
  }

  lemma {:induction false} ResultsFit(k: Known, pos: nat, results: seq<Result>)
    ensures AllFit(ResultsOf(k, results).items, pos)
    ensures ResultsOf(k, results).known.queue == k.queue && ResultsOf(k, results).known.unanswered == k.unanswered
  {
    if results != [] {
      ResultsFit(k, pos, results[..|results| - 1]);
    }
  }

  lemma {:induction false} MarksFit(uses: seq<string>, calls: map<string, CallInfo>, pos: nat)
    ensures AllFit(Cutoff(uses, calls).1, pos)
  {
    if uses != [] {
      MarksFit(uses[..|uses| - 1], calls, pos);
    }
  }

  lemma CutoffFits(p: Parse, pos: nat)
    requires Sound(p.known) && AllFit(p.items, pos)
    ensures Sound(WithCutoff(p).known) && AllFit(WithCutoff(p).items, pos)
  {
    MarksFit(p.known.uses, p.known.calls, pos);
  }

  lemma CommandFits(k: Known, pos: nat, uuid: string, typed: string)
    requires Sound(k)
    ensures Sound(CommandOf(k, pos, uuid, typed).known) && AllFit(CommandOf(k, pos, uuid, typed).items, pos)
  {
    var step := Do(k.queue, PromptQueue.Drawn(typed, false));
    var k := k.(queue := step.queue);
    StepWaits(k.queue, PromptQueue.Drawn(typed, false));
    var own := Row(pos, 0, Command, typed, NoMark, None, "", false, false);
    var row := if step.given == [] then own else own.(pos := step.given[0].pos, fixes := Some(step.given[0].role));
    CutoffFits(Parse(k, [row]), pos);
  }

  lemma {:induction false} NumberedFit(items: seq<Item>, pos: nat)
    requires AllFit(items, pos)
    ensures AllFit(Numbered(items, pos), pos)
  {
    if items != [] {
      NumberedFit(items[..|items| - 1], pos);
    }
  }

  /** Whatever record comes, only prompts and cards are drawn away from it, and what is remembered stays so. */
  lemma OnlyPromptsAreDrawnAgain(k: Known, pos: nat, r: Record)
    requires Sound(k)
    ensures Sound(ParseOf(k, pos, r).known) && AllFit(ParseOf(k, pos, r).items, pos)
  {
    RowsFit(k, pos, r);
    NumberedFit(RowsOf(k, pos, r).items, pos);
  }

  lemma RowsFit(k: Known, pos: nat, r: Record)
    requires Sound(k)
    ensures Sound(RowsOf(k, pos, r).known) && AllFit(RowsOf(k, pos, r).items, pos)
  {
    match r
    case Typed(text, shown, command) => StepWaits(k.queue, Enqueue(Prompt(pos, if command then Command else Me, shown, Queued)));
    case TakenBack(text) =>
      StepWaits(k.queue, ByText(text));
      StepWaits(Do(k.queue, ByText(text)).queue, Drain);
      StepWaits(k.queue, Drain);
    case HandedOver(text) =>
      StepWaits(k.queue, ByText(text));
      StepWaits(k.queue, Head);
    case Answer(blocks) =>
      StepWaits(k.queue, Read);
      BlocksFit(k.(queue := Do(k.queue, Read).queue), pos, blocks);
    case Results(results) => ResultsFit(k, pos, results);
    case Ended => MarksFit(k.uses, k.calls, pos);
    case Said(text, shown, queued) => SaidFits(k, pos, r);
    case CommandRan(uuid, typed) => CommandFits(k, pos, uuid, typed);
    case CommandAnswered(_, _) =>
    case Attached(text, shown) => StepWaits(k.queue, Enqueue(Prompt(pos, Me, shown, Queued)));
  }

  lemma SaidFits(k: Known, pos: nat, r: Record)
    requires r.Said? && Sound(k)
    ensures Sound(SaidOf(k, pos, r).known) && AllFit(SaidOf(k, pos, r).items, pos)
  {
    var step := Do(k.queue, ByText(r.text));
    StepWaits(k.queue, ByText(r.text));
    CutoffFits(Parse(k.(queue := step.queue), DrawnAll(DeliveredAll(step.given))), pos);
    CutoffFits(Parse(k.(texts := k.texts + {r.text}), [Row(pos, 0, Me, r.shown, NoMark, None, "", false, false)]), pos);
  }
}
