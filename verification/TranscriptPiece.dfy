/** A piece of a transcript kept between requests and read on as the file grows, against a stream read at once. */
module TranscriptPiece {
  import opened Options
  import opened Lines
  import opened PromptQueue
  import opened TranscriptRows

  type Entry = Line<Record>

  /** What the lines [lo, hi) leave the parser knowing, and the rows they gave. */
  datatype Past = Past(known: Known, rows: seq<(nat, seq<Item>)>)

  function Rows(pos: nat, items: seq<Item>): seq<(nat, seq<Item>)> {
    if items == [] then [] else [(pos, items)]
  }

  function ReadLines(lines: seq<Entry>, lo: nat, hi: nat): Past
    requires lo <= hi <= |lines|
    decreases hi
  {
    if lo == hi then Past(NOTHING, []) else Extend(ReadLines(lines, lo, hi - 1), Pos(lines, hi - 1), lines[hi - 1])
  }

  /** One line more. */
  function Extend(was: Past, pos: nat, line: Entry): Past {
    if line.record.None? then was
    else
      var p := ParseOf(was.known, pos, line.record.value);
      Past(p.known, was.rows + Rows(pos, p.items))
  }

  lemma {:induction false} ReadGrows(lines: seq<Entry>, more: seq<Entry>, lo: nat, hi: nat)
    requires lo <= hi <= |lines| && lines <= more
    ensures ReadLines(lines, lo, hi) == ReadLines(more, lo, hi)
    ensures Pos(lines, hi) == Pos(more, hi)
    decreases hi
  {
    PosGrows(lines, more, hi);
    if lo < hi {
      ReadGrows(lines, more, lo, hi - 1);
      assert lines[hi - 1] == more[hi - 1];
    }
  }

  /** What the parser gives for a feed: records in the order of their positions, and away from its own record only a
      prompt or a card is drawn. */
  lemma {:induction false} OnlyPromptsAreRedrawn(lines: seq<Entry>, lo: nat, hi: nat)
    requires lo <= hi <= |lines|
    ensures var past := ReadLines(lines, lo, hi);
      && Sound(past.known)
      && (forall i | 0 <= i < |past.rows| :: past.rows[i].0 < Pos(lines, hi) && AllFit(past.rows[i].1, past.rows[i].0))
      && (forall i, j | 0 <= i < j < |past.rows| :: past.rows[i].0 < past.rows[j].0)
    decreases hi
  {
    if lo < hi {
      OnlyPromptsAreRedrawn(lines, lo, hi - 1);
      assert Pos(lines, hi - 1) < Pos(lines, hi);
      if lines[hi - 1].record.Some? {
        OnlyPromptsAreDrawnAgain(ReadLines(lines, lo, hi - 1).known, Pos(lines, hi - 1), lines[hi - 1].record.value);
      }
    }
  }

  lemma {:induction false} PosGrows(lines: seq<Entry>, more: seq<Entry>, i: nat)
    requires i <= |lines| && lines <= more
    ensures Pos(lines, i) == Pos(more, i)
  {
    if i > 0 {
      PosGrows(lines, more, i - 1);
      assert lines[i - 1] == more[i - 1];
    }
  }

  /** The rows of a last line whose newline is not written yet, when what stands of it is a record already. */
  function EdgeOf(k: Known, pos: nat, torn: Option<Record>): seq<(nat, seq<Item>)> {
    if torn.None? then [] else Rows(pos, ParseOf(k, pos, torn.value).items)
  }

  /** What a stream of the file from a line on yields: every whole line, and the line still being written. */
  function StreamOf(lines: seq<Entry>, torn: Option<Record>, lo: nat): seq<(nat, seq<Item>)>
    requires lo <= |lines|
  {
    var read := ReadLines(lines, lo, |lines|);
    read.rows + EdgeOf(read.known, Pos(lines, |lines|), torn)
  }

  /** How many lines start before this size. */
  function Upto(lines: seq<Entry>, size: nat): (n: nat)
    ensures n <= |lines|
    ensures n > 0 ==> Pos(lines, n - 1) < size
    ensures n < |lines| ==> Pos(lines, n) >= size
  {
    UptoFrom(lines, size, 0)
  }

  function UptoFrom(lines: seq<Entry>, size: nat, i: nat): (n: nat)
    requires i <= |lines| && (i > 0 ==> Pos(lines, i - 1) < size)
    ensures i <= n <= |lines|
    ensures n > 0 ==> Pos(lines, n - 1) < size
    ensures n < |lines| ==> Pos(lines, n) >= size
    decreases |lines| - i
  {
    if i == |lines| || Pos(lines, i) >= size then i else UptoFrom(lines, size, i + 1)
  }

  /** The state of one open call. The parser never changes one it did not make for the record at hand. */
  class CallCell {
    const tool: string
    var cut: bool
    var letter: bool
    var notify: bool

    constructor (tool: string, cut: bool, letter: bool, notify: bool)
      ensures Info() == CallInfo(tool, cut, letter, notify)
    {
      this.tool, this.cut, this.letter, this.notify := tool, cut, letter, notify;
    }

    function Info(): CallInfo
      reads this
    {
      CallInfo(tool, cut, letter, notify)
    }
  }

  /** The calls a parser holds, as values. */
  ghost function Infos(cells: map<string, CallCell>): map<string, CallInfo>
    reads cells.Values
  {
    map u | u in cells :: cells[u].Info()
  }

  lemma InfosWithout(cells: map<string, CallCell>, use: string)
    ensures Infos(cells - {use}) == Infos(cells) - {use}
  {
  }

  lemma InfosPut(cells: map<string, CallCell>, was: map<string, CallInfo>, id: string, info: CallInfo)
    requires id in cells && cells[id].Info() == info && cells.Keys == was.Keys + {id}
    requires forall u | u in cells && u != id :: cells[u].Info() == was[u]
    ensures Infos(cells) == was[id := info]
  {
  }

  lemma PutTwice<K, V>(m: map<K, V>, k: K, v: V, w: V)
    ensures m[k := v][k := w] == m[k := w]
  {
  }

  class Parser {
    var pending: Pending
    var texts: set<string>
    var uses: seq<string>
    var cells: map<string, CallCell>
    var unanswered: map<string, Item>

    constructor ()
      ensures State() == NOTHING && fresh(pending) && cells == map[]
    {
      pending := new Pending();
      texts, uses, cells, unanswered := {}, [], map[], map[];
    }

    ghost function State(): Known
      reads this, pending, cells.Values
    {
      Known(pending.State(), texts, uses, Infos(cells), unanswered)
    }

    /** A parser that a throwaway read may spoil. The queue is copied, the calls are not: the copy of the
        dictionary holds the same cells. */
    method Clone() returns (twin: Parser)
      ensures fresh(twin) && fresh(twin.pending)
      ensures twin.cells == cells && twin.State() == State()
    {
      twin := new Parser();
      twin.pending := pending.Clone();
      twin.texts, twin.uses, twin.cells, twin.unanswered := texts, uses, cells, unanswered;
    }

    /** Puts a new cell under an id. No cell that was there before is changed. */
    method Put(id: string, info: CallInfo)
      modifies this`cells
      ensures id in cells && fresh(cells[id]) && cells == old(cells)[id := cells[id]]
      ensures forall u | u in cells && u != id :: cells[u] != cells[id]
      ensures cells[id].Info() == info && Infos(cells) == old(Infos(cells))[id := info]
    {
      var cell := new CallCell(info.tool, info.cut, info.letter, info.notify);
      cells := cells[id := cell];
    }

    /** Opens a call; a letter and a call of the person are marked as such once they are open. */
    method Open(id: string, tool: string, letter: bool, notify: bool)
      modifies this`uses, this`cells
      ensures State() == Opened(old(State()), id, CallInfo(tool, false, letter, notify))
    {
      ghost var was := State();
      if id !in cells {
        uses := uses + [id];
      }
      Put(id, CallInfo(tool, false, false, false));
      Flag(id, letter, notify);
      PutTwice(was.calls, id, CallInfo(tool, false, false, false), CallInfo(tool, false, letter, notify));
    }

    /** Says what the call just opened is. */
    method Flag(id: string, letter: bool, notify: bool)
      requires id in cells && !cells[id].letter && !cells[id].notify
      requires forall u | u in cells && u != id :: cells[u] != cells[id]
      modifies cells[id]
      ensures Infos(cells) == old(Infos(cells))[id := old(cells[id].Info()).(letter := letter, notify := notify)]
    {
      ghost var was := Infos(cells);
      if letter {
        cells[id].letter := true;
      }
      if notify {
        cells[id].notify := true;
      }
      InfosPut(cells, was, id, cells[id].Info());
    }

    method Block(b: TranscriptRows.Block, pos: nat) returns (items: seq<Item>)
      modifies this`uses, this`cells
      ensures State() == BlockOf(old(State()), pos, b).known
      ensures items == BlockOf(old(State()), pos, b).items
    {
      match b
      case Words(text) =>
        items := if text == "" then [] else [Plain(pos, "ai", text, "", false)];
      case Use(id, name) =>
        Open(id, name, false, false);
        items := [Plain(pos, "tool", name, id, id != "")];
      case Letter(id, name, text) =>
        if text == "" {
          Open(id, name, false, false);
          items := [Plain(pos, "tool", name, id, id != "")];
        } else {
          Open(id, name, id != "", false);
          items := [Plain(pos, "mail", text, id, id != "")];
        }
      case Notify(id, name, text) =>
        Open(id, name, false, id != "");
        items := [Plain(pos, "call", text, id, id != "")];
    }

    method Blocks(blocks: seq<TranscriptRows.Block>, pos: nat) returns (items: seq<Item>)
      modifies this`uses, this`cells
      ensures State() == BlocksOf(old(State()), pos, blocks).known
      ensures items == BlocksOf(old(State()), pos, blocks).items
    {
      items := [];
      for i := 0 to |blocks|
        invariant pending == old(pending)
        invariant State() == BlocksOf(old(State()), pos, blocks[..i]).known
        invariant items == BlocksOf(old(State()), pos, blocks[..i]).items
      {
        assert blocks[..i + 1][..i] == blocks[..i];
        var more := Block(blocks[i], pos);
        items := items + more;
      }
      assert blocks[..|blocks|] == blocks;
    }

    /** Marks every call the turn left open. A call is replaced by a marked one rather than changed: a throwaway
        read works on a copy of the calls that holds the same ones. */
    method CutOff() returns (marks: seq<Item>)
      modifies this`cells
      ensures State() == CutoffOf(old(State())).known && marks == CutoffOf(old(State())).items
    {
      marks := [];
      for i := 0 to |uses|
        invariant pending == old(pending) && uses == old(uses)
        invariant Infos(cells) == Cutoff(uses[..i], old(Infos(cells))).0
        invariant marks == Cutoff(uses[..i], old(Infos(cells))).1
      {
        assert uses[..i + 1][..i] == uses[..i];
        var u := uses[i];
        if u != "" && u in cells && !cells[u].cut {
          Put(u, cells[u].Info().(cut := true));
          marks := marks + [CutoffMark(u)];
        }
      }
      assert uses[..|uses|] == uses;
    }

    method TakeResult(r: Result) returns (items: seq<Item>)
      modifies this`uses, this`cells
      ensures State() == ResultOf(old(State()), r).known && items == ResultOf(old(State()), r).items
    {
      items := [];
      if r.use != "" && r.use in cells {
        items := [ResultMark(r.use, (cells[r.use].letter || cells[r.use].notify) && r.lost)];
      }
      InfosWithout(cells, r.use);
      uses, cells := OutOf(uses, r.use), cells - {r.use};
    }

    method TakeResults(results: seq<Result>) returns (items: seq<Item>)
      modifies this`uses, this`cells
      ensures State() == ResultsOf(old(State()), results).known && items == ResultsOf(old(State()), results).items
    {
      items := [];
      for i := 0 to |results|
        invariant pending == old(pending)
        invariant State() == ResultsOf(old(State()), results[..i]).known
        invariant items == ResultsOf(old(State()), results[..i]).items
      {
        assert results[..i + 1][..i] == results[..i];
        var more := TakeResult(results[i]);
        items := items + more;
      }
      assert results[..|results|] == results;
    }

    method Prompted(p: Prompt, text: string)
      modifies this`texts, pending
      ensures State() == old(State()).(texts := old(texts) + {text}, queue := Do(old(State()).queue, Enqueue(p)).queue)
    {
      texts := texts + {text};
      pending.Enqueue(p);
    }

    method TakeBack(text: string) returns (items: seq<Item>)
      modifies pending
      ensures State() == TakenBackOf(old(State()), text).known && items == TakenBackOf(old(State()), text).items
    {
      var item: Option<Prompt> := None;
      if text != "" {
        item := pending.ByText(text);
      }
      if item.Some? {
        return DrawnAll(TakenBackAll([item.value]));
      }
      var all := pending.Drain();
      return DrawnAll(TakenBackAll(all));
    }

    method HandOver(text: string) returns (items: seq<Item>)
      modifies pending
      ensures State() == HandedOverOf(old(State()), text).known && items == HandedOverOf(old(State()), text).items
    {
      var item: Option<Prompt>;
      if text != "" {
        item := pending.ByText(text);
      } else {
        item := pending.Head();
      }
      return if item.Some? then DrawnAll(DeliveredAll([item.value])) else DrawnAll(DeliveredAll([]));
    }

    method TakeAnswer(blocks: seq<TranscriptRows.Block>, pos: nat) returns (items: seq<Item>)
      modifies this`uses, this`cells, pending
      ensures State() == AnswerOf(old(State()), pos, blocks).known && items == AnswerOf(old(State()), pos, blocks).items
    {
      var read := pending.Read();
      var rest := Blocks(blocks, pos);
      items := DrawnAll(DeliveredAll(read)) + rest;
    }

    /** A prompt that came through the queue is the row the queue drew, delivered. */
    method TakeQueued(text: string) returns (items: seq<Item>)
      modifies pending
      ensures State() == old(State()).(queue := TakeByText(old(State()).queue, text).queue)
      ensures items == DrawnAll(DeliveredAll(TakeByText(old(State()).queue, text).given))
    {
      var item := pending.ByText(text);
      items := DrawnAll(DeliveredAll(if item.Some? then [item.value] else []));
    }

    method TakeSaid(r: Record, pos: nat) returns (items: seq<Item>)
      requires r.Said?
      modifies this`texts, this`cells, pending
      ensures State() == SaidOf(old(State()), pos, r).known && items == SaidOf(old(State()), pos, r).items
    {
      if r.queued && r.text in texts {
        items := TakeQueued(r.text);
      } else {
        texts := texts + {r.text};
        items := [Row(pos, 0, Me, r.shown, NoMark, None, "", false, false)];
      }
      var marks := CutOff();
      items := items + marks;
    }

    method TakeCommand(uuid: string, typed: string, pos: nat) returns (items: seq<Item>)
      modifies this`cells, this`unanswered, pending
      ensures State() == CommandOf(old(State()), pos, uuid, typed).known
      ensures items == CommandOf(old(State()), pos, uuid, typed).items
    {
      var drawn := pending.Drawn(typed, false);
      var card := Row(pos, 0, Command, typed, NoMark, None, "", false, false);
      if drawn.Some? && drawn.value.role == Command {
        card, items := TranscriptRows.Drawn(Delivered(drawn.value)), [];
      } else {
        var marks := CutOff();
        items := [card] + marks;
        if drawn.Some? {
          card := card.(pos := drawn.value.pos);
          items := items[0 := card.(fixes := Some(drawn.value.role))];
        }
      }
      if uuid != "" {
        unanswered := unanswered[uuid := card];
      }
    }

    method TakeCommandAnswer(parent: string, says: string, pos: nat) returns (items: seq<Item>)
      modifies this`unanswered
      ensures State() == CommandAnsweredOf(old(State()), pos, parent, says).known
      ensures items == CommandAnsweredOf(old(State()), pos, parent, says).items
    {
      if parent != "" && parent in unanswered && unanswered[parent].Row? {
        var card := unanswered[parent];
        unanswered := unanswered - {parent};
        return [card.(text := says, done := true)];
      }
      return if says != "" then [Row(pos, 0, Command, says, NoMark, None, "", false, true)] else [];
    }

    method RowsOf(r: Record, pos: nat) returns (items: seq<Item>)
      modifies this`texts, this`uses, this`cells, this`unanswered, pending
      ensures State() == TranscriptRows.RowsOf(old(State()), pos, r).known
      ensures items == TranscriptRows.RowsOf(old(State()), pos, r).items
    {
      match r
      case Typed(text, shown, command) =>
        items := [];
        if text != "" {
          var p := Prompt(pos, if command then Command else Me, shown, Queued);
          Prompted(p, text);
          items := [TranscriptRows.Drawn(p)];
        }
      case TakenBack(text) => items := TakeBack(text);
      case HandedOver(text) => items := HandOver(text);
      case Answer(blocks) => items := TakeAnswer(blocks, pos);
      case Results(results) => items := TakeResults(results);
      case Ended => items := CutOff();
      case Said(_, _, _) => items := TakeSaid(r, pos);
      case CommandRan(uuid, typed) => items := TakeCommand(uuid, typed, pos);
      case CommandAnswered(parent, says) => items := TakeCommandAnswer(parent, says, pos);
      case Attached(text, shown) =>
        items := [];
        if text != "" && text !in texts {
          var p := Prompt(pos, Me, shown, Queued);
          Prompted(p, text);
          items := [TranscriptRows.Drawn(p)];
        }
    }

    /** The rows of a record, numbered. It changes this parser and its queue, and no cell of a call that was
        there before. */
    method Parse(r: Record, pos: nat) returns (items: seq<Item>)
      modifies this`texts, this`uses, this`cells, this`unanswered, pending
      ensures State() == ParseOf(old(State()), pos, r).known
      ensures items == ParseOf(old(State()), pos, r).items
    {
      var rows := RowsOf(r, pos);
      items := [];
      for i := 0 to |rows|
        invariant items == Numbered(rows[..i], pos)
        invariant State() == TranscriptRows.RowsOf(old(State()), pos, r).known
      {
        assert rows[..i + 1][..i] == rows[..i];
        items := items + [if IsOwn(rows[i], pos) then rows[i].(nth := CountRole(rows[..i], pos, rows[i].role)) else rows[i]];
      }
      assert rows[..|rows|] == rows;
    }
  }

  /** A parsed piece of a transcript, kept between requests. `first` is the line it starts at, `read` how many
      lines it has read. */
  class Piece {
    const first: nat
    var read: nat
    var pos: nat
    var rows: seq<(nat, seq<Item>)>
    var parser: Parser

    constructor (lines: seq<Entry>, first: nat)
      requires first <= |lines|
      ensures Holds(lines) && read == first == this.first && fresh(parser) && fresh(parser.pending)
    {
      this.first, read, pos, rows := first, first, Pos(lines, first), [];
      parser := new Parser();
    }

    /** What the piece holds is one pass over the lines it has read. */
    ghost predicate Holds(lines: seq<Entry>)
      reads this, parser, parser.pending, parser.cells.Values
    {
      && first <= read <= |lines|
      && pos == Pos(lines, read)
      && parser.State() == ReadLines(lines, first, read).known
      && rows == ReadLines(lines, first, read).rows
    }

    method ReadLine(lines: seq<Entry>)
      requires Holds(lines) && read < |lines|
      modifies this, parser, parser.pending
      ensures parser == old(parser) && parser.pending == old(parser.pending)
      ensures Holds(lines) && read == old(read) + 1
    {
      var line := lines[read];
      var start := pos;
      read, pos := read + 1, pos + line.size;
      if line.record.Some? {
        var items := parser.Parse(line.record.value, start);
        if items != [] {
          rows := rows + [(start, items)];
        }
      }
    }

    /** Reads the lines that appeared since, up to a length of the file. */
    method ReadOn(ghost was: seq<Entry>, lines: seq<Entry>, size: nat)
      requires Holds(was) && was <= lines
      modifies this, parser, parser.pending
      ensures parser == old(parser) && parser.pending == old(parser.pending)
      ensures Holds(lines)
      ensures read == if old(read) < Upto(lines, size) then Upto(lines, size) else old(read)
    {
      ReadGrows(was, lines, first, read);
      while pos < size && read < |lines|
        invariant parser == old(parser) && parser.pending == old(parser.pending)
        invariant Holds(lines) && old(read) <= read
        invariant read > old(read) ==> Pos(lines, read - 1) < size
        decreases |lines| - read
      {
        ReadLine(lines);
      }
      UptoIs(lines, size, old(read), read);
    }

    /** The rows of a record whose end has not been written yet, parsed on a copy. The method changes no object
        that was there before: not the piece, its queue, nor any of the calls its copy shares with it. */
    method Edge(torn: Option<Record>) returns (edge: seq<(nat, seq<Item>)>)
      ensures edge == EdgeOf(parser.State(), pos, torn)
    {
      if torn.None? {
        return [];
      }
      ghost var known := parser.State();
      var twin := parser.Clone();
      assert twin.State() == known && parser.State() == known;
      var items := twin.Parse(torn.value, pos);
      assert parser.State() == known;
      return if items != [] then [(pos, items)] else [];
    }

    /** The view of one request: the rows of the piece and of the line still being written. */
    method View(ghost was: seq<Entry>, lines: seq<Entry>, torn: Option<Record>, size: nat) returns (rows: seq<(nat, seq<Item>)>)
      requires Holds(was) && was <= lines && size >= Pos(lines, |lines|)
      modifies this, parser, parser.pending
      ensures parser == old(parser) && parser.pending == old(parser.pending)
      ensures Holds(lines)
      ensures rows == StreamOf(lines, torn, first)
    {
      ReadOn(was, lines, size);
      UptoAll(lines, size);
      var edge := Edge(torn);
      rows := this.rows + edge;
    }
  }

  lemma UptoIs(lines: seq<Entry>, size: nat, was: nat, n: nat)
    requires was <= n <= |lines|
    requires n > was ==> Pos(lines, n - 1) < size
    requires n == |lines| || Pos(lines, n) >= size
    ensures n == if was < Upto(lines, size) then Upto(lines, size) else was
  {
    var u := Upto(lines, size);
    if u > 0 {
      PosOrder(lines, u - 1, n);
    }
    if n > 0 && u < |lines| {
      PosOrder(lines, n - 1, u);
    }
  }

  lemma UptoAll(lines: seq<Entry>, size: nat)
    requires size >= Pos(lines, |lines|)
    ensures Upto(lines, size) == |lines|
  {
    var u := Upto(lines, size);
    PosOrder(lines, u, |lines|);
  }

  /** Where a read that starts inside a file begins: the line the seek lands in belongs to what stands before. */
  function FirstLine(lines: seq<Entry>, start: nat): (n: nat)
    ensures n <= |lines|
  {
    if start == 0 then 0
    else if Pos(lines, |lines|) > start then FirstPast(lines, |lines|, start)
    else |lines|
  }

  /** One step of reading on: what was written by then, and how far the read was asked to go. */
  datatype Visit = Visit(lines: seq<Entry>, size: nat)

  /** Reading on in any steps, while the file only grows, is reading at once. */
  method ReadingOnIsReadingAtOnce(lines: seq<Entry>, start: nat, visits: seq<Visit>, torn: Option<Record>) returns (piece: Piece, rows: seq<(nat, seq<Item>)>)
    requires forall i | 0 <= i < |visits| :: visits[i].lines <= lines
    requires forall i, j | 0 <= i < j < |visits| :: visits[i].lines <= visits[j].lines
    requires |visits| > 0 ==> FirstLine(lines, start) <= |visits[0].lines|
    ensures fresh(piece) && piece.Holds(lines) && rows == StreamOf(lines, torn, FirstLine(lines, start))
  {
    var first := FirstLine(lines, start);
    ghost var was := if |visits| > 0 then visits[0].lines else lines;
    piece := new Piece(lines, first);
    ReadGrows(was, lines, first, first);
    for i := 0 to |visits|
      invariant fresh(piece) && fresh(piece.parser) && fresh(piece.parser.pending)
      invariant piece.first == first && piece.Holds(was)
      invariant was <= lines && forall j | i <= j < |visits| :: was <= visits[j].lines
    {
      piece.ReadOn(was, visits[i].lines, visits[i].size);
      was := visits[i].lines;
    }
    rows := piece.View(was, lines, torn, Pos(lines, |lines|));
  }
}
