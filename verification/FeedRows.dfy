/** The rows of a feed window and what each parsed item does to them. */
module FeedRows {
  import opened Options

  /** The roles of rows that are not badge groups. */
  datatype Role = Mail | CallCard | Sent | TaskDone | ArtifactLink | Notice | AgentStates | Said(name: string)

  type Shot = nat

  datatype Item =
    | Mark(use: string, failed: bool, shots: seq<Shot>, undelivered: string)
    | ToolItem(pos: nat, nth: nat, use: string, kind: string, name: string, index: nat, open: bool)
    | ThinkItem(pos: nat, nth: nat, count: nat, tokens: nat)
    | RowItem(pos: nat, nth: nat, role: Role, fixes: Option<Role>, use: string, from: string, text: string, open: bool)

  datatype Call = Call(name: string, seqNo: nat, pos: nat, index: nat, use: string, status: Status)

  /** What became of a call: marks only add to it. */
  datatype Status = Status(open: bool, failed: bool, shots: seq<Shot>, undelivered: string)

  datatype Spot = Spot(seqNo: nat, tokens: nat, pos: nat)

  /** Rows of a window. A raw thought is one drawn over a group of thoughts: it stands in no run. */
  datatype Row =
    | Group(pos: nat, kind: string, run: nat, calls: seq<Call>)
    | Thoughts(pos: nat, nth: nat, run: nat, count: nat, tokens: nat, spots: seq<Spot>)
    | RawThought(pos: nat, nth: nat)
    | Plain(pos: nat, nth: nat, role: Role, fixes: Option<Role>, use: string, from: string, text: string, status: Status)

  /** A row the reader has: as it was handed out, as it is now, and whether a later record touched it. */
  datatype Known = Known(was: Row, row: Row, touched: bool)

  /** The state of a fold. `raised` says the fold met a row it cannot read, and gave up. */
  datatype View = View(window: seq<Row>, known: seq<Known>, total: int, more: bool, raised: bool)

  const EMPTY := View([], [], 0, false, false)

  function NthOf(row: Row): nat {
    if row.Group? then 0 else row.nth
  }

  predicate IsGroup(row: Row) {
    row.Group? || row.Thoughts? || row.RawThought?
  }

  /** Rows the screen hangs under a run, or does not draw. */
  predicate IsTransparent(row: Row) {
    row.Plain? && row.role in {TaskDone, ArtifactLink, Notice, AgentStates}
  }

  predicate Breaks(row: Row) {
    !IsGroup(row) && !IsTransparent(row)
  }

  /** The row an item takes the place of: same place, same number, same role or the role it fixes. */
  predicate Replaces(item: Item, row: Row) {
    match item
    case Mark(_, _, _, _) => false
    case ToolItem(_, _, _, _, _, _, _) => false
    case ThinkItem(pos, nth, _, _) => (row.Thoughts? || row.RawThought?) && row.pos == pos && row.nth == nth
    case RowItem(pos, nth, role, fixes, _, _, _, _) =>
      row.Plain? && row.pos == pos && row.nth == nth && (row.role == role || Some(row.role) == fixes)
  }

  /** The first row of a list that an item takes the place of; the length of the list when there is none. */
  function PlaceOf(rows: seq<Row>, item: Item): (i: nat)
    ensures i <= |rows|
    ensures i < |rows| ==> Replaces(item, rows[i])
    ensures forall j | 0 <= j < i :: !Replaces(item, rows[j])
  {
    if rows == [] then 0
    else if Replaces(item, rows[0]) then 0
    else PlaceOf(rows[1..], item) + 1
  }

  function RowOf(item: Item, fixes: Option<Role>): Row
    requires item.ThinkItem? || item.RowItem?
  {
    if item.ThinkItem? then RawThought(item.pos, item.nth)
    else Plain(item.pos, item.nth, item.role, fixes, item.use, item.from, item.text, Status(item.open, false, [], ""))
  }

  predicate HasCall(calls: seq<Call>, use: string) {
    exists c :: c in calls && c.use == use
  }

  predicate HoldsCall(row: Row, use: string) {
    || (row.Group? && HasCall(row.calls, use))
    || (row.Plain? && row.role in {Mail, CallCard} && row.use == use)
  }

  /** The last row that holds the call; the length of the list when none does. */
  function HolderOf(rows: seq<Row>, use: string): (i: nat)
    ensures i <= |rows|
    ensures i < |rows| ==> HoldsCall(rows[i], use) && forall j | i < j < |rows| :: !HoldsCall(rows[j], use)
    ensures i == |rows| ==> forall j | 0 <= j < |rows| :: !HoldsCall(rows[j], use)
  {
    if rows == [] then 0
    else
      var rest := rows[..|rows| - 1];
      if HoldsCall(rows[|rows| - 1], use) then |rows| - 1
      else
        var i := HolderOf(rest, use);
        if i == |rest| then |rows| else i
  }

  function Marked(s: Status, mark: Item): Status
    requires mark.Mark?
  {
    Status(false,
           s.failed || mark.failed,
           if mark.shots != [] then mark.shots else s.shots,
           if mark.undelivered != "" then mark.undelivered else s.undelivered)
  }

  /** The first call with the mark's id, marked. */
  function MarkedCalls(calls: seq<Call>, mark: Item): seq<Call>
    requires mark.Mark?
  {
    if calls == [] then []
    else if calls[0].use == mark.use then [calls[0].(status := Marked(calls[0].status, mark))] + calls[1..]
    else [calls[0]] + MarkedCalls(calls[1..], mark)
  }

  function MarkedRow(row: Row, mark: Item): Row
    requires mark.Mark? && HoldsCall(row, mark.use)
  {
    if row.Group? then row.(calls := MarkedCalls(row.calls, mark)) else row.(status := Marked(row.status, mark))
  }

  function RowsOf(known: seq<Known>): (rows: seq<Row>)
    ensures |rows| == |known| && forall i | 0 <= i < |known| :: rows[i] == known[i].row
  {
    seq(|known|, i requires 0 <= i < |known| => known[i].row)
  }

  function Settle(v: View, mark: Item): View
    requires mark.Mark?
  {
    if mark.use == "" then v
    else
      var i := HolderOf(v.window, mark.use);
      if i < |v.window| then SettleAt(v, i, mark) else SettleKnown(v, mark)
  }

  function SettleAt(v: View, i: nat, mark: Item): View
    requires mark.Mark? && i < |v.window| && HoldsCall(v.window[i], mark.use)
  {
    v.(window := v.window[i := MarkedRow(v.window[i], mark)])
  }

  /** A call of a row the reader has: the row is to be drawn again. */
  function SettleKnown(v: View, mark: Item): View
    requires mark.Mark?
  {
    var k := HolderOf(RowsOf(v.known), mark.use);
    if k < |v.known| then v.(known := v.known[k := v.known[k].(row := MarkedRow(v.known[k].row, mark), touched := true)])
    else v
  }

  function CallsWithout(calls: seq<Call>, use: string): (left: seq<Call>)
    ensures forall c :: c in left <==> c in calls && c.use != use
  {
    if calls == [] then []
    else (if calls[0].use != use then [calls[0]] else []) + CallsWithout(calls[1..], use)
  }

  function Without<T>(s: seq<T>, i: nat): (r: seq<T>)
    requires i < |s|
    ensures |r| == |s| - 1
  {
    s[..i] + s[i + 1..]
  }

  /** Takes a delivered call out of the group at i; a group left with no calls goes. */
  function DropAt(v: View, i: nat, use: string): View
    requires i < |v.window| && v.window[i].Group?
  {
    var calls := CallsWithout(v.window[i].calls, use);
    if calls != [] then v.(window := v.window[i := v.window[i].(calls := calls)])
    else v.(window := Without(v.window, i), total := v.total - 1)
  }

  /** The same among the rows the reader has: what is left of the group is to be drawn again. */
  function DropKnown(v: View, k: nat, use: string): View
    requires k < |v.known| && v.known[k].row.Group?
  {
    var row := v.known[k].row;
    var calls := CallsWithout(row.calls, use);
    if calls != [] then v.(known := v.known[k := v.known[k].(row := row.(calls := calls), touched := true)])
    else v.(known := Without(v.known, k))
  }

  /** A letter or a call of the person holds no calls to take one out of: the fold fails on it. */
  function DropFound(v: View, i: nat, use: string): View
    requires i < |v.window|
  {
    if v.window[i].Group? then DropAt(v, i, use) else v.(raised := true)
  }

  function DropFromKnown(v: View, use: string): View {
    var k := HolderOf(RowsOf(v.known), use);
    if k == |v.known| then v
    else if v.known[k].row.Group? then DropKnown(v, k, use)
    else v.(raised := true)
  }

  function DropCall(v: View, use: string): View {
    if use == "" then v else DropIn(v, HolderOf(v.window, use), use)
  }

  function DropIn(v: View, i: nat, use: string): View {
    if i < |v.window| then DropFound(v, i, use) else DropFromKnown(v, use)
  }

  predicate SameTask(row: Row, use: string) {
    row.Plain? && row.role == TaskDone && row.use == use
  }

  function TaskOf(rows: seq<Row>, use: string): (i: nat)
    ensures i <= |rows|
    ensures i < |rows| ==> SameTask(rows[i], use)
    ensures forall j | 0 <= j < i :: !SameTask(rows[j], use)
  {
    if rows == [] then 0
    else if SameTask(rows[0], use) then 0
    else TaskOf(rows[1..], use) + 1
  }

  function DropTask(v: View, use: string): View {
    var i := TaskOf(v.window, use);
    if i < |v.window| then v.(window := Without(v.window, i), total := v.total - 1) else v
  }

  predicate SameLetter(row: Row, item: Item)
    requires item.RowItem?
  {
    row.Plain? && row.role == Mail && row.from == item.from && row.text == item.text && row.use == item.use
  }

  predicate HasLetter(rows: seq<Row>, item: Item)
    requires item.RowItem?
  {
    exists i :: 0 <= i < |rows| && SameLetter(rows[i], item)
  }

  /** Where the run at the end of a window starts. */
  function TailStart(rows: seq<Row>): (i: nat)
    ensures i <= |rows|
    ensures forall j | i <= j < |rows| :: !Breaks(rows[j])
    ensures i > 0 ==> Breaks(rows[i - 1])
  {
    if rows == [] || Breaks(rows[|rows| - 1]) then |rows| else TailStart(rows[..|rows| - 1])
  }

  /** The badge groups of a list of rows, in order. */
  function Groups(rows: seq<Row>): seq<Row> {
    if rows == [] then []
    else Groups(rows[..|rows| - 1]) + if IsGroup(rows[|rows| - 1]) then [rows[|rows| - 1]] else []
  }

  function RunTail(rows: seq<Row>): seq<Row> {
    Groups(rows[TailStart(rows)..])
  }

  function CallSeqs(calls: seq<Call>): set<nat> {
    set c | c in calls :: c.seqNo
  }

  function SpotSeqs(spots: seq<Spot>): set<nat> {
    set s | s in spots :: s.seqNo
  }

  /** The numbers the calls and thoughts of a row are drawn under. */
  function SeqsOf(row: Row): set<nat> {
    match row
    case Group(_, _, _, calls) => CallSeqs(calls)
    case Thoughts(_, _, _, _, _, spots) => SpotSeqs(spots)
    case _ => {}
  }

  function MaxCall(calls: seq<Call>): int {
    if calls == [] then -1
    else
      var rest := MaxCall(calls[..|calls| - 1]);
      if calls[|calls| - 1].seqNo > rest then calls[|calls| - 1].seqNo else rest
  }

  function MaxSpot(spots: seq<Spot>): int {
    if spots == [] then -1
    else
      var rest := MaxSpot(spots[..|spots| - 1]);
      if spots[|spots| - 1].seqNo > rest then spots[|spots| - 1].seqNo else rest
  }

  function MaxOf(row: Row): int {
    match row
    case Group(_, _, _, calls) => MaxCall(calls)
    case Thoughts(_, _, _, _, _, spots) => MaxSpot(spots)
    case _ => -1
  }

  function MaxSeq(groups: seq<Row>): (m: int)
    ensures m >= -1
  {
    if groups == [] then -1
    else
      var rest := MaxSeq(groups[..|groups| - 1]);
      if MaxOf(groups[|groups| - 1]) > rest then MaxOf(groups[|groups| - 1]) else rest
  }

  function NextSeq(groups: seq<Row>): nat {
    MaxSeq(groups) + 1
  }

  /** The number of the run: that of its first group, or the place of the item that starts it. */
  function RunOf(groups: seq<Row>, pos: nat): nat {
    if groups != [] && (groups[0].Group? || groups[0].Thoughts?) then groups[0].run else pos
  }

  predicate Readable(groups: seq<Row>) {
    forall i | 0 <= i < |groups| :: !groups[i].RawThought?
  }

  predicate IsKind(row: Row, kind: string) {
    row.Group? && row.kind == kind
  }

  /** The first group of a kind from a place on; the length of the list when there is none. */
  function KindAt(rows: seq<Row>, start: nat, kind: string): (i: nat)
    requires start <= |rows|
    ensures start <= i <= |rows|
    ensures i < |rows| ==> IsKind(rows[i], kind)
    ensures forall j | start <= j < i :: !IsKind(rows[j], kind)
    decreases |rows| - start
  {
    if start == |rows| || IsKind(rows[start], kind) then start else KindAt(rows, start + 1, kind)
  }

  function ThoughtsAt(rows: seq<Row>, start: nat): (i: nat)
    requires start <= |rows|
    ensures start <= i <= |rows|
    ensures i < |rows| ==> rows[i].Thoughts?
    ensures forall j | start <= j < i :: !rows[j].Thoughts?
    decreases |rows| - start
  {
    if start == |rows| || rows[start].Thoughts? then start else ThoughtsAt(rows, start + 1)
  }

  function Append(v: View, row: Row): View {
    v.(window := v.window + [row], total := v.total + 1)
  }

  /** A thought joins the thoughts of the run, or starts a group of them. */
  function ThinkAt(v: View, item: Item, groups: seq<Row>, i: nat): View
    requires item.ThinkItem? && i <= |v.window| && (i < |v.window| ==> v.window[i].Thoughts?)
  {
    var spot := Spot(NextSeq(groups), item.tokens, item.pos);
    if i < |v.window| then
      var row := v.window[i];
      v.(window := v.window[i := row.(count := row.count + item.count, tokens := row.tokens + item.tokens,
                                      spots := row.spots + [spot])])
    else Append(v, Thoughts(item.pos, item.nth, RunOf(groups, item.pos), item.count, item.tokens, [spot]))
  }

  function KeepThink(v: View, item: Item): View
    requires item.ThinkItem?
  {
    ThinkIn(v, item, RunTail(v.window), ThoughtsAt(v.window, TailStart(v.window)))
  }

  function ThinkIn(v: View, item: Item, groups: seq<Row>, i: nat): View
    requires item.ThinkItem? && i <= |v.window| && (i < |v.window| ==> v.window[i].Thoughts?)
  {
    if !Readable(groups) then v.(raised := true) else ThinkAt(v, item, groups, i)
  }

  function CallOf(item: Item, groups: seq<Row>): Call
    requires item.ToolItem?
  {
    Call(item.name, NextSeq(groups), item.pos, item.index, item.use, Status(item.open, false, [], ""))
  }

  /** A call joins the group of its kind in the run, or starts one. */
  function ToolAt(v: View, item: Item, groups: seq<Row>, i: nat): View
    requires item.ToolItem? && i <= |v.window| && (i < |v.window| ==> v.window[i].Group?)
  {
    if i < |v.window| then
      var row := v.window[i];
      v.(window := v.window[i := row.(calls := row.calls + [CallOf(item, groups)])])
    else Append(v, Group(item.pos, item.kind, RunOf(groups, item.pos), [CallOf(item, groups)]))
  }

  function KeepTool(v: View, item: Item): View
    requires item.ToolItem?
  {
    ToolIn(v, item, RunTail(v.window), KindAt(v.window, TailStart(v.window), item.kind))
  }

  /** The fold fails on a run it cannot read. */
  function ToolIn(v: View, item: Item, groups: seq<Row>, i: nat): View
    requires item.ToolItem? && i <= |v.window| && (i < |v.window| ==> v.window[i].Group?)
  {
    if !Readable(groups) then v.(raised := true) else ToolAt(v, item, groups, i)
  }

  function KeepRow(v: View, item: Item): View
    requires item.RowItem?
  {
    var v := if item.role == Sent then DropCall(v, item.use) else v;
    var v := if item.role == TaskDone then DropTask(v, item.use) else v;
    if item.role == Mail && HasLetter(v.window, item) then v
    else Append(v, RowOf(item, item.fixes))
  }

  /** The row an item is drawn as in the place of another: a row the reader has keeps the mark of what it fixes. */
  function Redrawn(item: Item, after: Option<nat>): Row
    requires item.ThinkItem? || item.RowItem?
  {
    if item.ThinkItem? then RowOf(item, None)
    else RowOf(item, if after.Some? && item.pos <= after.value then item.fixes else None)
  }

  /** An item no row gives its place to. */
  function KeepNew(v: View, item: Item): View
    requires !item.Mark?
  {
    match item
    case ThinkItem(_, _, _, _) => KeepThink(v, item)
    case ToolItem(_, _, _, _, _, _, _) => KeepTool(v, item)
    case RowItem(_, _, _, _, _, _, _, _) => KeepRow(v, item)
  }

  function Redraw(v: View, i: nat, item: Item, after: Option<nat>): View
    requires i < |v.window| && (item.ThinkItem? || item.RowItem?)
  {
    v.(window := v.window[i := Redrawn(item, after)])
  }

  /** What one item does to the fold of a window after a position, or of one with no such position. */
  function Keep(v: View, item: Item, after: Option<nat>): View {
    if item.Mark? then Settle(v, item)
    else
      var i := PlaceOf(v.window, item);
      if i < |v.window| then Redraw(v, i, item, after) else KeepNew(v, item)
  }

  function KeepAll(v: View, items: seq<Item>, after: Option<nat>): View {
    if items == [] then v
    else Keep(KeepAll(v, items[..|items| - 1], after), items[|items| - 1], after)
  }
}
