/** A file of records, one a line: where the lines stand. */
module Lines {
  import opened Options

  type Bytes = n: int | 0 < n witness 1

  /** A line ended by a newline; one that holds no record is read past. */
  datatype Line<+R> = Line(size: Bytes, record: Option<R>)

  /** Where a line starts. */
  function Pos<R>(lines: seq<Line<R>>, i: nat): nat
    requires i <= |lines|
  {
    if i == 0 then 0 else Pos(lines, i - 1) + lines[i - 1].size
  }

  lemma {:induction false} PosMonotone<R>(lines: seq<Line<R>>, i: nat, j: nat)
    requires i < j <= |lines|
    ensures Pos(lines, i) < Pos(lines, j)
    decreases j
  {
    if i < j - 1 {
      PosMonotone(lines, i, j - 1);
    }
  }

  lemma PosOrder<R>(lines: seq<Line<R>>, i: nat, j: nat)
    requires i <= |lines| && j <= |lines|
    ensures i < j <==> Pos(lines, i) < Pos(lines, j)
    ensures i == j <==> Pos(lines, i) == Pos(lines, j)
  {
    if i < j {
      PosMonotone(lines, i, j);
    } else if j < i {
      PosMonotone(lines, j, i);
    }
  }

  /** The first line that starts past a place, among those up to o. */
  function FirstPast<R>(lines: seq<Line<R>>, o: nat, p: nat): (w: nat)
    requires o <= |lines| && Pos(lines, o) > p
    ensures w <= o && Pos(lines, w) > p
    ensures w > 0 ==> Pos(lines, w - 1) <= p
    decreases o
  {
    if o > 0 && Pos(lines, o - 1) > p then FirstPast(lines, o - 1, p) else o
  }
}
