/** UTF-8 (section 3 of RFC 3629): characters as bytes. */
module Utf8 {
  import opened Options
  import opened Sequences

  type Byte = n: nat | n < 256

  /** A character of Unicode: a code point that is no half of a pair. */
  type Scalar = c: nat | c < 0xD800 || 0xE000 <= c < 0x110000

  predicate Continues(b: Byte) {
    0x80 <= b < 0xC0
  }

  /** How many bytes the character has that begins with a byte. */
  function Need(b: Byte): (n: nat)
    ensures 1 <= n <= 4
  {
    if b < 0xC0 then 1 else if b < 0xE0 then 2 else if b < 0xF0 then 3 else 4
  }

  /** The first byte of a character tells its length, and the others continue it. */
  predicate IsChar(bytes: seq<Byte>) {
    && |bytes| > 0 && !Continues(bytes[0]) && Need(bytes[0]) == |bytes|
    && forall k | 0 < k < |bytes| :: Continues(bytes[k])
  }

  type Char = seq<Byte>

  ghost predicate IsText(text: seq<Char>) {
    forall c | c in text :: IsChar(c)
  }

  /** The character of a code point. */
  function CharOf(c: Scalar): (one: Char)
    ensures IsChar(one)
  {
    if c < 0x80 then [c]
    else if c < 0x800 then [0xC0 + c / 64, 0x80 + c % 64]
    else if c < 0x10000 then [0xE0 + c / 4096, 0x80 + c / 64 % 64, 0x80 + c % 64]
    else [0xF0 + c / 262144, 0x80 + c / 4096 % 64, 0x80 + c / 64 % 64, 0x80 + c % 64]
  }

  /** The code point of a character. */
  function CodeOf(one: Char): int
    requires IsChar(one)
  {
    var b := seq(|one|, i requires 0 <= i < |one| => one[i] as int);
    if |b| == 1 then b[0]
    else if |b| == 2 then (b[0] - 0xC0) * 64 + (b[1] - 0x80)
    else if |b| == 3 then (b[0] - 0xE0) * 4096 + (b[1] - 0x80) * 64 + (b[2] - 0x80)
    else (b[0] - 0xF0) * 262144 + (b[1] - 0x80) * 4096 + (b[2] - 0x80) * 64 + (b[3] - 0x80)
  }

  lemma CodeRoundTrip(c: Scalar)
    ensures CodeOf(CharOf(c)) == c
  {
    assert c / 64 == c / 4096 * 64 + c / 64 % 64;
    assert c / 4096 == c / 262144 * 64 + c / 4096 % 64;
  }

  function CharsOf(text: seq<Scalar>): (chars: seq<Char>)
    ensures |chars| == |text| && forall i | 0 <= i < |text| :: chars[i] == CharOf(text[i])
    ensures IsText(chars)
  {
    seq(|text|, i requires 0 <= i < |text| => CharOf(text[i]))
  }

  function CodesOf(chars: seq<Char>): (codes: seq<int>)
    requires IsText(chars)
    ensures |codes| == |chars| && forall i | 0 <= i < |chars| :: chars[i] in chars && codes[i] == CodeOf(chars[i])
  {
    seq(|chars|, i requires 0 <= i < |chars| => CodeOf(chars[i]))
  }

  lemma TextRoundTrip(text: seq<Scalar>)
    ensures CodesOf(CharsOf(text)) == text
  {
    forall i | 0 <= i < |text|
      ensures CodesOf(CharsOf(text))[i] == text[i]
    {
      CodeRoundTrip(text[i]);
    }
  }

  function Joined(text: seq<Char>): seq<Byte> {
    if text == [] then [] else text[0] + Joined(text[1..])
  }

  /** The characters of bytes; nothing when they are no text. */
  function Split(bytes: seq<Byte>): (text: Option<seq<Char>>)
    ensures text.Some? ==> IsText(text.value)
    decreases |bytes|
  {
    if bytes == [] then Some([])
    else
      var n := Need(bytes[0]);
      if n > |bytes| || !IsChar(bytes[..n]) then None
      else
        var rest := Split(bytes[n..]);
        if rest.None? then None else Some([bytes[..n]] + rest.value)
  }

  /** What is joined splits the same. */
  lemma {:induction false} SplitJoined(text: seq<Char>)
    requires IsText(text)
    ensures Split(Joined(text)) == Some(text)
  {
    if text != [] {
      var one: seq<Byte>, rest: seq<Byte> := text[0], Joined(text[1..]);
      assert (one + rest)[..|one|] == one && (one + rest)[|one|..] == rest;
      assert text[0] in text;
      SplitJoined(text[1..]);
      assert text == [text[0]] + text[1..];
    }
  }

  lemma JoinedStep(text: seq<Char>, first: Char, rest: seq<Char>)
    requires text != [] && first == text[0] && rest == text[1..]
    ensures Joined(text) == first + Joined(rest)
  {
  }

  lemma {:induction false} JoinedConcat(a: seq<Char>, b: seq<Char>)
    ensures Joined(a + b) == Joined(a) + Joined(b)
  {
    if a == [] {
      assert a + b == b;
    } else {
      var first, rest := a[0], a[1..];
      JoinedConcat(rest, b);
      assert (a + b)[1..] == rest + b;
      JoinedStep(a, first, rest);
      JoinedStep(a + b, first, rest + b);
      ConcatThree(first, Joined(rest), Joined(b));
    }
  }
}

/** A file of the project read a window at a time, with no character torn between two windows. */
module FilePages {
  import opened Options
  import opened Utf8

  function At(text: seq<Char>, i: nat): nat
    requires i <= |text|
  {
    |Joined(text[..i])|
  }

  lemma AtNext(text: seq<Char>, i: nat)
    requires i < |text|
    ensures At(text, i + 1) == At(text, i) + |text[i]|
  {
    assert text[..i + 1] == text[..i] + [text[i]];
    JoinedConcat(text[..i], [text[i]]);
    assert Joined([text[i]]) == text[i] + Joined([]);
  }

  lemma {:induction false} AtRises(text: seq<Char>, i: nat, j: nat)
    requires IsText(text)
    requires i <= j <= |text|
    ensures At(text, i) + (j - i) <= At(text, j)
  {
    if i < j {
      AtRises(text, i, j - 1);
      AtNext(text, j - 1);
      assert text[j - 1] in text;
    }
  }

  lemma SliceSplit(text: seq<Char>, i: nat, j: nat)
    requires i <= j <= |text|
    ensures text == text[..i] + (text[i..j] + text[j..]) && text[..j] == text[..i] + text[i..j]
  {
  }

  lemma JoinedThree(a: seq<Char>, b: seq<Char>, c: seq<Char>)
    ensures Joined(a + (b + c)) == Joined(a) + (Joined(b) + Joined(c))
    ensures Joined(a + b) == Joined(a) + Joined(b)
  {
    JoinedConcat(a, b + c);
    JoinedConcat(b, c);
    JoinedConcat(a, b);
  }

  lemma MiddleOf(a: seq<Byte>, b: seq<Byte>, c: seq<Byte>, whole: seq<Byte>, head: seq<Byte>)
    requires whole == a + (b + c) && head == a + b
    ensures |a| <= |head| <= |whole| && whole[|a|..|head|] == b && |b| == |head| - |a|
  {
  }

  /** The bytes between two characters are those of the characters between them. */
  lemma JoinedSlice(text: seq<Char>, i: nat, j: nat)
    requires i <= j <= |text|
    ensures At(text, i) <= At(text, j) <= |Joined(text)|
    ensures Joined(text)[At(text, i)..At(text, j)] == Joined(text[i..j])
    ensures |Joined(text[i..j])| == At(text, j) - At(text, i)
  {
    var a, b, c := text[..i], text[i..j], text[j..];
    JoinedThree(a, b, c);
    SliceSplit(text, i, j);
    MiddleOf(Joined(a), Joined(b), Joined(c), Joined(text), Joined(text[..j]));
  }

  lemma ByteAt(text: seq<Char>, i: nat, k: nat)
    requires i < |text| && k < |text[i]|
    ensures At(text, i) + k < |Joined(text)| && Joined(text)[At(text, i) + k] == text[i][k]
  {
    JoinedSlice(text, i, i + 1);
    AtNext(text, i);
    assert text[i..i + 1] == [text[i]];
    assert Joined([text[i]]) == text[i] + Joined([]);
    assert Joined(text)[At(text, i)..At(text, i + 1)][k] == text[i][k];
  }

  /** A place in the bytes is `k` bytes into a character. */
  lemma {:induction false} Locate(text: seq<Char>, p: nat, n: nat) returns (i: nat, k: nat)
    requires IsText(text)
    requires n <= |text| && p < At(text, n)
    ensures i < n && k < |text[i]| && p == At(text, i) + k
  {
    AtNext(text, n - 1);
    if p >= At(text, n - 1) {
      i, k := n - 1, p - At(text, n - 1);
    } else {
      i, k := Locate(text, p, n - 1);
    }
  }

  /** The chunk without a character torn at its end, looking from `back` bytes before the end on. */
  function Trimmed(data: seq<Byte>, back: nat): seq<Byte>
    requires 1 <= back <= 5
    decreases 5 - back
  {
    if back > 4 || back > |data| then data
    else
      var b := data[|data| - back];
      if b < 0x80 then data
      else if b >= 0xC0 then if back >= Need(b) then data else data[..|data| - back]
      else Trimmed(data, back + 1)
  }

  method TrimUtf8(data: seq<Byte>) returns (whole: seq<Byte>)
    ensures whole == Trimmed(data, 1)
  {
    var back: nat := 1;
    while back <= 4 && back <= |data|
      invariant 1 <= back <= 5 && Trimmed(data, back) == Trimmed(data, 1)
    {
      var b := data[|data| - back];
      if b < 0x80 {
        return data;
      }
      if b >= 0xC0 {
        return if back >= Need(b) then data else data[..|data| - back];
      }
      back := back + 1;
    }
    whole := data;
  }

  /** Bytes that end within a character, or at its end, are cut to whole characters. */
  lemma {:induction false} TrimmedAt(data: seq<Byte>, back: nat, from: nat)
    requires 1 <= back <= from <= 4 && from <= |data|
    requires forall p | |data| - from < p < |data| :: Continues(data[p])
    requires var b := data[|data| - from]; if b < 0x80 then from == 1 else b >= 0xC0 && from <= Need(b)
    ensures Trimmed(data, back) == if from >= Need(data[|data| - from]) then data else data[..|data| - from]
    decreases from - back
  {
    if back < from {
      TrimmedAt(data, back + 1, from);
    }
  }

  const MAX_FILE := 0x1_0000
  const MAX_WINDOW := 0x10_0000

  function Min(a: int, b: int): int {
    if a < b then a else b
  }

  /** The window a reader is given: what it asks for, within the largest. */
  function WindowOf(limit: int): (want: nat)
    ensures 1 <= want <= MAX_WINDOW
  {
    var asked := Min(if limit == 0 then MAX_FILE else limit, MAX_WINDOW);
    if asked < 1 then 1 else asked
  }

  /** The last place of a line break; -1 where there is none. */
  function LastBreak(data: seq<Byte>): (at: int)
    ensures -1 <= at < |data| && (at >= 0 ==> data[at] == 10)
    ensures forall p | at < p < |data| :: data[p] != 10
  {
    if data == [] then -1
    else if data[|data| - 1] == 10 then |data| - 1
    else LastBreak(data[..|data| - 1])
  }

  datatype Chunk = Binary | Text(data: seq<Byte>, offset: nat, next: Option<nat>)

  /** A chunk that is not the last ends at a line break in its second half, or else with a whole character. */
  function Cut(data: seq<Byte>): (cut: seq<Byte>) {
    var nl := LastBreak(data);
    if nl > |data| / 2 then data[..nl + 1] else Trimmed(data, 1)
  }

  function ReadFrom(file: seq<Byte>, offset: int, limit: int): Chunk {
    var start := if offset < 0 then 0 else Min(offset, |file|);
    ChunkBetween(file, start, Min(start + WindowOf(limit), |file|))
  }

  function DataBetween(file: seq<Byte>, start: nat, end: nat): seq<Byte>
    requires start <= end <= |file|
  {
    if end < |file| then Cut(file[start..end]) else file[start..end]
  }

  function NextOf(file: seq<Byte>, at: nat): Option<nat> {
    if at < |file| then Some(at) else None
  }

  function ChunkBetween(file: seq<Byte>, start: nat, end: nat): Chunk
    requires start <= end <= |file|
  {
    if 0 in file[start..end][..Min(1024, end - start)] then Binary
    else
      var data := DataBetween(file, start, end);
      Text(data, start, NextOf(file, start + |data|))
  }

  method ReadFile(file: seq<Byte>, offset: int, limit: int) returns (chunk: Chunk)
    ensures chunk == ReadFrom(file, offset, limit)
  {
    var start := if offset < 0 then 0 else Min(offset, |file|);
    var data := file[start..Min(start + WindowOf(limit), |file|)];
    if 0 in data[..Min(1024, |data|)] {
      return Binary;
    }
    var end := start + |data|;
    if end < |file| {
      var nl := LastBreak(data);
      if nl > |data| / 2 {
        data := data[..nl + 1];
      } else {
        data := TrimUtf8(data);
      }
      end := start + |data|;
    }
    chunk := Text(data, start, if end < |file| then Some(end) else None);
  }

  /** A line break is a character of its own. */
  lemma BreakIsWhole(text: seq<Char>, p: nat) returns (i: nat)
    requires IsText(text)
    requires p < |Joined(text)| && Joined(text)[p] < 0x80
    ensures i < |text| && p == At(text, i) && p + 1 == At(text, i + 1)
  {
    assert text[..|text|] == text;
    var k;
    i, k := Locate(text, p, |text|);
    ByteAt(text, i, k);
    assert text[i] in text;
    AtNext(text, i);
  }

  /** A window that begins with a character, cut, ends with one; it holds at least one exactly when the first fits. */
  lemma TrimmedIsWhole(text: seq<Char>, i: nat, end: nat) returns (j: nat)
    requires IsText(text)
    requires i < |text| && At(text, i) < end < |Joined(text)|
    ensures i <= j <= |text| && At(text, i) <= At(text, j) <= end
    ensures Trimmed(Joined(text)[At(text, i)..end], 1) == Joined(text)[At(text, i)..At(text, j)]
    ensures i < j <==> |text[i]| <= end - At(text, i)
  {
    assert text[..|text|] == text;
    var k;
    j, k := Locate(text, end - 1, |text|);
    LastCharacter(text, i, j, k, end);
    AtNext(text, i);
    if k + 1 == |text[j]| {
      AtNext(text, j);
      j := j + 1;
    }
    if i < j {
      AtRises(text, i + 1, j);
    }
  }

  lemma LastCharacter(text: seq<Char>, i: nat, j: nat, k: nat, end: nat)
    requires IsText(text)
    requires i < |text| && At(text, i) < end < |Joined(text)|
    requires j < |text| && k < |text[j]| && end - 1 == At(text, j) + k
    ensures i <= j && At(text, i) <= At(text, j)
    ensures var data := Joined(text)[At(text, i)..end];
            Trimmed(data, 1) == if k + 1 == |text[j]| then data else Joined(text)[At(text, i)..At(text, j)]
  {
    if j < i {
      AtRises(text, j + 1, i);
      AtNext(text, j);
    }
    AtRises(text, i, j);
    BytesBefore(text, j, k);
    var file, lo := Joined(text), At(text, i);
    var data, c := file[lo..end], text[j];
    assert data == file[lo..At(text, j)] + c[..k + 1];
    TrimmedTail(file[lo..At(text, j)], c, k);
  }

  lemma BytesBefore(text: seq<Char>, j: nat, k: nat)
    requires j < |text| && k < |text[j]|
    ensures At(text, j) + k < |Joined(text)|
    ensures Joined(text)[At(text, j)..At(text, j) + k + 1] == text[j][..k + 1]
  {
    ByteAt(text, j, k);
    forall m | 0 <= m <= k
      ensures Joined(text)[At(text, j) + m] == text[j][m]
    {
      ByteAt(text, j, m);
    }
  }

  /** Bytes that end within a character lose what there is of it; whole, it stays. */
  lemma TrimmedTail(head: seq<Byte>, c: Char, k: nat)
    requires IsChar(c) && k < |c|
    ensures Trimmed(head + c[..k + 1], 1) == if k + 1 == |c| then head + c else head
  {
    var data := head + c[..k + 1];
    assert data[|data| - (k + 1)] == c[0];
    forall p | |data| - (k + 1) < p < |data|
      ensures Continues(data[p])
    {
      assert data[p] == c[p - |head|];
    }
    TrimmedAt(data, 1, k + 1);
    assert data[..|data| - (k + 1)] == head;
  }

  lemma AtEnds(text: seq<Char>)
    ensures At(text, 0) == 0 && At(text, |text|) == |Joined(text)|
  {
    assert text[..|text|] == text && text[..0] == [];
  }

  lemma AtOrder(text: seq<Char>, i: nat, j: nat)
    requires IsText(text)
    requires i < |text| && j <= |text|
    ensures i < j <==> At(text, i) < At(text, j)
    ensures i < j ==> At(text, i) + |text[i]| <= At(text, j)
  {
    AtNext(text, i);
    if i < j {
      AtRises(text, i, j);
      AtRises(text, i + 1, j);
    } else {
      AtRises(text, j, i);
    }
  }

  lemma BreakEnds(text: seq<Char>, i: nat, end: nat, p: nat) returns (j: nat)
    requires IsText(text)
    requires i < |text| && At(text, i) <= p < end < |Joined(text)| && Joined(text)[p] == 10
    ensures i < j < |text| && At(text, j) == p + 1 && |text[i]| <= end - At(text, i)
  {
    j := BreakIsWhole(text, p);
    j := j + 1;
    AtOrder(text, i, j);
    AtEnds(text);
  }

  lemma CutIsWhole(text: seq<Char>, i: nat, end: nat) returns (j: nat)
    requires IsText(text)
    requires i < |text| && At(text, i) < end < |Joined(text)|
    ensures i <= j < |text| && At(text, i) <= At(text, j) <= end
    ensures Cut(Joined(text)[At(text, i)..end]) == Joined(text)[At(text, i)..At(text, j)]
    ensures i < j <==> |text[i]| <= end - At(text, i)
  {
    var file, start := Joined(text), At(text, i);
    var data := file[start..end];
    var nl := LastBreak(data);
    if nl > |data| / 2 {
      assert data[nl] == file[start + nl];
      j := BreakEnds(text, i, end, start + nl);
      assert data[..nl + 1] == file[start..start + nl + 1];
    } else {
      j := TrimmedIsWhole(text, i, end);
      AtEnds(text);
    }
  }

  /** Where the chunk read from a character ends. */
  lemma EndIsWhole(text: seq<Char>, i: nat, end: nat) returns (j: nat)
    requires IsText(text)
    requires i < |text| && At(text, i) < end <= |Joined(text)|
    ensures i <= j <= |text| && At(text, i) <= At(text, j) <= end
    ensures DataBetween(Joined(text), At(text, i), end) == Joined(text[i..j])
    ensures j == |text| <==> end == |Joined(text)|
    ensures i < j <==> |text[i]| <= end - At(text, i)
  {
    AtEnds(text);
    if end < |Joined(text)| {
      j := CutIsWhole(text, i, end);
    } else {
      j := |text|;
      AtOrder(text, i, j);
    }
    JoinedSlice(text, i, j);
  }

  lemma NoneInPart(file: seq<Byte>, lo: nat, hi: nat)
    requires lo <= hi <= |file| && 0 !in file
    ensures 0 !in file[lo..hi][..Min(1024, hi - lo)]
  {
  }

  /** A chunk read from the start of a character ends with a whole one. It holds a character exactly when the first
      fits the window. */
  lemma ChunkIsWhole(text: seq<Char>, i: nat, limit: int) returns (j: nat)
    requires IsText(text)
    requires i < |text| && 0 !in Joined(text)
    ensures i <= j <= |text| && At(text, i) <= At(text, j) <= |Joined(text)|
    ensures At(text, j) - At(text, i) <= WindowOf(limit)
    ensures ReadFrom(Joined(text), At(text, i), limit)
         == Text(Joined(text[i..j]), At(text, i), if j < |text| then Some(At(text, j)) else None)
    ensures i < j <==> |text[i]| <= WindowOf(limit)
  {
    AtEnds(text);
    AtOrder(text, i, |text|);
    var end := Min(At(text, i) + WindowOf(limit), |Joined(text)|);
    j := EndIsWhole(text, i, end);
    JoinedSlice(text, i, j);
    ReadFromIs(Joined(text), At(text, i), end, limit, Joined(text[i..j]), At(text, j));
    NextAt(text, j);
  }

  lemma ReadFromIs(file: seq<Byte>, start: nat, end: nat, limit: int, data: seq<Byte>, next: nat)
    requires start <= |file| && 0 !in file && end == Min(start + WindowOf(limit), |file|)
    requires DataBetween(file, start, end) == data && next == start + |data|
    ensures ReadFrom(file, start, limit) == Text(data, start, NextOf(file, next))
  {
    NoneInPart(file, start, end);
  }

  lemma NextAt(text: seq<Char>, j: nat)
    requires IsText(text) && j <= |text|
    ensures NextOf(Joined(text), At(text, j)) == if j < |text| then Some(At(text, j)) else None
  {
    AtEnds(text);
    if j < |text| {
      AtOrder(text, j, |text|);
    }
  }

  /** The chunks a reader gets that follows the file from a place on, and stops where a chunk does not move it. */
  function Pages(file: seq<Byte>, offset: nat, limit: int): seq<Chunk>
    requires offset <= |file|
    decreases |file| - offset
  {
    var c := ReadFrom(file, offset, limit);
    if c.Text? && c.next.Some? && offset < c.next.value <= |file| then [c] + Pages(file, c.next.value, limit) else [c]
  }

  /** Chunks that read as text, one after the other. */
  function CharsRead(pages: seq<Chunk>): (read: Option<seq<Char>>)
    ensures read.Some? ==> IsText(read.value)
  {
    if pages == [] then Some([])
    else if pages[0].Binary? || Split(pages[0].data).None? then None
    else
      var rest := CharsRead(pages[1..]);
      if rest.None? then None else Some(Split(pages[0].data).value + rest.value)
  }

  predicate Fits(text: seq<Char>, limit: int) {
    forall c | c in text :: |c| <= WindowOf(limit)
  }

  /** Chunks that come to the end of the file. */
  predicate ToTheEnd(pages: seq<Chunk>) {
    pages != [] && pages[|pages| - 1].Text? && pages[|pages| - 1].next.None?
  }

  lemma FitsPart(text: seq<Char>, i: nat, j: nat, limit: int)
    requires IsText(text)
    requires i <= j <= |text| && At(text, j) - At(text, i) <= WindowOf(limit)
    ensures Fits(text[i..j], limit)
    ensures Fits(text[i..], limit) <==> Fits(text[j..], limit)
  {
    forall c | c in text[i..j]
      ensures |c| <= WindowOf(limit)
    {
      var m :| i <= m < j && text[m] == c;
      AtRises(text, i, m);
      AtOrder(text, m, j);
    }
    assert text[i..] == text[i..j] + text[j..];
  }

  lemma PagesMove(file: seq<Byte>, offset: nat, limit: int)
    requires offset <= |file|
    requires var c := ReadFrom(file, offset, limit); c.Text? && c.next.Some? && offset < c.next.value <= |file|
    ensures var c := ReadFrom(file, offset, limit);
            var rest := Pages(file, c.next.value, limit);
            && Pages(file, offset, limit) == [c] + rest
            && (ToTheEnd(Pages(file, offset, limit)) <==> ToTheEnd(rest))
            && CharsRead(Pages(file, offset, limit))
               == if Split(c.data).None? || CharsRead(rest).None? then None else Some(Split(c.data).value + CharsRead(rest).value)
  {
    var c := ReadFrom(file, offset, limit);
    var rest := Pages(file, c.next.value, limit);
    assert ([c] + rest)[1..] == rest;
  }

  lemma PagesStop(file: seq<Byte>, offset: nat, limit: int)
    requires offset <= |file|
    requires var c := ReadFrom(file, offset, limit); c.Text? && (c.next.Some? ==> c.next.value <= offset)
    ensures var c := ReadFrom(file, offset, limit);
            && (ToTheEnd(Pages(file, offset, limit)) <==> c.next.None?)
            && CharsRead(Pages(file, offset, limit)) == Split(c.data)
  {
    var c := ReadFrom(file, offset, limit);
    assert Pages(file, offset, limit) == [c];
    assert CharsRead([c][1..]) == Some([]);
    assert Split(c.data).Some? ==> Split(c.data).value + [] == Split(c.data).value;
  }

  /** Following a text from the start of a character: every chunk is whole characters; the chunks come to the end, and
      their texts make the rest of the text, exactly when every character of the rest fits the window. */
  lemma {:induction false} PagesFrom(text: seq<Char>, i: nat, limit: int)
    requires IsText(text)
    requires i < |text| && 0 !in Joined(text) && At(text, i) <= |Joined(text)|
    ensures var pages := Pages(Joined(text), At(text, i), limit);
            && (ToTheEnd(pages) <==> Fits(text[i..], limit))
            && CharsRead(pages).Some?
            && (Fits(text[i..], limit) ==> CharsRead(pages).value == text[i..])
            && (!Fits(text[i..], limit) ==> |CharsRead(pages).value| < |text[i..]|)
    decreases |text| - i
  {
    var j := ChunkIsWhole(text, i, limit);
    FitsPart(text, i, j, limit);
    PartIsText(text, i, j);
    if i < j < |text| {
      AtOrder(text, i, j);
      AtEnds(text);
      PagesFrom(text, j, limit);
      PagesMoveOn(Joined(text), At(text, i), At(text, j), text[i..j], limit);
    } else {
      PagesEnd(Joined(text), At(text, i), text[i..j], limit);
    }
  }

  lemma PartIsText(text: seq<Char>, i: nat, j: nat)
    requires IsText(text) && i < |text| && i <= j <= |text|
    ensures IsText(text[i..j]) && text[i..j] + text[j..] == text[i..] && text[i] in text[i..]
    ensures text[i..|text|] == text[i..] && text[i..i] == []
  {
  }

  lemma PagesMoveOn(file: seq<Byte>, lo: nat, hi: nat, part: seq<Char>, limit: int)
    requires lo < hi <= |file| && IsText(part)
    requires ReadFrom(file, lo, limit) == Text(Joined(part), lo, Some(hi))
    ensures ToTheEnd(Pages(file, lo, limit)) <==> ToTheEnd(Pages(file, hi, limit))
    ensures CharsRead(Pages(file, lo, limit))
         == if CharsRead(Pages(file, hi, limit)).None? then None else Some(part + CharsRead(Pages(file, hi, limit)).value)
  {
    SplitJoined(part);
    PagesMove(file, lo, limit);
  }

  lemma PagesEnd(file: seq<Byte>, lo: nat, part: seq<Char>, limit: int)
    requires lo <= |file| && IsText(part)
    requires var c := ReadFrom(file, lo, limit); c.Text? && c.data == Joined(part) && (c.next.Some? ==> c.next.value <= lo)
    ensures ToTheEnd(Pages(file, lo, limit)) <==> ReadFrom(file, lo, limit).next.None?
    ensures CharsRead(Pages(file, lo, limit)) == Some(part)
  {
    SplitJoined(part);
    PagesStop(file, lo, limit);
  }

  /** What a reader reads of a file by following it; nothing when a chunk is no text. */
  function Followed(file: seq<Byte>, limit: int): Option<seq<int>> {
    var read := CharsRead(Pages(file, 0, limit));
    if read.None? then None else Some(CodesOf(read.value))
  }

  /** Following a text without a zero from its start rebuilds it, and comes to its end, exactly when every character
      fits the window. A window of four bytes or more fits every character. */
  lemma PagesRebuild(text: seq<Scalar>, limit: int)
    requires 0 !in Joined(CharsOf(text))
    ensures Followed(Joined(CharsOf(text)), limit) == Some(text) <==> Fits(CharsOf(text), limit)
    ensures ToTheEnd(Pages(Joined(CharsOf(text)), 0, limit)) <==> Fits(CharsOf(text), limit)
    ensures limit >= 4 || limit == 0 ==> Fits(CharsOf(text), limit)
  {
    var chars := CharsOf(text);
    TextRoundTrip(text);
    if text == [] {
      PagesStop([], 0, limit);
    } else {
      AtEnds(chars);
      PagesFrom(chars, 0, limit);
      assert chars[0..] == chars;
    }
  }
}
