/** Where a question stands in a text, and the piece of the text shown around it. */
module SearchText {

  /** A code point. */
  type Code = n: nat | n < 0x110000

  type Folding = Code -> seq<Code>

  /** Folding the case turns every character into one or more. */
  ghost predicate Folds(fold: Folding) {
    forall c :: |fold(c)| > 0
  }

  function FoldAll(fold: Folding, text: seq<Code>): seq<Code> {
    if text == [] then []
    else FoldAll(fold, text[..|text| - 1]) + fold(text[|text| - 1])
  }

  /** The character each folded character came from, by its place. */
  function BackOf(fold: Folding, text: seq<Code>): (back: seq<nat>)
    ensures |back| == |FoldAll(fold, text)|
  {
    if text == [] then []
    else BackOf(fold, text[..|text| - 1]) + seq(|fold(text[|text| - 1])|, i => |text| - 1)
  }

  predicate Occurs(low: seq<Code>, want: seq<Code>, at: nat) {
    at + |want| <= |low| && low[at..at + |want|] == want
  }

  lemma {:induction false} FoldConcat(fold: Folding, a: seq<Code>, b: seq<Code>)
    ensures FoldAll(fold, a + b) == FoldAll(fold, a) + FoldAll(fold, b)
  {
    if b == [] {
      assert a + b == a;
    } else {
      var rest := b[..|b| - 1];
      FoldConcat(fold, a, rest);
      assert (a + b)[..|a + b| - 1] == a + rest;
    }
  }

  /** A folded character lies within the folding of the character it came from. */
  lemma {:induction false} BackIsWithin(fold: Folding, text: seq<Code>, k: nat)
    requires Folds(fold) && k < |FoldAll(fold, text)|
    ensures var i := BackOf(fold, text)[k];
            && i < |text|
            && |FoldAll(fold, text[..i])| <= k < |FoldAll(fold, text[..i + 1])|
  {
    var n := |text| - 1;
    var rest := text[..n];
    if k < |FoldAll(fold, rest)| {
      BackIsWithin(fold, rest, k);
      var i := BackOf(fold, rest)[k];
      assert rest[..i] == text[..i] && rest[..i + 1] == text[..i + 1];
    } else {
      assert text[..n + 1] == text;
    }
  }

  lemma {:induction false} FoldGrows(fold: Folding, text: seq<Code>, i: nat, j: nat)
    requires Folds(fold) && i <= j <= |text|
    ensures |FoldAll(fold, text[..i])| + (j - i) <= |FoldAll(fold, text[..j])|
    decreases j
  {
    if i < j {
      FoldGrows(fold, text, i, j - 1);
      assert text[..j][..j - 1] == text[..j - 1];
      assert |fold(text[j - 1])| > 0;
    }
  }

  /** Later folded characters come from characters that are not earlier. */
  lemma BackRises(fold: Folding, text: seq<Code>, k: nat, l: nat)
    requires Folds(fold) && k <= l < |FoldAll(fold, text)|
    ensures BackOf(fold, text)[k] <= BackOf(fold, text)[l] < |text|
  {
    BackIsWithin(fold, text, k);
    BackIsWithin(fold, text, l);
    var i, j := BackOf(fold, text)[k], BackOf(fold, text)[l];
    if j < i {
      FoldGrows(fold, text, j + 1, i);
    }
  }

  /** A folding that keeps the length keeps every place: nothing has to be traced back. */
  lemma {:induction false} SameLengthSamePlace(fold: Folding, text: seq<Code>)
    requires Folds(fold) && |FoldAll(fold, text)| == |text|
    ensures forall k | 0 <= k < |text| :: BackOf(fold, text)[k] == k
  {
    if text != [] {
      var n := |text| - 1;
      FoldGrows(fold, text, 0, n);
      assert text[..0] == [];
      assert |fold(text[n])| > 0;
      SameLengthSamePlace(fold, text[..n]);
    }
  }

  /** The part of a text a hit stands in folds to something that contains the question. */
  lemma HitFolds(fold: Folding, text: seq<Code>, want: seq<Code>, at: nat)
    requires Folds(fold) && |want| > 0 && Occurs(FoldAll(fold, text), want, at)
    ensures var back := BackOf(fold, text);
            var start, stop := back[at], back[at + |want| - 1] + 1;
            && start < stop <= |text|
            && at >= |FoldAll(fold, text[..start])|
            && Occurs(FoldAll(fold, text[start..stop]), want, at - |FoldAll(fold, text[..start])|)
  {
    var low, back := FoldAll(fold, text), BackOf(fold, text);
    var start, stop := back[at], back[at + |want| - 1] + 1;
    BackRises(fold, text, at, at + |want| - 1);
    BackIsWithin(fold, text, at);
    BackIsWithin(fold, text, at + |want| - 1);
    var before, hit, after := FoldAll(fold, text[..start]), FoldAll(fold, text[start..stop]), FoldAll(fold, text[stop..]);
    FoldThree(fold, text, start, stop);
    SliceOfMiddle(before, hit, after, at, |want|);
  }

  lemma FoldThree(fold: Folding, text: seq<Code>, i: nat, j: nat)
    requires i <= j <= |text|
    ensures FoldAll(fold, text) == FoldAll(fold, text[..i]) + (FoldAll(fold, text[i..j]) + FoldAll(fold, text[j..]))
    ensures |FoldAll(fold, text[..j])| == |FoldAll(fold, text[..i])| + |FoldAll(fold, text[i..j])|
  {
    assert text == text[..i] + (text[i..j] + text[j..]);
    FoldConcat(fold, text[..i], text[i..j] + text[j..]);
    FoldConcat(fold, text[i..j], text[j..]);
    assert text[..j] == text[..i] + text[i..j];
    FoldConcat(fold, text[..i], text[i..j]);
  }

  lemma SliceOfMiddle(a: seq<Code>, b: seq<Code>, c: seq<Code>, at: nat, n: nat)
    requires |a| <= at && at + n <= |a| + |b|
    ensures (a + (b + c))[at..at + n] == b[at - |a|..at - |a| + n]
  {
  }

  datatype Span = Span(start: nat, stop: nat)

  function SpanOf(back: seq<nat>, want: seq<Code>, at: nat): Span
    requires |want| > 0 && at + |want| <= |back|
  {
    Span(back[at], back[at + |want| - 1] + 1)
  }

  /** Every place the question stands at. */
  ghost function Places(low: seq<Code>, want: seq<Code>): set<nat> {
    set q | 0 <= q < |low| && Occurs(low, want, q)
  }

  /** The first place from a place on where the question stands; the length of the text when it stands nowhere. */
  method Find(low: seq<Code>, want: seq<Code>, from: nat) returns (at: nat)
    requires |want| > 0
    ensures at < |low| ==> from <= at && at in Places(low, want)
    ensures at >= |low| ==> at == |low|
    ensures NoneFrom(Places(low, want), from, at)
  {
    at := from;
    while at < |low|
      invariant from <= at
      invariant NoneFrom(Places(low, want), from, at)
    {
      if at + |want| <= |low| && low[at..at + |want|] == want {
        return;
      }
      at := at + 1;
    }
    at := |low|;
  }

  ghost predicate OverlapsHit(hits: seq<nat>, width: nat, q: nat) {
    exists i :: 0 <= i < |hits| && hits[i] <= q < hits[i] + width
  }

  /** Hits are walked the way a find on a page walks them: each is the first past the one before, so every place
      the question stands at overlaps a hit. */
  ghost predicate Walked(places: set<nat>, width: nat, hits: seq<nat>, upto: nat) {
    && (forall i | 0 <= i < |hits| :: hits[i] in places && hits[i] + width <= upto)
    && (forall i, j | 0 <= i < j < |hits| :: hits[i] + width <= hits[j])
    && (forall q | q in places && q < upto :: OverlapsHit(hits, width, q))
  }

  /** A hit has a span of its own, or begins in a character that the span of an earlier hit holds. */
  ghost predicate HitReported(back: seq<nat>, hits: seq<nat>, spans: seq<Span>, from: seq<nat>, h: nat)
    requires h < |hits| && hits[h] < |back| && |from| == |spans|
  {
    h in from || exists i :: 0 <= i < |from| && from[i] < h && back[hits[h]] < spans[i].stop
  }

  /** The spans reported for the hits walked: in order, apart, one for each hit but those that begin in
      a character a span already holds. */
  ghost predicate Reported(back: seq<nat>, want: seq<Code>, hits: seq<nat>, spans: seq<Span>, from: seq<nat>) {
    && |want| > 0 && |from| == |spans|
    && (forall i | 0 <= i < |hits| :: hits[i] + |want| <= |back|)
    && FromHits(back, want, hits, spans, from)
    && (forall i, j | 0 <= i < j < |spans| :: spans[i].stop <= spans[j].start)
    && (forall h | 0 <= h < |hits| :: HitReported(back, hits, spans, from, h))
  }

  ghost predicate FromHits(back: seq<nat>, want: seq<Code>, hits: seq<nat>, spans: seq<Span>, from: seq<nat>)
    requires |want| > 0 && |from| == |spans| && forall i | 0 <= i < |hits| :: hits[i] + |want| <= |back|
  {
    && (forall i, j | 0 <= i < j < |from| :: from[i] < from[j])
    && (forall i | 0 <= i < |from| :: from[i] < |hits| && spans[i] == SpanOf(back, want, hits[from[i]]))
    && (|hits| > 0 ==> |from| > 0 && from[0] == 0)
  }

  /** With every folded place its own, every hit has its span, at the same place. */
  lemma {:induction false} AllReported(back: seq<nat>, want: seq<Code>, hits: seq<nat>, spans: seq<Span>, from: seq<nat>, n: nat)
    requires Reported(back, want, hits, spans, from) && n <= |hits|
    requires forall k | 0 <= k < |back| :: back[k] == k
    requires forall i, j | 0 <= i < j < |hits| :: hits[i] + |want| <= hits[j]
    ensures n <= |from| && forall i | 0 <= i < n :: from[i] == i && spans[i] == Span(hits[i], hits[i] + |want|)
  {
    if n > 0 {
      AllReported(back, want, hits, spans, from, n - 1);
      assert HitReported(back, hits, spans, from, n - 1);
      forall i | 0 <= i < |from| && from[i] < n - 1
        ensures back[hits[n - 1]] >= spans[i].stop
      {
        assert hits[from[i]] + |want| <= hits[n - 1];
      }
    }
  }

  /** A question is found in a text exactly when it stands in the text's folding. */
  lemma FoundIff(low: seq<Code>, back: seq<nat>, want: seq<Code>, hits: seq<nat>, spans: seq<Span>, from: seq<nat>)
    requires Walked(Places(low, want), |want|, hits, |low|) && Reported(back, want, hits, spans, from)
    ensures spans == [] <==> forall q: nat :: !Occurs(low, want, q)
  {
    if spans == [] {
      assert hits == [];
      forall q: nat
        ensures !Occurs(low, want, q)
      {
        assert q in Places(low, want) ==> OverlapsHit(hits, |want|, q);
      }
    } else {
      assert hits[from[0]] in Places(low, want);
    }
  }

  /** How far a walk has come: the hits and spans so far, and where the last span ends. */
  ghost predicate Walking(places: set<nat>, back: seq<nat>, want: seq<Code>, size: nat, hits: seq<nat>, spans: seq<Span>,
                          from: seq<nat>, upto: nat, last: nat) {
    && Walked(places, |want|, hits, upto) && Reported(back, want, hits, spans, from)
    && SpansIn(spans, size) && last == LastStop(spans)
  }

  ghost predicate SpansIn(spans: seq<Span>, size: nat) {
    forall i | 0 <= i < |spans| :: spans[i].start < spans[i].stop <= size
  }

  function LastStop(spans: seq<Span>): nat {
    if spans == [] then 0 else spans[|spans| - 1].stop
  }

  lemma WalkStep(places: set<nat>, back: seq<nat>, want: seq<Code>, size: nat, hits: seq<nat>, spans: seq<Span>,
                 from: seq<nat>, upto: nat, last: nat, at: nat, spans': seq<Span>, from': seq<nat>, last': nat)
    requires Walking(places, back, want, size, hits, spans, from, upto, last)
    requires upto <= at && at in places && NoneFrom(places, upto, at)
    requires at + |want| <= |back| && back[at] <= back[at + |want| - 1] < size
    requires if back[at] >= last
             then spans' == spans + [SpanOf(back, want, at)] && from' == from + [|hits|] && last' == back[at + |want| - 1] + 1
             else spans' == spans && from' == from && last' == last
    ensures Walking(places, back, want, size, hits + [at], spans', from', at + |want|, last')
  {
    WalkOn(places, |want|, hits, upto, at);
    if back[at] >= last {
      StopsRise(spans, last, size);
      ReportTaken(back, want, hits, hits + [at], spans, from, at);
      SpanFits(spans, size, SpanOf(back, want, at));
    } else {
      ReportSkipped(back, want, hits, hits + [at], spans, from, at);
    }
  }

  lemma StopsRise(spans: seq<Span>, last: nat, size: nat)
    requires forall i, j | 0 <= i < j < |spans| :: spans[i].stop <= spans[j].start
    requires SpansIn(spans, size) && last == LastStop(spans)
    ensures forall i | 0 <= i < |spans| :: spans[i].stop <= last
  {
    forall i | 0 <= i < |spans|
      ensures spans[i].stop <= last
    {
      assert i < |spans| - 1 ==> spans[i].stop <= spans[|spans| - 1].start;
    }
  }

  lemma SpanFits(spans: seq<Span>, size: nat, span: Span)
    requires SpansIn(spans, size) && span.start < span.stop <= size
    ensures SpansIn(spans + [span], size) && LastStop(spans + [span]) == span.stop
  {
  }

  /** No place a question stands at lies from one place up to another. */
  ghost predicate NoneFrom(places: set<nat>, lo: nat, hi: nat) {
    forall q | lo <= q < hi :: q !in places
  }

  /** Whether the hit gets a span of its own: it must not begin in a character the last span holds. */
  method TakeHit(span: Span, spans: seq<Span>, last: nat, ghost from: seq<nat>, ghost nth: nat)
    returns (spans': seq<Span>, last': nat, ghost from': seq<nat>)
    ensures if span.start >= last
            then spans' == spans + [span] && last' == span.stop && from' == from + [nth]
            else spans' == spans && last' == last && from' == from
  {
    spans', last', from' := spans, last, from;
    if span.start >= last {
      spans', from' := spans + [span], from + [nth];
      last' := span.stop;
    }
  }

  /** The place in the text of a hit in its folding. */
  method Trace(fold: Folding, text: seq<Code>, want: seq<Code>, at: nat) returns (span: Span)
    requires Folds(fold) && |want| > 0 && Occurs(FoldAll(fold, text), want, at)
    ensures span == SpanOf(BackOf(fold, text), want, at) && span.start < span.stop <= |text|
  {
    BackRises(fold, text, at, at + |want| - 1);
    if |FoldAll(fold, text)| == |text| {
      SameLengthSamePlace(fold, text);
      span := Span(at, at + |want|);
    } else {
      var back := BackOf(fold, text);
      span := Span(back[at], back[at + |want| - 1] + 1);
    }
  }

  lemma WalkBegins(places: set<nat>, back: seq<nat>, want: seq<Code>, size: nat)
    requires |want| > 0
    ensures Walking(places, back, want, size, [], [], [], 0, 0)
  {
  }

  /** One hit more: the walk goes on past it. */
  method WalkPast(fold: Folding, text: seq<Code>, want: seq<Code>, at: nat, spans: seq<Span>, last: nat,
                  ghost hits: seq<nat>, ghost from: seq<nat>, ghost upto: nat)
    returns (spans': seq<Span>, last': nat, ghost from': seq<nat>)
    requires Folds(fold) && |want| > 0 && upto <= at && Occurs(FoldAll(fold, text), want, at)
    requires NoneFrom(Places(FoldAll(fold, text), want), upto, at)
    requires Walking(Places(FoldAll(fold, text), want), BackOf(fold, text), want, |text|, hits, spans, from, upto, last)
    ensures Walking(Places(FoldAll(fold, text), want), BackOf(fold, text), want, |text|, hits + [at], spans', from', at + |want|, last')
  {
    var span := Trace(fold, text, want, at);
    spans', last', from' := TakeHit(span, spans, last, from, |hits|);
    WalkStep(Places(FoldAll(fold, text), want), BackOf(fold, text), want, |text|, hits, spans, from, upto, last, at, spans', from', last');
  }

  method Walk(fold: Folding, text: seq<Code>, want: seq<Code>)
    returns (spans: seq<Span>, ghost hits: seq<nat>, ghost from: seq<nat>, ghost upto: nat, ghost last: nat)
    requires Folds(fold) && |want| > 0
    ensures Walking(Places(FoldAll(fold, text), want), BackOf(fold, text), want, |text|, hits, spans, from, upto, last)
    ensures upto <= |FoldAll(fold, text)| && NoneFrom(Places(FoldAll(fold, text), want), upto, |FoldAll(fold, text)|)
  {
    var low := FoldAll(fold, text);
    ghost var back, places := BackOf(fold, text), Places(low, want);
    spans, hits, from, upto, last := [], [], [], 0, 0;
    var end: nat := 0;
    var at: nat := Find(low, want, 0);
    WalkBegins(places, back, want, |text|);
    while at < |low|
      invariant at < |low| ==> upto <= at && at in places
      invariant upto <= |low| && at <= |low|
      invariant NoneFrom(places, upto, at)
      invariant Walking(places, back, want, |text|, hits, spans, from, upto, end)
      decreases |low| - at
    {
      assert Occurs(low, want, at);
      spans, end, from := WalkPast(fold, text, want, at, spans, end, hits, from, upto);
      hits, upto := hits + [at], at + |want|;
      at := Find(low, want, at + |want|);
    }
    last := end;
  }

  /** Where a question stands in a text. */
  method Spans(fold: Folding, text: seq<Code>, want: seq<Code>) returns (spans: seq<Span>, ghost hits: seq<nat>, ghost from: seq<nat>)
    requires Folds(fold) && |want| > 0
    ensures Walked(Places(FoldAll(fold, text), want), |want|, hits, |FoldAll(fold, text)|)
    ensures Reported(BackOf(fold, text), want, hits, spans, from)
    ensures forall i | 0 <= i < |spans| :: spans[i].start < spans[i].stop <= |text|
    ensures spans == [] <==> forall q: nat :: !Occurs(FoldAll(fold, text), want, q)
    ensures |FoldAll(fold, text)| == |text| ==>
              |spans| >= |hits| && forall i | 0 <= i < |hits| :: spans[i] == Span(hits[i], hits[i] + |want|)
  {
    ghost var low, back, upto: nat, last: nat := FoldAll(fold, text), BackOf(fold, text), 0, 0;
    spans, hits, from, upto, last := Walk(fold, text, want);
    WalkedToTheEnd(Places(low, want), |want|, hits, upto, |low|);
    FoundIff(low, back, want, hits, spans, from);
    if |low| == |text| {
      SameLengthSamePlace(fold, text);
      AllReported(back, want, hits, spans, from, |hits|);
    }
  }

  lemma WalkedToTheEnd(places: set<nat>, width: nat, hits: seq<nat>, upto: nat, end: nat)
    requires Walked(places, width, hits, upto) && upto <= end && NoneFrom(places, upto, end)
    ensures Walked(places, width, hits, end)
  {
  }

  lemma WalkOn(places: set<nat>, width: nat, hits: seq<nat>, upto: nat, at: nat)
    requires Walked(places, width, hits, upto) && upto <= at && at in places && width > 0
    requires NoneFrom(places, upto, at)
    ensures Walked(places, width, hits + [at], at + width)
  {
    var now := hits + [at];
    forall q | q in places && q < at + width
      ensures OverlapsHit(now, width, q)
    {
      if q < upto {
        assert OverlapsHit(hits, width, q);
        var i :| 0 <= i < |hits| && hits[i] <= q < hits[i] + width;
        assert now[i] == hits[i];
      } else {
        assert now[|hits|] == at;
      }
    }
  }

  lemma ReportSkipped(back: seq<nat>, want: seq<Code>, hits: seq<nat>, now: seq<nat>, spans: seq<Span>, from: seq<nat>, at: nat)
    requires Reported(back, want, hits, spans, from) && at + |want| <= |back| && now == hits + [at]
    requires spans != [] && back[at] < spans[|spans| - 1].stop
    ensures Reported(back, want, now, spans, from)
  {
    forall h | 0 <= h < |now|
      ensures HitReported(back, now, spans, from, h)
    {
      if h < |hits| {
        StillReported(back, hits, now, spans, spans, from, from, h);
      } else {
        assert from[|spans| - 1] < h && back[now[h]] < spans[|spans| - 1].stop;
      }
    }
    StillFrom(back, want, hits, now, spans, from);
  }

  lemma StillFrom(back: seq<nat>, want: seq<Code>, hits: seq<nat>, now: seq<nat>, spans: seq<Span>, from: seq<nat>)
    requires |want| > 0 && |from| == |spans| && (forall i | 0 <= i < |now| :: now[i] + |want| <= |back|)
    requires |hits| > 0 && |hits| <= |now| && (forall i | 0 <= i < |hits| :: now[i] == hits[i])
    requires FromHits(back, want, hits, spans, from)
    ensures FromHits(back, want, now, spans, from)
  {
  }

  lemma ReportTaken(back: seq<nat>, want: seq<Code>, hits: seq<nat>, now: seq<nat>, spans: seq<Span>, from: seq<nat>, at: nat)
    requires Reported(back, want, hits, spans, from) && at + |want| <= |back|
    requires forall i | 0 <= i < |spans| :: spans[i].stop <= back[at]
    requires now == hits + [at]
    ensures Reported(back, want, now, spans + [SpanOf(back, want, at)], from + [|hits|])
  {
    var spans', from' := spans + [SpanOf(back, want, at)], from + [|hits|];
    assert forall i | 0 <= i < |hits| :: now[i] == hits[i];
    assert forall i | 0 <= i < |from| :: from'[i] == from[i] && spans'[i] == spans[i];
    assert from'[|from|] == |hits| && spans'[|from|] == SpanOf(back, want, now[|hits|]);
    forall h | 0 <= h < |now|
      ensures HitReported(back, now, spans', from', h)
    {
      if h < |hits| {
        StillReported(back, hits, now, spans, spans', from, from', h);
      }
    }
  }

  lemma StillReported(back: seq<nat>, hits: seq<nat>, now: seq<nat>, spans: seq<Span>, spans': seq<Span>, from: seq<nat>, from': seq<nat>, h: nat)
    requires |from| == |spans| <= |spans'| == |from'| && h < |hits| <= |now| && now[h] == hits[h] < |back|
    requires forall i | 0 <= i < |from| :: from'[i] == from[i] && spans'[i] == spans[i]
    requires HitReported(back, hits, spans, from, h)
    ensures HitReported(back, now, spans', from', h)
  {
    if h in from {
      var i :| 0 <= i < |from| && from[i] == h;
      assert from'[i] == h;
    } else {
      var i :| 0 <= i < |from| && from[i] < h && back[hits[h]] < spans[i].stop;
      assert from'[i] < h && back[now[h]] < spans'[i].stop;
    }
  }

  const SNIPPET := 160

  function Width(c: Code): nat {
    if c > 0xFFFF then 2 else 1
  }

  /** The length of a text in UTF-16 units (section 2.1 of RFC 2781). */
  function Units(text: seq<Code>): nat {
    if text == [] then 0 else Units(text[..|text| - 1]) + Width(text[|text| - 1])
  }

  lemma {:induction false} UnitsConcat(a: seq<Code>, b: seq<Code>)
    ensures Units(a + b) == Units(a) + Units(b)
  {
    if b == [] {
      assert a + b == a;
    } else {
      UnitsConcat(a, b[..|b| - 1]);
      assert (a + b)[..|a + b| - 1] == a + b[..|b| - 1];
    }
  }

  lemma UnitsSplit(text: seq<Code>, i: nat, j: nat, k: nat)
    requires i <= j <= k <= |text|
    ensures Units(text[i..k]) == Units(text[i..j]) + Units(text[j..k])
  {
    assert text[i..k] == text[i..j] + text[j..k];
    UnitsConcat(text[i..j], text[j..k]);
  }

  lemma UnitsOne(text: seq<Code>, i: nat)
    requires i < |text|
    ensures Units(text[i..i + 1]) == Width(text[i])
  {
    var one := text[i..i + 1];
    assert one[..|one| - 1] == [] && one[|one| - 1] == text[i];
  }

  /** How unevenly a snippet stands around its hit: not at all while both sides have room. */
  predicate Balanced(left: int, right: int, room: int) {
    left == right || (-1 <= left - right <= 1 && room <= 1) || (-2 <= left - right <= 2 && room <= 0)
  }

  /** The longest head of a hit that fits. */
  method HeadOf(text: seq<Code>, start: nat, stop: nat) returns (end: nat, room: nat)
    requires start <= stop <= |text|
    ensures start <= end <= stop && room + Units(text[start..end]) == SNIPPET
    ensures end < stop ==> Units(text[start..end + 1]) > SNIPPET
  {
    room, end := SNIPPET, start;
    while end < stop && Width(text[end]) <= room
      invariant start <= end <= stop
      invariant room + Units(text[start..end]) == SNIPPET
    {
      UnitsSplit(text, start, end, end + 1);
      UnitsOne(text, end);
      room, end := room - Width(text[end]), end + 1;
    }
    if end < stop {
      UnitsSplit(text, start, end, end + 1);
      UnitsOne(text, end);
    }
  }

  lemma UnitsAround(text: seq<Code>, l: nat, r: nat)
    requires l <= r <= |text|
    ensures l > 0 ==> Units(text[l - 1..r]) == Width(text[l - 1]) + Units(text[l..r])
    ensures r < |text| ==> Units(text[l..r + 1]) == Units(text[l..r]) + Width(text[r])
  {
    if l > 0 {
      UnitsSplit(text, l - 1, l, r);
      UnitsOne(text, l - 1);
    }
    if r < |text| {
      UnitsSplit(text, l, r, r + 1);
      UnitsOne(text, r);
    }
  }

  /** The text around a hit. It is never over the limit; it holds the hit, or the longest head of it that fits;
      it stops only where the text ends or where neither neighbour fits; and while the text ends on neither side,
      the sides differ by two characters at most. */
  method Snippet(text: seq<Code>, start: nat, stop: nat)
    returns (piece: seq<Code>, hit: (nat, nat), ghost left: nat, ghost end: nat, ghost right: nat)
    requires start <= stop <= |text|
    ensures left <= start <= end <= stop && end <= right <= |text| && piece == text[left..right]
    ensures hit == (Units(text[left..start]), Units(text[start..end]))
    ensures Units(piece) <= SNIPPET
    ensures end < stop ==> Units(text[start..end + 1]) > SNIPPET
    ensures left == 0 || Units(piece) + Width(text[left - 1]) > SNIPPET
    ensures right == |text| || Units(piece) + Width(text[right]) > SNIPPET
    ensures left > 0 && right < |text| ==> -2 <= (start - left) - (right - end) <= 2
  {
    var e: nat, room: nat := HeadOf(text, start, stop);
    var l: nat, r: nat := start, e;
    var grew := true;
    while grew
      invariant l <= start && e <= r <= |text| && room + Units(text[l..r]) == SNIPPET
      invariant l > 0 && r < |text| ==> Balanced(start - l, r - e, room)
      invariant !grew ==> Full(text, l, r, room)
      decreases room + if grew then 1 else 0
    {
      l, r, room, grew := Grow(text, l, r, room);
    }
    left, right, end := l, r, e;
    piece := text[l..r];
    hit := (Units(text[l..start]), Units(text[start..e]));
  }

  /** Neither neighbour fits, or there is none. */
  predicate Full(text: seq<Code>, l: nat, r: nat, room: nat)
    requires l <= r <= |text|
  {
    (l == 0 || Width(text[l - 1]) > room) && (r == |text| || Width(text[r]) > room)
  }

  /** One character more on either side, where it fits. */
  method Grow(text: seq<Code>, l: nat, r: nat, room: nat) returns (l': nat, r': nat, room': nat, grew: bool)
    requires l <= r <= |text|
    ensures l' <= l && r <= r' <= |text| && room' + Units(text[l'..r']) == room + Units(text[l..r])
    ensures if grew then room' < room else l' == l && r' == r && room' == room && Full(text, l, r, room)
    ensures l - l' <= 1 && r' - r <= 1
    ensures l > 0 && l' == l ==> Width(text[l - 1]) > room
    ensures r < |text| && r' == r ==> Width(text[r]) > room'
  {
    l', r', room', grew := l, r, room, false;
    UnitsAround(text, l, r);
    if l > 0 && Width(text[l - 1]) <= room {
      l' := l - 1;
      room' := room - Width(text[l']);
      grew := true;
    }
    UnitsAround(text, l', r);
    if r < |text| && Width(text[r]) <= room' {
      room' := room' - Width(text[r]);
      r' := r + 1;
      grew := true;
    }
  }
}
