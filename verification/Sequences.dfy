/** What a sequence holds of a kind, in its order. */
module Sequences {

  function Only<T(!new)>(items: seq<T>, p: T -> bool): (some: seq<T>)
    ensures forall x {:trigger x in some} :: x in some <==> x in items && p(x)
    ensures |some| <= |items|
  {
    if items == [] then []
    else
      var x := items[|items| - 1];
      Only(items[..|items| - 1], p) + if p(x) then [x] else []
  }

  lemma {:induction false} OnlySame<T(!new)>(items: seq<T>, p: T -> bool, q: T -> bool)
    requires forall x | x in items :: p(x) == q(x)
    ensures Only(items, p) == Only(items, q)
  {
    if items != [] {
      OnlySame(items[..|items| - 1], p, q);
    }
  }

  lemma {:induction false} OnlyAll<T(!new)>(items: seq<T>, p: T -> bool)
    requires forall x | x in items :: p(x)
    ensures Only(items, p) == items
  {
    if items != [] {
      var n := |items| - 1;
      OnlyAll(items[..n], p);
      assert items[n] in items;
      assert items == items[..n] + [items[n]];
    }
  }

  lemma OnlyNone<T(!new)>(items: seq<T>, p: T -> bool)
    requires forall x | x in items :: !p(x)
    ensures Only(items, p) == []
  {
    assert Only(items, p) != [] ==> Only(items, p)[0] in Only(items, p);
  }

  lemma OnlyFinds<T(!new)>(items: seq<T>, x: T, p: T -> bool)
    requires x in items && p(x)
    ensures x in Only(items, p)
  {
    assert x in Only(items, p) <==> x in items && p(x);
  }

  lemma {:induction false} OnlyFewer<T(!new)>(items: seq<T>, p: T -> bool)
    requires exists x :: x in items && !p(x)
    ensures |Only(items, p)| < |items|
  {
    var n := |items| - 1;
    if p(items[n]) {
      assert items == items[..n] + [items[n]];
      OnlyFewer(items[..n], p);
    }
  }

  lemma OnlyLast<T(!new)>(items: seq<T>, x: T, p: T -> bool)
    ensures Only(items + [x], p) == Only(items, p) + if p(x) then [x] else []
  {
    assert (items + [x])[..|items|] == items;
  }

  lemma OnlyStep<T(!new)>(items: seq<T>, rest: seq<T>, last: T, p: T -> bool)
    requires items != [] && rest == items[..|items| - 1] && last == items[|items| - 1]
    ensures Only(items, p) == Only(rest, p) + (if p(last) then [last] else [])
  {
  }

  lemma {:induction false} OnlyConcat<T(!new)>(a: seq<T>, b: seq<T>, p: T -> bool)
    ensures Only(a + b, p) == Only(a, p) + Only(b, p)
  {
    if b == [] {
      assert a + b == a;
    } else {
      var rest, last := b[..|b| - 1], b[|b| - 1];
      OnlyConcat(a, rest, p);
      ConcatLast(a, b);
      OnlyStep(b, rest, last, p);
      OnlyStep(a + b, a + rest, last, p);
      ConcatThree(Only(a, p), Only(rest, p), if p(last) then [last] else []);
    }
  }

  /** What holds of every two items, one after the other, holds of those kept. */
  lemma {:induction false} OnlyInOrder<T(!new)>(items: seq<T>, p: T -> bool, less: (T, T) -> bool)
    requires forall i, j | 0 <= i < j < |items| :: less(items[i], items[j])
    ensures forall i, j | 0 <= i < j < |Only(items, p)| :: less(Only(items, p)[i], Only(items, p)[j])
  {
    if items != [] {
      var n := |items| - 1;
      OnlyInOrder(items[..n], p, less);
      forall x | x in Only(items[..n], p)
        ensures less(x, items[n])
      {
        var i :| 0 <= i < n && items[..n][i] == x;
      }
    }
  }

  function Remove<T>(items: seq<T>, i: nat): seq<T>
    requires i < |items|
  {
    items[..i] + items[i + 1..]
  }

  /** What is taken out makes no difference to what is kept of another kind. */
  lemma OnlyRemove<T(!new)>(items: seq<T>, i: nat, p: T -> bool)
    requires i < |items| && !p(items[i])
    ensures Only(Remove(items, i), p) == Only(items, p)
  {
    var a, x, b := items[..i], items[i], items[i + 1..];
    OnlyThree(a, x, b, p);
    Parts(items, i);
  }

  lemma Parts<T>(items: seq<T>, i: nat)
    requires i < |items|
    ensures items == items[..i] + ([items[i]] + items[i + 1..])
  {
  }

  lemma OnlyThree<T(!new)>(a: seq<T>, x: T, b: seq<T>, p: T -> bool)
    requires !p(x)
    ensures Only(a + ([x] + b), p) == Only(a + b, p)
  {
    OnlyConcat(a, b, p);
    OnlyConcat(a, [x] + b, p);
    OnlyConcat([x], b, p);
    OnlyNone([x], p);
  }

  function Both<T>(p: T -> bool, q: T -> bool): T -> bool {
    x => p(x) && q(x)
  }

  lemma {:induction false} OnlyTwice<T(!new)>(items: seq<T>, p: T -> bool, q: T -> bool)
    ensures Only(Only(items, p), q) == Only(items, Both(p, q))
  {
    if items != [] {
      var n := |items| - 1;
      OnlyTwice(items[..n], p, q);
      OnlyLast(Only(items[..n], p), items[n], q);
      assert Only(items[..n], p) + [] == Only(items[..n], p);
      assert Both(p, q)(items[n]) == (p(items[n]) && q(items[n]));
    }
  }

  lemma ConcatLast<T>(a: seq<T>, b: seq<T>)
    requires b != []
    ensures (a + b)[..|a + b| - 1] == a + b[..|b| - 1] && (a + b)[|a + b| - 1] == b[|b| - 1]
  {
  }

  lemma ConcatThree<T>(a: seq<T>, b: seq<T>, c: seq<T>)
    ensures a + (b + c) == a + b + c
  {
  }
}
