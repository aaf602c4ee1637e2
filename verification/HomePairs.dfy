/** Codex homes paired with accounts in two passes, and the home of an account looked up again. */
module HomePairs {
  import opened Options

  /** An account, and the name the map would give it. */
  datatype Account = Account(name: string, suggested: string)

  function OwnNames(accounts: seq<Account>): (own: set<string>)
    ensures forall n :: n in own <==> exists i :: 0 <= i < |accounts| && accounts[i].name == n
  {
    set i | 0 <= i < |accounts| :: accounts[i].name
  }

  /** The first account the map would name so. */
  function SuggestedBy(accounts: seq<Account>, name: string): (a: Option<string>)
    ensures a.Some? ==> a.value in OwnNames(accounts)
  {
    if accounts == [] then None
    else if accounts[0].suggested == name then
      assert accounts[0].name in OwnNames(accounts);
      Some(accounts[0].name)
    else
      var rest := SuggestedBy(accounts[1..], name);
      assert forall i | 0 <= i < |accounts| - 1 :: accounts[1..][i] == accounts[i + 1];
      rest
  }

  /** The first place of a name; the length of the list when it is nowhere. */
  function FirstOf(names: seq<string>, name: string): (i: nat)
    ensures i <= |names| && (i < |names| ==> names[i] == name)
    ensures forall j | 0 <= j < i :: names[j] != name
  {
    if names == [] || names[0] == name then 0 else FirstOf(names[1..], name) + 1
  }

  /** A home is the first listed under the name of an account. */
  predicate IsNamesake(names: seq<string>, own: set<string>, i: nat)
    requires i < |names|
  {
    names[i] in own && FirstOf(names, names[i]) == i
  }

  /** A home that bears no account's name of its own is the map's home of an account. */
  predicate IsMapped(names: seq<string>, accounts: seq<Account>, i: nat, account: string)
    requires i < |names|
  {
    !IsNamesake(names, OwnNames(accounts), i) && SuggestedBy(accounts, names[i]) == Some(account)
  }

  /** The first such home; the number of homes when there is none. */
  function FirstMapped(names: seq<string>, accounts: seq<Account>, account: string, from: nat): (i: nat)
    requires from <= |names|
    ensures from <= i <= |names| && (i < |names| ==> IsMapped(names, accounts, i, account))
    ensures forall j | from <= j < i :: !IsMapped(names, accounts, j, account)
    decreases |names| - from
  {
    if from == |names| || IsMapped(names, accounts, from, account) then from
    else FirstMapped(names, accounts, account, from + 1)
  }

  /** The home an account pairs with: the first named after it, or else the first named after it on the map; the number
      of homes when it pairs with none. */
  function HomeOf(names: seq<string>, accounts: seq<Account>, account: string): nat {
    if account in names then FirstOf(names, account) else FirstMapped(names, accounts, account, 0)
  }

  /** A home pairs with an account. */
  predicate Pairs(names: seq<string>, accounts: seq<Account>, i: nat, account: string) {
    i < |names| && account in OwnNames(accounts) && HomeOf(names, accounts, account) == i
  }

  /** The contours say for each home the account it pairs with, and for a home that pairs with none its own name. */
  ghost predicate Paired(names: seq<string>, accounts: seq<Account>, out: seq<string>) {
    && |out| == |names|
    && forall i | 0 <= i < |names| :: Stands(names, accounts, i, out[i])
  }

  ghost predicate Stands(names: seq<string>, accounts: seq<Account>, i: nat, contour: string)
    requires i < |names|
  {
    Pairs(names, accounts, i, contour) || (contour == names[i] && forall a :: !Pairs(names, accounts, i, a))
  }

  /** A home pairs with one account at most. */
  lemma OneAccount(names: seq<string>, accounts: seq<Account>, i: nat, a: string, b: string)
    requires Pairs(names, accounts, i, a) && Pairs(names, accounts, i, b)
    ensures a == b
  {
    if a in names {
      assert FirstOf(names, names[i]) == i;
    }
  }

  /** What the contours of paired homes are found by: the first home listed under an account's name is the one the account
      pairs with, and no home is listed under the name of an account that pairs with none. */
  lemma LookupFindsThePair(names: seq<string>, accounts: seq<Account>, out: seq<string>, account: string)
    requires Paired(names, accounts, out) && account in OwnNames(accounts)
    ensures FirstOf(out, account) == HomeOf(names, accounts, account)
  {
    var home := HomeOf(names, accounts, account);
    forall i | 0 <= i < |out| && out[i] == account
      ensures i >= home
    {
      if !Pairs(names, accounts, i, account) {
        assert names[i] == account;
      }
    }
    if home < |out| {
      assert Pairs(names, accounts, home, account);
      if out[home] != account && Pairs(names, accounts, home, out[home]) {
        OneAccount(names, accounts, home, account, out[home]);
      }
    }
  }

  /** A home named after an account is never displaced by one named after it on the map. */
  lemma NamesakeWins(names: seq<string>, accounts: seq<Account>, i: nat, account: string)
    requires i < |names| && account in OwnNames(accounts) && Pairs(names, accounts, i, account)
    ensures account in names ==> names[i] == account && forall j | 0 <= j < i :: names[j] != account
    ensures account !in names ==> SuggestedBy(accounts, names[i]) == Some(account)
  {
  }

  /** The accounts claimed once the second pass has come to a home. */
  ghost predicate Claimed(names: seq<string>, accounts: seq<Account>, claimed: set<string>, k: nat) {
    forall a :: a in claimed <==> a in OwnNames(accounts) && (a in names || FirstMapped(names, accounts, a, 0) < k)
  }

  /** The first pass: the homes named after an account. */
  method Namesakes(names: seq<string>, accounts: seq<Account>) returns (found: seq<bool>, claimed: set<string>)
    ensures |found| == |names| && forall j | 0 <= j < |names| :: found[j] == IsNamesake(names, OwnNames(accounts), j)
    ensures Claimed(names, accounts, claimed, 0)
  {
    var own := OwnNames(accounts);
    found, claimed := [], {};
    var i: nat := 0;
    while i < |names|
      invariant i <= |names| && |found| == i
      invariant forall a :: a in claimed <==> a in own && FirstOf(names, a) < i
      invariant forall j | 0 <= j < i :: found[j] == IsNamesake(names, own, j)
    {
      if names[i] in own && names[i] !in claimed {
        found := found + [true];
        claimed := claimed + {names[i]};
      } else {
        found := found + [false];
      }
      i := i + 1;
    }
    assert forall a :: a in claimed <==> a in own && a in names;
  }

  /** The two passes over the homes: the contour each home stands under. */
  method Pair(names: seq<string>, accounts: seq<Account>) returns (out: seq<string>)
    ensures Paired(names, accounts, out)
    ensures forall a | a in OwnNames(accounts) :: FirstOf(out, a) == HomeOf(names, accounts, a)
  {
    var found, claimed := Namesakes(names, accounts);
    out := [];
    var k: nat := 0;
    while k < |names|
      invariant k <= |names| && |out| == k
      invariant Claimed(names, accounts, claimed, k)
      invariant forall j | 0 <= j < k :: Stands(names, accounts, j, out[j])
    {
      var suggested := SuggestedBy(accounts, names[k]);
      var contour := names[k];
      ghost var was := claimed;
      if !found[k] && suggested.Some? && suggested.value !in claimed {
        contour := suggested.value;
        claimed := claimed + {suggested.value};
      }
      SecondPass(names, accounts, was, k, contour, claimed);
      out := out + [contour];
      k := k + 1;
    }
    forall a | a in OwnNames(accounts)
      ensures FirstOf(out, a) == HomeOf(names, accounts, a)
    {
      LookupFindsThePair(names, accounts, out, a);
    }
  }

  lemma SecondPass(names: seq<string>, accounts: seq<Account>, was: set<string>, k: nat, contour: string, claimed: set<string>)
    requires k < |names| && Claimed(names, accounts, was, k)
    requires var s := SuggestedBy(accounts, names[k]);
             if !IsNamesake(names, OwnNames(accounts), k) && s.Some? && s.value !in was
             then contour == s.value && claimed == was + {s.value}
             else contour == names[k] && claimed == was
    ensures Stands(names, accounts, k, contour) && Claimed(names, accounts, claimed, k + 1)
  {
    MappedOnce(names, accounts, k);
    var s := SuggestedBy(accounts, names[k]);
    forall a
      ensures FirstMapped(names, accounts, a, 0) == k <==> IsMapped(names, accounts, k, a) && !(FirstMapped(names, accounts, a, 0) < k)
    {
    }
  }

  /** What a home pairs with: by its name, or by the map. */
  lemma MappedOnce(names: seq<string>, accounts: seq<Account>, i: nat)
    requires i < |names|
    ensures forall a :: Pairs(names, accounts, i, a) <==>
              || (IsNamesake(names, OwnNames(accounts), i) && a == names[i])
              || (a !in names && SuggestedBy(accounts, names[i]) == Some(a) && FirstMapped(names, accounts, a, 0) == i)
  {
  }

  /** The home of an account, where its directory is there. */
  method CodexHomeOf(contours: seq<string>, homes: seq<string>, there: set<string>, name: string) returns (home: Option<string>)
    requires |contours| == |homes|
    ensures var i := FirstOf(contours, name); home == if i < |homes| && homes[i] in there then Some(homes[i]) else None
  {
    var i: nat := 0;
    while i < |contours|
      invariant i <= |contours| && forall j | 0 <= j < i :: contours[j] != name
    {
      if contours[i] == name {
        return if homes[i] in there then Some(homes[i]) else None;
      }
      i := i + 1;
    }
    home := None;
  }
}
