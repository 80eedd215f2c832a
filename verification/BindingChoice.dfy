/** choose_page.go: allowed-set bindings and the choices that narrow them. */
module BindingChoice {
  import opened Wrappers
  import opened Text
  import opened Identity

  const SEPARATOR := ','

  /** The trimmed, non-blank parts, in order. */
  function NonBlank(parts: seq<string>): seq<string> {
    if parts == [] then []
    else
      var m := TrimSpace(parts[0]);
      (if m != "" then [m] else []) + NonBlank(parts[1..])
  }

  function Members(value: string): seq<string> { NonBlank(Split(value, SEPARATOR)) }

  predicate IsSet(value: string) { |Members(value)| > 1 }

  lemma {:induction false} OneMemberWithoutSeparator(value: string)
    ensures SEPARATOR !in value ==> !IsSet(value)
  {
    SplitParts(value, SEPARATOR);
    var parts := Split(value, SEPARATOR);
    if |parts| == 1 {
      assert NonBlank(parts[1..]) == [];
    }
  }

  /** One turn of the splitting loop. */
  lemma {:induction false} OneMorePart(members: seq<string>, parts: seq<string>, i: nat)
    requires i < |parts| && members + NonBlank(parts[i..]) == NonBlank(parts)
    ensures var m := TrimSpace(parts[i]);
            (if m != "" then members + [m] else members) + NonBlank(parts[i + 1..]) == NonBlank(parts)
  {
    assert parts[i..][1..] == parts[i + 1..];
  }

  /** bindingSet: nothing to split without a separator; otherwise the trimmed
      members, a set when there are at least two. */
  method BindingSet(value: string) returns (members: seq<string>, isSet: bool)
    ensures isSet == IsSet(value)
    ensures members == if SEPARATOR in value then Members(value) else []
  {
    if SEPARATOR !in value {
      OneMemberWithoutSeparator(value);
      return [], false;
    }
    members := [];
    var parts := Split(value, SEPARATOR);
    var i := 0;
    while i < |parts|
      invariant 0 <= i <= |parts|
      invariant members + NonBlank(parts[i..]) == NonBlank(parts)
    {
      var m := TrimSpace(parts[i]);
      OneMorePart(members, parts, i);
      if m != "" {
        members := members + [m];
      }
      i := i + 1;
    }
    isSet := |members| > 1;
  }

  lemma {:induction false} NonBlankMembers(parts: seq<string>, m: string)
    ensures m in NonBlank(parts) <==> m != "" && exists i :: 0 <= i < |parts| && TrimSpace(parts[i]) == m
  {
    if parts != [] {
      NonBlankMembers(parts[1..], m);
      if m in NonBlank(parts) && m in NonBlank(parts[1..]) {
        var i :| 0 <= i < |parts[1..]| && TrimSpace(parts[1..][i]) == m;
        assert TrimSpace(parts[i + 1]) == m;
      }
      if m != "" && exists i :: 0 <= i < |parts| && TrimSpace(parts[i]) == m {
        var i :| 0 <= i < |parts| && TrimSpace(parts[i]) == m;
        if i > 0 { assert TrimSpace(parts[1..][i - 1]) == m; }
      }
    }
  }

  /** The members are exactly the non-blank comma-separated pieces, and a
      member is itself a plain value: trimmed and not a set. */
  lemma {:induction false} MembersExactly(value: string, m: string)
    ensures m in Members(value)
            <==> m != "" && exists i :: 0 <= i < |Split(value, SEPARATOR)| && TrimSpace(Split(value, SEPARATOR)[i]) == m
    ensures m in Members(value) ==> SEPARATOR !in m && TrimSpace(m) == m && !IsSet(m)
  {
    var parts := Split(value, SEPARATOR);
    NonBlankMembers(parts, m);
    if m in Members(value) {
      var i :| 0 <= i < |parts| && TrimSpace(parts[i]) == m;
      SplitParts(value, SEPARATOR);
      TrimSpaceKeeps(parts[i], SEPARATOR);
      TrimSpaceIdempotent(parts[i]);
      OneMemberWithoutSeparator(m);
    }
  }

  /** The members of a list are those of its pieces in order, repetitions and all:
      a piece without a separator is one member, trimmed, or none when blank. */
  lemma {:induction false} MembersInOrder(piece: string, rest: string)
    requires SEPARATOR !in piece
    ensures Members(piece) == if TrimSpace(piece) == "" then [] else [TrimSpace(piece)]
    ensures Members(piece + [SEPARATOR] + rest) == Members(piece) + Members(rest)
  {
    SplitAround(piece, rest, SEPARATOR);
    SplitOne(piece);
    assert ([piece] + Split(rest, SEPARATOR))[1..] == Split(rest, SEPARATOR);
    assert NonBlank([piece][1..]) == [];
  }

  lemma {:induction false} SplitOne(piece: string)
    requires SEPARATOR !in piece
    ensures Split(piece, SEPARATOR) == [piece]
  {
    SplitParts(piece, SEPARATOR);
    JoinSplit(piece, SEPARATOR);
  }

  lemma {:induction false} PairOfMembers(x: string, y: string)
    requires SEPARATOR !in x && TrimSpace(x) == x != ""
    requires SEPARATOR !in y && TrimSpace(y) == y != ""
    ensures Members(x) == [x] && Members(x + [SEPARATOR] + y) == [x, y]
  {
    MembersInOrder(x, y);
    MembersInOrder(y, "");
  }

  /** What shows the keys still bound to a set, and no other. */
  function SetsOnly(binding: Binding): Binding {
    map k | k in binding && IsSet(binding[k]) :: binding[k]
  }

  /** That shows a stored set of two members, and nothing of either. */
  lemma {:induction false} PickShowsNothing(x: string, y: string, stored: Binding, granted: Binding)
    requires SEPARATOR !in x && TrimSpace(x) == x != ""
    requires SEPARATOR !in y && TrimSpace(y) == y != ""
    requires stored == map["k" := x + [SEPARATOR] + y] && granted == map["k" := x]
    ensures Narrows(granted, stored) && SetsOnly(stored) != map[] && SetsOnly(granted) == map[]
  {
    PairOfMembers(x, y);
    assert "k" in SetsOnly(stored);
  }

  /** setValuedKeys: whatever order the map is walked in, the result is the
      sorted list of exactly the set-valued keys. */
  method SetValuedKeys(binding: Binding) returns (keys: seq<string>)
    ensures keys == Sorted(set k | k in binding && IsSet(binding[k]))
    ensures forall k :: k in keys <==> k in binding && IsSet(binding[k])
  {
    var found: set<string> := {};
    var rest := binding.Keys;
    while rest != {}
      invariant rest <= binding.Keys
      invariant forall k :: k in found <==> k in binding && k !in rest && IsSet(binding[k])
      decreases |rest|
    {
      var k :| k in rest;
      var _, isSet := BindingSet(binding[k]);
      if isSet {
        found := found + {k};
      }
      rest := rest - {k};
    }
    assert found == set k | k in binding && IsSet(binding[k]);
    keys := SortedNames(found);
  }

  /** Does any key still need a choice? */
  predicate NeedsChoice(binding: Binding) {
    exists k :: k in binding && IsSet(binding[k])
  }

  /** Is the submitted choice for k one the stored binding offers? */
  predicate Offered(binding: Binding, choice: string -> string, k: string)
    requires k in binding
  {
    IsSet(binding[k]) ==> choice(k) in Members(binding[k])
  }

  function Pick(binding: Binding, choice: string -> string, k: string): string
    requires k in binding
  {
    if IsSet(binding[k]) then choice(k) else binding[k]
  }

  /** One offered member per set-valued key, everything else as stored. */
  function Resolved(binding: Binding, choice: string -> string): Option<Binding> {
    if forall k :: k in binding ==> Offered(binding, choice, k)
    then Some(map k | k in binding :: Pick(binding, choice, k))
    else None
  }

  /** resolveBindingChoices walks the map in any order, stopping at the first
      unoffered choice; the outcome does not depend on that order. */
  method ResolveBindingChoices(binding: Binding, choice: string -> string) returns (r: Option<Binding>)
    ensures r == Resolved(binding, choice)
  {
    var resolved: Binding := map[];
    var rest := binding.Keys;
    while rest != {}
      invariant rest <= binding.Keys
      invariant resolved.Keys == binding.Keys - rest
      invariant forall k :: k in resolved ==> resolved[k] == Pick(binding, choice, k)
      invariant forall k :: k in resolved ==> Offered(binding, choice, k)
      decreases |rest|
    {
      var k :| k in rest;
      rest := rest - {k};
      var value := Choose(binding, choice, k);
      if value.None? {
        return None;
      }
      resolved := resolved[k := value.value];
    }
    assert resolved == map k | k in binding :: Pick(binding, choice, k);
    r := Some(resolved);
  }

  /** One turn of that loop: a set needs an offered choice. */
  method Choose(binding: Binding, choice: string -> string, k: string) returns (r: Option<string>)
    requires k in binding
    ensures r == if Offered(binding, choice, k) then Some(Pick(binding, choice, k)) else None
  {
    OneMemberWithoutSeparator(binding[k]);
    var members, isSet := BindingSet(binding[k]);
    if !isSet {
      return Some(binding[k]);
    }
    var chosen := choice(k);
    var valid := Contains(members, chosen);
    r := if valid then Some(chosen) else None;
  }

  /** The membership loop of resolveBindingChoices. */
  method Contains(members: seq<string>, chosen: string) returns (valid: bool)
    ensures valid <==> chosen in members
  {
    valid := false;
    var i := 0;
    while i < |members|
      invariant 0 <= i <= |members|
      invariant !valid && chosen !in members[..i]
    {
      if members[i] == chosen {
        return true;
      }
      i := i + 1;
    }
  }

  /** granted narrows stored: the same keys, a member of each stored set, every
      other value as stored, and no choice left open. */
  ghost predicate Narrows(granted: Binding, stored: Binding) {
    && granted.Keys == stored.Keys
    && (forall k :: k in stored ==>
          if IsSet(stored[k]) then granted[k] in Members(stored[k]) else granted[k] == stored[k])
    && !NeedsChoice(granted)
  }

  lemma {:induction false} UnsetBindingNarrows(stored: Binding)
    ensures !NeedsChoice(stored) <==> Narrows(stored, stored)
  {
  }

  /** A successful resolution narrows the stored binding, and resolving the
      result again, with any choices at all, changes nothing. */
  lemma {:induction false} ResolvedNarrows(stored: Binding, choice: string -> string, again: string -> string)
    requires Resolved(stored, choice).Some?
    ensures Narrows(Resolved(stored, choice).value, stored)
    ensures Resolved(Resolved(stored, choice).value, again) == Resolved(stored, choice)
  {
    var granted := Resolved(stored, choice).value;
    forall k | k in granted ensures !IsSet(granted[k]) {
      if IsSet(stored[k]) {
        MembersExactly(stored[k], choice(k));
      }
    }
    assert Resolved(granted, again).value == granted;
  }

  /** The narrowings are exactly what choices can reach: the stored sets are the
      only authority. */
  lemma {:induction false} NarrowingsAreChoices(stored: Binding, granted: Binding)
    ensures Narrows(granted, stored) <==> exists choice :: Resolved(stored, choice) == Some(granted)
  {
    if Narrows(granted, stored) {
      NarrowingIsChosen(stored, granted);
    }
    if choice :| Resolved(stored, choice) == Some(granted) {
      ResolvedNarrows(stored, choice, choice);
    }
  }

  lemma {:induction false} NarrowingIsChosen(stored: Binding, granted: Binding)
    requires Narrows(granted, stored)
    ensures Resolved(stored, k => if k in granted then granted[k] else "") == Some(granted)
  {
    var choice := k => if k in granted then granted[k] else "";
    assert Resolved(stored, choice).value == granted;
  }

  /** Resolution reads the choices only at the stored keys. */
  lemma {:induction false} ResolvedReadsStoredKeys(stored: Binding, a: string -> string, b: string -> string)
    requires forall k :: k in stored ==> a(k) == b(k)
    ensures Resolved(stored, a) == Resolved(stored, b)
  {
    if Resolved(stored, a).Some? && Resolved(stored, b).Some? {
      assert Resolved(stored, a).value == Resolved(stored, b).value;
    }
  }
}
