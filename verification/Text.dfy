/** The string operations the source takes from the Go library: trimming,
    splitting and the byte-wise order used by its sorts. */
module Text {

  // ----- characters ------------------------------------------------------

  /** White space as Go's strings.TrimSpace sees it. */
  predicate IsSpace(c: char) {
    var n := c as int;
    9 <= n <= 13 || n == 0x20 || n == 0x85 || n == 0xA0 || n == 0x1680
    || 0x2000 <= n <= 0x200A || n == 0x2028 || n == 0x2029 || n == 0x202F
    || n == 0x205F || n == 0x3000
  }

  // ----- trimming --------------------------------------------------------

  function TrimRight(s: string, c: char): string {
    if s != "" && s[|s| - 1] == c then TrimRight(s[..|s| - 1], c) else s
  }

  /** What is left is a prefix that does not end in c, and trimming it again
      changes nothing. */
  lemma {:induction false} TrimRightPrefix(s: string, c: char)
    ensures TrimRight(s, c) <= s
    ensures TrimRight(s, c) != "" ==> TrimRight(s, c)[|TrimRight(s, c)| - 1] != c
    ensures TrimRight(TrimRight(s, c), c) == TrimRight(s, c)
  {
    if s != "" && s[|s| - 1] == c {
      TrimRightPrefix(s[..|s| - 1], c);
    }
  }

  /** Trimming undoes one more trailing c. */
  lemma {:induction false} TrimRightAppend(s: string, c: char)
    ensures TrimRight(s + [c], c) == TrimRight(s, c)
  {
    assert (s + [c])[..|s + [c]| - 1] == s;
  }

  function TrimLeftSpace(s: string): string {
    if s != "" && IsSpace(s[0]) then TrimLeftSpace(s[1..]) else s
  }

  function TrimRightSpace(s: string): string {
    if s != "" && IsSpace(s[|s| - 1]) then TrimRightSpace(s[..|s| - 1]) else s
  }

  function TrimSpace(s: string): string {
    TrimRightSpace(TrimLeftSpace(s))
  }

  lemma {:induction false} TrimLeftEnds(s: string)
    ensures var l := TrimLeftSpace(s); l != "" ==> !IsSpace(l[0])
  {
    if s != "" && IsSpace(s[0]) { TrimLeftEnds(s[1..]); }
  }

  lemma {:induction false} TrimRightEnds(s: string)
    ensures var r := TrimRightSpace(s); r <= s && (r != "" ==> !IsSpace(r[|r| - 1]))
  {
    if s != "" && IsSpace(s[|s| - 1]) { TrimRightEnds(s[..|s| - 1]); }
  }

  predicate AllSpace(s: string) { forall i :: 0 <= i < |s| ==> IsSpace(s[i]) }

  /** What trimming takes off in front and behind. */
  function LeadingSpace(s: string): string
  {
    if s != "" && IsSpace(s[0]) then [s[0]] + LeadingSpace(s[1..]) else ""
  }

  function TrailingSpace(s: string): string {
    if s != "" && IsSpace(s[|s| - 1]) then TrailingSpace(s[..|s| - 1]) + [s[|s| - 1]] else ""
  }

  lemma {:induction false} TrimLeftParts(s: string)
    ensures s == LeadingSpace(s) + TrimLeftSpace(s) && AllSpace(LeadingSpace(s))
    ensures AllSpace(s) <==> TrimLeftSpace(s) == ""
    ensures AllSpace(s) <==> AllSpace(TrimLeftSpace(s))
  {
    if s != "" && IsSpace(s[0]) {
      TrimLeftParts(s[1..]);
      assert s == [s[0]] + s[1..];
    }
  }

  lemma {:induction false} TrimRightParts(s: string)
    ensures s == TrimRightSpace(s) + TrailingSpace(s) && AllSpace(TrailingSpace(s))
    ensures AllSpace(s) <==> TrimRightSpace(s) == ""
  {
    if s != "" && IsSpace(s[|s| - 1]) {
      TrimRightParts(s[..|s| - 1]);
      assert s == s[..|s| - 1] + [s[|s| - 1]];
    }
  }

  /** Trimming a sum on the left eats into t only when s is all white. */
  lemma {:induction false} TrimLeftOfSum(s: string, t: string)
    ensures TrimLeftSpace(s + t) == if AllSpace(s) then TrimLeftSpace(t) else TrimLeftSpace(s) + t
  {
    if s == "" {
      assert s + t == t;
    } else if IsSpace(s[0]) {
      TrimLeftOfSum(s[1..], t);
      assert (s + t)[1..] == s[1..] + t;
      assert AllSpace(s) <==> AllSpace(s[1..]);
    }
  }

  lemma {:induction false} TrimRightOfSum(s: string, t: string)
    ensures TrimRightSpace(s + t) == if AllSpace(t) then TrimRightSpace(s) else s + TrimRightSpace(t)
  {
    if t == "" {
      assert s + t == s;
    } else {
      var n := |t| - 1;
      assert (s + t)[|s + t| - 1] == t[n];
      if IsSpace(t[n]) {
        TrimRightOfSum(s, t[..n]);
        assert (s + t)[..|s + t| - 1] == s + t[..n];
        assert AllSpace(t) <==> AllSpace(t[..n]);
      }
    }
  }

  lemma {:induction false} TrimTwo(s: string, t: string)
    requires !AllSpace(s) && !AllSpace(t)
    ensures TrimSpace(s + t) == TrimLeftSpace(s) + TrimRightSpace(t)
  {
    TrimLeftOfSum(s, t);
    TrimRightOfSum(TrimLeftSpace(s), t);
  }

  /** Trimming on the left leaves the trailing white space alone. */
  lemma {:induction false} TrailingOfTrimmed(s: string)
    requires !AllSpace(s)
    ensures TrimLeftSpace(s) == TrimRightSpace(TrimLeftSpace(s)) + TrailingSpace(s)
  {
    var lead, rest := LeadingSpace(s), TrimLeftSpace(s);
    TrimLeftParts(s);
    TrimRightParts(s);
    TrimRightOfSum(lead, rest);
    assert TrimRightSpace(s) == lead + TrimRightSpace(rest);
    assert lead + rest == lead + (TrimRightSpace(rest) + TrailingSpace(s));
    assert rest == s[|lead|..];
  }

  /** A trimmed string has no outer white space, so trimming it again
      changes nothing. */
  lemma {:induction false} TrimSpaceIdempotent(s: string)
    ensures TrimSpace(TrimSpace(s)) == TrimSpace(s)
  {
    TrimLeftEnds(s);
    TrimRightEnds(TrimLeftSpace(s));
  }

  /** Trimming takes off white space in front and behind, and all of it. */
  lemma {:induction false} TrimExactly(s: string)
    ensures exists lead, tail :: s == lead + TrimSpace(s) + tail && AllSpace(lead) && AllSpace(tail)
    ensures TrimSpace(s) != "" ==> !IsSpace(TrimSpace(s)[0]) && !IsSpace(TrimSpace(s)[|TrimSpace(s)| - 1])
  {
    var left := TrimLeftSpace(s);
    TrimLeftParts(s);
    TrimRightParts(left);
    TrimLeftEnds(s);
    TrimRightEnds(left);
    assert s == LeadingSpace(s) + TrimSpace(s) + TrailingSpace(left);
  }

  /** A character outside s is outside what trimming keeps. */
  lemma {:induction false} TrimSpaceKeeps(s: string, c: char)
    requires c !in s
    ensures c !in TrimSpace(s)
  {
    TrimLeftKeeps(s, c);
    TrimRightEnds(TrimLeftSpace(s));
  }

  lemma {:induction false} TrimLeftKeeps(s: string, c: char)
    requires c !in s
    ensures c !in TrimLeftSpace(s)
  {
    if s != "" && IsSpace(s[0]) { TrimLeftKeeps(s[1..], c); }
  }

  // ----- splitting -------------------------------------------------------

  /** strings.Split for a one-character separator. */
  function Split(s: string, sep: char): (parts: seq<string>)
    ensures |parts| > 0
  {
    if s == "" then [""]
    else
      var rest := Split(s[1..], sep);
      if s[0] == sep then [""] + rest else [[s[0]] + rest[0]] + rest[1..]
  }

  /** No part holds the separator; there is one part exactly when the text
      holds none. */
  lemma {:induction false} SplitParts(s: string, sep: char)
    ensures forall i :: 0 <= i < |Split(s, sep)| ==> sep !in Split(s, sep)[i]
    ensures |Split(s, sep)| == 1 <==> sep !in s
  {
    if s != "" {
      SplitParts(s[1..], sep);
      assert s == [s[0]] + s[1..];
    }
  }

  /** strings.Join for a one-character separator. */
  function Join(parts: seq<string>, sep: string): string {
    if parts == [] then ""
    else if |parts| == 1 then parts[0]
    else parts[0] + sep + Join(parts[1..], sep)
  }

  /** Joining the parts gives the text back: Split loses nothing, and cuts exactly
      at the separators. */
  lemma {:induction false} JoinSplit(s: string, sep: char)
    ensures Join(Split(s, sep), [sep]) == s
  {
    if s != "" {
      JoinSplit(s[1..], sep);
      var rest := Split(s[1..], sep);
      if s[0] == sep {
        assert ([""] + rest)[1..] == rest;
      } else {
        assert ([[s[0]] + rest[0]] + rest[1..])[1..] == rest[1..];
      }
    }
  }

  /** Splitting around one separator. */
  lemma {:induction false} SplitAround(a: string, b: string, sep: char)
    requires sep !in a
    ensures Split(a + [sep] + b, sep) == [a] + Split(b, sep)
  {
    if a == "" {
      assert ("" + [sep] + b)[1..] == b;
    } else {
      SplitAround(a[1..], b, sep);
      assert (a + [sep] + b)[1..] == a[1..] + [sep] + b;
      assert a == [a[0]] + a[1..];
    }
  }

  // ----- prefixes --------------------------------------------------------

  predicate HasPrefix(s: string, prefix: string) {
    prefix <= s
  }

  function TrimPrefix(s: string, prefix: string): string {
    if prefix <= s then s[|prefix|..] else s
  }

  // ----- order -----------------------------------------------------------

  /** The order of sort.Strings and slices.Sorted. */
  predicate LexLe(a: string, b: string) {
    a == "" || (b != "" && (a[0] < b[0] || (a[0] == b[0] && LexLe(a[1..], b[1..]))))
  }

  lemma {:induction false} LexTotal(a: string, b: string)
    ensures LexLe(a, b) || LexLe(b, a)
    ensures LexLe(a, b) && LexLe(b, a) ==> a == b
  {
    if a != "" && b != "" {
      LexTotal(a[1..], b[1..]);
      if a[0] == b[0] && a[1..] == b[1..] {
        assert a == [a[0]] + a[1..] == [b[0]] + b[1..] == b;
      }
    }
  }

  lemma {:induction false} LexTransitive(a: string, b: string, c: string)
    requires LexLe(a, b) && LexLe(b, c)
    ensures LexLe(a, c)
  {
    if a != "" && a[0] == b[0] && b[0] == c[0] {
      LexTransitive(a[1..], b[1..], c[1..]);
    }
  }

  /** The order is that of the first difference, and a prefix comes first. */
  ghost predicate DiffersUp(a: string, b: string, i: nat) {
    i <= |a| && i < |b| && a[..i] == b[..i] && (i == |a| || a[i] < b[i])
  }

  lemma {:induction false} FirstDiffers(a: string, b: string, i: nat)
    requires a != "" && b != "" && DiffersUp(a, b, i)
    ensures i > 0 ==> a[0] == b[0]
  {
    assert i > 0 ==> a[..i][0] == a[0] && b[..i][0] == b[0];
  }

  lemma {:induction false} LexExactly(a: string, b: string)
    ensures LexLe(a, b) <==> a == b || exists i: nat :: DiffersUp(a, b, i)
  {
    if a != "" && b != "" && a[0] == b[0] {
      LexExactly(a[1..], b[1..]);
      assert a == [a[0]] + a[1..] && b == [b[0]] + b[1..];
      if i: nat :| DiffersUp(a[1..], b[1..], i) {
        assert a[..i + 1] == [a[0]] + a[1..][..i] && b[..i + 1] == [b[0]] + b[1..][..i];
        assert DiffersUp(a, b, i + 1);
      }
      if i: nat :| DiffersUp(a, b, i) {
        assert i > 0;
        assert a[1..][..i - 1] == a[..i][1..] && b[1..][..i - 1] == b[..i][1..];
        assert DiffersUp(a[1..], b[1..], i - 1);
      }
    } else if a == "" && b != "" {
      assert DiffersUp(a, b, 0);
    } else if a != "" && b != "" {
      assert DiffersUp(a, b, 0) <==> a[0] < b[0];
      forall i: nat | DiffersUp(a, b, i) ensures i == 0 {
        FirstDiffers(a, b, i);
      }
    }
  }

  ghost predicate IsLeast(x: string, names: set<string>) {
    x in names && forall y :: y in names ==> LexLe(x, y)
  }

  lemma {:induction false} LeastExists(names: set<string>)
    requires names != {}
    ensures exists x :: IsLeast(x, names)
    decreases |names|
  {
    var a :| a in names;
    var rest := names - {a};
    LexTotal(a, a);
    if rest == {} {
      assert names == {a};
      assert IsLeast(a, names);
    } else {
      LeastExists(rest);
      var b :| IsLeast(b, rest);
      LexTotal(a, b);
      if LexLe(b, a) {
        assert IsLeast(b, names);
      } else {
        forall y | y in names ensures LexLe(a, y) {
          if y != a { LexTransitive(a, b, y); }
        }
        assert IsLeast(a, names);
      }
    }
  }

  lemma {:induction false} LeastUnique(x: string, y: string, names: set<string>)
    requires IsLeast(x, names) && IsLeast(y, names)
    ensures x == y
  {
    LexTotal(x, y);
  }

  ghost predicate Ascending(xs: seq<string>) {
    forall i, j :: 0 <= i < j < |xs| ==> LexLe(xs[i], xs[j]) && xs[i] != xs[j]
  }

  /** The members of a set of names in order. */
  ghost function Sorted(names: set<string>): (xs: seq<string>)
    ensures Ascending(xs)
    ensures forall x :: x in xs <==> x in names
    decreases |names|
  {
    if names == {} then []
    else
      LeastExists(names);
      var x :| IsLeast(x, names);
      var rest := Sorted(names - {x});
      assert forall y :: y in rest ==> y in names && y != x && LexLe(x, y);
      assert forall i :: 0 <= i < |rest| ==> rest[i] in rest;
      assert forall y :: y in names <==> y == x || y in rest;
      [x] + rest
  }

  /** Sorting a set picks the least of the rest again and again. */
  method SortedNames(names: set<string>) returns (xs: seq<string>)
    ensures xs == Sorted(names)
    ensures Ascending(xs)
    ensures forall x :: x in xs <==> x in names
  {
    xs := [];
    var rest := names;
    while rest != {}
      invariant rest <= names
      invariant forall x :: x in names <==> x in rest || x in xs
      invariant forall x :: x in xs ==> x !in rest
      invariant Ascending(xs)
      invariant forall i, y :: 0 <= i < |xs| && y in rest ==> LexLe(xs[i], y)
      decreases |rest|
    {
      LeastExists(rest);
      var x := PickLeast(rest);
      xs, rest := xs + [x], rest - {x};
    }
    AscendingUnique(xs, Sorted(names));
  }

  method PickLeast(names: set<string>) returns (x: string)
    requires names != {}
    ensures IsLeast(x, names)
  {
    x :| x in names;
    LexTotal(x, x);
    var rest := names - {x};
    while rest != {}
      invariant x in names && rest <= names
      invariant forall y :: y in names && y !in rest ==> LexLe(x, y)
      decreases |rest|
    {
      var y :| y in rest;
      ghost var seen := names - rest;
      LexTotal(x, y);
      LexTotal(y, y);
      if LexLe(y, x) {
        forall z | z in seen ensures LexLe(y, z) { LexTransitive(y, x, z); }
        x := y;
      }
      rest := rest - {y};
    }
  }

  lemma {:induction false} NonEmptyHasMember(xs: seq<string>)
    ensures xs != [] ==> exists x :: x in xs
  {
    if xs != [] { assert xs[0] in xs; }
  }

  /** Sorting is a function of the set: two ascending lists with the same
      members are the same list, whatever order the map was walked in. */
  lemma {:induction false} AscendingUnique(xs: seq<string>, ys: seq<string>)
    requires Ascending(xs) && Ascending(ys)
    requires forall x :: x in xs <==> x in ys
    ensures xs == ys
  {
    if xs == [] {
      NonEmptyHasMember(ys);
    } else {
      assert xs[0] in xs;
      assert ys != [];
      assert ys[0] in ys;
      var i :| 0 <= i < |xs| && xs[i] == ys[0];
      var j :| 0 <= j < |ys| && ys[j] == xs[0];
      LexTotal(xs[0], ys[0]);
      assert xs[0] == ys[0];
      assert xs == [xs[0]] + xs[1..];
      assert ys == [ys[0]] + ys[1..];
      forall x ensures x in xs[1..] <==> x in ys[1..] {
        if x in xs[1..] {
          assert x != xs[0];
          assert x in ys;
        }
        if x in ys[1..] {
          assert x != ys[0];
          assert x in xs;
        }
      }
      AscendingUnique(xs[1..], ys[1..]);
    }
  }
}
