/** pairing.go: the printer of pairing codes and the tolerant parser that
    normalises what a person typed. */
module PairingCode {
  import opened Wrappers
  import opened Text

  type Byte = x: int | 0 <= x < 256

  /** A 16-byte random draw. */
  type Draw = d: seq<Byte> | |d| == 16 witness seq(16, _ => 0)

  const PREFIX := "mcp-"
  const BARE_PREFIX := "mcp"
  const CROCKFORD := "0123456789ABCDEFGHJKMNPQRSTVWXYZ"

  // ----- printing --------------------------------------------------------

  /** Bit i of the draw, most significant first. */
  function Bit(d: Draw, i: nat): (b: nat)
    requires i < 128
    ensures b < 2
  {
    var v := d[i / 8];
    match i % 8
    case 0 => v / 128
    case 1 => v / 64 % 2
    case 2 => v / 32 % 2
    case 3 => v / 16 % 2
    case 4 => v / 8 % 2
    case 5 => v / 4 % 2
    case 6 => v / 2 % 2
    case _ => v % 2
  }

  /** The j-th five-bit group, as in section 6 of RFC 4648. */
  function Quintet(d: Draw, j: nat): (q: nat)
    requires j < 25
    ensures q < 32
  {
    16 * Bit(d, 5 * j) + 8 * Bit(d, 5 * j + 1) + 4 * Bit(d, 5 * j + 2)
    + 2 * Bit(d, 5 * j + 3) + Bit(d, 5 * j + 4)
  }

  /** The first 25 characters of the base32 text of the draw. */
  function Body(d: Draw): (s: string)
    ensures |s| == 25
  {
    seq(25, j requires 0 <= j < 25 => CROCKFORD[Quintet(d, j)])
  }

  /** A text cut into groups of five. */
  function Groups(s: string): (g: seq<string>)
    requires |s| % 5 == 0
    ensures g == [] <==> s == ""
  {
    if s == "" then [] else [s[..5]] + Groups(s[5..])
  }

  /** The printed code: the prefix and the hyphenated groups. */
  function Code(d: Draw): string {
    PREFIX + Join(Groups(Body(d)), "-")
  }

  /** generatePairingCode: randomness may fail; otherwise the encoded text is
      cut into groups and joined. */
  method GeneratePairingCode(random: Option<Draw>) returns (r: Result<string>)
    ensures r == if random.None? then Err else Ok(Code(random.value))
  {
    if random.None? {
      return Err;
    }
    var s := Body(random.value);
    var groups: seq<string> := [];
    var i := 0;
    while i < |s|
      invariant 0 <= i <= 25 && i % 5 == 0
      invariant groups + Groups(s[i..]) == Groups(s)
    {
      assert s[i..][..5] == s[i..i + 5] && s[i..][5..] == s[i + 5..];
      groups := groups + [s[i..i + 5]];
      i := i + 5;
    }
    assert s[i..] == "";
    assert groups == Groups(s);
    r := Ok(PREFIX + Join(groups, "-"));
  }

  // ----- parsing ---------------------------------------------------------

  function Lower(c: char): char {
    if 'A' <= c <= 'Z' then c + ('a' - 'A') else c
  }

  function Upper(c: char): char {
    if 'a' <= c <= 'z' then c - ('a' - 'A') else c
  }

  /** The Crockford-confusable characters. */
  function Fold(c: char): char {
    if c == 'o' then '0' else if c == 'i' || c == 'l' then '1' else c
  }

  function Map(f: char -> char, s: string): (r: string)
    ensures |r| == |s|
    ensures forall i :: 0 <= i < |s| ==> r[i] == f(s[i])
  {
    seq(|s|, i requires 0 <= i < |s| => f(s[i]))
  }

  predicate IsSeparator(c: char) { c == '-' || c == ' ' }

  function StripSeparators(s: string): string {
    if s == "" then ""
    else (if IsSeparator(s[0]) then "" else [s[0]]) + StripSeparators(s[1..])
  }

  /** normalizePairing, step by step in the source's order. */
  function Normalize(s: string): string {
    var lowered := Map(Lower, TrimSpace(s));
    var stripped := StripSeparators(lowered);
    var bare := TrimPrefix(stripped, BARE_PREFIX);
    Map(Upper, Map(Fold, bare))
  }

  // ----- one canonical form ----------------------------------------------

  /** What one typed character stands for. */
  function Canon(c: char): char { Upper(Fold(Lower(c))) }

  function DropTag(s: string): string { TrimPrefix(s, "MCP") }

  /** What stripping makes of the first character. */
  function First(c: char): string { if IsSeparator(c) then "" else [c] }

  lemma {:induction false} StripFirst(c: char, s: string)
    ensures StripSeparators([c] + s) == First(c) + StripSeparators(s)
  {
    assert ([c] + s)[1..] == s;
  }

  lemma {:induction false} StripAppend(s: string, t: string)
    ensures StripSeparators(s + t) == StripSeparators(s) + StripSeparators(t)
  {
    if s == "" {
      assert s + t == t;
    } else {
      var c, rest := s[0], s[1..];
      StripAppend(rest, t);
      StripFirst(c, rest + t);
      StripFirst(c, rest);
      assert s == [c] + rest;
      assert s + t == [c] + (rest + t);
      var x, y, z := First(c), StripSeparators(rest), StripSeparators(t);
      assert x + (y + z) == (x + y) + z;
    }
  }

  lemma {:induction false} StripMap(f: char -> char, s: string)
    requires forall c :: IsSeparator(f(c)) <==> IsSeparator(c)
    ensures StripSeparators(Map(f, s)) == Map(f, StripSeparators(s))
  {
    if s != "" {
      StripMap(f, s[1..]);
      assert Map(f, s)[1..] == Map(f, s[1..]);
    }
  }

  lemma {:induction false} StripOfSpaces(s: string)
    requires forall i :: 0 <= i < |s| ==> IsSeparator(s[i])
    ensures StripSeparators(s) == ""
  {
    if s != "" { StripOfSpaces(s[1..]); }
  }

  /** What is left of an input once it is trimmed and its separators are
      gone. */
  function Kept(s: string): string { StripSeparators(TrimSpace(s)) }

  /** What a text without separators is read as. */
  function Read(x: string): string { DropTag(Map(Canon, x)) }

  /** The parser in one line: trim, forget separators, read every character by
      what it stands for, then drop one leading tag. All the tolerance of the
      parser follows from this form. */
  lemma {:induction false} NormalizeIsCanonical(s: string)
    ensures Normalize(s) == Read(Kept(s))
  {
    LowerThenStrip(TrimSpace(s));
    LowerThenCanon(Kept(s));
  }

  lemma {:induction false} LowerThenStrip(t: string)
    ensures StripSeparators(Map(Lower, t)) == Map(Lower, StripSeparators(t))
  {
    StripMap(Lower, t);
  }

  lemma {:induction false} LowerThenCanon(t: string)
    ensures Map(Upper, Map(Fold, TrimPrefix(Map(Lower, t), BARE_PREFIX))) == DropTag(Map(Canon, t))
  {
    var lowered, canon := Map(Lower, t), Map(Canon, t);
    forall i | 0 <= i < |t|
      ensures lowered[i] == 'm' <==> canon[i] == 'M'
      ensures lowered[i] == 'c' <==> canon[i] == 'C'
      ensures lowered[i] == 'p' <==> canon[i] == 'P'
    {
    }
    assert BARE_PREFIX <= lowered <==> |t| >= 3 && lowered[0] == 'm' && lowered[1] == 'c' && lowered[2] == 'p';
    assert "MCP" <= canon <==> |t| >= 3 && canon[0] == 'M' && canon[1] == 'C' && canon[2] == 'P';
  }

  /** Two inputs that keep the same characters, up to case and to swaps among
      0/O and among 1/I/L, normalise alike. */
  lemma {:induction false} SameTyping(s: string, t: string)
    requires Map(Canon, Kept(s)) == Map(Canon, Kept(t))
    ensures Normalize(s) == Normalize(t)
  {
    NormalizeIsCanonical(s);
    NormalizeIsCanonical(t);
  }

  /** What a character stands for tells white space and separators. */
  lemma {:induction false} CanonKeepsKinds(c: char, d: char)
    requires Canon(c) == Canon(d)
    ensures IsSpace(c) <==> IsSpace(d)
    ensures IsSeparator(c) <==> IsSeparator(d)
  {
  }

  /** The two texts agree character by character, up to case and swaps. */
  ghost predicate Lookalike(s: string, t: string) {
    |s| == |t| && forall i :: 0 <= i < |s| ==> Canon(s[i]) == Canon(t[i])
  }

  lemma {:induction false} TrimLeftLookalike(s: string, t: string)
    requires Lookalike(s, t)
    ensures Lookalike(TrimLeftSpace(s), TrimLeftSpace(t))
  {
    if s != "" {
      CanonKeepsKinds(s[0], t[0]);
      TrimLeftLookalike(s[1..], t[1..]);
    }
  }

  lemma {:induction false} TrimRightLookalike(s: string, t: string)
    requires Lookalike(s, t)
    ensures Lookalike(TrimRightSpace(s), TrimRightSpace(t))
  {
    if s != "" {
      var n := |s| - 1;
      CanonKeepsKinds(s[n], t[n]);
      TrimRightLookalike(s[..n], t[..n]);
    }
  }

  lemma {:induction false} StripLookalike(s: string, t: string)
    requires Lookalike(s, t)
    ensures Lookalike(StripSeparators(s), StripSeparators(t))
  {
    if s != "" {
      CanonKeepsKinds(s[0], t[0]);
      StripLookalike(s[1..], t[1..]);
    }
  }

  /** Case and swaps of 0/O and 1/I/L are invisible, wherever they are and
      whatever white space is around. */
  lemma {:induction false} SwapsInvisible(s: string, t: string)
    requires Lookalike(s, t)
    ensures Normalize(s) == Normalize(t)
  {
    TrimLeftLookalike(s, t);
    TrimRightLookalike(TrimLeftSpace(s), TrimLeftSpace(t));
    StripLookalike(TrimSpace(s), TrimSpace(t));
    SameTyping(s, t);
  }

  // ----- separators ------------------------------------------------------

  predicate Plain(w: string) { forall i :: 0 <= i < |w| ==> w[i] == ' ' }

  /** In white space only the plain spaces are separators. */
  lemma {:induction false} StripWhite(w: string)
    requires AllSpace(w)
    ensures AllSpace(StripSeparators(w)) && (StripSeparators(w) == "" <==> Plain(w))
  {
    if w != "" {
      StripWhite(w[1..]);
    }
  }

  /** White space is read as itself and no tag holds any: kept in front of a
      text or behind it, it shows. */
  lemma {:induction false} WhiteShowsBefore(w: string, x: string)
    requires w != "" && AllSpace(w)
    ensures Read(w + x) != Read(x)
  {
    assert Map(Canon, w + x)[0] == Canon(w[0]) != 'M';
    assert |Read(w + x)| == |w| + |x|;
  }

  lemma {:induction false} WhiteShowsBehind(w: string, x: string)
    requires w != "" && AllSpace(w)
    ensures Read(x + w) != Read(x)
  {
    var canon, longer := Map(Canon, x), Map(Canon, x + w);
    assert longer == canon + Map(Canon, w);
    assert longer[|x|] == Canon(w[0]) == w[0];
    assert |Read(x + w)| == |Read(x)| + |w|;
  }

  /** A hyphen put behind s keeps leading white space of t from being trimmed
      that is not all plain spaces. */
  predicate ShieldsLeft(s: string, t: string) {
    AllSpace(s) && !AllSpace(t) && !Plain(LeadingSpace(t))
  }

  /** The mirror image, for the trailing white space of s. */
  predicate ShieldsRight(s: string, t: string) {
    AllSpace(t) && !AllSpace(s) && !Plain(TrailingSpace(s))
  }

  /** A separator inside the text. */
  lemma {:induction false} InsideKept(s: string, t: string, sep: char)
    requires IsSeparator(sep) && !AllSpace(s) && !AllSpace(t)
    ensures Kept(s + [sep] + t) == Kept(s + t)
  {
    TrimTwo(s, t);
    assert ([sep] + t)[1..] == t;
    assert AllSpace([sep] + t) ==> AllSpace(t);
    TrimTwo(s, [sep] + t);
    assert s + [sep] + t == s + ([sep] + t);
    TrimRightOfSum([sep], t);
    StripAppend(TrimLeftSpace(s), TrimRightSpace(t));
    StripAppend(TrimLeftSpace(s), [sep] + TrimRightSpace(t));
    StripAppend([sep], TrimRightSpace(t));
    StripOfSpaces([sep]);
  }

  /** A hyphen before the text keeps its leading white space. */
  lemma {:induction false} HyphenBefore(s: string, t: string)
    requires AllSpace(s) && !AllSpace(t)
    ensures Kept(s + "-" + t) == StripSeparators(LeadingSpace(t)) + Kept(s + t)
  {
    var lead, rest := LeadingSpace(t), TrimRightSpace(TrimLeftSpace(t));
    TrimHyphenBefore(s, t);
    TrimLeftOfSum(s, t);
    StripAppend("-", lead + rest);
    StripAppend(lead, rest);
    StripOfSpaces("-");
  }

  lemma {:induction false} TrimHyphenBefore(s: string, t: string)
    requires AllSpace(s) && !AllSpace(t)
    ensures TrimSpace(s + "-" + t) == "-" + (LeadingSpace(t) + TrimRightSpace(TrimLeftSpace(t)))
  {
    TrimLeftParts(t);
    assert s + "-" + t == s + ("-" + t);
    TrimLeftOfSum(s, "-" + t);
    assert TrimLeftSpace("-" + t) == "-" + t by { assert ("-" + t)[0] == '-'; }
    TrimRightOfSum("-", t);
    TrimRightOfSum(LeadingSpace(t), TrimLeftSpace(t));
  }

  /** A hyphen behind the text keeps its trailing white space. */
  lemma {:induction false} HyphenBehind(s: string, t: string)
    requires !AllSpace(s) && AllSpace(t)
    ensures Kept(s + "-" + t) == Kept(s + t) + StripSeparators(TrailingSpace(s))
  {
    var left, tail := TrimLeftSpace(s), TrailingSpace(s);
    TrimHyphenBehind(s, t);
    TrimLeftOfSum(s, t);
    TrimRightOfSum(left, t);
    TrailingOfTrimmed(s);
    StripAppend(left, "-");
    StripOfSpaces("-");
    StripAppend(TrimRightSpace(left), tail);
  }

  lemma {:induction false} TrimHyphenBehind(s: string, t: string)
    requires !AllSpace(s) && AllSpace(t)
    ensures TrimSpace(s + "-" + t) == TrimLeftSpace(s) + "-"
  {
    var left := TrimLeftSpace(s);
    assert s + "-" + t == s + ("-" + t);
    TrimLeftOfSum(s, "-" + t);
    assert left + ("-" + t) == (left + "-") + t;
    TrimRightOfSum(left + "-", t);
    assert (left + "-")[|left|] == '-';
  }

  lemma {:induction false} AroundBlank(s: string, t: string, sep: char)
    requires IsSeparator(sep) && AllSpace(s) && AllSpace(t)
    ensures Kept(s + [sep] + t) == "" == Kept(s + t)
  {
    if sep == ' ' {
      BlankKept(s + [sep] + t);
    } else {
      assert s + [sep] + t == s + ([sep] + t);
      TrimLeftOfSum(s, [sep] + t);
      TrimRightOfSum([sep], t);
      StripOfSpaces([sep]);
    }
    BlankKept(s + t);
  }

  lemma {:induction false} BlankKept(s: string)
    requires AllSpace(s)
    ensures Kept(s) == ""
  {
    TrimLeftParts(s);
  }

  lemma {:induction false} SpaceBesideBlank(s: string, t: string)
    requires AllSpace(s) || AllSpace(t)
    ensures TrimSpace(s + " " + t) == TrimSpace(s + t)
  {
    if AllSpace(s) {
      assert AllSpace(s + " ");
      TrimLeftOfSum(s + " ", t);
      TrimLeftOfSum(s, t);
    } else {
      assert AllSpace(" " + t);
      assert s + " " + t == s + (" " + t);
      TrimLeftOfSum(s, " " + t);
      TrimLeftOfSum(s, t);
      TrimRightOfSum(TrimLeftSpace(s), " " + t);
      TrimRightOfSum(TrimLeftSpace(s), t);
    }
  }

  /** A separator put anywhere is invisible, for every input, exactly unless it
      is a hyphen that shields outer white space from trimming. */
  lemma {:induction false} SeparatorInsertion(s: string, t: string, sep: char)
    requires IsSeparator(sep)
    ensures Normalize(s + [sep] + t) == Normalize(s + t)
            <==> sep == ' ' || !(ShieldsLeft(s, t) || ShieldsRight(s, t))
  {
    NormalizeIsCanonical(s + [sep] + t);
    NormalizeIsCanonical(s + t);
    if !AllSpace(s) && !AllSpace(t) {
      InsideKept(s, t, sep);
    } else if AllSpace(s) && AllSpace(t) {
      AroundBlank(s, t, sep);
    } else if sep == ' ' {
      SpaceBesideBlank(s, t);
    } else {
      HyphenShields(s, t);
    }
  }

  lemma {:induction false} HyphenShields(s: string, t: string)
    requires AllSpace(s) != AllSpace(t)
    ensures Read(Kept(s + "-" + t)) == Read(Kept(s + t)) <==> !(ShieldsLeft(s, t) || ShieldsRight(s, t))
  {
    var w := if AllSpace(s) then LeadingSpace(t) else TrailingSpace(s);
    if AllSpace(s) {
      TrimLeftParts(t);
      HyphenBefore(s, t);
    } else {
      TrimRightParts(s);
      HyphenBehind(s, t);
    }
    StripWhite(w);
    if !Plain(w) {
      WhiteShowsBefore(StripSeparators(w), Kept(s + t));
      WhiteShowsBehind(StripSeparators(w), Kept(s + t));
    } else {
      assert StripSeparators(w) == "";
      assert Kept(s + "-" + t) == Kept(s + t);
    }
  }

  /** Such a hyphen: outer white space is trimmed before hyphens go, so a tab
      behind one stays. */
  lemma {:induction false} TabShieldedByHyphen()
    ensures Normalize("\tA") != Normalize("-\tA")
  {
    var t := "\tA";
    assert AllSpace("") && !AllSpace(t) by { assert t[1] == 'A'; }
    assert TrimLeftSpace(t) == "A" by { assert t[1..] == "A"; }
    assert LeadingSpace(t)[0] == '\t';
    SeparatorInsertion("", t, '-');
    assert "" + ['-'] + t == "-\tA" && "" + t == t;
  }

  // ----- round trip ------------------------------------------------------

  /** A character of the alphabet stands for itself. */
  lemma {:induction false} CrockfordIsCanonical(q: nat)
    requires q < 32
    ensures Canon(CROCKFORD[q]) == CROCKFORD[q]
    ensures !IsSeparator(CROCKFORD[q]) && !IsSpace(CROCKFORD[q])
  {
  }

  function DigitValue(c: char): int {
    if c <= '9' then c as int - '0' as int
    else if c <= 'H' then c as int - 'A' as int + 10
    else if c <= 'K' then c as int - 'J' as int + 18
    else if c <= 'N' then c as int - 'M' as int + 20
    else if c <= 'T' then c as int - 'P' as int + 22
    else c as int - 'V' as int + 27
  }

  lemma {:induction false} CrockfordInjective(q: nat)
    requires q < 32
    ensures DigitValue(CROCKFORD[q]) == q
  {
  }

  lemma {:induction false} BodyIsCanonical(d: Draw)
    ensures Map(Canon, Body(d)) == Body(d)
    ensures NoSeparators(Body(d))
  {
    forall j | 0 <= j < 25
      ensures Canon(Body(d)[j]) == Body(d)[j]
      ensures !IsSeparator(Body(d)[j]) && !IsSpace(Body(d)[j])
    {
      CrockfordIsCanonical(Quintet(d, j));
    }
  }

  lemma {:induction false} StripNothing(s: string)
    requires forall i :: 0 <= i < |s| ==> !IsSeparator(s[i])
    ensures StripSeparators(s) == s
  {
    if s != "" {
      StripNothing(s[1..]);
      assert s == [s[0]] + s[1..];
    }
  }

  predicate NoSeparators(s: string) {
    forall i :: 0 <= i < |s| ==> !IsSeparator(s[i]) && !IsSpace(s[i])
  }

  lemma {:induction false} StripHyphened(head: string, tail: string)
    requires forall i :: 0 <= i < |head| ==> !IsSeparator(head[i])
    ensures StripSeparators(head + "-" + tail) == head + StripSeparators(tail)
  {
    StripNothing(head);
    StripAppend(head + "-", tail);
    StripAppend(head, "-");
    StripOfSpaces("-");
  }

  lemma {:induction false} StripGroups(s: string)
    requires |s| % 5 == 0 && NoSeparators(s)
    ensures StripSeparators(Join(Groups(s), "-")) == s
  {
    if s != "" {
      var head, rest := s[..5], s[5..];
      StripGroups(rest);
      StripNothing(head);
      assert Groups(s)[1..] == Groups(rest);
      assert s == head + rest;
      if rest != "" {
        assert Join(Groups(s), "-") == head + "-" + Join(Groups(rest), "-");
        StripHyphened(head, Join(Groups(rest), "-"));
      }
    }
  }

  lemma {:induction false} JoinEnds(groups: seq<string>)
    requires groups != [] && forall i :: 0 <= i < |groups| ==> groups[i] != "" && NoSeparators(groups[i])
    ensures Join(groups, "-") != "" && !IsSpace(Join(groups, "-")[|Join(groups, "-")| - 1])
  {
    if |groups| > 1 {
      JoinEnds(groups[1..]);
    }
  }

  lemma {:induction false} GroupsOfBody(s: string)
    requires |s| % 5 == 0 && NoSeparators(s)
    ensures forall i :: 0 <= i < |Groups(s)| ==> Groups(s)[i] != "" && NoSeparators(Groups(s)[i])
  {
    if s != "" {
      GroupsOfBody(s[5..]);
    }
  }

  lemma {:induction false} StripCode(d: Draw)
    ensures TrimSpace(Code(d)) == Code(d)
    ensures StripSeparators(Code(d)) == BARE_PREFIX + Body(d)
  {
    BodyIsCanonical(d);
    GroupsOfBody(Body(d));
    JoinEnds(Groups(Body(d)));
    assert Code(d)[0] == 'm';
    StripGroups(Body(d));
    StripNothing(BARE_PREFIX);
    StripOfSpaces("-");
    StripAppend(BARE_PREFIX, "-");
    StripAppend(PREFIX, Join(Groups(Body(d)), "-"));
  }

  /** Normalising a printed code gives back its 25-character body. */
  lemma {:induction false} NormalizeCode(d: Draw)
    ensures Normalize(Code(d)) == Body(d)
  {
    StripCode(d);
    NormalizeIsCanonical(Code(d));
    BodyIsCanonical(d);
    var canon := Map(Canon, BARE_PREFIX + Body(d));
    assert canon == Map(Canon, BARE_PREFIX) + Map(Canon, Body(d));
    assert Map(Canon, BARE_PREFIX) == "MCP";
    assert canon[3..] == Body(d);
  }

  /** Typing the body without its prefix works exactly when the body does not
      itself begin with the letters of the prefix. */
  lemma {:induction false} BodyAloneNormalizes(d: Draw)
    ensures Normalize(Body(d)) == Body(d) <==> !HasPrefix(Body(d), "MCP")
  {
    BodyIsCanonical(d);
    StripNothing(Body(d));
    NormalizeIsCanonical(Body(d));
    assert TrimSpace(Body(d)) == Body(d);
  }

  /** ... and such bodies are drawn: this one begins with MCP. */
  lemma {:induction false} SomeBodyStartsWithPrefix()
    ensures exists d: Draw :: HasPrefix(Body(d), "MCP")
  {
    var d: Draw := [0xA3, 0x2C] + seq(14, _ => 0);
    SpellsMCP(d);
    assert Body(d)[..3] == "MCP";
  }

  lemma {:induction false} SpellsMCP(d: Draw)
    requires d[0] == 0xA3 && d[1] == 0x2C
    ensures CROCKFORD[Quintet(d, 0)] == 'M' && CROCKFORD[Quintet(d, 1)] == 'C' && CROCKFORD[Quintet(d, 2)] == 'P'
  {
    assert Quintet(d, 0) == 20;
    assert Quintet(d, 1) == 12;
    assert Quintet(d, 2) == 22;
  }

  /** Two draws agree on their first 125 bits. */
  ghost predicate SameLeadingBits(a: Draw, b: Draw) {
    forall i :: 0 <= i < 125 ==> Bit(a, i) == Bit(b, i)
  }

  lemma {:induction false} QuintetBits(a: Draw, b: Draw, j: nat)
    requires j < 25 && Quintet(a, j) == Quintet(b, j)
    ensures forall k :: 5 * j <= k < 5 * j + 5 ==> Bit(a, k) == Bit(b, k)
  {
    assert Bit(a, 5 * j + 4) == Bit(b, 5 * j + 4);
    assert Bit(a, 5 * j + 3) == Bit(b, 5 * j + 3);
    assert Bit(a, 5 * j + 2) == Bit(b, 5 * j + 2);
    assert Bit(a, 5 * j + 1) == Bit(b, 5 * j + 1);
  }

  lemma {:induction false} BodyDeterminesBits(a: Draw, b: Draw)
    ensures Body(a) == Body(b) <==> SameLeadingBits(a, b)
  {
    if Body(a) == Body(b) {
      forall i | 0 <= i < 125 ensures Bit(a, i) == Bit(b, i) {
        var j := i / 5;
        assert Body(a)[j] == Body(b)[j];
        CrockfordInjective(Quintet(a, j));
        CrockfordInjective(Quintet(b, j));
        QuintetBits(a, b, j);
      }
    }
    if SameLeadingBits(a, b) {
      forall j | 0 <= j < 25 ensures Body(a)[j] == Body(b)[j] {
        assert Quintet(a, j) == Quintet(b, j);
      }
    }
  }

  /** Two draws print the same code exactly when their first 125 bits agree. */
  lemma {:induction false} CodeDeterminesBits(a: Draw, b: Draw)
    ensures Code(a) == Code(b) <==> SameLeadingBits(a, b)
    ensures Code(a) == Code(b) <==> Normalize(Code(a)) == Normalize(Code(b))
  {
    NormalizeCode(a);
    NormalizeCode(b);
    BodyDeterminesBits(a, b);
  }

  /** Exactly the blank inputs, and those that keep nothing but a prefix,
      normalise to nothing; they match no printed code. */
  lemma {:induction false} BlankMatchesNothing(s: string, d: Draw)
    ensures Normalize(s) == "" <==> Kept(s) == "" || Map(Canon, Kept(s)) == "MCP"
    ensures AllSpace(s) ==> Normalize(s) == ""
    ensures Normalize(s) == "" ==> Normalize(s) != Normalize(Code(d))
  {
    NormalizeIsCanonical(s);
    NormalizeCode(d);
    TrimLeftParts(s);
    var canon := Map(Canon, Kept(s));
    if "MCP" <= canon && canon[3..] == "" {
      assert canon == "MCP" + canon[3..];
    }
  }
}
