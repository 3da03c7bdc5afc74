/** Cleaning the text of a book (normalize and truncateAtRune, internal/books/pdf.go). `normalize` gets what
    Go's range sees of a string, characters and invalid bytes; `truncateAtRune` works on bytes. */
module BookText {
  // ----- strings.ReplaceAll and strings.Contains -----

  function ReplaceAll<T(==)>(s: seq<T>, from: seq<T>, to: seq<T>): seq<T>
    requires from != []
  {
    if |s| < |from| then s
    else if s[..|from|] == from then to + ReplaceAll(s[|from|..], from, to)
    else [s[0]] + ReplaceAll(s[1..], from, to)
  }

  predicate At(s: string, sub: string, i: nat) { i <= |s| - |sub| && s[i..i + |sub|] == sub }

  predicate Contains(s: string, sub: string) { exists i: nat | i <= |s| :: At(s, sub, i) }

  function Times(c: char, n: nat): (r: string)
    ensures |r| == n && forall i :: 0 <= i < n ==> r[i] == c
  {
    seq(n, i => c)
  }

  // ----- Runs of one character -----

  /** One pass that keeps at most m in a row; `run` of them are before s. */
  function Cap(s: string, c: char, m: nat, run: nat): string {
    if s == [] then []
    else if s[0] != c then [s[0]] + Cap(s[1..], c, m, 0)
    else if run < m then [c] + Cap(s[1..], c, m, run + 1)
    else Cap(s[1..], c, m, run)
  }

  /** Never more than m in a row. */
  predicate Short(s: string, c: char, m: nat, run: nat) {
    s == [] || (if s[0] == c then run < m && Short(s[1..], c, m, run + 1) else Short(s[1..], c, m, 0))
  }

  lemma {:induction false} CapIsShort(s: string, c: char, m: nat, run: nat)
    requires run <= m
    ensures Short(Cap(s, c, m, run), c, m, run)
    ensures Cap(s, c, m, run) == s <==> Short(s, c, m, run)
    ensures |Cap(s, c, m, run)| <= |s|
    decreases |s|
  {
    if s != [] {
      if s[0] != c {
        CapIsShort(s[1..], c, m, 0);
        assert s == [s[0]] + s[1..];
      } else if run < m {
        CapIsShort(s[1..], c, m, run + 1);
        assert s == [c] + s[1..];
      } else {
        CapIsShort(s[1..], c, m, run);
      }
    }
  }

  lemma {:induction false} CapBlock(n: nat, t: string, c: char, m: nat, run: nat)
    requires run <= m <= run + n
    ensures Cap(Times(c, n) + t, c, m, run) == Times(c, m - run) + Cap(t, c, m, m)
    decreases n
  {
    var s := Times(c, n) + t;
    if n == 0 {
      assert s == t;
      assert Times(c, 0) + Cap(t, c, m, m) == Cap(t, c, m, m);
    } else {
      assert s[0] == c && s[1..] == Times(c, n - 1) + t;
      if run < m {
        CapBlock(n - 1, t, c, m, run + 1);
        assert [c] + Times(c, m - run - 1) == Times(c, m - run);
      } else {
        CapBlock(n - 1, t, c, m, run);
      }
    }
  }

  /** One round of replacing m + 1 in a row by m changes nothing that the single pass would see. */
  lemma {:induction false} ReplacingKeepsCap(s: string, c: char, m: nat, run: nat)
    requires run <= m
    ensures Cap(ReplaceAll(s, Times(c, m + 1), Times(c, m)), c, m, run) == Cap(s, c, m, run)
    decreases |s|
  {
    var from, to := Times(c, m + 1), Times(c, m);
    if |s| >= m + 1 {
      if s[..m + 1] == from {
        var t := s[m + 1..];
        assert s == from + t;
        ReplacingKeepsCap(t, c, m, m);
        CapBlock(m + 1, t, c, m, run);
        CapBlock(m, ReplaceAll(t, from, to), c, m, run);
      } else {
        ReplacingKeepsCap(s[1..], c, m, if s[0] != c then 0 else if run < m then run + 1 else run);
        var r := ReplaceAll(s, from, to);
        assert r[0] == s[0] && r[1..] == ReplaceAll(s[1..], from, to);
      }
    }
  }

  lemma {:induction false} ReplacingShortens(s: string, c: char, m: nat)
    ensures var r := ReplaceAll(s, Times(c, m + 1), Times(c, m));
            |r| <= |s| && (Contains(s, Times(c, m + 1)) ==> |r| < |s|)
    decreases |s|
  {
    var from := Times(c, m + 1);
    if |s| >= m + 1 {
      if s[..m + 1] == from {
        ReplacingShortens(s[m + 1..], c, m);
      } else {
        ReplacingShortens(s[1..], c, m);
        if Contains(s, from) {
          var i: nat :| i <= |s| && At(s, from, i);
          assert s[1..][i - 1..i - 1 + |from|] == s[i..i + |from|];
          assert At(s[1..], from, i - 1);
        }
      }
    }
  }

  /** A text has too long a run exactly if it contains one of m + 1. */
  lemma {:induction false} ShortMeansNotContained(s: string, c: char, m: nat, run: nat)
    requires run <= m
    ensures Short(s, c, m, run) <==> !Contains(Times(c, run) + s, Times(c, m + 1))
    decreases |s|
  {
    var all, from := Times(c, run) + s, Times(c, m + 1);
    if s == [] {
      assert all == Times(c, run);
      assert |from| > |all|;
    } else if s[0] == c {
      assert Times(c, run + 1) + s[1..] == all;
      if run < m {
        ShortMeansNotContained(s[1..], c, m, run + 1);
      } else {
        assert all[..m + 1] == from;
        assert At(all, from, 0);
      }
    } else {
      ShortMeansNotContained(s[1..], c, m, 0);
      BreakInTheRun(s, c, m, run);
    }
  }

  lemma CharInside(s: string, c: char, n: nat, i: nat, p: nat)
    requires At(s, Times(c, n), i) && i <= p < i + n
    ensures p < |s| && s[p] == c
  {
    assert s[i..i + n][p - i] == s[p];
  }

  lemma BreakInTheRun(s: string, c: char, m: nat, run: nat)
    requires run <= m && s != [] && s[0] != c
    ensures Contains(Times(c, run) + s, Times(c, m + 1)) <==> Contains(Times(c, 0) + s[1..], Times(c, m + 1))
  {
    assert Times(c, 0) + s[1..] == s[1..];
    if Contains(Times(c, run) + s, Times(c, m + 1)) {
      FoundBehind(s, c, m, run);
    }
    if Contains(s[1..], Times(c, m + 1)) {
      FoundBefore(s, c, m, run);
    }
  }

  lemma FoundBehind(s: string, c: char, m: nat, run: nat)
    requires run <= m && s != [] && s[0] != c && Contains(Times(c, run) + s, Times(c, m + 1))
    ensures Contains(s[1..], Times(c, m + 1))
  {
    var all, from, rest := Times(c, run) + s, Times(c, m + 1), s[1..];
    var i: nat :| i <= |all| && At(all, from, i);
    if i <= run {
      CharInside(all, c, m + 1, i, run);
      assert false;
    }
    var j := i - run - 1;
    assert rest[j..j + |from|] == all[i..i + |from|];
    assert At(rest, from, j);
  }

  lemma FoundBefore(s: string, c: char, m: nat, run: nat)
    requires s != [] && Contains(s[1..], Times(c, m + 1))
    ensures Contains(Times(c, run) + s, Times(c, m + 1))
  {
    var all, from, rest := Times(c, run) + s, Times(c, m + 1), s[1..];
    var j: nat :| j <= |rest| && At(rest, from, j);
    var i := j + run + 1;
    assert all[i..i + |from|] == rest[j..j + |from|];
    assert At(all, from, i);
  }

  /** Replacing again and again until nothing is left to replace comes to what one pass would do. */
  method Squeeze(text: string, c: char, m: nat) returns (s: string)
    ensures s == Cap(text, c, m, 0)
  {
    s := text;
    var from, to := Times(c, m + 1), Times(c, m);
    while Contains(s, from)
      invariant Cap(s, c, m, 0) == Cap(text, c, m, 0)
      decreases |s|
    {
      ReplacingShortens(s, c, m);
      ReplacingKeepsCap(s, c, m, 0);
      s := ReplaceAll(s, from, to);
    }
    assert Times(c, 0) + s == s;
    ShortMeansNotContained(s, c, m, 0);
    CapIsShort(s, c, m, 0);
  }

  // ----- Cleaning -----

  const CR: char := '\r'
  const LF: char := '\n'
  const TAB: char := '\t'
  const END_OF_MEDIUM: char := '\U{19}'
  const DELETE: char := '\U{7F}'

  predicate Control(c: char) { c < ' ' || c == DELETE }

  /** A character, or a byte that is none. */
  datatype Unit = Rune(c: char) | Invalid

  const REPLACEMENT: char := '\U{FFFD}'

  function Runes(s: string): seq<Unit> { seq(|s|, i requires 0 <= i < |s| => Rune(s[i])) }

  /** strings.Map: a control character is dropped, and an invalid byte becomes the replacement character. */
  function Cleaned(s: seq<Unit>): string {
    if s == [] then []
    else
      var rest := Cleaned(s[1..]);
      match s[0]
      case Invalid => [REPLACEMENT] + rest
      case Rune(c) => if Control(c) && c != LF && c != TAB then rest else [c] + rest
  }

  function Singles(s: seq<Unit>): seq<Unit> {
    ReplaceAll(ReplaceAll(s, [Rune(CR)], [Rune(LF)]), [Rune(END_OF_MEDIUM)], [Rune('\'')])
  }

  function Replaced(s: seq<Unit>): seq<Unit> {
    Singles(ReplaceAll(s, [Rune(CR), Rune(LF)], [Rune(LF)]))
  }

  function Normalized(s: seq<Unit>): string { Cap(Cap(Cleaned(Replaced(s)), LF, 2, 0), ' ', 1, 0) }

  /** strings.ToValidUTF8 finds nothing to remove after strings.Map, so it is left out. */
  method Normalize(text: seq<Unit>) returns (s: string)
    ensures s == Normalized(text)
  {
    var t := ReplaceAll(text, [Rune(CR), Rune(LF)], [Rune(LF)]);
    t := ReplaceAll(t, [Rune(CR)], [Rune(LF)]);
    t := ReplaceAll(t, [Rune(END_OF_MEDIUM)], [Rune('\'')]);
    s := Cleaned(t);
    s := Squeeze(s, LF, 2);
    s := Squeeze(s, ' ', 1);
  }

  /** One pass: a line end for CR LF, CR and LF, an apostrophe for END_OF_MEDIUM, the replacement character for an
      invalid byte, nothing for other control characters but tabs, and all else as it is. */
  function OnePass(s: seq<Unit>): string {
    if s == [] then []
    else
      var rest := OnePass(s[1..]);
      match s[0]
      case Invalid => [REPLACEMENT] + rest
      case Rune(c) =>
        if c == CR && |s| > 1 && s[1] == Rune(LF) then rest
        else if c == CR then [LF] + rest
        else if c == END_OF_MEDIUM then ['\''] + rest
        else if Control(c) && c != LF && c != TAB then rest
        else [c] + rest
  }

  lemma ReplaceOne(s: seq<Unit>, a: Unit, b: Unit)
    requires s != []
    ensures ReplaceAll(s, [a], [b]) == [if s[0] == a then b else s[0]] + ReplaceAll(s[1..], [a], [b])
  {
    assert s[..1] == [s[0]];
  }

  /** What becomes of one more unit in front. */
  lemma OneMoreUnit(x: Unit, rest: seq<Unit>)
    ensures var y := if x == Rune(CR) then Rune(LF) else if x == Rune(END_OF_MEDIUM) then Rune('\'') else x;
            Cleaned(Singles([x] + rest)) == Cleaned([y]) + Cleaned(Singles(rest))
  {
    var s := [x] + rest;
    ReplaceOne(s, Rune(CR), Rune(LF));
    assert s[1..] == rest;
    var t := ReplaceAll(s, [Rune(CR)], [Rune(LF)]);
    ReplaceOne(t, Rune(END_OF_MEDIUM), Rune('\''));
    assert t[1..] == ReplaceAll(rest, [Rune(CR)], [Rune(LF)]);
    assert Singles(s)[1..] == Singles(rest);
  }

  /** The three replacements and the map come to that pass. */
  lemma {:induction false} OnePassIsEnough(s: seq<Unit>)
    ensures Cleaned(Replaced(s)) == OnePass(s)
    decreases |s|
  {
    var from, to := [Rune(CR), Rune(LF)], [Rune(LF)];
    if s != [] {
      var pairs := ReplaceAll(s, from, to);
      assert Replaced(s) == Singles(pairs);
      if |s| >= 2 && s[..2] == from {
        OnePassIsEnough(s[2..]);
        assert s[1..][1..] == s[2..] && s[0] == Rune(CR) && s[1] == Rune(LF);
        OneMoreUnit(Rune(LF), ReplaceAll(s[2..], from, to));
      } else {
        OnePassIsEnough(s[1..]);
        assert |s| >= 2 ==> s[..2] == [s[0], s[1]];
        assert pairs == [s[0]] + ReplaceAll(s[1..], from, to);
        OneMoreUnit(s[0], ReplaceAll(s[1..], from, to));
      }
    }
  }

  predicate Printable(s: string) { forall i :: 0 <= i < |s| ==> !Control(s[i]) || s[i] == LF || s[i] == TAB }

  /** Nothing to clean: no control characters but line ends and tabs, no two empty lines and no two spaces
      in a row. */
  predicate Normal(s: string) { Printable(s) && Short(s, LF, 2, 0) && Short(s, ' ', 1, 0) }

  lemma {:induction false} CleanedIsPrintable(s: seq<Unit>)
    ensures Printable(Cleaned(s))
    decreases |s|
  {
    if s != [] {
      CleanedIsPrintable(s[1..]);
    }
  }

  lemma {:induction false} PrintableStays(s: string)
    requires Printable(s)
    ensures Cleaned(Runes(s)) == s
    decreases |s|
  {
    if s != [] {
      PrintableStays(s[1..]);
      assert Runes(s)[1..] == Runes(s[1..]);
      assert s == [s[0]] + s[1..];
    }
  }

  lemma {:induction false} NothingToReplace<T>(s: seq<T>, from: seq<T>, to: seq<T>)
    requires from != [] && from[0] !in s
    ensures ReplaceAll(s, from, to) == s
    decreases |s|
  {
    if |s| >= |from| {
      assert s[..|from|][0] == s[0];
      NothingToReplace(s[1..], from, to);
      assert s == [s[0]] + s[1..];
    }
  }

  lemma {:induction false} CapIsPrintable(s: string, c: char, m: nat, run: nat)
    requires Printable(s)
    ensures Printable(Cap(s, c, m, run))
    decreases |s|
  {
    if s != [] {
      CapIsPrintable(s[1..], c, m, if s[0] != c then 0 else if run < m then run + 1 else run);
    }
  }

  /** Dropping spaces brings no line ends together: one space always stays. */
  lemma {:induction false} SpacesStayBetween(s: string, lines: nat, spaces: nat)
    requires Short(s, LF, 2, lines) && spaces <= 1 && (spaces > 0 ==> lines == 0)
    ensures Short(Cap(s, ' ', 1, spaces), LF, 2, lines)
    decreases |s|
  {
    if s != [] {
      if s[0] != ' ' {
        SpacesStayBetween(s[1..], if s[0] == LF then lines + 1 else 0, 0);
      } else {
        SpacesStayBetween(s[1..], 0, 1);
      }
    }
  }

  /** What comes out is normal. */
  lemma NormalizedIsNormal(s: seq<Unit>)
    ensures Normal(Normalized(s))
  {
    var plain := Cleaned(Replaced(s));
    var lines := Cap(plain, LF, 2, 0);
    CleanedIsPrintable(Replaced(s));
    CapIsPrintable(plain, LF, 2, 0);
    CapIsPrintable(lines, ' ', 1, 0);
    CapIsShort(plain, LF, 2, 0);
    CapIsShort(lines, ' ', 1, 0);
    SpacesStayBetween(lines, 0, 0);
  }

  /** Normal texts, and no others, are left alone; so normalizing twice is normalizing once. */
  lemma NormalIsFixed(s: string, text: seq<Unit>)
    ensures Normalized(Runes(s)) == s <==> Normal(s)
    ensures Normalized(Runes(Normalized(text))) == Normalized(text)
  {
    NormalizedIsNormal(Runes(s));
    NormalizedIsNormal(text);
    NormalStays(Normalized(text));
    if Normal(s) {
      NormalStays(s);
    }
  }

  lemma NormalStays(s: string)
    requires Normal(s)
    ensures Normalized(Runes(s)) == s
  {
    assert CR !in s && END_OF_MEDIUM !in s;
    var r := Runes(s);
    assert Rune(CR) !in r && Rune(END_OF_MEDIUM) !in r;
    NothingToReplace(r, [Rune(CR), Rune(LF)], [Rune(LF)]);
    NothingToReplace(r, [Rune(CR)], [Rune(LF)]);
    NothingToReplace(r, [Rune(END_OF_MEDIUM)], [Rune('\'')]);
    PrintableStays(s);
    CapIsShort(s, LF, 2, 0);
    CapIsShort(s, ' ', 1, 0);
  }

  // ----- Invalid bytes -----

  function Count<T(==)>(s: seq<T>, x: T): nat {
    if s == [] then 0 else (if s[0] == x then 1 else 0) + Count(s[1..], x)
  }

  lemma {:induction false} CountOfBoth<T>(a: seq<T>, b: seq<T>, x: T)
    ensures Count(a + b, x) == Count(a, x) + Count(b, x)
    decreases |a|
  {
    if a == [] {
      assert a + b == b;
    } else {
      CountOfBoth(a[1..], b, x);
      assert (a + b)[1..] == a[1..] + b;
    }
  }

  lemma {:induction false} CountOfNone<T>(s: seq<T>, x: T)
    requires x !in s
    ensures Count(s, x) == 0
    decreases |s|
  {
    if s != [] {
      CountOfNone(s[1..], x);
    }
  }

  lemma {:induction false} ReplacingSpares<T>(s: seq<T>, from: seq<T>, to: seq<T>, x: T)
    requires from != [] && x !in from && x !in to
    ensures Count(ReplaceAll(s, from, to), x) == Count(s, x)
    decreases |s|
  {
    if |s| >= |from| {
      if s[..|from|] == from {
        ReplacingSpares(s[|from|..], from, to, x);
        CountOfBoth(to, ReplaceAll(s[|from|..], from, to), x);
        CountOfBoth(from, s[|from|..], x);
        CountOfNone(from, x);
        CountOfNone(to, x);
        assert s == from + s[|from|..];
      } else {
        ReplacingSpares(s[1..], from, to, x);
        CountOfBoth([s[0]], ReplaceAll(s[1..], from, to), x);
      }
    }
  }

  lemma {:induction false} CappingSpares(s: string, c: char, m: nat, run: nat, x: char)
    requires x != c
    ensures Count(Cap(s, c, m, run), x) == Count(s, x)
    decreases |s|
  {
    if s != [] {
      CappingSpares(s[1..], c, m, if s[0] != c then 0 else if run < m then run + 1 else run, x);
    }
  }

  lemma {:induction false} CleaningReplaces(s: seq<Unit>)
    ensures Count(Cleaned(s), REPLACEMENT) == Count(s, Invalid) + Count(s, Rune(REPLACEMENT))
    decreases |s|
  {
    if s != [] {
      CleaningReplaces(s[1..]);
    }
  }

  lemma ReplacedSpares(s: seq<Unit>, x: Unit)
    requires x != Rune(CR) && x != Rune(LF) && x != Rune(END_OF_MEDIUM) && x != Rune('\'')
    ensures Count(Replaced(s), x) == Count(s, x)
  {
    var a := ReplaceAll(s, [Rune(CR), Rune(LF)], [Rune(LF)]);
    var b := ReplaceAll(a, [Rune(CR)], [Rune(LF)]);
    ReplacingSpares(s, [Rune(CR), Rune(LF)], [Rune(LF)], x);
    ReplacingSpares(a, [Rune(CR)], [Rune(LF)], x);
    ReplacingSpares(b, [Rune(END_OF_MEDIUM)], [Rune('\'')], x);
  }

  /** Invalid bytes are not removed: every single one shows up as a replacement character. */
  lemma InvalidBytesAreKept(text: seq<Unit>)
    ensures Count(Normalized(text), REPLACEMENT) == Count(text, Invalid) + Count(text, Rune(REPLACEMENT))
  {
    var clean := Cleaned(Replaced(text));
    CappingSpares(Cap(clean, LF, 2, 0), ' ', 1, 0, REPLACEMENT);
    CappingSpares(clean, LF, 2, 0, REPLACEMENT);
    CleaningReplaces(Replaced(text));
    ReplacedSpares(text, Invalid);
    ReplacedSpares(text, Rune(REPLACEMENT));
  }

  // ----- Cutting -----

  newtype byte = x: int | 0 <= x < 256

  /** The two high bits are not 10. */
  predicate IsRuneStart(b: byte) { (b as int) / 64 != 2 }

  /** The bytes of one character: a start and what continues it. */
  predicate IsRune(r: seq<byte>) {
    r != [] && IsRuneStart(r[0]) && forall i :: 1 <= i < |r| ==> !IsRuneStart(r[i])
  }

  ghost predicate AllRunes(rs: seq<seq<byte>>) { forall i :: 0 <= i < |rs| ==> IsRune(rs[i]) }

  function Join(rs: seq<seq<byte>>): seq<byte> {
    if rs == [] then [] else rs[0] + Join(rs[1..])
  }

  /** How many of the first characters fit in n bytes. */
  function Fitting(rs: seq<seq<byte>>, n: nat): (k: nat)
    ensures k <= |rs|
  {
    if rs == [] || |rs[0]| > n then 0 else 1 + Fitting(rs[1..], n - |rs[0]|)
  }

  /** The last place up to the limit at which a character starts, or else the beginning. */
  function CutAt(s: seq<byte>, limit: nat): (n: nat)
    requires limit < |s|
    ensures n <= limit && (n == 0 || IsRuneStart(s[n]))
    ensures forall i :: n < i <= limit ==> !IsRuneStart(s[i])
  {
    if limit == 0 || IsRuneStart(s[limit]) then limit else CutAt(s, limit - 1)
  }

  method TruncateAtRune(s: seq<byte>, limit: nat) returns (r: seq<byte>)
    ensures |s| <= limit ==> r == s
    ensures |s| > limit ==> |r| <= limit && r == s[..|r|] && (|r| == 0 || IsRuneStart(s[|r|]))
    ensures |s| > limit ==> forall i :: |r| < i <= limit ==> !IsRuneStart(s[i])
    ensures r == Truncated(s, limit)
  {
    if |s| <= limit {
      return s;
    }
    var n := limit;
    while n > 0 && !IsRuneStart(s[n])
      invariant 0 <= n <= limit && CutAt(s, n) == CutAt(s, limit)
      decreases n
    {
      n := n - 1;
    }
    r := s[..n];
  }

  function Truncated(s: seq<byte>, limit: nat): seq<byte> {
    if |s| <= limit then s else s[..CutAt(s, limit)]
  }

  /** Of a text exactly the first characters that fit are kept, never a part of one. */
  lemma KeepsWholeCharacters(s: seq<byte>, limit: nat, rs: seq<seq<byte>>)
    requires AllRunes(rs) && s == Join(rs)
    ensures Truncated(s, limit) == Join(rs[..Fitting(rs, limit)])
  {
    if |s| <= limit {
      AllFit(rs, limit);
      assert rs[..|rs|] == rs;
    } else {
      CutBelow(rs, limit);
      assert CutAt(s, limit) == |Join(rs[..Fitting(rs, limit)])|;
    }
  }

  lemma {:induction false} AllFit(rs: seq<seq<byte>>, n: nat)
    requires |Join(rs)| <= n
    ensures Fitting(rs, n) == |rs|
  {
    if rs != [] {
      AllFit(rs[1..], n - |rs[0]|);
    }
  }

  /** Behind the characters that fit, the next one starts, and nothing starts from there to the limit. */
  lemma {:induction false} CutBelow(rs: seq<seq<byte>>, n: nat)
    requires AllRunes(rs) && n < |Join(rs)|
    ensures var cut := |Join(rs[..Fitting(rs, n)])|;
            && cut <= n
            && Join(rs[..Fitting(rs, n)]) == Join(rs)[..cut]
            && IsRuneStart(Join(rs)[cut])
            && forall i :: cut < i <= n ==> !IsRuneStart(Join(rs)[i])
  {
    var s := Join(rs);
    if |rs[0]| > n {
      assert forall i :: 0 <= i <= n ==> s[i] == rs[0][i];
    } else {
      var k := Fitting(rs[1..], n - |rs[0]|);
      CutBelow(rs[1..], n - |rs[0]|);
      assert rs[..k + 1] == [rs[0]] + rs[1..][..k];
      assert rs[..k + 1][1..] == rs[1..][..k];
    }
  }
}
