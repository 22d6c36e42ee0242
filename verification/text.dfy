/** The handful of Python `str` operations the pipeline relies on, over ASCII:
    case mapping, `strip`, `in`, `startswith`/`endswith`, `split('\n')`,
    `sep.join(...)` and `str(n)` for naturals. */
module Text {

  /** Characters `str.isspace()` accepts below 0x80. */
  predicate IsSpace(c: char) {
    c == ' ' || ('\t' <= c <= '\r') || ('\U{1C}' <= c <= '\U{1F}')
  }

  function LowerChar(c: char): char {
    if 'A' <= c <= 'Z' then (c as int + 32) as char else c
  }

  function UpperChar(c: char): char {
    if 'a' <= c <= 'z' then (c as int - 32) as char else c
  }

  /** `s.lower()` restricted to ASCII letters. */
  function Lower(s: string): (r: string)
    ensures |r| == |s|
    ensures forall i :: 0 <= i < |s| ==> r[i] == LowerChar(s[i])
  {
    seq(|s|, i requires 0 <= i < |s| => LowerChar(s[i]))
  }

  /** `s.upper()` restricted to ASCII letters. */
  function Upper(s: string): (r: string)
    ensures |r| == |s|
    ensures forall i :: 0 <= i < |s| ==> r[i] == UpperChar(s[i])
  {
    seq(|s|, i requires 0 <= i < |s| => UpperChar(s[i]))
  }

  lemma LowerAppend(a: string, b: string)
    ensures Lower(a + b) == Lower(a) + Lower(b)
  {
    assert forall i :: 0 <= i < |a + b| ==> Lower(a + b)[i] == (Lower(a) + Lower(b))[i];
  }

  /** `p` occurs in `s` starting at index `i`. */
  predicate OccursAt(s: string, p: string, i: int) {
    0 <= i && i + |p| <= |s| && s[i..i + |p|] == p
  }

  /** Python's substring test `p in s`. */
  predicate Contains(s: string, p: string) {
    exists i :: 0 <= i <= |s| && OccursAt(s, p, i)
  }

  predicate StartsWith(s: string, p: string) {
    OccursAt(s, p, 0)
  }

  predicate EndsWith(s: string, p: string) {
    |p| <= |s| && OccursAt(s, p, |s| - |p|)
  }

  /** An occurrence inside an occurrence is an occurrence. */
  lemma ContainsTransitive(a: string, b: string, c: string)
    requires Contains(a, b) && Contains(b, c)
    ensures Contains(a, c)
  {
    var i :| 0 <= i <= |a| && OccursAt(a, b, i);
    var j :| 0 <= j <= |b| && OccursAt(b, c, j);
    assert forall k :: 0 <= k < |c| ==> a[i + j + k] == b[j + k] == c[k];
    assert OccursAt(a, c, i + j);
  }

  /** An occurrence in the tail of a string is one in the whole string. */
  lemma ContainsInSuffix(pre: string, s: string, p: string)
    requires Contains(s, p)
    ensures Contains(pre + s, p)
  {
    var i :| 0 <= i <= |s| && OccursAt(s, p, i);
    assert (pre + s)[|pre| + i..|pre| + i + |p|] == s[i..i + |p|];
    assert OccursAt(pre + s, p, |pre| + i);
  }

  /** An occurrence in the head of a string is one in the whole string. */
  lemma ContainsInPrefix(s: string, post: string, p: string)
    requires Contains(s, p)
    ensures Contains(s + post, p)
  {
    var i :| 0 <= i <= |s| && OccursAt(s, p, i);
    assert (s + post)[i..i + |p|] == s[i..i + |p|];
    assert OccursAt(s + post, p, i);
  }

  /** Without the first character of `p`, `s` cannot contain `p`. */
  lemma NotContainsWithoutHead(s: string, p: string)
    requires |p| > 0
    requires forall i :: 0 <= i < |s| ==> s[i] != p[0]
    ensures !Contains(s, p)
  {
    forall i | 0 <= i <= |s|
      ensures !OccursAt(s, p, i)
    {
      if i + |p| <= |s| {
        assert s[i..i + |p|][0] == s[i];
      }
    }
  }

  /** `a + g + b` contains `p` only where `a` or `b` does, when no
      occurrence can start inside the glue `g` and none can run into it. */
  lemma NotContainsAcross(a: string, g: string, b: string, p: string)
    requires |p| > 0 && |g| > 0
    requires forall i :: 0 <= i < |g| ==> g[i] != p[0]
    requires forall i :: 0 <= i < |p| ==> p[i] != g[0]
    requires !Contains(a, p) && !Contains(b, p)
    ensures !Contains(a + g + b, p)
  {
    var s := a + g + b;
    forall i | 0 <= i <= |s|
      ensures !OccursAt(s, p, i)
    {
      if i + |p| > |s| {
      } else if i + |p| <= |a| {
        assert s[i..i + |p|] == a[i..i + |p|];
        assert !OccursAt(a, p, i);
      } else if i < |a| {
        assert s[i..i + |p|][|a| - i] == g[0];
      } else if i < |a| + |g| {
        assert s[i..i + |p|][0] == g[i - |a|];
      } else {
        var j := i - |a| - |g|;
        assert s[i..i + |p|] == b[j..j + |p|];
        assert !OccursAt(b, p, j);
      }
    }
  }

  // The trimming functions state only their size: their other properties
  // are lemmas, called where needed, so that every mention of a trimmed
  // string does not bring them all into scope.

  /** Drops leading characters while `drop` holds. */
  function TrimStart(s: string, drop: char -> bool): (r: string)
    ensures |r| <= |s|
    decreases |s|
  {
    if |s| > 0 && drop(s[0]) then TrimStart(s[1..], drop) else s
  }

  /** What `TrimStart` keeps is a suffix that does not start with a dropped
      character, and everything before it was dropped. */
  lemma {:induction false} TrimStartFacts(s: string, drop: char -> bool)
    ensures var r := TrimStart(s, drop);
      && r == s[|s| - |r|..]
      && (|r| > 0 ==> !drop(r[0]))
      && (forall i :: 0 <= i < |s| - |r| ==> drop(s[i]))
    decreases |s|
  {
    if |s| > 0 && drop(s[0]) {
      TrimStartFacts(s[1..], drop);
      var r := TrimStart(s[1..], drop);
      forall i | 0 <= i < |s| - |r| ensures drop(s[i]) {
        if i > 0 {
          assert s[i] == s[1..][i - 1];
        }
      }
    }
  }

  /** Drops trailing characters while `drop` holds. */
  function TrimEnd(s: string, drop: char -> bool): (r: string)
    ensures |r| <= |s|
    decreases |s|
  {
    if |s| > 0 && drop(s[|s| - 1]) then TrimEnd(s[..|s| - 1], drop) else s
  }

  /** What `TrimEnd` keeps is a prefix that does not end with a dropped
      character, and everything after it was dropped. */
  lemma {:induction false} TrimEndFacts(s: string, drop: char -> bool)
    ensures var r := TrimEnd(s, drop);
      && r == s[..|r|]
      && (|r| > 0 ==> !drop(r[|r| - 1]))
      && (forall i :: |r| <= i < |s| ==> drop(s[i]))
    decreases |s|
  {
    if |s| > 0 && drop(s[|s| - 1]) {
      TrimEndFacts(s[..|s| - 1], drop);
      var r := TrimEnd(s[..|s| - 1], drop);
      forall i | |r| <= i < |s| ensures drop(s[i]) {
        if i < |s| - 1 {
          assert s[i] == s[..|s| - 1][i];
        }
      }
    }
  }

  /** `s.strip(chars)`, with the characters given as a predicate. */
  function Trim(s: string, drop: char -> bool): (r: string)
    ensures |r| <= |s|
  {
    TrimEnd(TrimStart(s, drop), drop)
  }

  /** The trim is the longest middle part of `s` that neither starts nor
      ends with a dropped character: it is empty exactly when every
      character is dropped. */
  lemma TrimFacts(s: string, drop: char -> bool)
    ensures var r := Trim(s, drop);
      && OccursAt(s, r, |s| - |TrimStart(s, drop)|)
      && (|r| > 0 ==> !drop(r[0]) && !drop(r[|r| - 1]))
      && (|r| == 0 <==> forall i :: 0 <= i < |s| ==> drop(s[i]))
  {
    var t := TrimStart(s, drop);
    var r := TrimEnd(t, drop);
    TrimStartFacts(s, drop);
    TrimEndFacts(t, drop);
    assert s[|s| - |t|..|s| - |t| + |r|] == t[..|r|];
    if |r| == 0 {
      assert |t| == 0;
    } else {
      assert r[0] == t[0] == s[|s| - |t|];
    }
  }

  /** `s.strip()`. */
  function Strip(s: string): (r: string)
    ensures |r| <= |s|
  {
    Trim(s, IsSpace)
  }

  /** `strip()` gives the empty string exactly for all-whitespace text, and
      otherwise neither starts nor ends with whitespace. */
  lemma StripFacts(s: string)
    ensures |Strip(s)| == 0 <==> forall i :: 0 <= i < |s| ==> IsSpace(s[i])
    ensures |Strip(s)| > 0 ==> !IsSpace(Strip(s)[0]) && !IsSpace(Strip(s)[|Strip(s)| - 1])
  {
    TrimFacts(s, IsSpace);
  }

  /** What `strip()` keeps is a piece of the original. */
  lemma StripContained(s: string)
    ensures Contains(s, Strip(s))
  {
    TrimFacts(s, IsSpace);
    assert OccursAt(s, Strip(s), |s| - |TrimStart(s, IsSpace)|);
  }

  /** Dropped characters in front change nothing. */
  lemma {:induction false} TrimStartPrefix(p: string, s: string, drop: char -> bool)
    requires forall i :: 0 <= i < |p| ==> drop(p[i])
    ensures TrimStart(p + s, drop) == TrimStart(s, drop)
    decreases |p|
  {
    if |p| > 0 {
      assert (p + s)[0] == p[0];
      assert (p + s)[1..] == p[1..] + s;
      TrimStartPrefix(p[1..], s, drop);
    } else {
      assert p + s == s;
    }
  }

  /** Stripping an indented line gives the line without its indentation. */
  lemma StripIndented(p: string, s: string)
    requires forall i :: 0 <= i < |p| ==> IsSpace(p[i])
    requires |s| > 0 && !IsSpace(s[0]) && !IsSpace(s[|s| - 1])
    ensures Strip(p + s) == s
  {
    TrimStartPrefix(p, s, IsSpace);
  }

  /** A string that neither starts nor ends with a dropped character is its own trim. */
  lemma TrimUnchanged(s: string, drop: char -> bool)
    requires |s| > 0 ==> !drop(s[0]) && !drop(s[|s| - 1])
    ensures Trim(s, drop) == s
  {
  }

  /** `s.split('\n')`: always at least one piece, and no piece holds a newline. */
  function Split(s: string): (r: seq<string>)
    ensures |r| >= 1
  {
    if |s| == 0 then [""]
    else
      var rest := Split(s[1..]);
      if s[0] == '\n' then [""] + rest
      else [[s[0]] + rest[0]] + rest[1..]
  }

  /** No piece of a split holds the separator. */
  lemma {:induction false} SplitLines(s: string)
    ensures forall i :: 0 <= i < |Split(s)| ==> '\n' !in Split(s)[i]
  {
    if |s| > 0 {
      SplitLines(s[1..]);
      var rest := Split(s[1..]);
      if s[0] != '\n' {
        assert forall i :: 1 <= i < |Split(s)| ==> Split(s)[i] == rest[i];
      }
    }
  }

  /** `sep.join(xs)`. */
  function JoinWith(xs: seq<string>, sep: string): string {
    if |xs| == 0 then ""
    else if |xs| == 1 then xs[0]
    else xs[0] + sep + JoinWith(xs[1..], sep)
  }

  /** `'\n'.join(xs)`. */
  function Join(xs: seq<string>): string {
    JoinWith(xs, "\n")
  }

  lemma JoinCons(x: string, xs: seq<string>)
    requires |xs| > 0
    ensures Join([x] + xs) == x + "\n" + Join(xs)
  {
    assert ([x] + xs)[1..] == xs;
  }

  /** The pieces of each string, one after another. */
  function SplitAll(xs: seq<string>): seq<string> {
    if |xs| == 0 then [] else Split(xs[0]) + SplitAll(xs[1..])
  }

  lemma SplitAllAppend(xs: seq<string>, ys: seq<string>)
    ensures SplitAll(xs + ys) == SplitAll(xs) + SplitAll(ys)
  {
    if |xs| > 0 {
      calc {
        SplitAll(xs + ys);
        { assert (xs + ys)[0] == xs[0]; assert (xs + ys)[1..] == xs[1..] + ys; }
        Split(xs[0]) + SplitAll(xs[1..] + ys);
        { SplitAllAppend(xs[1..], ys); }
        Split(xs[0]) + (SplitAll(xs[1..]) + SplitAll(ys));
      }
    } else {
      assert xs + ys == ys;
    }
  }

  lemma SplitWithoutNewline(s: string)
    requires '\n' !in s
    ensures Split(s) == [s]
  {
    if |s| > 0 {
      assert '\n' !in s[1..];
      SplitWithoutNewline(s[1..]);
      assert [s[0]] + s[1..] == s;
    }
  }

  /** Splitting at a newline splits the two sides independently. */
  lemma {:induction false} SplitAppend(a: string, b: string)
    ensures Split(a + "\n" + b) == Split(a) + Split(b)
  {
    if |a| == 0 {
      assert a + "\n" + b == ['\n'] + b;
      SplitCons('\n', b);
    } else {
      SplitAppend(a[1..], b);
      assert a + "\n" + b == [a[0]] + (a[1..] + "\n" + b);
      assert a == [a[0]] + a[1..];
      SplitAppendStep(a[0], a[1..], b);
    }
  }

  /** The inductive step of `SplitAppend`: one more character in front. */
  lemma SplitAppendStep(c: char, u: string, v: string)
    requires Split(u + "\n" + v) == Split(u) + Split(v)
    ensures Split([c] + (u + "\n" + v)) == Split([c] + u) + Split(v)
  {
    SplitCons(c, u + "\n" + v);
    SplitCons(c, u);
    if c == '\n' {
      ConsAppend("", Split(u), Split(v));
    } else {
      HeadJoinAppend([c], Split(u), Split(v));
    }
  }

  lemma ConsAppend(h: string, xs: seq<string>, ys: seq<string>)
    ensures [h] + (xs + ys) == ([h] + xs) + ys
  {
  }

  lemma SplitCons(c: char, t: string)
    ensures Split([c] + t) ==
      if c == '\n' then [""] + Split(t) else [[c] + Split(t)[0]] + Split(t)[1..]
  {
    assert ([c] + t)[1..] == t;
  }

  lemma HeadJoinAppend(h: string, xs: seq<string>, ys: seq<string>)
    requires |xs| >= 1
    ensures [h + (xs + ys)[0]] + (xs + ys)[1..] == ([h + xs[0]] + xs[1..]) + ys
  {
    assert (xs + ys)[1..] == xs[1..] + ys;
  }

  /** Joining the pieces of a split gives back the text. */
  lemma {:induction false} JoinSplit(s: string)
    ensures Join(Split(s)) == s
  {
    if |s| > 0 {
      JoinSplit(s[1..]);
      var rest := Split(s[1..]);
      if s[0] == '\n' {
        assert ([""] + rest)[1..] == rest;
        assert s == "\n" + s[1..];
      } else if |rest| == 1 {
        assert s == [s[0]] + s[1..];
      } else {
        var head := [s[0]] + rest[0];
        assert ([head] + rest[1..])[1..] == rest[1..];
        assert Join(rest) == rest[0] + "\n" + Join(rest[1..]);
        assert s == [s[0]] + s[1..];
      }
    }
  }

  /** Splitting a join splits every joined piece. */
  lemma {:induction false} SplitJoin(xs: seq<string>)
    requires |xs| >= 1
    ensures Split(Join(xs)) == SplitAll(xs)
  {
    if |xs| > 1 {
      SplitJoin(xs[1..]);
      SplitAppend(xs[0], Join(xs[1..]));
    }
  }

  /** Lines without newlines survive a join followed by a split. */
  lemma SplitJoinLines(xs: seq<string>)
    requires |xs| >= 1
    requires forall i :: 0 <= i < |xs| ==> '\n' !in xs[i]
    ensures Split(Join(xs)) == xs
  {
    SplitJoin(xs);
    SplitAllOfLines(xs);
  }

  lemma {:induction false} SplitAllOfLines(xs: seq<string>)
    requires forall i :: 0 <= i < |xs| ==> '\n' !in xs[i]
    ensures SplitAll(xs) == xs
  {
    if |xs| > 0 {
      SplitWithoutNewline(xs[0]);
      SplitAllOfLines(xs[1..]);
    }
  }

  /** Every piece of a split occurs in the split text; the first one at its start. */
  lemma {:induction false} SplitPiecesOccur(s: string)
    ensures StartsWith(s, Split(s)[0])
    ensures forall i :: 0 <= i < |Split(s)| ==> Contains(s, Split(s)[i])
  {
    if |s| > 0 {
      SplitPiecesOccur(s[1..]);
      var rest := Split(s[1..]);
      var r := Split(s);
      assert s == [s[0]] + s[1..];
      forall i | 0 <= i < |r| ensures Contains(s, r[i]) {
        if s[0] == '\n' {
          if i == 0 {
            assert OccursAt(s, r[0], 0);
          } else {
            assert r[i] == rest[i - 1];
            ContainsInSuffix([s[0]], s[1..], r[i]);
          }
        } else {
          if i == 0 {
            assert s[..|r[0]|] == [s[0]] + s[1..][..|rest[0]|];
            assert OccursAt(s, r[0], 0);
          } else {
            assert r[i] == rest[i];
            ContainsInSuffix([s[0]], s[1..], r[i]);
          }
        }
      }
      if s[0] != '\n' {
        assert s[..|r[0]|] == [s[0]] + s[1..][..|rest[0]|];
      }
    } else {
      assert OccursAt(s, Split(s)[0], 0);
    }
  }

  function DigitChar(d: nat): char
    requires d < 10
  {
    ('0' as int + d) as char
  }

  /** `str(n)` for a natural number: decimal, no leading zeros. */
  function NatToString(n: nat): (r: string)
    ensures 1 <= |r|
    ensures |r| == 1 <==> n < 10
    ensures forall i :: 0 <= i < |r| ==> '0' <= r[i] <= '9'
  {
    if n < 10 then [DigitChar(n)] else NatToString(n / 10) + [DigitChar(n % 10)]
  }

  /** Different numbers print differently. */
  lemma {:induction false} NatToStringInjective(a: nat, b: nat)
    requires NatToString(a) == NatToString(b)
    ensures a == b
  {
    if a >= 10 && b >= 10 {
      var sa := NatToString(a);
      var sb := NatToString(b);
      assert sa[..|sa| - 1] == NatToString(a / 10);
      assert sb[..|sb| - 1] == NatToString(b / 10);
      assert DigitChar(a % 10) == sa[|sa| - 1] == sb[|sb| - 1] == DigitChar(b % 10);
      NatToStringInjective(a / 10, b / 10);
    } else if a < 10 && b < 10 {
      assert DigitChar(a) == NatToString(a)[0] == NatToString(b)[0] == DigitChar(b);
    }
  }
}
