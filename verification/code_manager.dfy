/** Turning an agent's markdown-like reply into a file map, and back.

    `ExtractCodeBlocks` is a line scanner: a line that cleans up to a file
    name, followed (past blank lines) by a fence line, names the block whose
    lines run up to the first line that trims to a bare fence.  When no such
    pair yields anything, every fenced block of the whole text is taken under
    a numbered placeholder name.  `FormatCodeForPrompt` lays a map out in the
    same name / fence / content / fence shape, so the two round-trip. */
module CodeManager {
  import opened Options
  import opened Text
  import opened OrderedMaps

  /** File name to full file content, in first-insertion order. */
  type FileMap = OrderedMap<string>

  const Fence := "```"

  /** Label prefixes removed from a candidate name line, tried once each, in this order. */
  const Labels: seq<string> := ["FILENAME:", "File:", "Filename:", "##", "**"]

  const Extensions: seq<string> :=
    [".py", ".js", ".ts", ".java", ".cpp", ".c", ".h", ".html", ".css", ".json",
     ".yaml", ".yml", ".md", ".sh", ".bat", ".ps1", ".txt"]

  /** Language tags the placeholder pass accepts right after an opening fence. */
  const FenceTags: seq<string> :=
    ["python", "javascript", "typescript", "java", "cpp", "c", "html", "css", "json",
     "yaml", "bash", "shell", "plaintext"]

  const NoFilesMessage := "No code files available."

  /** Characters stripped from both ends of a candidate after the labels go. */
  predicate IsDecoration(c: char) {
    c == '*' || c == '#' || c == ':' || c == ' '
  }

  /** Characters deleted from a file name before it becomes a key. */
  predicate IsIllegal(c: char) {
    c == ':' || c == '*' || c == '?' || c == '"' || c == '<' || c == '>' || c == '|'
  }

  lemma OccursChars(s: string, r: string, a: int)
    requires OccursAt(s, r, a)
    ensures forall i :: 0 <= i < |r| ==> r[i] in s
  {
    forall i | 0 <= i < |r| ensures r[i] in s {
      assert r[i] == s[a + i];
    }
  }

  lemma ContainsChars(s: string, r: string)
    requires Contains(s, r)
    ensures forall i :: 0 <= i < |r| ==> r[i] in s
  {
    var a :| 0 <= a <= |s| && OccursAt(s, r, a);
    OccursChars(s, r, a);
  }

  /** Removes each label in turn when the text starts with it, ignoring case,
      and strips whitespace after each removal. */
  function StripLabels(s: string, labels: seq<string>): (r: string)
    ensures |r| <= |s|
    ensures forall i :: 0 <= i < |r| ==> r[i] in s
    ensures |labels| > 0 && StartsWith(Upper(s), Upper(labels[0])) ==> |r| <= |s| - |labels[0]|
    decreases |labels|
  {
    if |labels| == 0 then s
    else
      var next :=
        if StartsWith(Upper(s), Upper(labels[0])) then
          var t := Strip(s[|labels[0]|..]);
          StripContained(s[|labels[0]|..]);
          ContainsChars(s[|labels[0]|..], t);
          t
        else s;
      StripLabels(next, labels[1..])
  }

  /** The text a line stands for once whitespace, labels and decoration are gone. */
  function CleanLine(line: string): string {
    Trim(StripLabels(Strip(line), Labels), IsDecoration)
  }

  /** Cleaning only ever drops characters. */
  lemma CleanLineChars(line: string)
    ensures CharsFrom(CleanLine(line), line)
  {
    var stripped := Strip(line);
    StripChars(line);
    var unlabelled := StripLabels(stripped, Labels);
    TrimChars(unlabelled, IsDecoration);
    CharsFromTransitive(Trim(unlabelled, IsDecoration), unlabelled, line);
  }

  /** Every character of `r` occurs in `s`. */
  predicate CharsFrom(r: string, s: string) {
    forall i :: 0 <= i < |r| ==> r[i] in s
  }

  lemma CharsFromTransitive(a: string, b: string, c: string)
    requires CharsFrom(a, b) && CharsFrom(b, c)
    ensures CharsFrom(a, c)
  {
  }

  lemma StripChars(s: string)
    ensures CharsFrom(Strip(s), s)
  {
    StripContained(s);
    ContainsChars(s, Strip(s));
  }

  lemma TrimChars(s: string, drop: char -> bool)
    ensures CharsFrom(Trim(s, drop), s)
  {
    TrimFacts(s, drop);
    OccursChars(s, Trim(s, drop), |s| - |TrimStart(s, drop)|);
  }

  /** Ends, ignoring case, in one of the recognised extensions. */
  predicate HasExtension(name: string) {
    exists n :: 0 <= n < |Extensions| && EndsWith(Lower(name), Extensions[n])
  }

  /** The test a cleaned line must pass to name a block. */
  predicate IsFilename(c: string) {
    && |c| > 0
    && !StartsWith(c, Fence)
    && HasExtension(c)
    && ' ' !in c
    && |c| < 100
  }

  /** Deletes every illegal character. */
  function Sanitize(s: string): (r: string)
    ensures |r| <= |s|
    ensures forall i :: 0 <= i < |r| ==> !IsIllegal(r[i]) && r[i] in s
  {
    if |s| == 0 then ""
    else (if IsIllegal(s[0]) then "" else [s[0]]) + Sanitize(s[1..])
  }

  lemma {:induction false} SanitizeAppend(a: string, b: string)
    ensures Sanitize(a + b) == Sanitize(a) + Sanitize(b)
  {
    if |a| > 0 {
      SanitizeAppend(a[1..], b);
      assert a + b == [a[0]] + (a[1..] + b);
      assert a == [a[0]] + a[1..];
      SanitizeCons(a[0], a[1..] + b);
      SanitizeCons(a[0], a[1..]);
      var h := if IsIllegal(a[0]) then "" else [a[0]];
      AppendAssoc(h, Sanitize(a[1..]), Sanitize(b));
    } else {
      assert a + b == b;
    }
  }

  lemma SanitizeCons(c: char, t: string)
    ensures Sanitize([c] + t) == (if IsIllegal(c) then "" else [c]) + Sanitize(t)
  {
    assert ([c] + t)[1..] == t;
  }

  lemma AppendAssoc(x: string, y: string, z: string)
    ensures x + (y + z) == (x + y) + z
  {
  }

  lemma {:induction false} SanitizeKeeps(s: string)
    requires forall i :: 0 <= i < |s| ==> !IsIllegal(s[i])
    ensures Sanitize(s) == s
  {
    if |s| > 0 {
      SanitizeKeeps(s[1..]);
    }
  }

  /** What every key taken from a named block satisfies. */
  predicate NamedKey(k: string) {
    && |k| > 0
    && HasExtension(k)
    && ' ' !in k
    && '\n' !in k
    && |k| < 100
    && forall i :: 0 <= i < |k| ==> !IsIllegal(k[i])
  }

  /** Letters, digits and the dot: what extensions are made of. */
  predicate IsExtensionChar(c: char) {
    c == '.' || 'a' <= c <= 'z' || '0' <= c <= '9'
  }

  /** Every recognised extension is a dot and lower-case letters or digits. */
  lemma ExtensionPlain(n: nat)
    requires n < |Extensions|
    ensures |Extensions[n]| > 0
    ensures forall i :: 0 <= i < |Extensions[n]| ==> IsExtensionChar(Extensions[n][i])
  {
    if n < 9 {
      ExtensionsLow(n);
    } else {
      ExtensionsHigh(n);
    }
  }

  lemma ExtensionsLow(n: nat)
    requires n < 9
    ensures |Extensions[n]| > 0
    ensures forall i :: 0 <= i < |Extensions[n]| ==> IsExtensionChar(Extensions[n][i])
  {
  }

  lemma ExtensionsHigh(n: nat)
    requires 9 <= n < |Extensions|
    ensures |Extensions[n]| > 0
    ensures forall i :: 0 <= i < |Extensions[n]| ==> IsExtensionChar(Extensions[n][i])
  {
  }

  /** A string whose lower-case form is made of extension characters has no
      illegal character. */
  lemma LowersToExtensionLegal(b: string, e: string)
    requires Lower(b) == e
    requires forall i :: 0 <= i < |e| ==> IsExtensionChar(e[i])
    ensures forall i :: 0 <= i < |b| ==> !IsIllegal(b[i])
  {
    forall i | 0 <= i < |b| ensures !IsIllegal(b[i]) {
      assert LowerChar(b[i]) == e[i];
    }
  }

  /** Deleting illegal characters keeps a recognised extension, since no
      extension holds one. */
  lemma SanitizeKeepsExtension(c: string, e: string)
    requires forall i :: 0 <= i < |e| ==> IsExtensionChar(e[i])
    requires EndsWith(Lower(c), e)
    ensures EndsWith(Lower(Sanitize(c)), e)
  {
    var a, b := c[..|c| - |e|], c[|c| - |e|..];
    SplitLowerSuffix(c, e);
    LowersToExtensionLegal(b, e);
    SanitizeKeeps(b);
    SanitizeAppend(a, b);
    LowerAppend(Sanitize(a), b);
    EndsWithAppend(Lower(Sanitize(a)), e);
  }

  lemma SplitLowerSuffix(c: string, e: string)
    requires EndsWith(Lower(c), e)
    ensures c == c[..|c| - |e|] + c[|c| - |e|..]
    ensures Lower(c[|c| - |e|..]) == e
  {
    var n := |c| - |e|;
    var b := c[n..];
    forall i | 0 <= i < |e| ensures Lower(b)[i] == e[i] {
      assert b[i] == c[n + i];
      assert Lower(c)[n + i] == e[i];
    }
  }

  lemma EndsWithAppend(x: string, e: string)
    ensures EndsWith(x + e, e)
  {
    assert (x + e)[|x|..] == e;
  }

  lemma SanitizedName(name: string)
    requires IsFilename(name) && '\n' !in name
    ensures NamedKey(Sanitize(name))
  {
    var n :| 0 <= n < |Extensions| && EndsWith(Lower(name), Extensions[n]);
    var e := Extensions[n];
    ExtensionPlain(n);
    SanitizeKeepsExtension(name, e);
    var k := Sanitize(name);
    assert |k| > 0 by {
      assert |Lower(k)| >= |e|;
    }
    assert HasExtension(k);
  }

  /** Index of the first line that is not blank (or the length). */
  function FirstNonBlank(lines: seq<string>): (k: nat)
    ensures k <= |lines|
    ensures forall i :: 0 <= i < k ==> Strip(lines[i]) == ""
    ensures k < |lines| ==> Strip(lines[k]) != ""
    decreases |lines|
  {
    if |lines| == 0 || Strip(lines[0]) != "" then 0 else 1 + FirstNonBlank(lines[1..])
  }

  /** Index of the first line that trims to a bare fence (or the length):
      a block's content is exactly the lines before it. */
  function FirstClosingFence(lines: seq<string>): (k: nat)
    ensures k <= |lines|
    ensures forall i :: 0 <= i < k ==> !IsFenceLine(lines[i])
    ensures k < |lines| ==> IsFenceLine(lines[k])
    decreases |lines|
  {
    if |lines| == 0 || IsFenceLine(lines[0]) then 0
    else
      var k := FirstClosingFence(lines[1..]);
      assert k < |lines| - 1 ==> lines[1..][k] == lines[k + 1];
      1 + k
  }

  /** A line that trims to a bare fence: it closes a block. */
  predicate IsFenceLine(line: string) {
    Strip(line) == Fence
  }

  /** The key a line names, if it names a file at all. */
  function LineName(line: string): Option<string> {
    var name := CleanLine(line);
    if IsFilename(name) then Some(Sanitize(name)) else None
  }

  lemma NamedBlockKey(line: string)
    requires IsFilename(CleanLine(line)) && '\n' !in line
    ensures NamedKey(Sanitize(CleanLine(line)))
  {
    CleanLineChars(line);
    SanitizedName(CleanLine(line));
  }

  /** A block recognised at the head of the remaining lines: its key, its
      content, and the index of the line the scan resumes at. */
  datatype NamedBlock = NamedBlock(key: string, code: string, next: nat)

  /** Recognises a named block at `lines[0]`: the line names a file, the next
      non-blank line starts with a fence, and at least one line comes before
      the first closing fence.  The scan resumes after the closing fence, or
      at the end when the block is never closed.  The line classifier is a
      parameter so that the scan can be reasoned about apart from it. */
  function BlockAt(lines: seq<string>, nameOf: string -> Option<string>): (r: Option<NamedBlock>)
    requires |lines| > 0
    ensures r.Some? ==> 1 < r.value.next <= |lines|
    ensures r.Some? ==> nameOf(lines[0]) == Some(r.value.key)
  {
    match nameOf(lines[0])
    case None => None
    case Some(key) =>
      var rest := lines[1..];
      var j := FirstNonBlank(rest);
      if j == |rest| || !StartsWith(Strip(rest[j]), Fence) then None
      else
        var body := rest[j + 1..];
        var k := FirstClosingFence(body);
        if k == 0 then None
        else
          assert lines[j + 1] == rest[j];
          Some(NamedBlock(key, Join(body[..k]), if k < |body| then j + k + 3 else |lines|))
  }

  /** The classifier yields keys of the named-block kind. */
  ghost predicate NamesKeys(nameOf: string -> Option<string>) {
    forall line :: '\n' !in line && nameOf(line).Some? ==> NamedKey(nameOf(line).value)
  }

  lemma LineNameNamesKeys()
    ensures NamesKeys(LineName)
  {
    forall line | '\n' !in line && LineName(line).Some?
      ensures NamedKey(LineName(line).value)
    {
      NamedBlockKey(line);
    }
  }

  /** The named-block pass over the remaining lines.  A line that starts no
      block is skipped (so an empty block adds nothing and the scan goes on
      at the line after the name); a later block with the same key replaces
      the content in place. */
  function ScanNamed(lines: seq<string>, acc: FileMap, nameOf: string -> Option<string>): FileMap
    decreases |lines|
  {
    if |lines| == 0 then acc
    else match BlockAt(lines, nameOf)
      case None => ScanNamed(lines[1..], acc, nameOf)
      case Some(b) => ScanNamed(lines[b.next..], Put(acc, b.key, b.code), nameOf)
  }

  /** Keys from the named pass are unique and each is a sanitised file name. */
  lemma {:induction false} ScanNamedKeys(lines: seq<string>, acc: FileMap, nameOf: string -> Option<string>)
    requires forall i :: 0 <= i < |lines| ==> '\n' !in lines[i]
    requires UniqueKeys(acc) && NamesKeys(nameOf)
    ensures UniqueKeys(ScanNamed(lines, acc, nameOf))
    ensures forall k :: k in Keys(ScanNamed(lines, acc, nameOf)) ==> k in Keys(acc) || NamedKey(k)
    decreases |lines|
  {
    if |lines| > 0 {
      match BlockAt(lines, nameOf)
      case None =>
        ScanNamedKeys(lines[1..], acc, nameOf);
      case Some(b) =>
        var acc' := Put(acc, b.key, b.code);
        assert NamedKey(b.key) by {
          assert '\n' !in lines[0];
        }
        assert UniqueKeys(acc') by {
          PutUnique(acc, b.key, b.code);
        }
        assert forall k :: k in Keys(acc') ==> k in Keys(acc) || NamedKey(k) by {
          PutKeys(acc, b.key, b.code);
        }
        var rest := lines[b.next..];
        assert forall i :: 0 <= i < |rest| ==> '\n' !in rest[i] by {
          assert forall i :: 0 <= i < |rest| ==> rest[i] == lines[b.next + i];
        }
        ScanNamedKeys(rest, acc', nameOf);
    }
  }

  /** Where the block body starts when the opening fence ends at `q`: each
      tag is tried in order, then no tag, and the chosen one must be followed
      by a newline.  No two alternatives can both be followed by a newline, so
      the first that is decides the match. */
  function BodyStart(s: string, q: nat, tags: seq<string>): (r: Option<nat>)
    ensures r.Some? ==> q < r.value <= |s|
    decreases |tags|
  {
    if |tags| == 0 then
      if q < |s| && s[q] == '\n' then Some(q + 1) else None
    else if OccursAt(s, tags[0] + "\n", q) then Some(q + |tags[0]| + 1)
    else BodyStart(s, q, tags[1..])
  }

  /** The first occurrence of `p` at or after `from`. */
  function FindFrom(s: string, p: string, from: nat): (r: Option<nat>)
    ensures r.Some? ==> from <= r.value && OccursAt(s, p, r.value)
    ensures r.Some? ==> forall i :: from <= i < r.value ==> !OccursAt(s, p, i)
    ensures r.None? ==> forall i :: from <= i ==> !OccursAt(s, p, i)
    decreases |s| - from
  {
    if from + |p| > |s| then None
    else if OccursAt(s, p, from) then Some(from)
    else FindFrom(s, p, from + 1)
  }

  /** The body span `(b, e)` of a fenced block whose opening fence starts at `p`:
      a fence, an optional tag, a newline, then everything up to the next fence. */
  function FencedBlockAt(s: string, p: nat): (r: Option<(nat, nat)>)
    ensures r.Some? ==> p + 3 < r.value.0 <= r.value.1 && r.value.1 + 3 <= |s|
    ensures r.Some? ==> OccursAt(s, Fence, p) && OccursAt(s, Fence, r.value.1)
  {
    if !OccursAt(s, Fence, p) then None
    else match BodyStart(s, p + 3, FenceTags)
      case None => None
      case Some(b) =>
        match FindFrom(s, Fence, b)
        case None => None
        case Some(e) => Some((b, e))
  }

  /** The captured bodies of every fenced block, left to right, each search
      resuming where the previous block's closing fence ends. */
  function FencedBodies(s: string, p: nat): (r: seq<string>)
    ensures !Contains(s, Fence) ==> r == []
    decreases |s| - p
  {
    if p >= |s| then []
    else match FencedBlockAt(s, p)
      case None => FencedBodies(s, p + 1)
      case Some((b, e)) =>
        assert OccursAt(s, Fence, p);
        [s[b..e]] + FencedBodies(s, e + 3)
  }

  /** The placeholder name of the `k`-th fenced block (counting from 1). */
  function PlaceholderName(k: nat): string {
    "file_" + NatToString(k) + ".py"
  }

  lemma PlaceholderNameInjective(a: nat, b: nat)
    requires PlaceholderName(a) == PlaceholderName(b)
    ensures a == b
  {
    var na := NatToString(a);
    var nb := NatToString(b);
    assert |na| == |nb|;
    assert na == PlaceholderName(a)[5..5 + |na|];
    assert nb == PlaceholderName(b)[5..5 + |nb|];
    NatToStringInjective(a, b);
  }

  /** Names the stripped bodies `file_<k>.py`, `file_<k+1>.py`, ... and
      drops the empty ones (their numbers are skipped, not reused). */
  function NumberBlocks(codes: seq<string>, k: nat): (r: FileMap)
    ensures UniqueKeys(r)
    ensures forall i :: 0 <= i < |r| ==>
      exists j :: k <= j < k + |codes| && r[i].0 == PlaceholderName(j)
    ensures forall n :: k <= n < k + |codes| ==>
      Lookup(r, PlaceholderName(n)) == (if codes[n - k] == "" then None else Some(codes[n - k]))
    decreases |codes|
  {
    if |codes| == 0 then []
    else
      var tail := NumberBlocks(codes[1..], k + 1);
      NumberBlocksNames(codes, k, tail);
      NumberBlocksLookup(codes, k, tail);
      if codes[0] == "" then tail else [(PlaceholderName(k), codes[0])] + tail
  }

  /** Every name in the tail is numbered above `k`, so `k`'s name is new. */
  lemma NumberBlocksNames(codes: seq<string>, k: nat, tail: FileMap)
    requires |codes| > 0 && UniqueKeys(tail)
    requires forall i :: 0 <= i < |tail| ==>
      exists j :: k + 1 <= j < k + |codes| && tail[i].0 == PlaceholderName(j)
    ensures PlaceholderName(k) !in Keys(tail)
    ensures var r := if codes[0] == "" then tail else [(PlaceholderName(k), codes[0])] + tail;
      && UniqueKeys(r)
      && forall i :: 0 <= i < |r| ==>
           exists j :: k <= j < k + |codes| && r[i].0 == PlaceholderName(j)
  {
    KeysIndex(tail);
    if PlaceholderName(k) in Keys(tail) {
      var i :| 0 <= i < |tail| && tail[i].0 == PlaceholderName(k);
      var j :| k + 1 <= j < k + |codes| && tail[i].0 == PlaceholderName(j);
      PlaceholderNameInjective(k, j);
      assert false;
    }
    var r := if codes[0] == "" then tail else [(PlaceholderName(k), codes[0])] + tail;
    forall i | 0 <= i < |r|
      ensures exists j :: k <= j < k + |codes| && r[i].0 == PlaceholderName(j)
    {
      if codes[0] != "" && i == 0 {
        assert r[0].0 == PlaceholderName(k);
      } else {
        var t := if codes[0] == "" then i else i - 1;
        assert r[i] == tail[t];
        var j :| k + 1 <= j < k + |codes| && tail[t].0 == PlaceholderName(j);
        assert r[i].0 == PlaceholderName(j);
      }
    }
  }

  /** Placeholder keys whose numbers rise from one entry to the next. */
  ghost predicate Ascending(r: FileMap) {
    forall i, j, a: nat, b: nat :: 0 <= i < j < |r| && r[i].0 == PlaceholderName(a) && r[j].0 == PlaceholderName(b) ==> a < b
  }

  /** Placeholder names follow the block order: an earlier entry carries a
      smaller number. */
  lemma {:induction false} NumberBlocksOrder(codes: seq<string>, k: nat)
    ensures Ascending(NumberBlocks(codes, k))
    decreases |codes|
  {
    if |codes| > 0 {
      var tail := NumberBlocks(codes[1..], k + 1);
      NumberBlocksOrder(codes[1..], k + 1);
      if codes[0] != "" {
        AscendingCons(k, codes[0], tail, |codes| - 1);
      }
    }
  }

  /** Numbered `k`, an entry goes in front of entries numbered above `k`. */
  lemma AscendingCons(k: nat, code: string, tail: FileMap, m: nat)
    requires Ascending(tail)
    requires forall i :: 0 <= i < |tail| ==> exists j :: k + 1 <= j < k + 1 + m && tail[i].0 == PlaceholderName(j)
    ensures Ascending([(PlaceholderName(k), code)] + tail)
  {
    var r := [(PlaceholderName(k), code)] + tail;
    forall i, j, a: nat, b: nat | 0 <= i < j < |r| && r[i].0 == PlaceholderName(a) && r[j].0 == PlaceholderName(b)
      ensures a < b
    {
      assert r[j] == tail[j - 1];
      if i == 0 {
        PlaceholderNameInjective(a, k);
        var n :| k + 1 <= n < k + 1 + m && tail[j - 1].0 == PlaceholderName(n);
        PlaceholderNameInjective(b, n);
      } else {
        assert r[i] == tail[i - 1];
      }
    }
  }

  /** Looking a number up finds its stripped body, or nothing when it was empty. */
  lemma NumberBlocksLookup(codes: seq<string>, k: nat, tail: FileMap)
    requires |codes| > 0
    requires PlaceholderName(k) !in Keys(tail)
    requires forall n :: k + 1 <= n < k + |codes| ==>
      Lookup(tail, PlaceholderName(n)) == (if codes[1..][n - (k + 1)] == "" then None else Some(codes[1..][n - (k + 1)]))
    ensures var r := if codes[0] == "" then tail else [(PlaceholderName(k), codes[0])] + tail;
      forall n :: k <= n < k + |codes| ==>
        Lookup(r, PlaceholderName(n)) == (if codes[n - k] == "" then None else Some(codes[n - k]))
  {
    forall n | k <= n < k + |codes|
      ensures Lookup(if codes[0] == "" then tail else [(PlaceholderName(k), codes[0])] + tail,
                     PlaceholderName(n)) == (if codes[n - k] == "" then None else Some(codes[n - k]))
    {
      if n > k {
        assert codes[1..][n - (k + 1)] == codes[n - k];
        NumberLookupLater(codes[0], k, tail, n, if codes[n - k] == "" then None else Some(codes[n - k]));
      }
    }
  }

  lemma NumberLookupLater(code: string, k: nat, tail: FileMap, n: nat, expected: Option<string>)
    requires n > k && Lookup(tail, PlaceholderName(n)) == expected
    ensures Lookup(if code == "" then tail else [(PlaceholderName(k), code)] + tail,
                   PlaceholderName(n)) == expected
  {
    if code != "" {
      LookupCons(PlaceholderName(k), code, tail, PlaceholderName(n));
      if PlaceholderName(n) == PlaceholderName(k) {
        PlaceholderNameInjective(n, k);
      }
    }
  }

  /** Each body stripped of surrounding whitespace. */
  function StripEach(bodies: seq<string>): (r: seq<string>)
    ensures |r| == |bodies|
    ensures forall i :: 0 <= i < |bodies| ==> r[i] == Strip(bodies[i])
  {
    seq(|bodies|, i requires 0 <= i < |bodies| => Strip(bodies[i]))
  }

  /** The placeholder pass over the whole text. */
  function Fallback(text: string): FileMap {
    NumberBlocks(StripEach(FencedBodies(text, 0)), 1)
  }

  /** `extract_code_blocks`: the named-block pass, or the placeholder pass
      when the named pass found nothing. */
  function ExtractCodeBlocks(text: string): (r: FileMap)
    ensures UniqueKeys(r)
    ensures forall k :: k in Keys(r) ==>
      NamedKey(k) || exists j :: 1 <= j && k == PlaceholderName(j)
  {
    var named := ScanNamed(Split(text), [], LineName);
    LineNameNamesKeys();
    SplitLines(text);
    ScanNamedKeys(Split(text), [], LineName);
    if |named| > 0 then named
    else
      var r := Fallback(text);
      KeysIndex(r);
      forall k | k in Keys(r) ensures exists j :: 1 <= j && k == PlaceholderName(j) {
        var i :| 0 <= i < |r| && r[i].0 == k;
        var j :| 1 <= j < 1 + |StripEach(FencedBodies(text, 0))| && r[i].0 == PlaceholderName(j);
      }
      r
  }

  /** The five prompt lines of each entry, in map order. */
  function EntryLines(m: FileMap): (r: seq<string>)
    ensures |r| == 5 * |m|
    ensures |m| > 0 ==> r[|r| - 1] == ""
    decreases |m|
  {
    if |m| == 0 then [] else [m[0].0, Fence, m[0].1, Fence, ""] + EntryLines(m[1..])
  }

  /** `format_code_for_prompt`. */
  function FormatCodeForPrompt(m: FileMap): (r: string)
    ensures r == NoFilesMessage <==> |m| == 0
  {
    if |m| == 0 then NoFilesMessage
    else
      var lines := EntryLines(m);
      JoinEndsEmpty(lines);
      Join(lines)
  }

  lemma {:induction false} JoinEndsEmpty(xs: seq<string>)
    requires |xs| >= 2 && xs[|xs| - 1] == ""
    ensures |Join(xs)| > 0 && Join(xs)[|Join(xs)| - 1] == '\n'
  {
    assert Join(xs) == xs[0] + "\n" + JoinWith(xs[1..], "\n");
    if |xs| > 2 {
      JoinEndsEmpty(xs[1..]);
    } else {
      assert xs[1..] == [""];
    }
  }

  /** `validate_code_structure`: a non-empty map whose every content has a
      non-whitespace character. */
  function ValidateCodeStructure(m: FileMap): (r: bool)
    ensures r <==> |m| > 0 && forall i :: 0 <= i < |m| ==> HasContent(m[i].1)
  {
    StripEmptyIffBlank(m);
    |m| > 0 && forall i :: 0 <= i < |m| ==> Strip(m[i].1) != ""
  }

  /** Holds a character other than whitespace. */
  predicate HasContent(s: string) {
    exists j :: 0 <= j < |s| && !IsSpace(s[j])
  }

  lemma StripEmptyIffBlank(m: FileMap)
    ensures forall i :: 0 <= i < |m| ==> (Strip(m[i].1) != "" <==> HasContent(m[i].1))
  {
    forall i | 0 <= i < |m| ensures Strip(m[i].1) != "" <==> HasContent(m[i].1) {
      StripFacts(m[i].1);
    }
  }

  // ---------------------------------------------------------------------
  // Text without a fence yields no files.

  /** A block can only start where some later line holds a fence. */
  lemma BlockNeedsFence(lines: seq<string>, nameOf: string -> Option<string>)
    requires |lines| > 0 && BlockAt(lines, nameOf).Some?
    ensures exists i :: 0 < i < |lines| && Contains(lines[i], Fence)
  {
    var rest := lines[1..];
    var j := FirstNonBlank(rest);
    var line := rest[j];
    assert line == lines[j + 1];
    StripContained(line);
    assert OccursAt(Strip(line), Fence, 0);
    ContainsTransitive(line, Strip(line), Fence);
  }

  /** With no fence in any line, the named pass adds nothing. */
  lemma {:induction false} ScanWithoutFence(lines: seq<string>, acc: FileMap, nameOf: string -> Option<string>)
    requires forall i :: 0 <= i < |lines| ==> !Contains(lines[i], Fence)
    ensures ScanNamed(lines, acc, nameOf) == acc
    decreases |lines|
  {
    if |lines| > 0 {
      if BlockAt(lines, nameOf).Some? {
        BlockNeedsFence(lines, nameOf);
        assert false;
      }
      ScanWithoutFence(lines[1..], acc, nameOf);
    }
  }

  /** Text holding no fence gives an empty map: neither pass finds a block. */
  lemma NoFenceNoFiles(text: string)
    requires !Contains(text, Fence)
    ensures ExtractCodeBlocks(text) == []
  {
    var lines := Split(text);
    SplitPiecesOccur(text);
    forall i | 0 <= i < |lines| ensures !Contains(lines[i], Fence) {
      if Contains(lines[i], Fence) {
        ContainsTransitive(text, lines[i], Fence);
      }
    }
    ScanWithoutFence(lines, [], LineName);
  }

  // ---------------------------------------------------------------------
  // Formatting then extracting gives the map back.

  /** A key that reads back as itself when it stands alone on a line. */
  predicate ValidKey(k: string) {
    '\n' !in k && LineName(k) == Some(k)
  }

  /** Content none of whose lines would close a block early. */
  predicate FenceFree(c: string) {
    forall i :: 0 <= i < |Split(c)| ==> !IsFenceLine(Split(c)[i])
  }

  /** The maps `format_code_for_prompt` renders faithfully enough to be read back. */
  predicate Formattable(m: FileMap) {
    && UniqueKeys(m)
    && forall i :: 0 <= i < |m| ==> ValidKey(m[i].0) && FenceFree(m[i].1)
  }

  /** The lines of the formatted text, entry by entry. */
  function LayoutLines(m: FileMap): (r: seq<string>)
    decreases |m|
  {
    if |m| == 0 then []
    else [m[0].0, Fence] + Split(m[0].1) + [Fence, ""] + LayoutLines(m[1..])
  }

  lemma {:induction false} SplitEntryLines(m: FileMap)
    requires forall i :: 0 <= i < |m| ==> '\n' !in m[i].0
    ensures SplitAll(EntryLines(m)) == LayoutLines(m)
    decreases |m|
  {
    if |m| > 0 {
      var e := [m[0].0, Fence, m[0].1, Fence, ""];
      assert EntryLines(m) == e + EntryLines(m[1..]);
      SplitAllAppend(e, EntryLines(m[1..]));
      SplitAllEntry(m[0].0, m[0].1);
      SplitEntryLines(m[1..]);
    }
  }

  lemma SplitAllEntry(k: string, c: string)
    requires '\n' !in k
    ensures SplitAll([k, Fence, c, Fence, ""]) == [k, Fence] + Split(c) + [Fence, ""]
  {
    var head: seq<string> := [k, Fence];
    var last: seq<string> := [Fence, ""];
    assert [k, Fence, c, Fence, ""] == head + ([c] + last);
    assert SplitAll(head) == head by { SplitAllOfLines(head); }
    assert SplitAll(last) == last by { SplitAllOfLines(last); }
    SplitAllAround(head, c, last);
  }

  lemma SplitAllAround(head: seq<string>, c: string, last: seq<string>)
    requires SplitAll(head) == head && SplitAll(last) == last
    ensures SplitAll(head + ([c] + last)) == head + Split(c) + last
  {
    SplitAllAppend(head, [c] + last);
    SplitAllCons(c, last);
  }

  lemma SplitAllCons(x: string, xs: seq<string>)
    ensures SplitAll([x] + xs) == Split(x) + SplitAll(xs)
  {
    assert ([x] + xs)[1..] == xs;
  }

  lemma FenceStrips()
    ensures Strip(Fence) == Fence
  {
    TrimUnchanged(Fence, IsSpace);
  }

  lemma EmptyLineNamesNothing()
    ensures LineName("") == None
  {
    assert |Strip("")| == 0;
  }

  /** The first closing fence of `xs + ys` is at `|xs|` when `xs` has none and `ys` starts with one. */
  lemma {:induction false} FirstClosingFenceAfter(xs: seq<string>, ys: seq<string>)
    requires forall i :: 0 <= i < |xs| ==> !IsFenceLine(xs[i])
    requires |ys| > 0 && IsFenceLine(ys[0])
    ensures FirstClosingFence(xs + ys) == |xs|
    decreases |xs|
  {
    if |xs| > 0 {
      assert (xs + ys)[1..] == xs[1..] + ys;
      FirstClosingFenceAfter(xs[1..], ys);
    } else {
      assert xs + ys == ys;
    }
  }

  /** Past the name line, the blank lines before line `j` are skipped and
      line `j` is where the scan looks for an opening fence. */
  lemma {:induction false} BlanksThen(lines: seq<string>, j: nat)
    requires 1 <= j < |lines| && Strip(lines[j]) != ""
    requires forall i :: 1 <= i < j ==> Strip(lines[i]) == ""
    ensures FirstNonBlank(lines[1..]) == j - 1
  {
    var rest := lines[1..];
    assert forall i :: 0 <= i < |rest| ==> rest[i] == lines[i + 1];
    assert Strip(rest[j - 1]) != "";
  }

  /** A name line, blank lines, an opening fence with or without a language
      tag, and lines whose first bare closing fence comes `n` lines on form
      one named block: its content is exactly those `n` untrimmed lines
      joined, and the scan resumes after the closing fence. */
  lemma BlockAtEntry(lines: seq<string>, k: string, j: nat, n: nat, nameOf: string -> Option<string>)
    requires 1 <= j < |lines| && nameOf(lines[0]) == Some(k)
    requires forall i :: 1 <= i < j ==> Strip(lines[i]) == ""
    requires StartsWith(Strip(lines[j]), Fence)
    requires 0 < n < |lines| - j - 1 && FirstClosingFence(lines[j + 1..]) == n
    ensures BlockAt(lines, nameOf) == Some(NamedBlock(k, Join(lines[j + 1..j + 1 + n]), j + n + 2))
  {
    var rest := lines[1..];
    var body := rest[j..];
    assert FirstNonBlank(rest) == j - 1 by {
      BlanksThen(lines, j);
    }
    assert StartsWith(Strip(rest[j - 1]), Fence) by {
      assert rest[j - 1] == lines[j];
    }
    assert FirstClosingFence(body) == n && n < |body| by {
      assert body == lines[j + 1..];
    }
    assert body[..n] == lines[j + 1..j + 1 + n] by {
      forall i | 0 <= i < n ensures body[..n][i] == lines[j + 1..j + 1 + n][i] {
        assert body[i] == lines[j + 1 + i];
      }
    }
    BlockAtShape(lines, k, j - 1, n, nameOf);
  }

  /** `BlockAt` read off its parts: the blank run after the name line, the
      opening fence, and the first bare closing fence after it. */
  lemma BlockAtShape(lines: seq<string>, k: string, j: nat, n: nat, nameOf: string -> Option<string>)
    requires 1 < |lines| && nameOf(lines[0]) == Some(k)
    requires j < |lines| - 1 && FirstNonBlank(lines[1..]) == j
    requires StartsWith(Strip(lines[1..][j]), Fence)
    requires 0 < n < |lines[1..][j + 1..]| && FirstClosingFence(lines[1..][j + 1..]) == n
    ensures BlockAt(lines, nameOf) == Some(NamedBlock(k, Join(lines[1..][j + 1..][..n]), j + n + 3))
  {
  }

  /** A block whose closing fence never comes runs to the end of the text,
      and the scan resumes past the last line. */
  lemma UnclosedBlock(lines: seq<string>, k: string, j: nat, nameOf: string -> Option<string>)
    requires 1 <= j < |lines| - 1 && nameOf(lines[0]) == Some(k)
    requires forall i :: 1 <= i < j ==> Strip(lines[i]) == ""
    requires StartsWith(Strip(lines[j]), Fence)
    requires forall i :: j < i < |lines| ==> !IsFenceLine(lines[i])
    ensures BlockAt(lines, nameOf) == Some(NamedBlock(k, Join(lines[j + 1..]), |lines|))
  {
    BlanksThen(lines, j);
    var rest := lines[1..];
    assert rest[j - 1] == lines[j];
    var body := rest[j..];
    assert body == lines[j + 1..];
    assert forall i :: 0 <= i < |body| ==> body[i] == lines[i + j + 1];
    assert body[..|body|] == body;
  }

  /** An opening fence closed on the very next line holds no block: the name
      line starts nothing and the scan moves on by one line. */
  lemma EmptyBlock(lines: seq<string>, j: nat, nameOf: string -> Option<string>)
    requires 1 <= j < |lines| - 1 && nameOf(lines[0]).Some?
    requires forall i :: 1 <= i < j ==> Strip(lines[i]) == ""
    requires StartsWith(Strip(lines[j]), Fence)
    requires IsFenceLine(lines[j + 1])
    ensures BlockAt(lines, nameOf) == None
  {
    BlanksThen(lines, j);
    var rest := lines[1..];
    assert rest[j - 1] == lines[j];
    assert rest[j..][0] == lines[j + 1];
  }

  /** A name line whose next non-blank line is not an opening fence, or
      which only blank lines follow, starts no block. */
  lemma NoOpeningFence(lines: seq<string>, j: nat, nameOf: string -> Option<string>)
    requires 1 <= j <= |lines|
    requires forall i :: 1 <= i < j ==> Strip(lines[i]) == ""
    requires j < |lines| ==> Strip(lines[j]) != "" && !StartsWith(Strip(lines[j]), Fence)
    ensures BlockAt(lines, nameOf) == None
  {
    var rest := lines[1..];
    assert forall i :: 0 <= i < |rest| ==> rest[i] == lines[i + 1];
    if j < |lines| {
      BlanksThen(lines, j);
      assert rest[j - 1] == lines[j];
    } else {
      assert forall i :: 0 <= i < |rest| ==> Strip(rest[i]) == "";
    }
  }

  lemma ScanTakes(lines: seq<string>, acc: FileMap, nameOf: string -> Option<string>, b: NamedBlock)
    requires |lines| > 0 && BlockAt(lines, nameOf) == Some(b)
    ensures ScanNamed(lines, acc, nameOf) == ScanNamed(lines[b.next..], Put(acc, b.key, b.code), nameOf)
  {
  }

  lemma ScanSkips(lines: seq<string>, acc: FileMap, nameOf: string -> Option<string>)
    requires |lines| > 0 && BlockAt(lines, nameOf).None?
    ensures ScanNamed(lines, acc, nameOf) == ScanNamed(lines[1..], acc, nameOf)
  {
  }

  /** A name line, an opening fence, fence-free body lines and a closing
      fence form one block holding the joined body. */
  lemma LayoutBlock(k: string, c: string, body: seq<string>, rest: seq<string>, nameOf: string -> Option<string>)
    requires nameOf(k) == Some(k) && |body| > 0 && Join(body) == c
    requires forall i :: 0 <= i < |body| ==> !IsFenceLine(body[i])
    ensures BlockAt([k, Fence] + body + [Fence] + rest, nameOf)
         == Some(NamedBlock(k, c, |body| + 3))
  {
    var n := |body|;
    var lines := [k, Fence] + body + [Fence] + rest;
    assert lines[0] == k && lines[1] == Fence;
    assert lines[2..] == body + ([Fence] + rest);
    assert lines[2..2 + n] == body;
    assert FirstClosingFence(lines[2..]) == n by {
      FenceStrips();
      FirstClosingFenceAfter(body, [Fence] + rest);
    }
    FenceStrips();
    assert StartsWith(Strip(lines[1]), Fence) by {
      assert Fence[..|Fence|] == Fence;
    }
    BlockAtEntry(lines, k, 1, n, nameOf);
  }

  /** One formatted entry, blank separator line included, writes one entry. */
  lemma ScanEntry(k: string, c: string, body: seq<string>, tail: seq<string>, acc: FileMap,
                  nameOf: string -> Option<string>)
    requires nameOf(k) == Some(k) && nameOf("") == None
    requires |body| > 0 && Join(body) == c
    requires forall i :: 0 <= i < |body| ==> !IsFenceLine(body[i])
    ensures ScanNamed([k, Fence] + body + [Fence, ""] + tail, acc, nameOf)
         == ScanNamed(tail, Put(acc, k, c), nameOf)
  {
    var lines := [k, Fence] + body + [Fence, ""] + tail;
    var n := |body|;
    assert BlockAt(lines, nameOf) == Some(NamedBlock(k, c, n + 3)) by {
      assert lines == [k, Fence] + body + [Fence] + ([""] + tail);
      LayoutBlock(k, c, body, [""] + tail, nameOf);
    }
    assert lines[n + 3..] == [""] + tail;
    ScanStep(lines, acc, nameOf, NamedBlock(k, c, n + 3), tail);
  }

  lemma ScanStep(lines: seq<string>, acc: FileMap, nameOf: string -> Option<string>, b: NamedBlock, tail: seq<string>)
    requires |lines| > 0 && BlockAt(lines, nameOf) == Some(b)
    requires lines[b.next..] == [""] + tail && nameOf("") == None
    ensures ScanNamed(lines, acc, nameOf) == ScanNamed(tail, Put(acc, b.key, b.code), nameOf)
  {
    ScanTakes(lines, acc, nameOf, b);
    var after := lines[b.next..];
    ScanSkips(after, Put(acc, b.key, b.code), nameOf);
    assert after[1..] == tail;
  }

  /** The named pass over a formatted map writes its entries in order. */
  lemma {:induction false} ScanLayout(m: FileMap, acc: FileMap, nameOf: string -> Option<string>)
    requires forall i :: 0 <= i < |m| ==> nameOf(m[i].0) == Some(m[i].0) && FenceFree(m[i].1)
    requires nameOf("") == None
    ensures ScanNamed(LayoutLines(m), acc, nameOf) == Update(acc, m)
    decreases |m|
  {
    if |m| > 0 {
      JoinSplit(m[0].1);
      ScanEntry(m[0].0, m[0].1, Split(m[0].1), LayoutLines(m[1..]), acc, nameOf);
      ScanLayout(m[1..], Put(acc, m[0].0, m[0].1), nameOf);
    }
  }

  /** `extract_code_blocks(format_code_for_prompt(m)) == m` for every map
      whose keys read back as themselves and whose contents hold no line
      that trims to a bare fence. */
  lemma RoundTrip(m: FileMap)
    requires Formattable(m)
    ensures ExtractCodeBlocks(FormatCodeForPrompt(m)) == m
  {
    if |m| == 0 {
      NotContainsWithoutHead(NoFilesMessage, Fence);
      NoFenceNoFiles(NoFilesMessage);
    } else {
      assert forall i :: 0 <= i < |m| ==> '\n' !in m[i].0;
      FormattedLines(m);
      LayoutScansBack(m);
      ExtractNamed(FormatCodeForPrompt(m), m);
    }
  }

  /** Scanning the layout lines of a formattable map from nothing yields the map. */
  lemma LayoutScansBack(m: FileMap)
    requires Formattable(m)
    ensures ScanNamed(LayoutLines(m), [], LineName) == m
  {
    EmptyLineNamesNothing();
    ScanLayout(m, [], LineName);
    UpdateEmpty(m);
  }

  /** When the named-block pass finds something, that is the result. */
  lemma ExtractNamed(text: string, m: FileMap)
    requires |m| > 0 && ScanNamed(Split(text), [], LineName) == m
    ensures ExtractCodeBlocks(text) == m
  {
  }

  /** A text that is a single fenced block with the `python` tag and a body
      free of backticks holds exactly that body. */
  lemma OneFencedBody(text: string, body: string)
    requires '`' !in body
    requires text == Fence + FenceTags[0] + "\n" + body + Fence
    ensures FencedBodies(text, 0) == [body]
  {
    var b := |FenceTags[0]| + 4;
    var e := b + |body|;
    assert OccursAt(text, Fence, 0) by {
      assert text[0..3] == Fence;
    }
    assert BodyStart(text, 3, FenceTags) == Some(b) by {
      assert text[3..b] == FenceTags[0] + "\n";
    }
    assert text[b..e] == body;
    assert OccursAt(text, Fence, e) by {
      assert text[e..e + 3] == Fence;
    }
    forall i | b <= i < e ensures !OccursAt(text, Fence, i) {
      assert text[i] == body[i - b];
    }
    assert FindFrom(text, Fence, b) == Some(e);
    assert FencedBlockAt(text, 0) == Some((b, e));
    assert FencedBodies(text, e + 3) == [];
  }

  /** Such a block, once its body strips to something, is the whole
      placeholder pass: one entry, `file_1.py`. */
  lemma OneBlockFallback(text: string, body: string)
    requires '`' !in body && Strip(body) != ""
    requires text == Fence + FenceTags[0] + "\n" + body + Fence
    ensures Fallback(text) == [(PlaceholderName(1), Strip(body))]
  {
    var c := Strip(body);
    assert StripEach(FencedBodies(text, 0)) == [c] by {
      OneFencedBody(text, body);
    }
    assert NumberBlocks([c], 1) == [(PlaceholderName(1), c)] by {
      assert [c][1..] == [];
    }
  }

  /** When the named pass finds nothing, the placeholder pass decides. */
  lemma ExtractFallback(text: string)
    requires ScanNamed(Split(text), [], LineName) == []
    ensures ExtractCodeBlocks(text) == Fallback(text)
  {
  }

  /** The lines of a non-empty formatted map. */
  lemma FormattedLines(m: FileMap)
    requires |m| > 0 && forall i :: 0 <= i < |m| ==> '\n' !in m[i].0
    ensures Split(FormatCodeForPrompt(m)) == LayoutLines(m)
  {
    SplitJoin(EntryLines(m));
    SplitEntryLines(m);
  }

  /** The round trip for maps keyed by ordinary paths. */
  lemma PlainRoundTrip(m: FileMap)
    requires UniqueKeys(m)
    requires forall i :: 0 <= i < |m| ==> PlainKey(m[i].0) && FenceFree(m[i].1)
    ensures ExtractCodeBlocks(FormatCodeForPrompt(m)) == m
  {
    forall i | 0 <= i < |m| ensures ValidKey(m[i].0) {
      PlainKeyValid(m[i].0);
    }
    RoundTrip(m);
  }

  /** Letters, digits, `.`, `_`, `-` and `/`: the characters of an ordinary path. */
  predicate IsPathChar(c: char) {
    'a' <= c <= 'z' || 'A' <= c <= 'Z' || '0' <= c <= '9' || c == '.' || c == '_' || c == '-' || c == '/'
  }

  /** An ordinary relative path with a recognised extension. */
  predicate PlainKey(k: string) {
    && 0 < |k| < 100
    && HasExtension(k)
    && forall i :: 0 <= i < |k| ==> IsPathChar(k[i])
  }

  /** Every ordinary path reads back as itself, so a map keyed by such paths
      whose contents never hold a bare fence line survives the round trip. */
  lemma PlainKeyValid(k: string)
    requires PlainKey(k)
    ensures ValidKey(k)
  {
    PlainClean(k);
    PlainFilename(k);
    PathLegal(k);
    SanitizeKeeps(k);
    PathNoNewline(k);
    NamesItself(k);
  }

  lemma PathLegal(k: string)
    requires forall i :: 0 <= i < |k| ==> IsPathChar(k[i])
    ensures forall i :: 0 <= i < |k| ==> !IsIllegal(k[i])
  {
  }

  lemma PathNoNewline(k: string)
    requires forall i :: 0 <= i < |k| ==> IsPathChar(k[i])
    ensures '\n' !in k
  {
  }

  lemma NamesItself(k: string)
    requires '\n' !in k && CleanLine(k) == k && IsFilename(k) && Sanitize(k) == k
    ensures ValidKey(k)
  {
  }

  lemma PlainFilename(k: string)
    requires PlainKey(k)
    ensures IsFilename(k)
  {
    assert k[0] != Fence[0];
  }

  /** An ordinary path is its own cleaned line. */
  lemma PlainClean(k: string)
    requires forall i :: 0 <= i < |k| ==> IsPathChar(k[i])
    ensures CleanLine(k) == k
  {
    PathEnds(k);
    NoLabelPrefix(k);
    CleanFixed(k);
  }

  /** A line with nothing to strip at either end and no label is its own cleaned line. */
  lemma CleanFixed(k: string)
    requires |k| > 0 ==> !IsSpace(k[0]) && !IsSpace(k[|k| - 1])
    requires |k| > 0 ==> !IsDecoration(k[0]) && !IsDecoration(k[|k| - 1])
    requires forall n :: 0 <= n < |Labels| ==> !StartsWith(Upper(k), Upper(Labels[n]))
    ensures CleanLine(k) == k
  {
    TrimUnchanged(k, IsSpace);
    StripLabelsUnchanged(k, Labels);
    TrimUnchanged(k, IsDecoration);
  }

  lemma PathEnds(k: string)
    requires forall i :: 0 <= i < |k| ==> IsPathChar(k[i])
    ensures |k| > 0 ==> !IsSpace(k[0]) && !IsSpace(k[|k| - 1])
    ensures |k| > 0 ==> !IsDecoration(k[0]) && !IsDecoration(k[|k| - 1])
  {
  }

  /** An ordinary path starts with no label, whatever the case. */
  lemma NoLabelPrefix(k: string)
    requires forall i :: 0 <= i < |k| ==> IsPathChar(k[i])
    ensures forall n :: 0 <= n < |Labels| ==> !StartsWith(Upper(k), Upper(Labels[n]))
  {
    forall n | 0 <= n < |Labels| ensures !StartsWith(Upper(k), Upper(Labels[n])) {
      var j := LabelMark(n);
      if j < |k| {
        assert Upper(k)[j] == UpperChar(k[j]);
      }
    }
  }

  /** A position at which each label, upper-cased, holds `:`, `#` or `*`,
      characters no ordinary path holds. */
  function LabelMark(n: nat): (j: nat)
    requires n < |Labels|
    ensures j < |Labels[n]|
    ensures var c := Upper(Labels[n])[j]; c == ':' || c == '#' || c == '*'
  {
    if n == 0 then 8 else if n == 1 then 4 else if n == 2 then 8 else 0
  }

  lemma {:induction false} StripLabelsUnchanged(s: string, labels: seq<string>)
    requires forall n :: 0 <= n < |labels| ==> !StartsWith(Upper(s), Upper(labels[n]))
    ensures StripLabels(s, labels) == s
    decreases |labels|
  {
    if |labels| > 0 {
      assert forall n :: 0 <= n < |labels| - 1 ==> labels[1..][n] == labels[n + 1];
      StripLabelsUnchanged(s, labels[1..]);
    }
  }

  /** The first label the text starts with, ignoring case, goes together
      with the whitespace after it; when no later label starts what is left,
      that is the result. */
  lemma {:induction false} StripFirstLabel(s: string, labels: seq<string>, n: nat, k: string)
    requires n < |labels|
    requires forall m :: 0 <= m < n ==> !StartsWith(Upper(s), Upper(labels[m]))
    requires StartsWith(Upper(s), Upper(labels[n]))
    requires Strip(s[|labels[n]|..]) == k
    requires forall m :: n < m < |labels| ==> !StartsWith(Upper(k), Upper(labels[m]))
    ensures StripLabels(s, labels) == k
    decreases n
  {
    var tail := labels[1..];
    assert forall m :: 0 <= m < |tail| ==> tail[m] == labels[m + 1];
    if n == 0 {
      StripLabelsUnchanged(k, tail);
    } else {
      assert !StartsWith(Upper(s), Upper(labels[0]));
      StripFirstLabel(s, tail, n - 1, k);
    }
  }

  /** `file:` in lower case still matches the `File:` label, and misses
      `FILENAME:` at its colon. */
  lemma FileLabel(t: string)
    ensures StartsWith(Upper("file:" + t), Upper(Labels[1]))
    ensures !StartsWith(Upper("file:" + t), Upper(Labels[0]))
  {
    forall i | 0 <= i < 5 ensures Upper("file:")[i] == Upper(Labels[1])[i] {
    }
    assert Upper("file:") == Upper(Labels[1]);
    UpperPrefix("file:", t);
    var s := "file:" + t;
    assert s[4] == ':' && Labels[0][4] == 'N';
    UpperDiffers(s, Labels[0], 4);
  }

  /** Upper-casing keeps a prefix a prefix. */
  lemma UpperPrefix(p: string, t: string)
    ensures StartsWith(Upper(p + t), Upper(p))
  {
    assert Upper(p + t)[..|p|] == Upper(p);
  }

  /** The label forms a reply uses in front of a file name all clean up to
      the bare name: `FILENAME: k`, `file: k` in any case, `## k` and `**k**`. */
  lemma LabelledName(k: string)
    requires PlainKey(k)
    ensures CleanLine("FILENAME: " + k) == k
    ensures CleanLine("file: " + k) == k
    ensures CleanLine("## " + k) == k
    ensures CleanLine("**" + k + "**") == k
  {
    LabelledFilename(k);
    LabelledFile(k);
    LabelledHeading(k);
    LabelledBold(k);
  }

  /** Label `n` followed by a space and an ordinary path, where no other
      label matches, unlabels to the path. */
  lemma LabelThenPath(s: string, labels: seq<string>, n: nat, k: string)
    requires |k| > 0 && n < |labels| && forall i :: 0 <= i < |k| ==> IsPathChar(k[i])
    requires forall m :: 0 <= m < n ==> !StartsWith(Upper(s), Upper(labels[m]))
    requires StartsWith(Upper(s), Upper(labels[n]))
    requires s[|labels[n]|..] == " " + k
    requires forall m :: n < m < |labels| ==> !StartsWith(Upper(k), Upper(labels[m]))
    ensures StripLabels(s, labels) == k
  {
    assert Strip(s[|labels[n]|..]) == k by {
      PathEnds(k);
      StripIndented(" ", k);
    }
    StripFirstLabel(s, labels, n, k);
  }

  /** A labelled line with no whitespace at either end cleans to what its
      labels leave, once that has no decoration at either end. */
  lemma CleanLabelled(s: string, k: string)
    requires |k| > 0 && forall i :: 0 <= i < |k| ==> IsPathChar(k[i])
    requires |s| > 0 && !IsSpace(s[0]) && s[|s| - 1] == k[|k| - 1]
    requires StripLabels(s, Labels) == k
    ensures CleanLine(s) == k
  {
    PathEnds(k);
    TrimUnchanged(s, IsSpace);
    TrimUnchanged(k, IsDecoration);
  }

  /** A line made of label `n`, a space and an ordinary path, where no
      earlier label matches, cleans to the path. */
  lemma LabelledLine(s: string, n: nat, k: string)
    requires |k| > 0 && n < |Labels| && forall i :: 0 <= i < |k| ==> IsPathChar(k[i])
    requires forall m :: 0 <= m < n ==> !StartsWith(Upper(s), Upper(Labels[m]))
    requires StartsWith(Upper(s), Upper(Labels[n]))
    requires s[|Labels[n]|..] == " " + k && !IsSpace(s[0])
    ensures CleanLine(s) == k
  {
    NoLabelPrefix(k);
    LabelThenPath(s, Labels, n, k);
    assert s[|s| - 1] == (" " + k)[|k|];
    CleanLabelled(s, k);
  }

  lemma LabelledFilename(k: string)
    requires |k| > 0 && forall i :: 0 <= i < |k| ==> IsPathChar(k[i])
    ensures CleanLine("FILENAME: " + k) == k
  {
    var s := "FILENAME: " + k;
    assert StartsWith(Upper(s), Upper(Labels[0])) by {
      assert s == Labels[0] + (" " + k);
      UpperPrefix(Labels[0], " " + k);
    }
    LabelledLine(s, 0, k);
  }

  lemma LabelledFile(k: string)
    requires |k| > 0 && forall i :: 0 <= i < |k| ==> IsPathChar(k[i])
    ensures CleanLine("file: " + k) == k
  {
    var s := "file: " + k;
    assert StartsWith(Upper(s), Upper(Labels[1])) && !StartsWith(Upper(s), Upper(Labels[0])) by {
      assert s == "file:" + (" " + k);
      FileLabel(" " + k);
    }
    LabelledLine(s, 1, k);
  }

  lemma LabelledHeading(k: string)
    requires |k| > 0 && forall i :: 0 <= i < |k| ==> IsPathChar(k[i])
    ensures CleanLine("## " + k) == k
  {
    var s := "## " + k;
    HashNotF(s);
    assert StartsWith(Upper(s), Upper(Labels[3])) by {
      assert s == Labels[3] + (" " + k);
      UpperPrefix(Labels[3], " " + k);
    }
    LabelledLine(s, 3, k);
  }

  /** A text starting with `#` or `*` starts with none of the first three labels. */
  lemma HashNotF(s: string)
    requires |s| > 0 && (s[0] == '#' || s[0] == '*')
    ensures forall m :: 0 <= m < 3 ==> !StartsWith(Upper(s), Upper(Labels[m]))
  {
    forall m | 0 <= m < 3 ensures !StartsWith(Upper(s), Upper(Labels[m])) {
      assert Labels[m][0] == 'F';
      UpperDiffers(s, Labels[m], 0);
    }
  }

  lemma LabelledBold(k: string)
    requires |k| > 0 && forall i :: 0 <= i < |k| ==> IsPathChar(k[i])
    ensures CleanLine("**" + k + "**") == k
  {
    var s := "**" + k + "**";
    var t := k + "**";
    PathEnds(k);
    TrimUnchanged(s, IsSpace);
    HashNotF(s);
    assert Labels[3][0] == '#';
    UpperDiffers(s, Labels[3], 0);
    assert s == Labels[4] + t;
    UpperPrefix(Labels[4], t);
    assert s[|Labels[4]|..] == t;
    TrimUnchanged(t, IsSpace);
    StripFirstLabel(s, Labels, 4, t);
    BoldEnd(k);
  }

  /** Trailing bold markers are decoration. */
  lemma BoldEnd(k: string)
    requires |k| > 0 && !IsDecoration(k[0]) && !IsDecoration(k[|k| - 1])
    ensures Trim(k + "**", IsDecoration) == k
  {
    var t := k + "**";
    assert TrimStart(t, IsDecoration) == t;
    var u := k + "*";
    assert t[..|t| - 1] == u && IsDecoration(t[|t| - 1]);
    assert TrimEnd(t, IsDecoration) == TrimEnd(u, IsDecoration);
    assert u[..|u| - 1] == k && IsDecoration(u[|u| - 1]);
    assert TrimEnd(u, IsDecoration) == TrimEnd(k, IsDecoration);
    assert TrimEnd(k, IsDecoration) == k;
  }

  /** Texts whose upper-case forms differ at a position of `p` do not start alike. */
  lemma UpperDiffers(s: string, p: string, i: nat)
    requires i < |p| && i < |s| && UpperChar(s[i]) != UpperChar(p[i])
    ensures !StartsWith(Upper(s), Upper(p))
  {
    assert Upper(s)[i] != Upper(p)[i];
  }
}
