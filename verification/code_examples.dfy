/** Replies holding a single named block, among them the two shapes the
    project's own examples use: a bare three-line reply and the same reply
    indented inside a triple-quoted string. */
module CodeExamples {
  import opened Options
  import opened Text
  import opened OrderedMaps
  import opened CodeManager

  /** A reply whose lines are `pre`, a name line, an opening fence line, one
      content line, a closing fence line and `post`, where no line of `pre`
      or `post` names a file, reads as the one entry `k: c`. */
  lemma SingleBlock(pre: seq<string>, nameLine: string, k: string, open: string, c: string,
                    close: string, post: seq<string>)
    requires forall i :: 0 <= i < |pre| ==> '\n' !in pre[i] && LineName(pre[i]).None?
    requires forall i :: 0 <= i < |post| ==> '\n' !in post[i] && LineName(post[i]).None?
    requires '\n' !in nameLine && '\n' !in open && '\n' !in c && '\n' !in close
    requires LineName(nameLine) == Some(k)
    requires Strip(open) != "" && StartsWith(Strip(open), Fence)
    requires !IsFenceLine(c) && IsFenceLine(close)
    ensures ExtractCodeBlocks(Join(pre + [nameLine, open, c, close] + post)) == [(k, c)]
  {
    var lines := pre + [nameLine, open, c, close] + post;
    FourLines(nameLine, open, c, close);
    NoNewlineLines(pre, [nameLine, open, c, close], post);
    SplitJoinLines(lines);
    SingleBlockScan(pre, nameLine, k, open, c, close, post, LineName);
    ExtractNamed(Join(lines), [(k, c)]);
  }

  lemma FourLines(a: string, b: string, c: string, d: string)
    requires '\n' !in a && '\n' !in b && '\n' !in c && '\n' !in d
    ensures forall i :: 0 <= i < 4 ==> '\n' !in [a, b, c, d][i]
  {
  }

  lemma NoNewlineLines(pre: seq<string>, block: seq<string>, post: seq<string>)
    requires forall i :: 0 <= i < |pre| ==> '\n' !in pre[i]
    requires forall i :: 0 <= i < |block| ==> '\n' !in block[i]
    requires forall i :: 0 <= i < |post| ==> '\n' !in post[i]
    ensures forall i :: 0 <= i < |pre + block + post| ==> '\n' !in (pre + block + post)[i]
  {
  }

  /** The scan over such lines, for any line classifier. */
  lemma SingleBlockScan(pre: seq<string>, nameLine: string, k: string, open: string, c: string,
                        close: string, post: seq<string>, nameOf: string -> Option<string>)
    requires forall i :: 0 <= i < |pre| ==> nameOf(pre[i]).None?
    requires forall i :: 0 <= i < |post| ==> nameOf(post[i]).None?
    requires nameOf(nameLine) == Some(k)
    requires Strip(open) != "" && StartsWith(Strip(open), Fence)
    requires !IsFenceLine(c) && IsFenceLine(close)
    ensures ScanNamed(pre + [nameLine, open, c, close] + post, [], nameOf) == [(k, c)]
  {
    var block := [nameLine, open, c, close];
    assert pre + block + post == pre + (block + post);
    ScanPastUnnamed(pre, block + post, [], nameOf);
    OpenBlock(nameLine, k, open, c, close, post, nameOf);
    ScanTakes(block + post, [], nameOf, NamedBlock(k, c, 4));
    assert (block + post)[4..] == post + [];
    ScanPastUnnamed(post, [], Put([], k, c), nameOf);
    EmptyScan(Put([], k, c), nameOf);
  }

  /** A name line, an opening fence (tag allowed), one content line and a
      closing fence form one block holding that line. */
  lemma OpenBlock(nameLine: string, k: string, open: string, c: string, close: string, post: seq<string>,
                  nameOf: string -> Option<string>)
    requires nameOf(nameLine) == Some(k)
    requires Strip(open) != "" && StartsWith(Strip(open), Fence)
    requires !IsFenceLine(c) && IsFenceLine(close)
    ensures BlockAt([nameLine, open, c, close] + post, nameOf) == Some(NamedBlock(k, c, 4))
  {
    var lines := [nameLine, open, c, close] + post;
    var rest := lines[1..];
    assert rest[0] == open;
    assert FirstNonBlank(rest) == 0;
    var body := rest[1..];
    assert body[0] == c && body[1] == close;
    assert FirstClosingFence(body) == 1 by {
      assert body[1..][0] == close;
    }
    assert body[..1] == [c];
  }

  lemma EmptyScan(acc: FileMap, nameOf: string -> Option<string>)
    ensures ScanNamed([], acc, nameOf) == acc
  {
  }

  /** Lines that name nothing are skipped one by one. */
  lemma {:induction false} ScanPastUnnamed(pre: seq<string>, rest: seq<string>, acc: FileMap,
                                           nameOf: string -> Option<string>)
    requires forall i :: 0 <= i < |pre| ==> nameOf(pre[i]).None?
    ensures ScanNamed(pre + rest, acc, nameOf) == ScanNamed(rest, acc, nameOf)
    decreases |pre|
  {
    if |pre| > 0 {
      var lines := pre + rest;
      assert BlockAt(lines, nameOf).None? by {
        assert lines[0] == pre[0];
      }
      ScanSkips(lines, acc, nameOf);
      assert lines[1..] == pre[1..] + rest;
      assert forall i :: 0 <= i < |pre[1..]| ==> nameOf(pre[1..][i]).None? by {
        assert forall i :: 0 <= i < |pre[1..]| ==> pre[1..][i] == pre[i + 1];
      }
      ScanPastUnnamed(pre[1..], rest, acc, nameOf);
    } else {
      assert pre + rest == rest;
    }
  }

  /** A bare reply: a name line, an opening fence with a language tag, one
      content line and a closing fence, as in `main.py`, "```python",
      `print('hi')`, "```".  It reads as the one entry name to line. */
  lemma BareReply(k: string, tag: string, c: string)
    requires PlainKey(k)
    requires forall i :: 0 <= i < |tag| ==> IsPathChar(tag[i])
    requires '\n' !in c && |c| > 0 && !IsSpace(c[0]) && !IsSpace(c[|c| - 1]) && c != Fence
    ensures ExtractCodeBlocks(Join([k, Fence + tag, c, Fence])) == [(k, c)]
  {
    BareLines(k, tag, c);
    BareBlock(k, k, Fence + tag, c, Fence);
  }

  /** The four lines of a bare reply play their parts. */
  lemma BareLines(k: string, tag: string, c: string)
    requires PlainKey(k)
    requires forall i :: 0 <= i < |tag| ==> IsPathChar(tag[i])
    requires '\n' !in c && |c| > 0 && !IsSpace(c[0]) && !IsSpace(c[|c| - 1]) && c != Fence
    ensures '\n' !in k && LineName(k) == Some(k)
    ensures '\n' !in Fence + tag && Strip(Fence + tag) != "" && StartsWith(Strip(Fence + tag), Fence)
    ensures '\n' !in c && !IsFenceLine(c)
    ensures '\n' !in Fence && IsFenceLine(Fence)
  {
    PlainKeyValid(k);
    TaggedFence(tag);
    Unpadded(c);
    Unpadded(Fence);
  }

  /** A line with no surrounding space strips to itself. */
  lemma Unpadded(line: string)
    requires |line| > 0 && !IsSpace(line[0]) && !IsSpace(line[|line| - 1])
    ensures Strip(line) == line
  {
    TrimUnchanged(line, IsSpace);
  }

  /** A fence followed by a language tag opens a block. */
  lemma TaggedFence(tag: string)
    requires forall i :: 0 <= i < |tag| ==> IsPathChar(tag[i])
    ensures '\n' !in Fence + tag && Strip(Fence + tag) == Fence + tag && StartsWith(Fence + tag, Fence)
  {
    PathEnds(tag);
    PathNoNewline(tag);
    var f := Fence + tag;
    assert f[0] == '`';
    assert !IsSpace(f[|f| - 1]) by {
      if |tag| > 0 {
        assert f[|f| - 1] == tag[|tag| - 1];
      }
    }
    Unpadded(f);
    assert f[..|Fence|] == Fence;
  }
  /** A name line, an opening fence, one content line and a closing fence,
      alone, form one block. */
  lemma BareBlock(nameLine: string, k: string, open: string, c: string, close: string)
    requires '\n' !in nameLine && '\n' !in open && '\n' !in c && '\n' !in close
    requires LineName(nameLine) == Some(k)
    requires Strip(open) != "" && StartsWith(Strip(open), Fence)
    requires !IsFenceLine(c) && IsFenceLine(close)
    ensures ExtractCodeBlocks(Join([nameLine, open, c, close])) == [(k, c)]
  {
    SingleBlock([], nameLine, k, open, c, close, []);
    Bare(nameLine, open, c, close);
  }

  lemma Bare<T>(a: T, b: T, c: T, d: T)
    ensures [] + [a, b, c, d] + [] == [a, b, c, d]
  {
  }

  /** The reply shape of the project's own extraction example: a blank
      first line, then a name line, a tagged opening fence, one content line
      and a closing fence, all indented by `ind`, and a last line holding only
      the indentation.  The block is found, and its content keeps the
      indentation. */
  lemma IndentedReply(ind: string, k: string, tag: string, c: string)
    requires forall i :: 0 <= i < |ind| ==> ind[i] == ' '
    requires PlainKey(k)
    requires forall i :: 0 <= i < |tag| ==> IsPathChar(tag[i])
    requires '\n' !in c && |c| > 0 && !IsSpace(c[0]) && !IsSpace(c[|c| - 1]) && c != Fence
    ensures ExtractCodeBlocks(Join(["", ind + k, ind + Fence + tag, ind + c, ind + Fence, ind]))
         == [(k, ind + c)]
  {
    IndentSpaces(ind);
    IndentedName(ind, k);
    IndentedFence(ind, tag);
    IndentedContent(ind, c);
    StripIndented(ind, Fence);
    IndentOnly(ind);
    EmptyLineNamesNothing();
    FramedBlock("", ind + k, k, ind + Fence + tag, ind + c, ind + Fence, ind);
  }

  /** One unnamed line before the block and one after it change nothing. */
  lemma FramedBlock(first: string, nameLine: string, k: string, open: string, c: string,
                    close: string, last: string)
    requires '\n' !in first && LineName(first).None? && '\n' !in last && LineName(last).None?
    requires '\n' !in nameLine && '\n' !in open && '\n' !in c && '\n' !in close
    requires LineName(nameLine) == Some(k)
    requires Strip(open) != "" && StartsWith(Strip(open), Fence)
    requires !IsFenceLine(c) && IsFenceLine(close)
    ensures ExtractCodeBlocks(Join([first, nameLine, open, c, close, last])) == [(k, c)]
  {
    UnnamedLine(first);
    UnnamedLine(last);
    SingleBlock([first], nameLine, k, open, c, close, [last]);
    SixLines(first, nameLine, open, c, close, last);
  }

  lemma UnnamedLine(x: string)
    requires '\n' !in x && LineName(x).None?
    ensures forall i :: 0 <= i < |[x]| ==> '\n' !in [x][i] && LineName([x][i]).None?
  {
  }

  lemma SixLines<T>(a: T, b: T, c: T, d: T, e: T, f: T)
    ensures [a] + [b, c, d, e] + [f] == [a, b, c, d, e, f]
  {
  }

  lemma IndentSpaces(ind: string)
    requires forall i :: 0 <= i < |ind| ==> ind[i] == ' '
    ensures forall i :: 0 <= i < |ind| ==> IsSpace(ind[i])
    ensures '\n' !in ind && '\n' !in ind + Fence
  {
  }

  /** Strips to the same text, so names the same file. */
  lemma SameStripSameName(a: string, b: string)
    requires Strip(a) == Strip(b)
    ensures LineName(a) == LineName(b)
  {
  }

  lemma IndentedName(ind: string, k: string)
    requires forall i :: 0 <= i < |ind| ==> IsSpace(ind[i]) && ind[i] != '\n'
    requires PlainKey(k)
    ensures '\n' !in ind + k && LineName(ind + k) == Some(k)
  {
    PathEnds(k);
    PathNoNewline(k);
    StripIndented(ind, k);
    TrimUnchanged(k, IsSpace);
    SameStripSameName(ind + k, k);
    PlainKeyValid(k);
  }

  lemma IndentedFence(ind: string, tag: string)
    requires forall i :: 0 <= i < |ind| ==> IsSpace(ind[i]) && ind[i] != '\n'
    requires forall i :: 0 <= i < |tag| ==> IsPathChar(tag[i])
    ensures '\n' !in ind + Fence + tag
    ensures Strip(ind + Fence + tag) != "" && StartsWith(Strip(ind + Fence + tag), Fence)
  {
    PathEnds(tag);
    PathNoNewline(tag);
    var f := Fence + tag;
    assert f[0] == '`';
    assert !IsSpace(f[|f| - 1]) by {
      if |tag| > 0 {
        assert f[|f| - 1] == tag[|tag| - 1];
      }
    }
    StripIndented(ind, f);
    assert ind + Fence + tag == ind + f;
    assert f[..|Fence|] == Fence;
  }

  lemma IndentedContent(ind: string, c: string)
    requires forall i :: 0 <= i < |ind| ==> IsSpace(ind[i]) && ind[i] != '\n'
    requires '\n' !in c && |c| > 0 && !IsSpace(c[0]) && !IsSpace(c[|c| - 1]) && c != Fence
    ensures '\n' !in ind + c && !IsFenceLine(ind + c)
  {
    StripIndented(ind, c);
  }

  /** A line of indentation alone names nothing. */
  lemma IndentOnly(ind: string)
    requires forall i :: 0 <= i < |ind| ==> IsSpace(ind[i])
    ensures LineName(ind) == None
  {
    StripFacts(ind);
    StripFacts("");
    SameStripSameName(ind, "");
    EmptyLineNamesNothing();
  }

  // ---------------------------------------------------------------------
  // A reply with no name line: the placeholder pass.

  /** A lone tagged block with no name line above it is stored under the
      first placeholder name, with its body stripped. */
  lemma UnnamedBlock()
    ensures ExtractCodeBlocks("```python\nx = 1\n```") == [("file_1.py", "x = 1")]
  {
    UnnamedLines();
    UnnamedScan();
    ExtractFallback("```python\nx = 1\n```");
    UnnamedFallback();
  }

  lemma UnnamedLines()
    ensures Split("```python\nx = 1\n```") == ["```python", "x = 1", "```"]
  {
    var lines := ["```python", "x = 1", "```"];
    assert Join(lines) == "```python\nx = 1\n```" by {
      assert lines[1..] == ["x = 1", "```"];
      assert lines[1..][1..] == ["```"];
    }
    SplitJoinLines(lines);
  }

  /** Two fence lines around a line with a space in it name nothing, so the
      named pass finds nothing. */
  lemma UnnamedScan()
    ensures ScanNamed(["```python", "x = 1", "```"], [], LineName) == []
  {
    OpeningFenceUnnamed();
    AssignmentUnnamed();
    ClosingFenceUnnamed();
    ThreeUnnamed("```python", "x = 1", "```", LineName);
  }

  /** Three lines that name nothing leave the named pass empty. */
  lemma ThreeUnnamed(a: string, b: string, c: string, nameOf: string -> Option<string>)
    requires nameOf(a).None? && nameOf(b).None? && nameOf(c).None?
    ensures ScanNamed([a, b, c], [], nameOf) == []
  {
    ScanPastUnnamed([a, b, c], [], [], nameOf);
    assert [a, b, c] + [] == [a, b, c];
  }

  lemma OpeningFenceUnnamed()
    ensures LineName("```python").None?
  {
    FenceLineUnnamed("```python");
  }

  lemma AssignmentUnnamed()
    ensures LineName("x = 1").None?
  {
    SpacedLineUnnamed("x = 1");
  }

  lemma ClosingFenceUnnamed()
    ensures LineName("```").None?
  {
    FenceLineUnnamed("```");
  }

  /** A line opening with a fence and ending in a letter or a backtick names nothing. */
  lemma FenceLineUnnamed(line: string)
    requires |line| >= 3 && line[..3] == Fence
    requires !IsSpace(line[|line| - 1]) && !IsDecoration(line[|line| - 1])
    ensures LineName(line).None?
  {
    NoLabelAtStart(line);
    CleanFixed(line);
  }

  /** A line with a space inside and nothing to strip names nothing. */
  lemma SpacedLineUnnamed(line: string)
    requires |line| > 2 && line[1] == ' '
    requires UpperChar(line[0]) != 'F' && !IsSpace(line[0]) && !IsDecoration(line[0])
    requires !IsSpace(line[|line| - 1]) && !IsDecoration(line[|line| - 1])
    ensures LineName(line).None?
  {
    NoLabelAtStart(line);
    CleanFixed(line);
  }

  /** A line whose first character is none of `F`, `f`, `#`, `*` starts with no label. */
  lemma NoLabelAtStart(line: string)
    requires |line| > 0 && UpperChar(line[0]) != 'F' && line[0] != '#' && line[0] != '*'
    ensures forall n :: 0 <= n < |Labels| ==> !StartsWith(Upper(line), Upper(Labels[n]))
  {
    forall n | 0 <= n < |Labels| ensures !StartsWith(Upper(line), Upper(Labels[n])) {
      assert Labels[n][0] == 'F' || Labels[n][0] == '#' || Labels[n][0] == '*';
      UpperDiffers(line, Labels[n], 0);
    }
  }

  /** The placeholder pass finds the one block and names it `file_1.py`. */
  lemma UnnamedFallback()
    ensures Fallback("```python\nx = 1\n```") == [("file_1.py", "x = 1")]
  {
    var text := "```python\nx = 1\n```";
    var body := "x = 1\n";
    assert text == Fence + FenceTags[0] + "\n" + body + Fence;
    assert Fallback(text) == [(PlaceholderName(1), Strip(body))] by {
      assert '`' !in body && Strip(body) != "" by {
        StripNewline();
      }
      OneBlockFallback(text, body);
    }
    StripNewline();
    FirstPlaceholder();
  }

  lemma FirstPlaceholder()
    ensures PlaceholderName(1) == "file_1.py"
  {
    assert NatToString(1) == "1";
  }

  lemma StripNewline()
    ensures Strip("x = 1\n") == "x = 1"
  {
    var s := "x = 1\n";
    assert TrimStart(s, IsSpace) == s;
    assert s[..5] == "x = 1";
    assert TrimEnd(s, IsSpace) == TrimEnd("x = 1", IsSpace);
    assert TrimEnd("x = 1", IsSpace) == "x = 1";
  }
}
