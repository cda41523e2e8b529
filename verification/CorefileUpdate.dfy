/** What an update does to a Corefile, and how updates compose. */
module CorefileUpdate {
  import opened Text
  import opened CorefileSpec
  import opened CorefileScan
  import opened CorefileAliases
  import opened CorefileLens

  // ---------------------------------------------------------------- the lines of a new block

  function MarkLine(mark: string, newline: string): string {
    "    " + mark + newline
  }

  lemma BlockParts(rendered: string, newline: string)
    requires rendered != ""
    ensures Block(rendered, newline) == MarkLine(START, newline) + (Indent(rendered, newline) + MarkLine(END, newline))
  {
  }

  lemma MarkLineShape(mark: string, newline: string)
    requires (mark == START || mark == END) && IsNewline(newline)
    ensures var line := MarkLine(mark, newline);
            line != "" && Whole(line) && FirstLine(line) == line && Trim(line) == mark
  {
    MarksShape(mark);
    LineShape(mark, newline);
  }

  lemma MarksShape(mark: string)
    requires mark == START || mark == END
    ensures mark != "" && !IsSpace(mark[0]) && !IsSpace(mark[|mark| - 1]) && '\n' !in mark
  {
  }

  lemma LineShape(text: string, newline: string)
    requires text != "" && !IsSpace(text[0]) && !IsSpace(text[|text| - 1]) && '\n' !in text && IsNewline(newline)
    ensures var line := MarkLine(text, newline);
            line != "" && Whole(line) && FirstLine(line) == line && Trim(line) == text
  {
    var line := MarkLine(text, newline);
    TrimPadded("    ", text, newline);
    forall i | 0 <= i < |line| - 1 ensures line[i] != '\n' {
      if 4 <= i < 4 + |text| {
        assert line[i] == text[i - 4];
      }
    }
    OneLine(line);
  }

  lemma {:induction false} IndentWhole(text: string, newline: string)
    requires IsNewline(newline)
    ensures Whole(Indent(text, newline))
    decreases |text|
  {
    if text != "" {
      IndentWhole(OtherLines(text), newline);
    }
  }

  lemma StartPlaces(s: Scan, line: string)
    requires Trim(line) == START && Ready(s) && ScanLine(s, line).Success?
    ensures var t := ScanLine(s, line).value;
            t.blockStart == s.offset && t.contentStart == s.offset + |line| && t.inManaged && t.inRoot && t.depth == 1
    ensures Sound(ScanLine(s, line).value)
  {
    MarkerScanned(s, line);
  }

  lemma EndPlaces(s: Scan, line: string)
    requires Trim(line) == END && Sound(s) && line != "" && ScanLine(s, line).Success?
    ensures ScanLine(s, line).value.blockEnd == s.offset + |line|
    ensures Sound(ScanLine(s, line).value) && Extends(s, ScanLine(s, line).value)
  {
    LineSound(s, line);
  }

  lemma ScanSplit(s: Scan, a: string, b: string) returns (mid: Scan)
    requires Whole(a) && Sound(s) && ScanText(s, a + b).Success?
    ensures ScanText(s, a) == Success(mid) && ScanText(mid, b) == ScanText(s, a + b)
    ensures Sound(mid) && Extends(s, mid) && mid.offset == s.offset + |a|
  {
    ScanConcat(s, a, b);
    TextSound(s, a);
    mid := ScanText(s, a).value;
  }

  lemma MarkedFound(before: Scan, first: string, content: string, last: string, post: string, t: Scan)
    requires Ready(before) && Whole(first) && Whole(content) && Whole(last)
    requires first != "" && FirstLine(first) == first && Trim(first) == START
    requires last != "" && FirstLine(last) == last && Trim(last) == END
    requires ScanText(before, first + (content + (last + post))) == Success(t)
    ensures t.blockStart == before.offset && t.blockEnd == before.offset + |first| + |content| + |last|
  {
    var s1 := ScanSplit(before, first, content + (last + post));
    ScanOne(before, first);
    StartPlaces(before, first);
    var s2 := ScanSplit(s1, content, last + post);
    var s3 := ScanSplit(s2, last, post);
    ScanOne(s2, last);
    EndPlaces(s2, last);
    TextSound(s3, post);
  }

  lemma BlockAssembled(rendered: string, newline: string, post: string)
    requires rendered != "" && IsNewline(newline)
    ensures Block(rendered, newline) + post
         == MarkLine(START, newline) + (Indent(rendered, newline) + (MarkLine(END, newline) + post))
    ensures |Block(rendered, newline)|
         == |MarkLine(START, newline)| + |Indent(rendered, newline)| + |MarkLine(END, newline)|
  {
    BlockParts(rendered, newline);
    var a, b, c := MarkLine(START, newline), Indent(rendered, newline), MarkLine(END, newline);
    assert (a + (b + c)) + post == a + (b + (c + post));
  }

  /** Wherever a new block is accepted, it is found where it was put. */
  lemma BlockFound(before: Scan, rendered: string, newline: string, post: string, t: Scan)
    requires Ready(before) && rendered != "" && IsNewline(newline)
    requires ScanText(before, Block(rendered, newline) + post) == Success(t)
    ensures t.blockStart == before.offset && t.blockEnd == before.offset + |Block(rendered, newline)|
  {
    BlockAssembled(rendered, newline, post);
    MarkLineShape(START, newline);
    MarkLineShape(END, newline);
    IndentWhole(rendered, newline);
    MarkedFound(before, MarkLine(START, newline), Indent(rendered, newline), MarkLine(END, newline), post, t);
  }

  // ---------------------------------------------------------------- splicing

  lemma SpliceIs(corefile: string, l: Layout, p: Place, block: string)
    requires At(l, p) && corefile == p.pre + p.block + p.post
    ensures Splice(corefile, l, block) == p.pre + block + p.post
  {
    if l.blockStart < 0 {
      assert corefile == p.pre + p.post;
      assert corefile[..|p.pre|] == p.pre && corefile[|p.pre|..] == p.post;
      assert p.pre + "" + p.post == corefile;
    } else {
      assert corefile[..|p.pre|] == p.pre;
      assert corefile[|p.pre| + |p.block|..] == p.post;
    }
  }

  /** A Corefile without its managed block. */
  function Outside(corefile: string, l: Layout): string {
    if 0 <= l.blockStart <= l.blockEnd <= |corefile| then corefile[..l.blockStart] + corefile[l.blockEnd..]
    else corefile
  }

  function Managed(corefile: string, l: Layout): string {
    if 0 <= l.blockStart <= l.blockEnd <= |corefile| then corefile[l.blockStart..l.blockEnd] else ""
  }

  lemma OutsideIs(corefile: string, l: Layout, pre: string, block: string, post: string)
    requires corefile == pre + block + post
    requires if l.blockStart < 0 then block == "" else l.blockStart == |pre| && l.blockEnd == |pre| + |block|
    ensures Outside(corefile, l) == pre + post && Managed(corefile, l) == block
  {
    if l.blockStart < 0 {
      assert corefile == pre + post;
    } else {
      assert corefile[..|pre|] == pre;
      assert corefile[|pre| + |block|..] == post;
      assert corefile[|pre|..|pre| + |block|] == block;
    }
  }

  lemma AroundScan(s: Scan, p: Place, corefile: string, text: string)
    requires Around(s, corefile, p)
    ensures ScanText(s, p.pre + text + p.post) == ScanText(p.before, text + p.post)
  {
    ScanConcat(s, p.pre, text + p.post);
    assert p.pre + text + p.post == p.pre + (text + p.post);
  }

  /** Without a block, what is left reads as before. */
  lemma WithoutBlock(s: Scan, p: Place, corefile: string)
    requires Around(s, corefile, p)
    ensures ScanText(s, p.pre + "" + p.post).Success?
    ensures Finished(ScanText(s, p.pre + "" + p.post).value)
    ensures ScanText(s, p.pre + "" + p.post).value.blockStart < 0
    ensures ScanText(s, p.pre + "" + p.post).value.blockEnd < 0
  {
    AroundScan(s, p, corefile, "");
    assert "" + p.post == p.post;
    TextAlike(p.after, p.before, p.post);
  }

  /** Where the scanner finds a new block, in general. */
  lemma Relocated(s: Scan, p: Place, corefile: string, rendered: string, newline: string, t: Scan)
    requires Around(s, corefile, p) && IsNewline(newline)
    requires ScanText(s, p.pre + Block(rendered, newline) + p.post) == Success(t)
    ensures rendered == "" ==> t.blockStart < 0
    ensures rendered != "" ==> t.blockStart == |p.pre| && t.blockEnd == |p.pre| + |Block(rendered, newline)|
  {
    AroundScan(s, p, corefile, Block(rendered, newline));
    if rendered == "" {
      WithoutBlock(s, p, corefile);
    } else {
      BlockFound(p.before, rendered, newline, p.post, t);
    }
  }

  lemma NewlineIs(corefile: string)
    ensures IsNewline(Newline(corefile))
  {
  }

  /** The layout of a Corefile into which a block was put. */
  lemma LayoutAfter(p: Place, corefile: string, rendered: string, newline: string, domain: string,
                    parses: string -> bool)
    requires Around(INITIAL, corefile, p) && IsNewline(newline)
    requires Inspect(p.pre + Block(rendered, newline) + p.post, domain, parses).Success?
    ensures var l := Inspect(p.pre + Block(rendered, newline) + p.post, domain, parses).value;
            if rendered == "" then l.blockStart < 0
            else l.blockStart == |p.pre| && l.blockEnd == |p.pre| + |Block(rendered, newline)|
  {
    var t := InspectScans(p.pre + Block(rendered, newline) + p.post, domain, parses);
    Relocated(INITIAL, p, corefile, rendered, newline, t);
  }

  /** What an update gives, for the place at which the scanner finds the block. */
  lemma UpdateAt(corefile: string, p: Place, rendered: string, domain: string, parses: string -> bool)
    requires Inspect(corefile, domain, parses).Success?
    requires Around(INITIAL, corefile, p) && At(Inspect(corefile, domain, parses).value, p)
    ensures var d := p.pre + Block(rendered, Newline(corefile)) + p.post;
            var check := Inspect(d, domain, parses);
            Update(corefile, rendered, domain, parses) == if check.Success? then Success(d) else Failure(check.fault)
  {
    SpliceIs(corefile, Inspect(corefile, domain, parses).value, p, Block(rendered, Newline(corefile)));
  }

  lemma UpdateIs(corefile: string, rendered: string, domain: string, parses: string -> bool) returns (p: Place)
    requires Inspect(corefile, domain, parses).Success?
    ensures Around(INITIAL, corefile, p) && At(Inspect(corefile, domain, parses).value, p)
    ensures var d := p.pre + Block(rendered, Newline(corefile)) + p.post;
            var check := Inspect(d, domain, parses);
            Update(corefile, rendered, domain, parses) == if check.Success? then Success(d) else Failure(check.fault)
  {
    p := Locate(corefile, domain, parses);
    UpdateAt(corefile, p, rendered, domain, parses);
  }

  /** An update that succeeds leaves everything outside the managed block as it was, and the block it finds
      afterwards is the rendering it was given: where the old one was, or right below the root line. */
  lemma UpdateFrames(corefile: string, rendered: string, domain: string, parses: string -> bool)
    requires Update(corefile, rendered, domain, parses).Success?
    ensures var d := Update(corefile, rendered, domain, parses).value;
            var before, after := Inspect(corefile, domain, parses), Inspect(d, domain, parses);
            && before.Success? && after.Success?
            && Outside(d, after.value) == Outside(corefile, before.value)
            && Managed(d, after.value) == Block(rendered, Newline(corefile))
            && (after.value.blockStart < 0 <==> rendered == "")
            && (rendered != "" ==>
                  after.value.blockStart
                  == if before.value.blockStart >= 0 then before.value.blockStart else before.value.insertAt)
  {
    var l := Inspect(corefile, domain, parses).value;
    var p := UpdateIs(corefile, rendered, domain, parses);
    var block := Block(rendered, Newline(corefile));
    NewlineIs(corefile);
    LayoutAfter(p, corefile, rendered, Newline(corefile), domain, parses);
    OutsideIs(corefile, l, p.pre, p.block, p.post);
    var d := p.pre + block + p.post;
    OutsideIs(d, Inspect(d, domain, parses).value, p.pre, block, p.post);
  }
}
