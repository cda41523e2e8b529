/** The laws of the Corefile editor: what was written is read back, a later update replaces an earlier one, and
    removing a block undoes adding it. */
module CorefileLaws {
  import opened Text
  import opened CorefileSpec
  import opened CorefileScan
  import opened CorefileAliases
  import opened CorefileLens
  import opened CorefileUpdate

  // ---------------------------------------------------------------- the newline convention survives

  lemma CRLFWithin(a: string, b: string, c: string)
    requires HasCRLF(b)
    ensures HasCRLF(a + b + c)
  {
    var i: nat :| i < |b| - 1 && b[i] == '\r' && b[i + 1] == '\n';
    var t := a + b + c;
    assert t[|a| + i] == '\r' && t[|a| + i + 1] == '\n';
  }

  lemma CRLFParts(a: string, b: string)
    requires Whole(a) && HasCRLF(a + b)
    ensures HasCRLF(a) || HasCRLF(b)
  {
    var t := a + b;
    var i: nat :| i < |t| - 1 && t[i] == '\r' && t[i + 1] == '\n';
    if i + 1 < |a| {
      assert a[i] == '\r' && a[i + 1] == '\n';
    } else if i >= |a| {
      assert b[i - |a|] == '\r' && b[i - |a| + 1] == '\n';
    }
  }

  lemma {:induction false} IndentReturns(text: string)
    requires '\r' !in text
    ensures '\r' !in Indent(text, "\n")
    decreases |text|
  {
    if text != "" {
      IndentReturns(OtherLines(text));
    }
  }

  lemma MarkReturns(mark: string)
    requires mark == START || mark == END
    ensures '\r' !in MarkLine(mark, "\n")
  {
  }

  lemma BlockWhole(rendered: string, newline: string)
    requires IsNewline(newline)
    ensures Whole(Block(rendered, newline))
  {
    if rendered != "" {
      BlockParts(rendered, newline);
      MarkLineShape(END, newline);
      var a, b, c := MarkLine(START, newline), Indent(rendered, newline), MarkLine(END, newline);
      EndsWhole(b, c);
      EndsWhole(a, b + c);
    }
  }

  lemma EndsWhole(a: string, b: string)
    requires b != "" && Whole(b)
    ensures a + b != "" && Whole(a + b)
  {
    assert (a + b)[|a + b| - 1] == b[|b| - 1];
  }

  lemma BlockReturns(rendered: string)
    requires '\r' !in rendered && rendered != ""
    ensures !HasCRLF(Block(rendered, "\n"))
  {
    IndentReturns(rendered);
    BlockParts(rendered, "\n");
    MarkReturns(START);
    MarkReturns(END);
  }

  lemma BlockHasCRLF(rendered: string)
    requires rendered != ""
    ensures HasCRLF(Block(rendered, "\r\n"))
  {
    BlockParts(rendered, "\r\n");
    assert "\r\n"[0] == '\r' && "\r\n"[1] == '\n';
    assert HasCRLF("\r\n");
    var head := "    " + START;
    var rest := Indent(rendered, "\r\n") + MarkLine(END, "\r\n");
    assert Block(rendered, "\r\n") == head + "\r\n" + rest;
    CRLFWithin(head, "\r\n", rest);
  }

  lemma CRLFKept(pre: string, block: string, b: string, post: string)
    requires Whole(pre) && Whole(b)
    requires HasCRLF(pre + block + post) <==> HasCRLF(b)
    ensures HasCRLF(pre + b + post) <==> HasCRLF(pre + block + post)
  {
    if HasCRLF(b) {
      CRLFWithin(pre, b, post);
    } else if HasCRLF(pre + b + post) {
      assert pre + b + post == pre + (b + post);
      CRLFParts(pre, b + post);
      if HasCRLF(pre) {
        assert pre + block + post == "" + pre + (block + post);
        CRLFWithin("", pre, block + post);
      } else {
        CRLFParts(b, post);
        assert pre + block + post == (pre + block) + post + "";
        CRLFWithin(pre + block, post, "");
      }
    }
  }

  /** An update keeps the newline convention of the file. */
  lemma NewlineKept(pre: string, block: string, post: string, rendered: string, newline: string)
    requires Whole(pre) && '\r' !in rendered && rendered != "" && newline == Newline(pre + block + post)
    ensures Newline(pre + Block(rendered, newline) + post) == newline
  {
    BlockWhole(rendered, newline);
    if newline == "\n" {
      BlockReturns(rendered);
    } else {
      BlockHasCRLF(rendered);
    }
    CRLFKept(pre, block, Block(rendered, newline), post);
  }

  // ---------------------------------------------------------------- one update after another

  /** A later update replaces an earlier one: the result is the one of the later update alone, errors included.
      The earlier rendering must not be empty where there was a block: removing a block forgets its place. */
  lemma PutPut(corefile: string, first: string, second: string, domain: string, parses: string -> bool)
    requires Update(corefile, first, domain, parses).Success?
    requires first != "" || Inspect(corefile, domain, parses).value.blockStart < 0
    requires second == "" || '\r' !in first
    ensures Update(Update(corefile, first, domain, parses).value, second, domain, parses)
         == Update(corefile, second, domain, parses)
  {
    var p := UpdateIs(corefile, first, domain, parses);
    var d := Update(corefile, first, domain, parses).value;
    var newline := Newline(corefile);
    if first == "" {
      assert d == corefile;
    } else {
      NewlineIs(corefile);
      LayoutAfter(p, corefile, first, newline, domain, parses);
      if second != "" {
        NewlineKept(p.pre, p.block, p.post, first, newline);
      }
      SameSplice(corefile, Inspect(corefile, domain, parses).value, d, Inspect(d, domain, parses).value, p,
                 Block(first, newline), Block(second, newline));
    }
  }

  /** Two texts that differ in their block only become equal when it is replaced. */
  lemma SameSplice(c: string, l: Layout, d: string, m: Layout, p: Place, put: string, block: string)
    requires At(l, p) && c == p.pre + p.block + p.post
    requires m.blockStart == |p.pre| && m.blockEnd == |p.pre| + |put| && d == p.pre + put + p.post
    ensures Splice(d, m, block) == Splice(c, l, block)
  {
    SpliceIs(c, l, p, block);
    SpliceIs(d, m, p.(block := put), block);
  }

  lemma {:induction false} RenderReturns(aliases: seq<Alias>, domain: string)
    requires ValidAliases(aliases) && Word(domain)
    ensures '\r' !in Render(aliases, domain)
  {
    if aliases != [] {
      RenderedShape(aliases[0], domain);
      ValidRest(aliases);
      RenderReturns(aliases[1..], domain);
    }
  }

  /** Putting the same aliases again changes nothing. */
  lemma PutTwice(corefile: string, d: string, aliases: seq<Alias>, domain: string, parses: string -> bool)
    requires ValidAliases(aliases) && Word(domain)
    requires Update(corefile, Render(aliases, domain), domain, parses) == Success(d)
    ensures Update(d, Render(aliases, domain), domain, parses) == Success(d)
  {
    if aliases == [] {
      RemoveTwice(corefile, d, domain, parses);
    } else {
      RenderReturns(aliases, domain);
      RenderFirst(aliases, domain);
      PutPut(corefile, Render(aliases, domain), Render(aliases, domain), domain, parses);
    }
  }

  lemma RemoveTwice(corefile: string, d: string, domain: string, parses: string -> bool)
    requires Update(corefile, "", domain, parses) == Success(d)
    ensures Update(d, "", domain, parses) == Success(d)
  {
    UpdateFrames(corefile, "", domain, parses);
    var p := UpdateIs(d, "", domain, parses);
    assert p.pre + "" + p.post == d;
  }

  /** Adding a block to a file without one and removing it again restores the file byte for byte. */
  lemma AddThenRemove(corefile: string, rendered: string, domain: string, parses: string -> bool)
    requires Inspect(corefile, domain, parses).Success? && Inspect(corefile, domain, parses).value.blockStart < 0
    requires Update(corefile, rendered, domain, parses).Success?
    ensures Update(Update(corefile, rendered, domain, parses).value, "", domain, parses) == Success(corefile)
  {
    PutPut(corefile, rendered, "", domain, parses);
    var p := UpdateIs(corefile, "", domain, parses);
    assert p.pre + "" + p.post == corefile;
  }

  lemma InsertAtIs(corefile: string, p: Place, domain: string, parses: string -> bool)
    requires Inspect(corefile, domain, parses).Success?
    requires ScanText(INITIAL, p.pre) == Success(p.before) && Ready(p.before) && Whole(p.pre)
    requires p.pre <= corefile
    ensures Inspect(corefile, domain, parses).value.insertAt == p.before.insertAt
  {
    var t := InspectScans(corefile, domain, parses);
    assert corefile == p.pre + corefile[|p.pre|..];
    var mid := ScanSplit(INITIAL, p.pre, corefile[|p.pre|..]);
    TextSound(mid, corefile[|p.pre|..]);
  }

  lemma {:induction false} IndentLonger(text: string)
    ensures |Indent(text, "\n")| <= |Indent(text, "\r\n")|
    decreases |text|
  {
    if text != "" {
      IndentLonger(OtherLines(text));
    }
  }

  lemma BlockLonger(rendered: string)
    requires rendered != ""
    ensures |Block(rendered, "\n")| < |Block(rendered, "\r\n")|
  {
    IndentLonger(rendered);
    BlockAssembled(rendered, "\n", "");
    BlockAssembled(rendered, "\r\n", "");
  }

  lemma RemovedLayout(corefile: string, d: string, p: Place, domain: string, parses: string -> bool)
    requires Around(INITIAL, corefile, p) && d == p.pre + p.post && Inspect(d, domain, parses).Success?
    ensures Inspect(d, domain, parses).value.blockStart < 0
  {
    assert p.pre + "" + p.post == d;
    WithoutBlock(INITIAL, p, corefile);
    var t := InspectScans(d, domain, parses);
  }

  lemma PlaceOfNone(d: string, domain: string, parses: string -> bool) returns (q: Place)
    requires Inspect(d, domain, parses).Success? && Inspect(d, domain, parses).value.blockStart < 0
    ensures Around(INITIAL, d, q) && At(Inspect(d, domain, parses).value, q) && q.block == ""
    ensures q.pre + q.post == d && |q.pre| == Inspect(d, domain, parses).value.insertAt
  {
    q := Locate(d, domain, parses);
    assert q.pre + q.block + q.post == q.pre + q.post;
  }

  lemma RemovedInsertAt(corefile: string, d: string, p: Place, domain: string, parses: string -> bool)
    requires Inspect(corefile, domain, parses).Success? && Around(INITIAL, corefile, p)
    requires d == p.pre + p.post && Inspect(d, domain, parses).Success?
    ensures Inspect(d, domain, parses).value.insertAt == Inspect(corefile, domain, parses).value.insertAt
  {
    assert corefile[..|p.pre|] == p.pre && d[..|p.pre|] == p.pre;
    InsertAtIs(corefile, p, domain, parses);
    InsertAtIs(d, p, domain, parses);
  }

  /** Where the scanner finds a place for a block once the block is removed. */
  lemma RemovedPlace(corefile: string, d: string, p: Place, domain: string, parses: string -> bool) returns (q: Place)
    requires Inspect(corefile, domain, parses).Success? && Around(INITIAL, corefile, p)
    requires d == p.pre + p.post && Inspect(d, domain, parses).Success?
    ensures Around(INITIAL, d, q) && At(Inspect(d, domain, parses).value, q) && q.block == ""
    ensures d == q.pre + q.post && |q.pre| == Inspect(corefile, domain, parses).value.insertAt
  {
    RemovedLayout(corefile, d, p, domain, parses);
    RemovedInsertAt(corefile, d, p, domain, parses);
    q := PlaceOfNone(d, domain, parses);
  }

  lemma SameRoute(p: Place, q: Place, b: string, c: string)
    requires p.pre + p.post == q.pre + q.post
    requires |p.pre| == |q.pre| && b == c
    ensures p.pre + b + p.post == q.pre + c + q.post
  {
    var d := p.pre + p.post;
    assert p.pre == d[..|p.pre|] == q.pre && p.post == d[|p.pre|..] == q.post;
  }

  /** Two accepted texts with a new block each are equal only if the blocks are and stand in the same place. */
  lemma SameBlocks(c: string, p: Place, d: string, q: Place, rendered: string, newline: string, other: string,
                   domain: string, parses: string -> bool)
    requires Around(INITIAL, c, p) && Around(INITIAL, d, q) && p.pre + p.post == q.pre + q.post
    requires IsNewline(newline) && IsNewline(other) && rendered != ""
    requires Inspect(p.pre + Block(rendered, newline) + p.post, domain, parses).Success?
    requires Inspect(q.pre + Block(rendered, other) + q.post, domain, parses).Success?
    ensures p.pre + Block(rendered, newline) + p.post == q.pre + Block(rendered, other) + q.post
       <==> |p.pre| == |q.pre| && newline == other
  {
    LayoutAfter(p, c, rendered, newline, domain, parses);
    LayoutAfter(q, d, rendered, other, domain, parses);
    BlockLonger(rendered);
    if |p.pre| == |q.pre| && newline == other {
      SameRoute(p, q, Block(rendered, newline), Block(rendered, other));
    }
  }

  /** The case left: after a removal, a new block goes right below the root line. It gives the file an update in
      one step would have given exactly if the old block was there and did not hold the file's only carriage
      returns. */
  lemma PutAfterRemoval(corefile: string, d: string, rendered: string, domain: string, parses: string -> bool)
    requires Update(corefile, "", domain, parses) == Success(d) && rendered != ""
    requires Inspect(corefile, domain, parses).value.blockStart >= 0
    requires Update(corefile, rendered, domain, parses).Success? && Update(d, rendered, domain, parses).Success?
    ensures var l := Inspect(corefile, domain, parses).value;
            (Update(d, rendered, domain, parses) == Update(corefile, rendered, domain, parses)
             <==> l.blockStart == l.insertAt && Newline(d) == Newline(corefile))
  {
    var p, q := RemovalPlaces(corefile, d, domain, parses);
    UpdateAt(corefile, p, rendered, domain, parses);
    UpdateAt(d, q, rendered, domain, parses);
    NewlineIs(corefile);
    NewlineIs(d);
    SameBlocks(corefile, p, d, q, rendered, Newline(corefile), Newline(d), domain, parses);
  }

  lemma RemovalPlaces(corefile: string, d: string, domain: string, parses: string -> bool) returns (p: Place, q: Place)
    requires Update(corefile, "", domain, parses) == Success(d)
    ensures Inspect(corefile, domain, parses).Success? && Inspect(d, domain, parses).Success?
    ensures Around(INITIAL, corefile, p) && At(Inspect(corefile, domain, parses).value, p)
    ensures Around(INITIAL, d, q) && At(Inspect(d, domain, parses).value, q)
    ensures p.pre + p.post == q.pre + q.post && |q.pre| == Inspect(corefile, domain, parses).value.insertAt
  {
    p := RemovalText(corefile, d, domain, parses);
    q := RemovedPlace(corefile, d, p, domain, parses);
  }

  lemma RemovalText(corefile: string, d: string, domain: string, parses: string -> bool) returns (p: Place)
    requires Update(corefile, "", domain, parses) == Success(d)
    ensures Inspect(corefile, domain, parses).Success? && Inspect(d, domain, parses).Success?
    ensures Around(INITIAL, corefile, p) && At(Inspect(corefile, domain, parses).value, p) && d == p.pre + p.post
  {
    UpdateFrames(corefile, "", domain, parses);
    p := UpdateIs(corefile, "", domain, parses);
    NoBlock(p.pre, Newline(corefile), p.post);
  }

  lemma NoBlock(pre: string, newline: string, post: string)
    ensures pre + Block("", newline) + post == pre + post
  {
  }

  // ---------------------------------------------------------------- reading back

  /** The scanner's state after a start marker. */
  function Begun(s: Scan, n: nat): Scan {
    s.(blockStart := s.offset, contentStart := s.offset + n, inManaged := true, offset := s.offset + n)
  }

  /** The scanner's state after an end marker. */
  function Ended(s: Scan, n: nat): Scan {
    s.(contentEnd := s.offset, blockEnd := s.offset + n, inManaged := false, offset := s.offset + n)
  }

  lemma MarkerCode(line: string)
    requires IsMarker(line)
    ensures Fields(Code(Trim(line))) == []
  {
    assert START[0] == '#' && END[0] == '#';
    assert Code(Trim(line)) == "";
    assert Fields("") == [];
  }

  lemma StartScanned(s: Scan, line: string)
    requires Ready(s) && Trim(line) == START
    ensures ScanLine(s, line) == Success(Begun(s, |line|))
  {
    MarkerCode(line);
    DeltaMarker(line);
    assert ScanRoot(s, line) == Success(s);
  }

  lemma EndScanned(s: Scan, line: string)
    requires Inside(s) && s.blockStart >= 0 && s.blockEnd < 0 && Trim(line) == END
    ensures ScanLine(s, line) == Success(Ended(s, |line|))
  {
    MarkerCode(line);
    DeltaMarker(line);
    assert START[2] == 'B' && END[2] == 'E';
    assert ScanRoot(s, line) == Success(s);
  }

  /** The scanner's state after a whole block. */
  function Passed(s: Scan, first: string, content: string, last: string): Scan {
    Ended(Moved(Begun(s, |first|), |content|), |last|)
  }

  lemma BlockPassed(s: Scan, first: string, content: string, last: string, post: string)
    requires Ready(s) && Whole(first) && Whole(content) && Whole(last)
    requires first != "" && FirstLine(first) == first && Trim(first) == START
    requires last != "" && FirstLine(last) == last && Trim(last) == END
    requires ScanText(Begun(s, |first|), content) == Success(Moved(Begun(s, |first|), |content|))
    ensures ScanText(s, first + (content + (last + post))) == ScanText(Passed(s, first, content, last), post)
  {
    StartScanned(s, first);
    ScanLineThen(s, first, content + (last + post));
    var s1 := Begun(s, |first|);
    ScanConcat(s1, content, last + post);
    var s2 := Moved(s1, |content|);
    EndScanned(s2, last);
    ScanLineThen(s2, last, post);
  }

  /** A block of valid aliases is accepted by the scanner wherever a block may be. */
  lemma AliasesScanned(s: Scan, p: Place, corefile: string, aliases: seq<Alias>, domain: string, newline: string)
    returns (t: Scan)
    requires Around(s, corefile, p) && ValidAliases(aliases) && aliases != [] && Word(domain) && IsNewline(newline)
    ensures var block, content := Block(Render(aliases, domain), newline), Indent(Render(aliases, domain), newline);
            && ScanText(s, p.pre + block + p.post) == Success(t) && Finished(t)
            && t.blockStart == |p.pre| && t.contentStart == |p.pre| + |MarkLine(START, newline)|
            && t.contentEnd == t.contentStart + |content| && t.blockEnd == |p.pre| + |block|
  {
    var rendered := Render(aliases, domain);
    var first, last, content := MarkLine(START, newline), MarkLine(END, newline), Indent(rendered, newline);
    RenderFirst(aliases, domain);
    AroundScan(s, p, corefile, Block(rendered, newline));
    BlockAssembled(rendered, newline, p.post);
    MarkLineShape(START, newline);
    MarkLineShape(END, newline);
    IndentWhole(rendered, newline);
    BlockScanned(Begun(p.before, |first|), aliases, domain, newline);
    BlockPassed(p.before, first, content, last, p.post);
    var after := Passed(p.before, first, content, last);
    TextAlike(p.after, after, p.post);
    t := ScanText(after, p.post).value;
  }

  lemma ContentAt(pre: string, rendered: string, newline: string, post: string)
    requires rendered != "" && IsNewline(newline)
    ensures var d := pre + Block(rendered, newline) + post;
            var i := |pre| + |MarkLine(START, newline)|;
            && i + |Indent(rendered, newline)| <= |d|
            && d[i..i + |Indent(rendered, newline)|] == Indent(rendered, newline)
  {
    var first, last, content := MarkLine(START, newline), MarkLine(END, newline), Indent(rendered, newline);
    BlockParts(rendered, newline);
    assert pre + Block(rendered, newline) + post == (pre + first) + content + (last + post);
  }

  /** The size of a block's content is within the parser's bound. */
  predicate Fits(aliases: seq<Alias>, domain: string, newline: string) {
    |Indent(Render(aliases, domain), newline)| <= MAX_MANAGED
  }

  lemma InspectFinished(d: string, domain: string, parses: string -> bool, t: Scan)
    requires ScanText(INITIAL, d) == Success(t) && Finished(t) && d != ""
    ensures Inspect(d, domain, parses)
         == if |d| > MAX_COREFILE || !parses(d) then Failure(Unavailable) else Conclude(t, d, domain)
  {
  }

  lemma ConcludeBlock(t: Scan, d: string, content: string, domain: string, aliases: seq<Alias>)
    requires Finished(t) && t.blockStart >= 0 && t.blockEnd >= 0
    requires 0 <= t.contentStart <= t.contentEnd <= |d| && d[t.contentStart..t.contentEnd] == content
    requires ParseLines(content, domain, []) == Success(aliases)
    ensures Conclude(t, d, domain)
         == if |content| > MAX_MANAGED then Failure(Unmanaged)
            else Success(Layout(t.insertAt, t.blockStart, t.blockEnd, Render(aliases, domain), aliases))
  {
  }

  lemma ConcludeBroken(t: Scan, d: string, content: string, domain: string)
    requires Finished(t) && t.blockStart >= 0 && t.blockEnd >= 0
    requires 0 <= t.contentStart <= t.contentEnd <= |d| && d[t.contentStart..t.contentEnd] == content
    requires ParseLines(content, domain, []) == Failure(Unmanaged)
    ensures Conclude(t, d, domain) == Failure(Unmanaged)
  {
  }

  lemma ConcludeEither(t: Scan, d: string, content: string, domain: string, aliases: seq<Alias>, readable: bool)
    requires Finished(t) && t.blockStart >= 0 && t.blockEnd >= 0
    requires 0 <= t.contentStart <= t.contentEnd <= |d| && d[t.contentStart..t.contentEnd] == content
    requires ParseLines(content, domain, []) == if readable then Success(aliases) else Failure(Unmanaged)
    ensures Conclude(t, d, domain).Success? <==> |content| <= MAX_MANAGED && readable
    ensures Conclude(t, d, domain).Success? ==>
              && Conclude(t, d, domain).value.aliases == aliases
              && Conclude(t, d, domain).value.rendered == Render(aliases, domain)
  {
    if readable {
      ConcludeBlock(t, d, content, domain, aliases);
    } else {
      ConcludeBroken(t, d, content, domain);
    }
  }

  /** A text whose scan finishes and whose managed block holds this content. */
  predicate Holding(d: string, t: Scan, content: string) {
    && d != "" && ScanText(INITIAL, d) == Success(t) && Finished(t) && t.blockStart >= 0 && t.blockEnd >= 0
    && 0 <= t.contentStart <= t.contentEnd <= |d| && d[t.contentStart..t.contentEnd] == content
  }

  lemma BlockHeld(p: Place, corefile: string, aliases: seq<Alias>, domain: string, newline: string) returns (t: Scan)
    requires Around(INITIAL, corefile, p) && ValidAliases(aliases) && aliases != []
    requires Word(domain) && IsNewline(newline)
    ensures var rendered := Render(aliases, domain);
            Holding(p.pre + Block(rendered, newline) + p.post, t, Indent(rendered, newline))
  {
    RenderFirst(aliases, domain);
    t := AliasesScanned(INITIAL, p, corefile, aliases, domain, newline);
    HeldAt(p, Render(aliases, domain), newline, t);
  }

  lemma HeldAt(p: Place, rendered: string, newline: string, t: Scan)
    requires rendered != "" && IsNewline(newline)
    requires ScanText(INITIAL, p.pre + Block(rendered, newline) + p.post) == Success(t) && Finished(t)
    requires t.blockStart == |p.pre| && t.contentStart == |p.pre| + |MarkLine(START, newline)| && t.blockEnd >= 0
    requires t.contentEnd == t.contentStart + |Indent(rendered, newline)|
    ensures Holding(p.pre + Block(rendered, newline) + p.post, t, Indent(rendered, newline))
  {
    ContentAt(p.pre, rendered, newline, p.post);
    BlockAssembled(rendered, newline, p.post);
    MarkLineShape(START, newline);
  }

  lemma PutSome(p: Place, corefile: string, aliases: seq<Alias>, domain: string, newline: string,
                parses: string -> bool)
    requires Around(INITIAL, corefile, p) && ValidAliases(aliases) && aliases != []
    requires Word(domain) && IsNewline(newline)
    ensures var d := p.pre + Block(Render(aliases, domain), newline) + p.post;
            var r := Inspect(d, domain, parses);
            && (r.Success? <==> |d| <= MAX_COREFILE && parses(d) && Fits(aliases, domain, newline) && Readable(domain))
            && (r.Success? ==> r.value.aliases == aliases && r.value.rendered == Render(aliases, domain))
  {
    var t := BlockHeld(p, corefile, aliases, domain, newline);
    BlockReadBack(aliases, domain, newline, []);
    assert [] + aliases == aliases;
    HeldInspected(p.pre + Block(Render(aliases, domain), newline) + p.post, t, Indent(Render(aliases, domain), newline),
                  domain, aliases, parses);
  }

  lemma HeldInspected(d: string, t: Scan, content: string, domain: string, aliases: seq<Alias>, parses: string -> bool)
    requires Holding(d, t, content)
    requires ParseLines(content, domain, []) == if Readable(domain) then Success(aliases) else Failure(Unmanaged)
    ensures var r := Inspect(d, domain, parses);
            && (r.Success? <==> |d| <= MAX_COREFILE && parses(d) && |content| <= MAX_MANAGED && Readable(domain))
            && (r.Success? ==> r.value.aliases == aliases && r.value.rendered == Render(aliases, domain))
  {
    InspectFinished(d, domain, parses, t);
    ConcludeEither(t, d, content, domain, aliases, Readable(domain));
  }

  lemma PutNone(p: Place, corefile: string, domain: string, parses: string -> bool)
    requires Around(INITIAL, corefile, p)
    ensures var d := p.pre + "" + p.post;
            var r := Inspect(d, domain, parses);
            && (r.Success? <==> |d| <= MAX_COREFILE && parses(d))
            && (r.Success? ==> r.value.aliases == [] && r.value.rendered == "")
  {
    var d := p.pre + "" + p.post;
    WithoutBlock(INITIAL, p, corefile);
    var t := ScanText(INITIAL, d).value;
    TextSound(INITIAL, d);
    assert d != "";
    InspectFinished(d, domain, parses, t);
  }

  /** The text an update would store. */
  function Candidate(corefile: string, rendered: string, domain: string, parses: string -> bool): string
    requires Inspect(corefile, domain, parses).Success?
  {
    Splice(corefile, Inspect(corefile, domain, parses).value, Block(rendered, Newline(corefile)))
  }

  /** Put-get. An update with valid aliases succeeds exactly if the new text is within the bounds and parses, and
      either there are no aliases or the cluster domain is one the parser can read; and then reading gives back
      those aliases and their rendering. */
  lemma PutGet(corefile: string, aliases: seq<Alias>, domain: string, parses: string -> bool)
    requires Inspect(corefile, domain, parses).Success? && ValidAliases(aliases) && Word(domain)
    ensures var rendered := Render(aliases, domain);
            var d := Candidate(corefile, rendered, domain, parses);
            var r := Update(corefile, rendered, domain, parses);
            && (r.Success? <==>
                  && |d| <= MAX_COREFILE && parses(d)
                  && (aliases != [] ==> Fits(aliases, domain, Newline(corefile)) && Readable(domain)))
            && (r.Success? ==>
                  && r.value == d && Inspect(d, domain, parses).Success?
                  && Inspect(d, domain, parses).value.aliases == aliases
                  && Inspect(d, domain, parses).value.rendered == rendered)
  {
    var rendered := Render(aliases, domain);
    var p := UpdateIs(corefile, rendered, domain, parses);
    var newline := Newline(corefile);
    SpliceIs(corefile, Inspect(corefile, domain, parses).value, p, Block(rendered, newline));
    NewlineIs(corefile);
    if aliases == [] {
      PutNone(p, corefile, domain, parses);
    } else {
      PutSome(p, corefile, aliases, domain, newline, parses);
    }
  }
}
