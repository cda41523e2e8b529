/** How the Corefile scanner behaves over concatenated text: it keeps its invariant, it can be cut at the lines
    that matter, and it does not care where in the file it is. */
module CorefileScan {
  import opened Replies
  import opened Text
  import opened CorefileSpec

  // ---------------------------------------------------------------- the scanner's invariant

  predicate Sound(s: Scan) {
    && 0 <= s.depth
    && (s.inRoot ==> s.rootFound && s.depth > 0)
    && (s.blockStart < 0 ==> s.blockEnd < 0)
    && (s.inManaged <==> s.blockStart >= 0 && s.blockEnd < 0)
    && (s.blockStart >= 0 ==> s.blockStart < s.contentStart <= s.offset)
    && (s.blockEnd >= 0 ==> s.contentStart <= s.contentEnd < s.blockEnd <= s.offset)
    && (s.rootFound ==> s.insertAt <= s.offset)
  }

  /** What later lines leave alone. */
  predicate Extends(s: Scan, t: Scan) {
    && (s.blockStart >= 0 ==> t.blockStart == s.blockStart && t.contentStart == s.contentStart)
    && (s.blockEnd >= 0 ==> t.blockEnd == s.blockEnd && t.contentEnd == s.contentEnd)
    && (s.rootFound ==> t.rootFound && t.insertAt == s.insertAt)
    && (s.hasKubernetes ==> t.hasKubernetes)
    && (s.hasReload ==> t.hasReload)
  }

  lemma LineSound(s: Scan, line: string)
    requires Sound(s) && line != "" && ScanLine(s, line).Success?
    ensures Sound(ScanLine(s, line).value) && Extends(s, ScanLine(s, line).value)
    ensures ScanLine(s, line).value.offset == s.offset + |line|
  {
  }

  lemma {:induction false} TextSound(s: Scan, text: string)
    requires Sound(s) && ScanText(s, text).Success?
    ensures Sound(ScanText(s, text).value) && Extends(s, ScanText(s, text).value)
    ensures ScanText(s, text).value.offset == s.offset + |text|
    decreases |text|
  {
    if text != "" {
      LineSound(s, FirstLine(text));
      TextSound(ScanLine(s, FirstLine(text)).value, OtherLines(text));
    }
  }

  /** Scanning whole lines and then more text is scanning the two in turn. */
  lemma {:induction false} ScanConcat(s: Scan, a: string, b: string)
    requires Whole(a)
    ensures ScanText(s, a + b)
         == (if ScanText(s, a).Failure? then ScanText(s, a) else ScanText(ScanText(s, a).value, b))
    decreases |a|
  {
    if a == "" {
      assert a + b == b;
    } else {
      FirstLineConcat(a, b);
      FirstLineIs(a);
      if ScanLine(s, FirstLine(a)).Success? {
        ScanConcat(ScanLine(s, FirstLine(a)).value, OtherLines(a), b);
      }
    }
  }

  lemma ScanOne(s: Scan, line: string)
    requires line != "" && FirstLine(line) == line
    ensures ScanText(s, line) == ScanLine(s, line)
  {
  }

  // ---------------------------------------------------------------- text without markers

  predicate Unmarked(text: string)
    decreases |text|
  {
    text == "" || (!IsMarker(FirstLine(text)) && Unmarked(OtherLines(text)))
  }

  /** Equal but for positions in the file. */
  predicate Alike(s: Scan, t: Scan) {
    && s.depth == t.depth && s.rootFound == t.rootFound && s.inRoot == t.inRoot && s.inManaged == t.inManaged
    && s.hasKubernetes == t.hasKubernetes && s.hasReload == t.hasReload
  }

  predicate SameBlock(s: Scan, t: Scan) {
    && s.blockStart == t.blockStart && s.contentStart == t.contentStart
    && s.blockEnd == t.blockEnd && s.contentEnd == t.contentEnd
  }

  lemma RootAlike(s: Scan, t: Scan, line: string)
    requires Alike(s, t) && ScanRoot(s, line).Success?
    ensures ScanRoot(t, line).Success? && Alike(ScanRoot(s, line).value, ScanRoot(t, line).value)
    ensures SameBlock(t, ScanRoot(t, line).value)
  {
  }

  lemma DirectiveAlike(s: Scan, t: Scan, line: string)
    requires Alike(s, t) && ScanDirective(s, line).Success?
    ensures ScanDirective(t, line).Success? && Alike(ScanDirective(s, line).value, ScanDirective(t, line).value)
    ensures SameBlock(t, ScanDirective(t, line).value)
  {
  }

  lemma BracesAlike(s: Scan, t: Scan, line: string)
    requires Alike(s, t) && ScanBraces(s, line).Success?
    ensures ScanBraces(t, line).Success? && Alike(ScanBraces(s, line).value, ScanBraces(t, line).value)
    ensures SameBlock(t, ScanBraces(t, line).value)
  {
  }

  /** A line that is not a marker goes through three of the four stages. */
  lemma LineStages(s: Scan, line: string)
    requires !IsMarker(line)
    ensures var a := ScanRoot(s, line);
            ScanLine(s, line) == if a.Failure? then a
                                 else
                                   var c := ScanDirective(a.value, line);
                                   if c.Failure? then c else ScanBraces(c.value, line)
  {
  }

  lemma LineAlike(s: Scan, t: Scan, line: string)
    requires Alike(s, t) && !IsMarker(line) && ScanLine(s, line).Success?
    ensures ScanLine(t, line).Success? && Alike(ScanLine(s, line).value, ScanLine(t, line).value)
    ensures SameBlock(t, ScanLine(t, line).value)
  {
    LineStages(s, line);
    LineStages(t, line);
    RootAlike(s, t, line);
    var s1, t1 := ScanRoot(s, line).value, ScanRoot(t, line).value;
    DirectiveAlike(s1, t1, line);
    BracesAlike(ScanDirective(s1, line).value, ScanDirective(t1, line).value, line);
  }

  /** Text without markers is read in the same way wherever the file puts it. */
  lemma {:induction false} TextAlike(s: Scan, t: Scan, text: string)
    requires Alike(s, t) && Unmarked(text) && ScanText(s, text).Success?
    ensures ScanText(t, text).Success? && Alike(ScanText(s, text).value, ScanText(t, text).value)
    ensures SameBlock(t, ScanText(t, text).value)
    decreases |text|
  {
    if text != "" {
      LineAlike(s, t, FirstLine(text));
      TextAlike(ScanLine(s, FirstLine(text)).value, ScanLine(t, FirstLine(text)).value, OtherLines(text));
    }
  }

  /** A second block is refused, and so is one of which the markers are out of order. */
  lemma {:induction false} NoMoreMarkers(s: Scan, text: string)
    requires Sound(s) && ScanText(s, text).Success?
    requires s.blockEnd >= 0 || ScanText(s, text).value.blockStart < 0
    ensures Unmarked(text)
    decreases |text|
  {
    if text != "" {
      var r := ScanLine(s, FirstLine(text));
      LineSound(s, FirstLine(text));
      TextSound(r.value, OtherLines(text));
      NoMoreMarkers(r.value, OtherLines(text));
    }
  }

  // ---------------------------------------------------------------- cutting at a line

  /** A text is cut in two: the state in between is `mid`. */
  predicate Cut(s: Scan, text: string, pre: string, mid: Scan, post: string) {
    && text == pre + post && (post != "" ==> Whole(pre))
    && ScanText(s, pre) == Success(mid) && ScanText(mid, post) == ScanText(s, text)
    && mid.offset == s.offset + |pre| && Sound(mid)
  }

  lemma ScanFirst(s: Scan, text: string, pre: string)
    requires text != "" && ScanLine(s, FirstLine(text)).Success?
    requires pre != "" ==> Whole(FirstLine(text))
    ensures ScanText(s, FirstLine(text) + pre) == ScanText(ScanLine(s, FirstLine(text)).value, pre)
  {
    var line := FirstLine(text);
    OneLineOf(text);
    if pre == "" {
      assert line + pre == line;
    } else {
      FirstLineIs(line);
      FirstLineConcat(line, pre);
      assert OtherLines(line) + pre == pre;
    }
  }

  lemma JoinWhole(line: string, pre: string, post: string)
    requires post != "" ==> Whole(pre)
    requires pre + post != "" ==> Whole(line)
    ensures post != "" ==> Whole(line + pre)
  {
    if pre == "" {
      assert line + pre == line;
    } else {
      assert (line + pre)[|line + pre| - 1] == pre[|pre| - 1];
    }
  }

  lemma ScanUnfold(s: Scan, text: string)
    requires text != "" && ScanLine(s, FirstLine(text)).Success?
    ensures ScanText(s, text) == ScanText(ScanLine(s, FirstLine(text)).value, OtherLines(text))
  {
  }

  lemma JoinFirst(text: string, pre: string, post: string)
    requires OtherLines(text) == pre + post
    ensures text == (FirstLine(text) + pre) + post
  {
    FirstLineIs(text);
  }

  /** A cut after the first line of what follows moves on by one line. */
  lemma CutLonger(s: Scan, text: string, pre: string, mid: Scan, post: string)
    requires Sound(s) && text != "" && ScanLine(s, FirstLine(text)).Success?
    requires Cut(ScanLine(s, FirstLine(text)).value, OtherLines(text), pre, mid, post)
    ensures Cut(s, text, FirstLine(text) + pre, mid, post)
  {
    LineSound(s, FirstLine(text));
    FirstLineIs(text);
    JoinFirst(text, pre, post);
    JoinWhole(FirstLine(text), pre, post);
    ScanFirst(s, text, pre);
    ScanUnfold(s, text);
  }

  /** The first line of a text is one line. */
  lemma {:induction false} OneLineOf(text: string)
    requires text != ""
    ensures FirstLine(FirstLine(text)) == FirstLine(text)
  {
    if text[0] != '\n' && |text| > 1 {
      OneLineOf(text[1..]);
      assert FirstLine(text) == [text[0]] + FirstLine(text[1..]);
      assert FirstLine(text)[1..] == FirstLine(text[1..]);
    }
  }

  lemma CutHere(s: Scan, text: string)
    requires Sound(s)
    ensures Cut(s, text, "", s, text)
  {
    assert text == "" + text;
  }

  lemma CutAfterLine(s: Scan, text: string, mid: Scan)
    requires Sound(s) && text != "" && ScanLine(s, FirstLine(text)) == Success(mid)
    ensures Cut(s, text, FirstLine(text), mid, OtherLines(text))
  {
    LineSound(s, FirstLine(text));
    CutHere(mid, OtherLines(text));
    CutLonger(s, text, "", mid, OtherLines(text));
    assert FirstLine(text) + "" == FirstLine(text);
  }

  predicate Ordinary(c: char) {
    c != '\\' && c != '#' && c != '"' && c != '\'' && c != '{' && c != '}'
  }

  predicate Plain(s: string) {
    forall i | 0 <= i < |s| :: Ordinary(s[i])
  }

  /** Plain text does not change the depth. */
  lemma {:induction false} DeltaPlain(plain: string, rest: string)
    requires Plain(plain)
    ensures BraceDelta(plain + rest, None, false) == BraceDelta(rest, None, false)
  {
    if plain == "" {
      assert plain + rest == rest;
    } else {
      assert (plain + rest)[0] == plain[0] && (plain + rest)[1..] == plain[1..] + rest;
      DeltaPlain(plain[1..], rest);
    }
  }

  lemma DeltaRoot(line: string)
    requires Trim(line) == ROOT
    ensures BraceDelta(line, None, false) == 1
  {
    var left, right := TrimSplits(line);
    var head := left + ".:53 ";
    assert line == head + ("{" + right);
    DeltaPlain(head, "{" + right);
    assert ("{" + right)[1..] == right;
    DeltaPlain(right, "");
    assert right + "" == right;
  }

  /** A comment line does not change the depth. */
  lemma DeltaMarker(line: string)
    requires IsMarker(line)
    ensures BraceDelta(line, None, false) == 0
  {
    var left, right := TrimSplits(line);
    var mark := Trim(line);
    assert line == left + (mark + right);
    DeltaPlain(left, mark + right);
    assert (mark + right)[0] == '#';
  }

  /** The text up to and including the root line. */
  lemma {:induction false} CutRoot(s: Scan, text: string) returns (pre: string, mid: Scan, post: string)
    requires Sound(s) && !s.rootFound && s.blockStart < 0
    requires ScanText(s, text).Success? && ScanText(s, text).value.rootFound
    ensures Cut(s, text, pre, mid, post)
    ensures mid.inRoot && mid.depth == 1 && mid.blockStart < 0
    ensures mid.insertAt == mid.offset == ScanText(s, text).value.insertAt
    decreases |text|
  {
    var line := FirstLine(text);
    var next := ScanLine(s, line).value;
    LineSound(s, line);
    if IsRoot(s, line) {
      DeltaRoot(line);
      assert !IsMarker(line);
      pre, mid, post := line, next, OtherLines(text);
      CutAfterLine(s, text, next);
      TextSound(next, post);
    } else {
      assert !next.rootFound;
      var rest;
      rest, mid, post := CutRoot(next, OtherLines(text));
      pre := line + rest;
      CutLonger(s, text, rest, mid, post);
    }
  }

  /** The text before the start marker. */
  lemma {:induction false} CutStart(s: Scan, text: string) returns (pre: string, mid: Scan, post: string)
    requires Sound(s) && s.blockStart < 0
    requires ScanText(s, text).Success? && ScanText(s, text).value.blockStart >= 0
    ensures Cut(s, text, pre, mid, post)
    ensures post != "" && Trim(FirstLine(post)) == START
    ensures mid.inRoot && mid.depth == 1 && mid.blockStart < 0
    ensures mid.offset == ScanText(s, text).value.blockStart
    decreases |text|
  {
    var line := FirstLine(text);
    var next := ScanLine(s, line).value;
    LineSound(s, line);
    TextSound(next, OtherLines(text));
    if Trim(line) == START {
      pre, mid, post := "", s, text;
      CutHere(s, text);
    } else {
      assert next.blockStart < 0;
      var rest;
      rest, mid, post := CutStart(next, OtherLines(text));
      pre := line + rest;
      CutLonger(s, text, rest, mid, post);
    }
  }

  /** The text between the markers. */
  lemma {:induction false} CutEnd(s: Scan, text: string) returns (pre: string, mid: Scan, post: string)
    requires Sound(s) && s.inManaged
    requires ScanText(s, text).Success? && ScanText(s, text).value.blockEnd >= 0
    ensures Cut(s, text, pre, mid, post) && Unmarked(pre)
    ensures post != "" && Trim(FirstLine(post)) == END
    ensures mid.inRoot && mid.depth == 1 && mid.inManaged
    ensures mid.offset == ScanText(s, text).value.contentEnd
    decreases |text|
  {
    var line := FirstLine(text);
    var next := ScanLine(s, line).value;
    LineSound(s, line);
    TextSound(next, OtherLines(text));
    if Trim(line) == END {
      pre, mid, post := "", s, text;
      CutHere(s, text);
    } else {
      assert next.blockEnd < 0 && !IsMarker(line);
      var rest;
      rest, mid, post := CutEnd(next, OtherLines(text));
      pre := line + rest;
      CutLonger(s, text, rest, mid, post);
      OneLineOf(text);
      FirstLineIs(text);
      UnmarkedCons(line, rest);
    }
  }

  lemma UnmarkedCons(line: string, rest: string)
    requires line != "" && FirstLine(line) == line && !IsMarker(line) && Unmarked(rest)
    requires rest != "" ==> Whole(line)
    ensures Unmarked(line + rest)
  {
    FirstLineIs(line);
    if rest == "" {
      assert line + rest == line;
    } else {
      FirstLineConcat(line, rest);
      assert OtherLines(line) + rest == rest;
    }
  }
}
