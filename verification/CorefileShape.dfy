/** Which Corefiles the scanner accepts, said of the lines of the file and not of the scanner's state. */
module CorefileShape {
  import opened Replies
  import opened Text
  import opened CorefileSpec
  import opened CorefileScan

  function Lines(text: string): seq<string>
    decreases |text|
  {
    if text == "" then [] else [FirstLine(text)] + Lines(OtherLines(text))
  }

  // ---------------------------------------------------------------- the places in a file

  /** The nesting depth before line i: the sum of the brace changes of the lines before it. */
  function Depth(lines: seq<string>, i: nat): int
    requires i <= |lines|
  {
    if i == 0 then 0 else Depth(lines, i - 1) + BraceDelta(lines[i - 1], None, false)
  }

  /** A line that opens a root server block. */
  predicate RootLine(lines: seq<string>, i: nat) {
    i < |lines| && Depth(lines, i) == 0 && Trim(lines[i]) == ROOT
  }

  /** Line i comes after a root line whose block is still open. */
  ghost predicate InRoot(lines: seq<string>, i: nat)
    requires i <= |lines|
  {
    exists r: nat :: r < i && OpenSince(lines, r, i)
  }

  predicate OpenSince(lines: seq<string>, r: nat, i: nat)
    requires r < i <= |lines|
  {
    RootLine(lines, r) && forall j | r < j <= i :: Depth(lines, j) > 0
  }

  /** Line i stands at depth one of the root server block. */
  ghost predicate Top(lines: seq<string>, i: nat) {
    i < |lines| && InRoot(lines, i) && Depth(lines, i) == 1
  }

  predicate StartLine(lines: seq<string>, i: nat) {
    i < |lines| && Trim(lines[i]) == START
  }

  predicate EndLine(lines: seq<string>, i: nat) {
    i < |lines| && Trim(lines[i]) == END
  }

  /** Line i comes after a start marker that no end marker has followed. */
  ghost predicate Managed(lines: seq<string>, i: nat)
    requires i <= |lines|
  {
    exists a: nat :: a < i && ManagedSince(lines, a, i)
  }

  predicate ManagedSince(lines: seq<string>, a: nat, i: nat) {
    StartLine(lines, a) && forall b: nat | a < b < i :: !EndLine(lines, b)
  }

  /** The first word of a line before any comment. */
  predicate Begins(line: string, word: string) {
    var fields := Fields(Code(Trim(line)));
    fields != [] && fields[0] == word
  }

  /** A directive of the root server block. */
  ghost predicate Directive(lines: seq<string>, i: nat, word: string) {
    Top(lines, i) && Begins(lines[i], word)
  }

  // ---------------------------------------------------------------- the shape of a file

  ghost predicate FirstRoot(lines: seq<string>, i: nat) {
    RootLine(lines, i) ==> forall r: nat | r < i :: !RootLine(lines, r)
  }

  ghost predicate MarkerInPlace(lines: seq<string>, i: nat) {
    && (StartLine(lines, i) || EndLine(lines, i) ==> Top(lines, i))
    && (StartLine(lines, i) ==> forall a: nat | a < i :: !StartLine(lines, a))
    && (EndLine(lines, i) ==>
          && (exists a: nat :: a < i && StartLine(lines, a))
          && forall b: nat | b < i :: !EndLine(lines, b))
  }

  ghost predicate NoForeignRewrite(lines: seq<string>, i: nat)
    requires i <= |lines|
  {
    Directive(lines, i, "rewrite") ==> Managed(lines, i)
  }

  ghost predicate LineOk(lines: seq<string>, i: nat)
    requires i < |lines|
  {
    && FirstRoot(lines, i) && MarkerInPlace(lines, i) && NoForeignRewrite(lines, i)
    && Depth(lines, i + 1) >= 0
  }

  /** Which error a line that is not in order gives: the first rule it breaks decides. */
  ghost function LineFault(lines: seq<string>, i: nat): Fault
    requires i < |lines|
  {
    if FirstRoot(lines, i) && (!MarkerInPlace(lines, i) || !NoForeignRewrite(lines, i)) then Unmanaged
    else Unavailable
  }

  /** The first line that is not in order. */
  ghost predicate FirstBad(lines: seq<string>, i: nat) {
    i < |lines| && !LineOk(lines, i) && forall j: nat | j < i :: LineOk(lines, j)
  }

  ghost predicate Plugged(lines: seq<string>) {
    && Depth(lines, |lines|) == 0
    && (exists r: nat :: RootLine(lines, r))
    && (exists i: nat :: Directive(lines, i, "kubernetes"))
    && (exists i: nat :: Directive(lines, i, "reload"))
  }

  ghost predicate BothMarkers(lines: seq<string>) {
    (exists a: nat :: StartLine(lines, a)) ==> exists b: nat :: EndLine(lines, b)
  }

  /** What the scanner demands of a file: one root server block, no brace closed too often and none left open, a
      rewrite at the top of the block only between the markers, both plugins at the top of the block, and either no
      marker or one start and one end marker, in this order, at the top of the block. */
  ghost predicate WellShaped(lines: seq<string>) {
    && (forall i: nat | i < |lines| :: LineOk(lines, i))
    && Plugged(lines)
    && BothMarkers(lines)
  }

  // ---------------------------------------------------------------- one line further

  ghost predicate SomeBefore(f: nat -> bool, i: nat) {
    exists r: nat :: r < i && f(r)
  }

  lemma SomeNext(f: nat -> bool, i: nat)
    ensures SomeBefore(f, i + 1) <==> SomeBefore(f, i) || f(i)
  {
    if SomeBefore(f, i) {
      var r: nat :| r < i && f(r);
      assert r < i + 1 && f(r);
    }
    if f(i) {
      assert i < i + 1 && f(i);
    }
  }

  ghost function Roots(lines: seq<string>): nat -> bool {
    (i: nat) => RootLine(lines, i)
  }

  ghost function Starts(lines: seq<string>): nat -> bool {
    (i: nat) => StartLine(lines, i)
  }

  ghost function Ends(lines: seq<string>): nat -> bool {
    (i: nat) => EndLine(lines, i)
  }

  ghost function Directives(lines: seq<string>, word: string): nat -> bool {
    (i: nat) => Directive(lines, i, word)
  }

  lemma InRootNext(lines: seq<string>, i: nat)
    requires i < |lines|
    ensures InRoot(lines, i + 1) <==> (InRoot(lines, i) || RootLine(lines, i)) && Depth(lines, i + 1) > 0
  {
    if InRoot(lines, i + 1) {
      var r: nat :| r < i + 1 && OpenSince(lines, r, i + 1);
      assert r < i ==> OpenSince(lines, r, i);
    }
    if InRoot(lines, i) && Depth(lines, i + 1) > 0 {
      var r: nat :| r < i && OpenSince(lines, r, i);
      assert OpenSince(lines, r, i + 1);
    }
    if RootLine(lines, i) && Depth(lines, i + 1) > 0 {
      assert OpenSince(lines, i, i + 1);
    }
  }

  lemma ManagedNext(lines: seq<string>, i: nat)
    requires i < |lines|
    ensures Managed(lines, i + 1) <==> StartLine(lines, i) || (Managed(lines, i) && !EndLine(lines, i))
  {
    assert START[2] == 'B' && END[2] == 'E';
    if Managed(lines, i + 1) {
      var a: nat :| a < i + 1 && ManagedSince(lines, a, i + 1);
      assert a < i ==> ManagedSince(lines, a, i) && !EndLine(lines, i);
    }
    if Managed(lines, i) && !EndLine(lines, i) {
      var a: nat :| a < i && ManagedSince(lines, a, i);
      assert ManagedSince(lines, a, i + 1);
    }
    if StartLine(lines, i) {
      assert ManagedSince(lines, i, i + 1);
    }
  }

  // ---------------------------------------------------------------- the scanner's state says where it is

  ghost predicate Tracks(s: Scan, lines: seq<string>, i: nat)
    requires i <= |lines|
  {
    && s.depth == Depth(lines, i)
    && (s.rootFound <==> SomeBefore(Roots(lines), i))
    && (s.inRoot <==> InRoot(lines, i))
    && (s.inManaged <==> Managed(lines, i))
    && (s.blockStart >= 0 <==> SomeBefore(Starts(lines), i))
    && (s.blockEnd >= 0 <==> SomeBefore(Ends(lines), i))
    && (s.hasKubernetes <==> SomeBefore(Directives(lines, "kubernetes"), i))
    && (s.hasReload <==> SomeBefore(Directives(lines, "reload"), i))
  }

  lemma RootStage(s: Scan, lines: seq<string>, i: nat)
    requires i < |lines| && Tracks(s, lines, i) && Sound(s)
    ensures ScanRoot(s, lines[i]).Success? <==> FirstRoot(lines, i)
    ensures var r := ScanRoot(s, lines[i]);
            r.Success? ==>
              && r.value == s.(rootFound := r.value.rootFound, inRoot := r.value.inRoot, insertAt := r.value.insertAt)
              && (r.value.rootFound <==> SomeBefore(Roots(lines), i + 1))
              && (r.value.inRoot <==> InRoot(lines, i) || RootLine(lines, i))
              && (r.value.inRoot && s.depth == 1 <==> Top(lines, i))
  {
    SomeNext(Roots(lines), i);
    assert Roots(lines)(i) == RootLine(lines, i);
    assert SomeBefore(Roots(lines), i) <==> exists r: nat :: r < i && RootLine(lines, r) by {
      if SomeBefore(Roots(lines), i) {
        var r: nat :| r < i && Roots(lines)(r);
        assert RootLine(lines, r);
      }
      if exists r: nat :: r < i && RootLine(lines, r) {
        var r: nat :| r < i && RootLine(lines, r);
        assert Roots(lines)(r);
      }
    }
  }

  lemma SomeStart(lines: seq<string>, i: nat)
    ensures SomeBefore(Starts(lines), i) <==> exists a: nat :: a < i && StartLine(lines, a)
  {
    if SomeBefore(Starts(lines), i) {
      var r: nat :| r < i && Starts(lines)(r);
      assert StartLine(lines, r);
    }
    if exists r: nat :: r < i && StartLine(lines, r) {
      var r: nat :| r < i && StartLine(lines, r);
      assert Starts(lines)(r);
    }
  }

  lemma SomeEnd(lines: seq<string>, i: nat)
    ensures SomeBefore(Ends(lines), i) <==> exists a: nat :: a < i && EndLine(lines, a)
  {
    if SomeBefore(Ends(lines), i) {
      var r: nat :| r < i && Ends(lines)(r);
      assert EndLine(lines, r);
    }
    if exists r: nat :: r < i && EndLine(lines, r) {
      var r: nat :| r < i && EndLine(lines, r);
      assert Ends(lines)(r);
    }
  }

  lemma MarkerStage(s: Scan, lines: seq<string>, i: nat)
    requires i < |lines| && (s.inRoot && s.depth == 1 <==> Top(lines, i)) && s.offset >= 0
    requires s.inManaged <==> Managed(lines, i)
    requires s.blockStart >= 0 <==> SomeBefore(Starts(lines), i)
    requires s.blockEnd >= 0 <==> SomeBefore(Ends(lines), i)
    ensures ScanMarker(s, lines[i]).Success? <==> MarkerInPlace(lines, i)
    ensures var r := ScanMarker(s, lines[i]);
            r.Success? ==>
              && r.value == s.(blockStart := r.value.blockStart, contentStart := r.value.contentStart,
                               contentEnd := r.value.contentEnd, blockEnd := r.value.blockEnd,
                               inManaged := r.value.inManaged)
              && (r.value.inManaged <==> Managed(lines, i + 1))
              && (r.value.blockStart >= 0 <==> SomeBefore(Starts(lines), i + 1))
              && (r.value.blockEnd >= 0 <==> SomeBefore(Ends(lines), i + 1))
  {
    assert START[2] == 'B' && END[2] == 'E';
    SomeNext(Starts(lines), i);
    SomeNext(Ends(lines), i);
    SomeStart(lines, i);
    SomeEnd(lines, i);
    ManagedNext(lines, i);
    assert Starts(lines)(i) == StartLine(lines, i) && Ends(lines)(i) == EndLine(lines, i);
  }

  /** A marker line is a comment. */
  lemma MarkerIsComment(line: string)
    requires IsMarker(line)
    ensures Fields(Code(Trim(line))) == []
  {
    assert Trim(line)[0] == '#';
    assert Code(Trim(line)) == "";
  }

  /** On a line with words, being managed is the same before and after. */
  lemma WordsAreNoMarkers(lines: seq<string>, i: nat)
    requires i < |lines| && Fields(Code(Trim(lines[i]))) != []
    ensures Managed(lines, i + 1) <==> Managed(lines, i)
  {
    ManagedNext(lines, i);
    if IsMarker(lines[i]) {
      MarkerIsComment(lines[i]);
    }
  }

  lemma DirectiveStage(s: Scan, lines: seq<string>, i: nat)
    requires i < |lines| && (s.inRoot && s.depth == 1 <==> Top(lines, i))
    requires s.inManaged <==> Managed(lines, i + 1)
    requires s.hasKubernetes <==> SomeBefore(Directives(lines, "kubernetes"), i)
    requires s.hasReload <==> SomeBefore(Directives(lines, "reload"), i)
    ensures ScanDirective(s, lines[i]).Success? <==> NoForeignRewrite(lines, i)
    ensures var r := ScanDirective(s, lines[i]);
            r.Success? ==>
              && r.value == s.(hasKubernetes := r.value.hasKubernetes, hasReload := r.value.hasReload)
              && (r.value.hasKubernetes <==> SomeBefore(Directives(lines, "kubernetes"), i + 1))
              && (r.value.hasReload <==> SomeBefore(Directives(lines, "reload"), i + 1))
  {
    SomeNext(Directives(lines, "kubernetes"), i);
    SomeNext(Directives(lines, "reload"), i);
    if Fields(Code(Trim(lines[i]))) != [] {
      WordsAreNoMarkers(lines, i);
    }
  }

  lemma BracesStage(s: Scan, lines: seq<string>, i: nat)
    requires i < |lines| && s.depth == Depth(lines, i)
    requires s.inRoot <==> InRoot(lines, i) || RootLine(lines, i)
    ensures ScanBraces(s, lines[i]).Success? <==> Depth(lines, i + 1) >= 0
    ensures var r := ScanBraces(s, lines[i]);
            r.Success? ==>
              && r.value == s.(depth := Depth(lines, i + 1), inRoot := r.value.inRoot, offset := r.value.offset)
              && (r.value.inRoot <==> InRoot(lines, i + 1))
  {
    InRootNext(lines, i);
  }

  // ---------------------------------------------------------------- positions

  function Joined(lines: seq<string>): string {
    if lines == [] then "" else Joined(lines[..|lines| - 1]) + lines[|lines| - 1]
  }

  /** Where line i begins. */
  function Position(lines: seq<string>, i: nat): nat
    requires i <= |lines|
  {
    |Joined(lines[..i])|
  }

  lemma JoinedNext(lines: seq<string>, i: nat)
    requires i < |lines|
    ensures Joined(lines[..i + 1]) == Joined(lines[..i]) + lines[i]
    ensures Position(lines, i + 1) == Position(lines, i) + |lines[i]|
  {
    assert lines[..i + 1][..i] == lines[..i];
  }

  ghost predicate RootEnds(lines: seq<string>, r: nat, at: int) {
    RootLine(lines, r) && at == Position(lines, r + 1)
  }

  ghost predicate StartsAt(lines: seq<string>, a: nat, at: int, end: int) {
    StartLine(lines, a) && at == Position(lines, a) && end == Position(lines, a + 1)
  }

  ghost predicate EndsAt(lines: seq<string>, b: nat, at: int, end: int) {
    EndLine(lines, b) && at == Position(lines, b) && end == Position(lines, b + 1)
  }

  /** The positions the scanner keeps are those of the root line and of the marker lines. */
  ghost predicate Placed(s: Scan, lines: seq<string>, i: nat)
    requires i <= |lines|
  {
    && s.offset == Position(lines, i)
    && (s.rootFound ==> exists r: nat :: RootEnds(lines, r, s.insertAt))
    && (s.blockStart >= 0 ==> exists a: nat :: StartsAt(lines, a, s.blockStart, s.contentStart))
    && (s.blockEnd >= 0 ==> exists b: nat :: EndsAt(lines, b, s.contentEnd, s.blockEnd))
  }

  /** The positions a line sets. */
  predicate Moved(s: Scan, line: string, t: Scan) {
    && t.offset == s.offset + |line|
    && (t.rootFound ==> if IsRoot(s, line) then t.insertAt == t.offset else s.rootFound && t.insertAt == s.insertAt)
    && (if Trim(line) == START then t.blockStart == s.offset && t.contentStart == t.offset
        else t.blockStart == s.blockStart && t.contentStart == s.contentStart)
    && (if Trim(line) == END then t.contentEnd == s.offset && t.blockEnd == t.offset
        else t.contentEnd == s.contentEnd && t.blockEnd == s.blockEnd)
  }

  lemma LineMoves(s: Scan, line: string)
    requires ScanLine(s, line).Success?
    ensures Moved(s, line, ScanLine(s, line).value)
  {
    assert START[2] == 'B' && END[2] == 'E';
    var a := ScanRoot(s, line).value;
    var b := ScanMarker(a, line).value;
    assert a.offset == s.offset && b.offset == s.offset && b.insertAt == a.insertAt && b.rootFound == a.rootFound;
    LastStagesStay(b, line);
  }

  lemma LastStagesStay(b: Scan, line: string)
    requires ScanDirective(b, line).Success? && ScanBraces(ScanDirective(b, line).value, line).Success?
    ensures var t := ScanBraces(ScanDirective(b, line).value, line).value;
            && t == b.(depth := t.depth, inRoot := t.inRoot, offset := b.offset + |line|,
                       hasKubernetes := t.hasKubernetes, hasReload := t.hasReload)
  {
  }

  lemma StepPlaced(s: Scan, lines: seq<string>, i: nat, t: Scan)
    requires i < |lines| && Placed(s, lines, i) && s.depth == Depth(lines, i) && Moved(s, lines[i], t)
    ensures Placed(t, lines, i + 1)
  {
    JoinedNext(lines, i);
    if t.rootFound && IsRoot(s, lines[i]) {
      assert RootEnds(lines, i, t.insertAt);
    }
    if StartLine(lines, i) {
      assert StartsAt(lines, i, t.blockStart, t.contentStart);
    }
    if EndLine(lines, i) {
      assert EndsAt(lines, i, t.contentEnd, t.blockEnd);
    }
  }

  // ---------------------------------------------------------------- the whole file

  /** The last two stages. */
  lemma TailTracks(b: Scan, lines: seq<string>, i: nat)
    requires i < |lines| && (b.inRoot && b.depth == 1 <==> Top(lines, i)) && b.depth == Depth(lines, i)
    requires b.inRoot <==> InRoot(lines, i) || RootLine(lines, i)
    requires b.inManaged <==> Managed(lines, i + 1)
    requires b.rootFound <==> SomeBefore(Roots(lines), i + 1)
    requires b.blockStart >= 0 <==> SomeBefore(Starts(lines), i + 1)
    requires b.blockEnd >= 0 <==> SomeBefore(Ends(lines), i + 1)
    requires b.hasKubernetes <==> SomeBefore(Directives(lines, "kubernetes"), i)
    requires b.hasReload <==> SomeBefore(Directives(lines, "reload"), i)
    ensures var c := ScanDirective(b, lines[i]);
            && (c.Success? <==> NoForeignRewrite(lines, i))
            && (c.Success? ==>
                  var d := ScanBraces(c.value, lines[i]);
                  (d.Success? <==> Depth(lines, i + 1) >= 0) && (d.Success? ==> Tracks(d.value, lines, i + 1)))
  {
    DirectiveStage(b, lines, i);
    var c := ScanDirective(b, lines[i]);
    if c.Success? {
      BracesStage(c.value, lines, i);
    }
  }

  /** One line: the scanner accepts it exactly if it is in order, and then knows where it is on the next one. */
  lemma StepTracks(s: Scan, lines: seq<string>, i: nat)
    requires i < |lines| && Tracks(s, lines, i) && Sound(s)
    ensures ScanLine(s, lines[i]).Success? <==> LineOk(lines, i)
    ensures ScanLine(s, lines[i]).Success? ==> Tracks(ScanLine(s, lines[i]).value, lines, i + 1)
  {
    RootStage(s, lines, i);
    var a := ScanRoot(s, lines[i]);
    if a.Success? {
      MarkerStage(a.value, lines, i);
      var b := ScanMarker(a.value, lines[i]);
      if b.Success? {
        TailTracks(b.value, lines, i);
      }
    }
  }

  /** The stage that refuses a line gives the error of the rule it breaks. */
  lemma StepFault(s: Scan, lines: seq<string>, i: nat)
    requires i < |lines| && Tracks(s, lines, i) && Sound(s) && ScanLine(s, lines[i]).Failure?
    ensures ScanLine(s, lines[i]).fault == LineFault(lines, i)
  {
    var line := lines[i];
    RootStage(s, lines, i);
    var a := ScanRoot(s, line);
    if a.Success? {
      MarkerStage(a.value, lines, i);
      var b := ScanMarker(a.value, line);
      if b.Success? {
        DirectiveStage(b.value, lines, i);
      }
    }
  }

  lemma {:induction false} ScanTracks(s: Scan, text: string, lines: seq<string>, i: nat)
    requires i <= |lines| && Lines(text) == lines[i..] && Tracks(s, lines, i) && Placed(s, lines, i) && Sound(s)
    requires forall j: nat | j < i :: LineOk(lines, j)
    ensures ScanText(s, text).Success? <==> forall j: nat | j < |lines| :: LineOk(lines, j)
    ensures var r := ScanText(s, text);
            r.Success? ==> Tracks(r.value, lines, |lines|) && Placed(r.value, lines, |lines|) && Sound(r.value)
    ensures var r := ScanText(s, text);
            r.Failure? ==> exists j: nat :: FirstBad(lines, j) && r.fault == LineFault(lines, j)
    decreases |text|
  {
    if text != "" {
      assert lines[i] == FirstLine(text) && Lines(OtherLines(text)) == lines[i + 1..];
      StepTracks(s, lines, i);
      if ScanLine(s, lines[i]).Success? {
        LineSound(s, lines[i]);
        LineMoves(s, lines[i]);
        StepPlaced(s, lines, i, ScanLine(s, lines[i]).value);
        ScanTracks(ScanLine(s, lines[i]).value, OtherLines(text), lines, i + 1);
      } else {
        StepFault(s, lines, i);
        assert FirstBad(lines, i);
      }
    }
  }

  lemma StartTracks(lines: seq<string>)
    ensures Tracks(INITIAL, lines, 0) && Placed(INITIAL, lines, 0) && Sound(INITIAL)
  {
  }

  lemma {:induction false} JoinedCut(lines: seq<string>, i: nat, j: nat)
    requires i <= j <= |lines|
    ensures Joined(lines[..j]) == Joined(lines[..i]) + Joined(lines[i..j])
  {
    if i < j {
      JoinedCut(lines, i, j - 1);
      JoinedNext(lines, j - 1);
      assert lines[i..j][..j - 1 - i] == lines[i..j - 1];
    }
  }

  lemma JoinedCons(line: string, rest: seq<string>)
    ensures Joined([line] + rest) == line + Joined(rest)
  {
    var lines := [line] + rest;
    JoinedCut(lines, 1, |lines|);
    assert lines[..|lines|] == lines && lines[1..|lines|] == rest;
    JoinedNext(lines, 0);
  }

  lemma {:induction false} LinesJoin(text: string)
    ensures Joined(Lines(text)) == text
    decreases |text|
  {
    if text != "" {
      LinesJoin(OtherLines(text));
      JoinedCons(FirstLine(text), Lines(OtherLines(text)));
      FirstLineIs(text);
    }
  }

  /** The text of the lines between two lines. */
  lemma TextBetween(text: string, i: nat, j: nat)
    requires i <= j <= |Lines(text)|
    ensures Position(Lines(text), i) <= Position(Lines(text), j) <= |text|
    ensures text[Position(Lines(text), i)..Position(Lines(text), j)] == Joined(Lines(text)[i..j])
  {
    var lines := Lines(text);
    LinesJoin(text);
    JoinedCut(lines, i, j);
    JoinedCut(lines, j, |lines|);
    assert lines[..|lines|] == lines;
  }

  /** Where an accepted file takes its block, and what the block it has declares. */
  ghost predicate Laid(lines: seq<string>, layout: Layout, domain: string) {
    && (exists r: nat :: RootEnds(lines, r, layout.insertAt))
    && (layout.blockStart >= 0 <==> exists a: nat :: StartLine(lines, a))
    && (layout.blockStart < 0 ==> layout.aliases == [] && layout.rendered == "" && layout.blockEnd < 0)
    && (layout.blockStart >= 0 ==>
          exists a: nat, b: nat :: Encloses(lines, a, b, layout) && Declares(lines, a, b, layout, domain))
  }

  ghost predicate Encloses(lines: seq<string>, a: nat, b: nat, layout: Layout) {
    && a < b && StartLine(lines, a) && EndLine(lines, b)
    && layout.blockStart == Position(lines, a) && layout.blockEnd == Position(lines, b + 1)
  }

  ghost predicate Declares(lines: seq<string>, a: nat, b: nat, layout: Layout, domain: string)
    requires a < b < |lines|
  {
    && ParseManaged(Joined(lines[a + 1..b]), domain) == Success(layout.aliases)
    && layout.rendered == Render(layout.aliases, domain)
  }

  /** What is between the markers declares aliases and nothing else. */
  ghost predicate BlocksParse(lines: seq<string>, domain: string) {
    forall a: nat, b: nat | a < b && StartLine(lines, a) && EndLine(lines, b) ::
      ParseManaged(Joined(lines[a + 1..b]), domain).Success?
  }

  predicate Admissible(corefile: string, parses: string -> bool) {
    corefile != "" && |corefile| <= MAX_COREFILE && parses(corefile)
  }

  /** In a file of which every line is in order there is one start line and one end line at most. */
  lemma MarkersAreUnique(lines: seq<string>)
    requires forall i: nat | i < |lines| :: LineOk(lines, i)
    ensures forall a: nat, b: nat | StartLine(lines, a) && StartLine(lines, b) :: a == b
    ensures forall a: nat, b: nat | EndLine(lines, a) && EndLine(lines, b) :: a == b
    ensures forall a: nat, b: nat | StartLine(lines, a) && EndLine(lines, b) :: a < b
    ensures forall r: nat, q: nat | RootLine(lines, r) && RootLine(lines, q) :: r == q
  {
    assert START[2] == 'B' && END[2] == 'E';
    forall a: nat, b: nat | StartLine(lines, a) && StartLine(lines, b) ensures a == b {
      assert LineOk(lines, a) && LineOk(lines, b);
    }
    forall a: nat, b: nat | EndLine(lines, a) && EndLine(lines, b) ensures a == b {
      assert LineOk(lines, a) && LineOk(lines, b);
    }
    forall a: nat, b: nat | StartLine(lines, a) && EndLine(lines, b) ensures a < b {
      assert LineOk(lines, a) && LineOk(lines, b);
    }
    forall r: nat, q: nat | RootLine(lines, r) && RootLine(lines, q) ensures r == q {
      assert LineOk(lines, r) && LineOk(lines, q);
    }
  }

  lemma Somewhere(lines: seq<string>)
    ensures SomeBefore(Roots(lines), |lines|) <==> exists r: nat :: RootLine(lines, r)
    ensures SomeBefore(Starts(lines), |lines|) <==> exists a: nat :: StartLine(lines, a)
    ensures SomeBefore(Ends(lines), |lines|) <==> exists b: nat :: EndLine(lines, b)
  {
    SomeStart(lines, |lines|);
    SomeEnd(lines, |lines|);
    assert forall r: nat :: RootLine(lines, r) <==> r < |lines| && Roots(lines)(r);
  }

  lemma SomewhereDirective(lines: seq<string>, word: string)
    ensures SomeBefore(Directives(lines, word), |lines|) <==> exists i: nat :: Directive(lines, i, word)
  {
    assert forall i: nat :: Directive(lines, i, word) <==> i < |lines| && Directives(lines, word)(i);
  }

  lemma EndNeedsStart(lines: seq<string>, b: nat)
    requires EndLine(lines, b) && LineOk(lines, b)
    ensures exists a: nat :: StartLine(lines, a)
  {
  }

  /** The final state answers the questions about the whole file. */
  lemma AtTheEnd(s: Scan, lines: seq<string>)
    requires Tracks(s, lines, |lines|) && Sound(s) && forall i: nat | i < |lines| :: LineOk(lines, i)
    ensures Plugged(lines) <==> s.rootFound && s.depth == 0 && s.hasKubernetes && s.hasReload
    ensures BothMarkers(lines) <==> ((s.blockStart < 0) == (s.blockEnd < 0))
    ensures s.blockStart < 0 <==> forall a: nat :: !StartLine(lines, a)
    ensures s.blockEnd < 0 <==> forall b: nat :: !EndLine(lines, b)
  {
    Somewhere(lines);
    SomewhereDirective(lines, "kubernetes");
    SomewhereDirective(lines, "reload");
  }

  /** The block of a file is the text between its markers. */
  lemma BlockIs(s: Scan, text: string, domain: string) returns (a: nat, b: nat)
    requires var lines := Lines(text); Placed(s, lines, |lines|) && Sound(s) && s.blockStart >= 0 && s.blockEnd >= 0
    requires forall i: nat | i < |Lines(text)| :: LineOk(Lines(text), i)
    ensures var lines := Lines(text);
            && a < b < |lines| && StartsAt(lines, a, s.blockStart, s.contentStart)
            && EndsAt(lines, b, s.contentEnd, s.blockEnd)
            && 0 <= s.contentStart <= s.contentEnd <= |text|
            && text[s.contentStart..s.contentEnd] == Joined(lines[a + 1..b])
            && (BlocksParse(lines, domain) <==> ParseManaged(Joined(lines[a + 1..b]), domain).Success?)
  {
    var lines := Lines(text);
    MarkersAreUnique(lines);
    a :| StartsAt(lines, a, s.blockStart, s.contentStart);
    b :| EndsAt(lines, b, s.contentEnd, s.blockEnd);
    TextBetween(text, a + 1, b);
  }

  /** The checks after the last line. */
  lemma ConcludeIff(s: Scan, text: string, domain: string)
    requires var lines := Lines(text); Tracks(s, lines, |lines|) && Placed(s, lines, |lines|) && Sound(s)
    requires forall i: nat | i < |Lines(text)| :: LineOk(Lines(text), i)
    ensures var lines := Lines(text);
            Conclude(s, text, domain).Success? <==>
              Plugged(lines) && BothMarkers(lines) && BlocksParse(lines, domain)
    ensures var lines, r := Lines(text), Conclude(s, text, domain);
            r.Failure? ==> r.fault == if Plugged(lines) then Unmanaged else Unavailable
    ensures var r := Conclude(s, text, domain);
            r.Success? ==> Laid(Lines(text), r.value, domain)
  {
    var lines := Lines(text);
    AtTheEnd(s, lines);
    if s.blockStart >= 0 && s.blockEnd >= 0 {
      var a, b := BlockIs(s, text, domain);
      ParseFaults(Joined(lines[a + 1..b]), domain);
      var r := Conclude(s, text, domain);
      if r.Success? {
        assert Encloses(lines, a, b, r.value) && Declares(lines, a, b, r.value, domain);
      }
    }
  }

  lemma ParseFaults(text: string, domain: string)
    ensures ParseManaged(text, domain).Failure? ==> ParseManaged(text, domain).fault == Unmanaged
  {
    LinesFaults(text, domain, []);
  }

  lemma {:induction false} LinesFaults(text: string, domain: string, aliases: seq<Alias>)
    ensures ParseLines(text, domain, aliases).Failure? ==> ParseLines(text, domain, aliases).fault == Unmanaged
    decreases |text|
  {
    if text != "" {
      var line := Trim(FirstLine(text));
      if line == "" {
        LinesFaults(OtherLines(text), domain, aliases);
      } else {
        var a := ParseAlias(line, domain);
        if a.Some? && !Seen(aliases, a.value.hostname) {
          LinesFaults(OtherLines(text), domain, aliases + [a.value]);
        }
      }
    }
  }

  /** The files the editor accepts. */
  ghost predicate Accepted(corefile: string, domain: string, parses: string -> bool) {
    Admissible(corefile, parses) && WellShaped(Lines(corefile)) && BlocksParse(Lines(corefile), domain)
  }

  /** A file is accepted exactly if it can be parsed and its lines are in order, and the layout is then that of its
      lines. If not, the first line that is not in order decides the error, and otherwise what is missing. */
  lemma InspectIff(corefile: string, domain: string, parses: string -> bool)
    ensures Inspect(corefile, domain, parses).Success? <==> Accepted(corefile, domain, parses)
    ensures var r := Inspect(corefile, domain, parses);
            r.Success? ==> Laid(Lines(corefile), r.value, domain)
    ensures var r, lines := Inspect(corefile, domain, parses), Lines(corefile);
            r.Failure? ==>
              if !Admissible(corefile, parses) then r.fault == Unavailable
              else if forall i: nat | i < |lines| :: LineOk(lines, i)
              then r.fault == if Plugged(lines) then Unmanaged else Unavailable
              else exists i: nat :: FirstBad(lines, i) && r.fault == LineFault(lines, i)
  {
    var lines := Lines(corefile);
    StartTracks(lines);
    assert lines[0..] == lines;
    ScanTracks(INITIAL, corefile, lines, 0);
    var r := ScanText(INITIAL, corefile);
    assert Inspect(corefile, domain, parses) ==
      if !Admissible(corefile, parses) then Failure(Unavailable)
      else if r.Failure? then Failure(r.fault)
      else Conclude(r.value, corefile, domain);
    if r.Success? {
      ConcludeIff(r.value, corefile, domain);
    }
  }
}
