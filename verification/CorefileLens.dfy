/** The Corefile editor as a lens: what an update changes, what reading it back gives, and how updates compose. */
module CorefileLens {
  import opened Text
  import opened CorefileSpec
  import opened CorefileScan
  import opened CorefileAliases

  // ---------------------------------------------------------------- where the block is

  /** A Corefile around its managed block (or the place for one), with the scanner's state on either side. */
  datatype Place = Place(pre: string, block: string, post: string, before: Scan, after: Scan)

  /** At the top level of the root server block, before any managed block. */
  predicate Ready(s: Scan) {
    Sound(s) && s.inRoot && s.depth == 1 && s.blockStart < 0
  }

  predicate Finished(s: Scan) {
    s.rootFound && s.depth == 0 && s.hasKubernetes && s.hasReload
  }

  predicate Unread(s: Scan) {
    Sound(s) && !s.rootFound && s.blockStart < 0 && s.offset == 0
  }

  predicate Around(s: Scan, corefile: string, p: Place) {
    && corefile == p.pre + p.block + p.post && Whole(p.pre)
    && ScanText(s, p.pre) == Success(p.before) && Ready(p.before) && p.before.offset == |p.pre|
    && Alike(p.before, p.after) && Unmarked(p.post)
    && ScanText(p.after, p.post).Success? && Finished(ScanText(p.after, p.post).value)
  }

  predicate At(l: Layout, p: Place) {
    if l.blockStart < 0 then p.block == "" && l.insertAt == |p.pre|
    else l.blockStart == |p.pre| && l.blockEnd == |p.pre| + |p.block|
  }

  /** What a successful inspection says of the final state of the scanner. */
  lemma InspectScans(corefile: string, domain: string, parses: string -> bool) returns (t: Scan)
    requires Inspect(corefile, domain, parses).Success?
    ensures ScanText(INITIAL, corefile) == Success(t) && Finished(t)
    ensures var l := Inspect(corefile, domain, parses).value;
            && l.blockStart == (if t.blockStart < 0 then -1 else t.blockStart) && l.insertAt == t.insertAt
            && (t.blockStart >= 0 ==>
                  && l.blockEnd == t.blockEnd >= 0 && 0 <= t.contentStart <= t.contentEnd <= |corefile|
                  && ParseLines(corefile[t.contentStart..t.contentEnd], domain, []).Success?)
  {
    t := ScanText(INITIAL, corefile).value;
  }

  lemma LocateRoot(s: Scan, corefile: string, t: Scan) returns (p: Place)
    requires Unread(s) && ScanText(s, corefile) == Success(t) && Finished(t) && t.blockStart < 0
    ensures Around(s, corefile, p) && p.block == "" && |p.pre| == t.insertAt
  {
    var pre, mid, post := CutRoot(s, corefile);
    NoMoreMarkers(mid, post);
    RootAround(s, corefile, t, pre, mid, post);
    p := Place(pre, "", post, mid, mid);
  }

  /** The depth the root line leaves has to be closed by the text after it. */
  lemma RootAround(s: Scan, corefile: string, t: Scan, pre: string, mid: Scan, post: string)
    requires Unread(s) && ScanText(s, corefile) == Success(t) && Finished(t)
    requires Cut(s, corefile, pre, mid, post) && Ready(mid) && Unmarked(post)
    ensures Around(s, corefile, Place(pre, "", post, mid, mid))
  {
    MoreFollows(mid, post, t);
    NothingBetween(pre, post);
  }

  lemma NothingBetween(pre: string, post: string)
    ensures pre + post == pre + "" + post
  {
  }

  lemma MoreFollows(mid: Scan, post: string, t: Scan)
    requires ScanText(mid, post) == Success(t) && mid.depth != t.depth
    ensures post != ""
  {
  }

  lemma MarkerScanned(s: Scan, line: string)
    requires IsMarker(line) && s.inRoot && s.depth == 1 && ScanLine(s, line).Success?
    ensures var t := ScanLine(s, line).value;
            && t.inRoot && t.depth == 1
            && t.hasKubernetes == s.hasKubernetes && t.hasReload == s.hasReload
            && t.inManaged == (Trim(line) == START)
            && (Trim(line) == START ==> t.blockStart == s.offset && t.contentStart == s.offset + |line|
                                        && t.blockEnd == s.blockEnd && t.contentEnd == s.contentEnd)
            && (Trim(line) == END ==> t.contentEnd == s.offset && t.blockEnd == s.offset + |line|
                                      && t.blockStart == s.blockStart && t.contentStart == s.contentStart)
  {
    DeltaMarker(line);
    assert START[0] == '#' && END[0] == '#';
    assert Code(Trim(line)) == "";
    assert Fields("") == [];
  }

  /** A Corefile cut at the markers of its block, with the scanner's state at every cut. */
  datatype Pieces = Pieces(pre: string, start: string, content: string, last: string, post: string,
                           before: Scan, begun: Scan, closing: Scan, after: Scan)

  predicate Opening(s: Scan, text: string, q: Pieces, rest: string) {
    && Cut(s, text, q.pre, q.before, q.start + rest) && Ready(q.before)
    && q.start != "" && Trim(q.start) == START && ScanLine(q.before, q.start) == Success(q.begun)
    && ScanText(q.begun, rest) == ScanText(s, text)
  }

  predicate Closing(q: Pieces, rest: string) {
    && rest == q.content + (q.last + q.post)
    && ScanText(q.begun, q.content) == Success(q.closing) && Unmarked(q.content)
    && q.closing.inRoot && q.closing.depth == 1 && q.closing.offset == q.begun.offset + |q.content|
    && q.last != "" && Trim(q.last) == END && ScanLine(q.closing, q.last) == Success(q.after)
    && ScanText(q.after, q.post) == ScanText(q.begun, rest)
    && Sound(q.closing) && Sound(q.after) && Extends(q.begun, q.closing) && Extends(q.closing, q.after)
  }

  lemma OpenBlock(s: Scan, text: string) returns (q: Pieces, rest: string)
    requires Unread(s) && ScanText(s, text).Success? && ScanText(s, text).value.blockStart >= 0
    ensures Opening(s, text, q, rest) && q.before.offset == ScanText(s, text).value.blockStart
    ensures Sound(q.begun) && q.begun.inManaged
  {
    var pre, before, tail := CutStart(s, text);
    var start := FirstLine(tail);
    FirstLineIs(tail);
    rest := OtherLines(tail);
    ScanUnfold(before, tail);
    LineSound(before, start);
    q := Pieces(pre, start, "", "", "", before, ScanLine(before, start).value, before, before);
  }

  lemma CloseBlock(q: Pieces, rest: string) returns (q': Pieces)
    requires Sound(q.begun) && q.begun.inManaged
    requires ScanText(q.begun, rest).Success? && ScanText(q.begun, rest).value.blockEnd >= 0
    ensures q' == q.(content := q'.content, closing := q'.closing, last := q'.last, after := q'.after, post := q'.post)
    ensures Closing(q', rest)
  {
    var content, closing, tail := CutEnd(q.begun, rest);
    TextSound(q.begun, content);
    FirstLineIs(tail);
    ScanUnfold(closing, tail);
    LineSound(closing, FirstLine(tail));
    q' := q.(content := content, closing := closing, last := FirstLine(tail),
             after := ScanLine(closing, FirstLine(tail)).value, post := OtherLines(tail));
  }

  lemma BlockStates(s: Scan, q: Pieces, text: string, rest: string, domain: string)
    requires Unread(s) && Opening(s, text, q, rest) && Closing(q, rest) && ParseLines(q.content, domain, []).Success?
    ensures Alike(q.before, q.after) && q.after.blockEnd >= 0
  {
    MarkerScanned(q.before, q.start);
    LineSound(q.before, q.start);
    MarkerScanned(q.closing, q.last);
    ParsedFlags(q.begun, q.content, domain, []);
  }

  /** The positions alone, before anything is known of the content. */
  lemma BlockPositions(s: Scan, q: Pieces, text: string, rest: string)
    requires Unread(s) && Opening(s, text, q, rest) && Closing(q, rest)
    ensures q.after.contentStart == |q.pre| + |q.start|
    ensures q.after.contentEnd == |q.pre| + |q.start| + |q.content|
    ensures q.after.blockEnd == |q.pre| + |q.start| + |q.content| + |q.last|
  {
    MarkerScanned(q.before, q.start);
    LineSound(q.before, q.start);
    MarkerScanned(q.closing, q.last);
  }

  lemma PiecesAround(s: Scan, corefile: string, t: Scan, q: Pieces, rest: string, domain: string)
    requires Unread(s) && ScanText(s, corefile) == Success(t) && Finished(t)
    requires Opening(s, corefile, q, rest) && Closing(q, rest) && ParseLines(q.content, domain, []).Success?
    ensures Around(s, corefile, Place(q.pre, q.start + q.content + q.last, q.post, q.before, q.after))
  {
    PiecesJoined(s, corefile, q, rest);
    BlockStates(s, q, corefile, rest, domain);
    NoMoreMarkers(q.after, q.post);
  }

  /** The final state knows the positions of the pieces. */
  lemma PiecesPlaced(s: Scan, corefile: string, t: Scan, q: Pieces, rest: string)
    requires Unread(s) && ScanText(s, corefile) == Success(t)
    requires Opening(s, corefile, q, rest) && Closing(q, rest)
    ensures t.contentStart == |q.pre| + |q.start| && t.contentEnd == |q.pre| + |q.start| + |q.content|
    ensures t.blockEnd == |q.pre| + |q.start| + |q.content| + |q.last|
    ensures |q.pre| + |q.start| + |q.content| <= |corefile|
    ensures corefile[|q.pre| + |q.start|..|q.pre| + |q.start| + |q.content|] == q.content
  {
    PiecesJoined(s, corefile, q, rest);
    ContentIs(corefile, q.pre, q.start, q.content, q.last, q.post);
    BlockPositions(s, q, corefile, rest);
    AfterExtends(s, corefile, t, q, rest);
  }

  lemma PiecesJoined(s: Scan, corefile: string, q: Pieces, rest: string)
    requires Opening(s, corefile, q, rest) && Closing(q, rest)
    ensures corefile == q.pre + (q.start + q.content + q.last) + q.post
  {
    Assembled(corefile, q.pre, q.start + rest, q.start, rest, q.content, q.last + q.post, q.last, q.post);
  }

  lemma AfterExtends(s: Scan, corefile: string, t: Scan, q: Pieces, rest: string)
    requires ScanText(s, corefile) == Success(t) && Opening(s, corefile, q, rest) && Closing(q, rest)
    ensures Extends(q.after, t)
  {
    TextSound(q.after, q.post);
  }

  lemma FindPieces(s: Scan, corefile: string, t: Scan) returns (q: Pieces, rest: string)
    requires Unread(s) && ScanText(s, corefile) == Success(t) && t.blockStart >= 0 && t.blockEnd >= 0
    ensures Opening(s, corefile, q, rest) && Closing(q, rest) && |q.pre| == t.blockStart
  {
    var q0;
    q0, rest := OpenBlock(s, corefile);
    q := CloseBlock(q0, rest);
  }

  lemma LocateBlock(s: Scan, corefile: string, t: Scan, content: string, domain: string) returns (p: Place)
    requires Unread(s) && ScanText(s, corefile) == Success(t) && Finished(t) && t.blockStart >= 0 && t.blockEnd >= 0
    requires 0 <= t.contentStart <= t.contentEnd <= |corefile|
    requires content == corefile[t.contentStart..t.contentEnd] && ParseLines(content, domain, []).Success?
    ensures Around(s, corefile, p) && |p.pre| == t.blockStart && |p.pre| + |p.block| == t.blockEnd
  {
    var q, rest := FindPieces(s, corefile, t);
    PiecesPlaced(s, corefile, t, q, rest);
    p := BlockPlace(s, corefile, t, content, domain, q, rest);
  }

  lemma BlockPlace(s: Scan, corefile: string, t: Scan, content: string, domain: string, q: Pieces, rest: string)
      returns (p: Place)
    requires Unread(s) && ScanText(s, corefile) == Success(t) && Finished(t)
    requires Opening(s, corefile, q, rest) && Closing(q, rest)
    requires content == q.content && ParseLines(content, domain, []).Success?
    ensures Around(s, corefile, p) && p.pre == q.pre && |p.block| == |q.start| + |q.content| + |q.last|
  {
    PiecesAround(s, corefile, t, q, rest, domain);
    p := Place(q.pre, q.start + q.content + q.last, q.post, q.before, q.after);
  }

  lemma Assembled(text: string, pre: string, rest: string, start: string, more: string, content: string, rest': string,
                  last: string, post: string)
    requires text == pre + rest && rest == start + more && more == content + rest' && rest' == last + post
    ensures text == pre + (start + content + last) + post
  {
  }

  lemma ContentIs(text: string, pre: string, start: string, content: string, last: string, post: string)
    requires text == pre + (start + content + last) + post
    ensures text[|pre| + |start|..|pre| + |start| + |content|] == content
  {
  }

  lemma Locate(corefile: string, domain: string, parses: string -> bool) returns (p: Place)
    requires Inspect(corefile, domain, parses).Success?
    ensures Around(INITIAL, corefile, p) && At(Inspect(corefile, domain, parses).value, p)
  {
    var t := InspectScans(corefile, domain, parses);
    if t.blockStart < 0 {
      p := LocateRoot(INITIAL, corefile, t);
    } else {
      p := LocateBlock(INITIAL, corefile, t, corefile[t.contentStart..t.contentEnd], domain);
    }
  }
}
