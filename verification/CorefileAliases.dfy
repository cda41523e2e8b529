/** What the printer writes for a list of valid aliases, the parser reads back. */
module CorefileAliases {
  import opened Replies
  import opened Text
  import opened CorefileSpec
  import opened CorefileScan

  // ---------------------------------------------------------------- characters

  /** Neither white space nor a character the scanner treats specially. */
  predicate WordChar(c: char) {
    !IsSpace(c) && Ordinary(c)
  }

  predicate Word(s: string) {
    forall i | 0 <= i < |s| :: WordChar(s[i])
  }

  predicate ValidAlias(a: Alias) {
    IsSubdomain(a.hostname) && IsLabel(a.service) && IsLabel(a.namespace)
  }

  predicate Distinct(aliases: seq<Alias>) {
    forall i, j | 0 <= i < j < |aliases| :: aliases[i].hostname != aliases[j].hostname
  }

  predicate ValidAliases(aliases: seq<Alias>) {
    (forall i | 0 <= i < |aliases| :: ValidAlias(aliases[i])) && Distinct(aliases)
  }

  /** A domain the parser accepts after the printer has trimmed it: no outer dots and at least two labels. */
  predicate Readable(domain: string) {
    TrimDots(domain) == domain && '.' in domain
  }

  /** Every character of a text that is not a dot is in one of its parts. */
  lemma {:induction false} PartOf(s: string, i: nat) returns (k: nat, j: nat)
    requires i < |s| && s[i] != '.'
    ensures k < |SplitDots(s)| && j < |SplitDots(s)[k]| && SplitDots(s)[k][j] == s[i]
  {
    var rest := SplitDots(s[1..]);
    if i == 0 {
      k, j := 0, 0;
    } else {
      var k', j' := PartOf(s[1..], i - 1);
      if s[0] == '.' {
        k, j := k' + 1, j';
      } else if k' == 0 {
        k, j := 0, j' + 1;
      } else {
        k, j := k', j';
      }
    }
  }

  lemma EmptyIsNoSubdomain()
    ensures !IsSubdomain("")
  {
    assert !LabelShape(SplitDots("")[0]);
  }

  lemma HostnameIsWord(s: string)
    requires IsSubdomain(s)
    ensures s != "" && Word(s)
  {
    EmptyIsNoSubdomain();
    forall i | 0 <= i < |s| ensures WordChar(s[i]) {
      if s[i] != '.' {
        var k, j := PartOf(s, i);
        assert LabelShape(SplitDots(s)[k]);
      }
    }
  }

  lemma LabelIsWord(s: string)
    requires IsLabel(s)
    ensures s != "" && Word(s) && '.' !in s
  {
    forall i | 0 <= i < |s| ensures WordChar(s[i]) && s[i] != '.' {
    }
  }

  lemma {:induction false} TrimDotsRightPart(s: string)
    ensures |TrimDotsRight(s)| <= |s| && TrimDotsRight(s) == s[..|TrimDotsRight(s)|]
  {
    if s != "" && s[|s| - 1] == '.' {
      TrimDotsRightPart(s[..|s| - 1]);
    }
  }

  lemma {:induction false} TrimDotsLeftPart(s: string)
    ensures |TrimDotsLeft(s)| <= |s| && TrimDotsLeft(s) == s[|s| - |TrimDotsLeft(s)|..]
  {
    if s != "" && s[0] == '.' {
      TrimDotsLeftPart(s[1..]);
    }
  }

  lemma TrimmedIsWord(s: string)
    requires Word(s)
    ensures Word(TrimDots(s))
  {
    TrimDotsLeftPart(s);
    TrimDotsRightPart(TrimDotsLeft(s));
  }

  lemma WordConcat(a: string, b: string)
    requires Word(a) && Word(b)
    ensures Word(a + b)
  {
  }

  lemma TargetIsWord(a: Alias, domain: string)
    requires ValidAlias(a) && Word(domain)
    ensures Word(TargetOf(a, domain)) && TargetOf(a, domain) != ""
  {
    LabelIsWord(a.service);
    LabelIsWord(a.namespace);
    TrimmedIsWord(domain);
    WordConcat(a.service, ".");
    WordConcat(a.service + ".", a.namespace);
    WordConcat(a.service + "." + a.namespace, ".");
    WordConcat(a.service + "." + a.namespace + ".", "svc");
    WordConcat(a.service + "." + a.namespace + "." + "svc", ".");
    WordConcat(a.service + "." + a.namespace + "." + "svc" + ".", TrimDots(domain));
  }

  // ---------------------------------------------------------------- one alias line

  lemma WordIsSolid(s: string)
    requires s != "" && Word(s)
    ensures Solid(s)
  {
  }

  lemma NextField(w: string, rest: string)
    requires Solid(w)
    ensures Fields(w + (" " + rest)) == [w] + Fields(rest)
  {
    FieldsCons(w, " " + rest);
    FieldsSpace(rest);
  }

  lemma LastField(w: string)
    requires Solid(w)
    ensures Fields(w) == [w]
  {
    FieldsCons(w, "");
    assert w + "" == w;
    assert Fields("") == [];
  }

  /** Words with one blank between them. */
  function Spaced(words: seq<string>): string {
    if words == [] then "" else if |words| == 1 then words[0] else words[0] + (" " + Spaced(words[1..]))
  }

  lemma {:induction false} FieldsOfSpaced(words: seq<string>)
    requires forall i | 0 <= i < |words| :: Solid(words[i])
    ensures Fields(Spaced(words)) == words
  {
    if |words| == 1 {
      LastField(words[0]);
    } else if |words| > 1 {
      FieldsOfSpaced(words[1..]);
      NextField(words[0], Spaced(words[1..]));
    } else {
      assert Fields("") == [];
    }
  }

  lemma SpacedCons(w: string, words: seq<string>)
    requires words != []
    ensures Spaced([w] + words) == w + (" " + Spaced(words))
  {
    assert ([w] + words)[1..] == words;
  }

  function RenderedWords(a: Alias, domain: string): seq<string> {
    ["rewrite", "stop", "name", "exact", a.hostname, TargetOf(a, domain)]
  }

  lemma RenderedSpaced(a: Alias, domain: string)
    ensures RenderAlias(a, domain) == Spaced(RenderedWords(a, domain))
  {
    var t := TargetOf(a, domain);
    assert RenderedWords(a, domain) == ["rewrite"] + (["stop"] + (["name"] + (["exact"] + ([a.hostname] + [t]))));
    SpacedCons("rewrite", ["stop"] + (["name"] + (["exact"] + ([a.hostname] + [t]))));
    SpacedCons("stop", ["name"] + (["exact"] + ([a.hostname] + [t])));
    SpacedCons("name", ["exact"] + ([a.hostname] + [t]));
    SpacedCons("exact", [a.hostname] + [t]);
    SpacedCons(a.hostname, [t]);
    assert Spaced([t]) == t;
    RenderedNested(a, domain);
  }

  lemma RenderedNested(a: Alias, domain: string)
    ensures var end := "exact" + (" " + (a.hostname + (" " + TargetOf(a, domain))));
            RenderAlias(a, domain) == "rewrite" + (" " + ("stop" + (" " + ("name" + (" " + end)))))
  {
  }

  /** The six words of a rendered alias. */
  lemma RenderedFields(a: Alias, domain: string)
    requires ValidAlias(a) && Word(domain)
    ensures Fields(RenderAlias(a, domain)) == RenderedWords(a, domain)
  {
    TargetIsWord(a, domain);
    HostnameIsWord(a.hostname);
    WordIsSolid(TargetOf(a, domain));
    WordIsSolid(a.hostname);
    RenderedSpaced(a, domain);
    var words := RenderedWords(a, domain);
    forall i | 0 <= i < |words| ensures Solid(words[i]) {
    }
    FieldsOfSpaced(words);
  }

  /** A rendered alias is plain text on one line that neither begins nor ends with a blank. */
  lemma RenderedShape(a: Alias, domain: string)
    requires ValidAlias(a) && Word(domain)
    ensures var r := RenderAlias(a, domain);
            && r != "" && r[0] == 'r' && !IsSpace(r[|r| - 1])
            && forall i | 0 <= i < |r| :: r[i] == ' ' || WordChar(r[i])
  {
    TargetIsWord(a, domain);
    HostnameIsWord(a.hostname);
    var head := "rewrite" + " " + "stop" + " " + "name" + " " + "exact" + " ";
    var r := RenderAlias(a, domain);
    assert r == head + a.hostname + " " + TargetOf(a, domain);
    var t := TargetOf(a, domain);
    assert r[|r| - 1] == t[|t| - 1];
    assert r[0] == 'r';
  }

  lemma {:induction false} PartsOfTarget(a: Alias, domain: string)
    requires ValidAlias(a)
    ensures SplitDots(TargetOf(a, domain)) == [a.service, a.namespace, "svc"] + SplitDots(TrimDots(domain))
  {
    LabelIsWord(a.service);
    LabelIsWord(a.namespace);
    var d := TrimDots(domain);
    assert TargetOf(a, domain) == a.service + "." + (a.namespace + "." + ("svc" + "." + d));
    SplitCons(a.service, a.namespace + "." + ("svc" + "." + d));
    SplitCons(a.namespace, "svc" + "." + d);
    SplitCons("svc", d);
  }

  lemma EnoughParts(a: Alias, domain: string)
    requires ValidAlias(a)
    ensures var parts := SplitDots(TargetOf(a, domain));
            |parts| >= 3 && (|parts| >= 5 <==> '.' in TrimDots(domain)) && JoinDots(parts[3..]) == TrimDots(domain)
  {
    PartsOfTarget(a, domain);
    SplitMany(TrimDots(domain));
    JoinSplit(TrimDots(domain));
    assert SplitDots(TargetOf(a, domain))[3..] == SplitDots(TrimDots(domain));
  }

  /** The parser reads a rendered alias back exactly if the domain is readable. */
  lemma AliasReadBack(a: Alias, domain: string)
    requires ValidAlias(a) && Word(domain)
    ensures ParseAlias(RenderAlias(a, domain), domain) == if Readable(domain) then Some(a) else None
  {
    RenderedFields(a, domain);
    PartsOfTarget(a, domain);
    EnoughParts(a, domain);
  }

  // ---------------------------------------------------------------- the whole block

  predicate IsNewline(newline: string) {
    newline == "\n" || newline == "\r\n"
  }

  /** The line the block holds for an alias. */
  function AliasLine(a: Alias, domain: string, newline: string): string {
    "    " + RenderAlias(a, domain) + newline
  }

  lemma AliasLineShape(a: Alias, domain: string, newline: string)
    requires ValidAlias(a) && Word(domain) && IsNewline(newline)
    ensures var line := AliasLine(a, domain, newline);
            && line != "" && Whole(line) && FirstLine(line) == line && OtherLines(line) == ""
            && Trim(line) == RenderAlias(a, domain)
  {
    RenderedShape(a, domain);
    var line := AliasLine(a, domain, newline);
    var r := RenderAlias(a, domain);
    TrimPadded("    ", r, newline);
    forall i | 0 <= i < |line| - 1 ensures line[i] != '\n' {
      if 4 <= i < 4 + |r| {
        assert line[i] == r[i - 4];
      }
    }
    OneLine(line);
  }

  /** The first line of a rendering. */
  lemma RenderFirst(aliases: seq<Alias>, domain: string)
    requires aliases != [] && ValidAlias(aliases[0]) && Word(domain)
    ensures var text := Render(aliases, domain);
            && text != "" && Bare(FirstLine(text)) == RenderAlias(aliases[0], domain)
            && OtherLines(text) == Render(aliases[1..], domain)
  {
    var r := RenderAlias(aliases[0], domain);
    RenderedShape(aliases[0], domain);
    OneLine(r + "\n");
    FirstLineConcat(r + "\n", Render(aliases[1..], domain));
    assert Bare(r + "\n") == r;
  }

  lemma IndentFirst(aliases: seq<Alias>, domain: string, newline: string)
    requires aliases != [] && ValidAlias(aliases[0]) && Word(domain) && IsNewline(newline)
    ensures Indent(Render(aliases, domain), newline)
         == AliasLine(aliases[0], domain, newline) + Indent(Render(aliases[1..], domain), newline)
  {
    RenderFirst(aliases, domain);
  }

  lemma ValidRest(aliases: seq<Alias>)
    requires aliases != [] && ValidAliases(aliases)
    ensures ValidAliases(aliases[1..])
  {
    forall i | 0 <= i < |aliases[1..]| ensures ValidAlias(aliases[1..][i]) {
      assert aliases[1..][i] == aliases[i + 1];
    }
  }

  predicate NewTo(aliases: seq<Alias>, prior: seq<Alias>) {
    forall i | 0 <= i < |aliases| :: !Seen(prior, aliases[i].hostname)
  }

  lemma NewToMore(aliases: seq<Alias>, prior: seq<Alias>)
    requires aliases != [] && Distinct(aliases) && NewTo(aliases, prior)
    ensures NewTo(aliases[1..], prior + [aliases[0]])
  {
    forall i | 0 <= i < |aliases[1..]| ensures !Seen(prior + [aliases[0]], aliases[1..][i].hostname) {
      assert aliases[1..][i] == aliases[i + 1];
      assert !Seen(prior, aliases[i + 1].hostname);
      var more := prior + [aliases[0]];
      forall j | 0 <= j < |more| ensures more[j].hostname != aliases[i + 1].hostname {
        if j < |prior| {
          assert more[j] == prior[j];
        }
      }
    }
  }

  /** The parser on one more line. */
  lemma ParseOne(line: string, rest: string, domain: string, prior: seq<Alias>)
    requires line != "" && Whole(line) && FirstLine(line) == line && OtherLines(line) == "" && Trim(line) != ""
    ensures ParseLines(line + rest, domain, prior)
         == (var a := ParseAlias(Trim(line), domain);
             if a.None? || Seen(prior, a.value.hostname) then Failure(Unmanaged)
             else ParseLines(rest, domain, prior + [a.value]))
  {
    FirstLineConcat(line, rest);
    assert "" + rest == rest;
  }

  lemma ReadBackFirst(aliases: seq<Alias>, domain: string, newline: string, prior: seq<Alias>)
    requires aliases != [] && ValidAliases(aliases) && NewTo(aliases, prior) && Word(domain) && IsNewline(newline)
    ensures ParseLines(Indent(Render(aliases, domain), newline), domain, prior)
         == if Readable(domain)
            then ParseLines(Indent(Render(aliases[1..], domain), newline), domain, prior + [aliases[0]])
            else Failure(Unmanaged)
  {
    var a := aliases[0];
    var rest := Indent(Render(aliases[1..], domain), newline);
    IndentFirst(aliases, domain, newline);
    AliasLineShape(a, domain, newline);
    AliasNotEmpty(a, domain);
    AliasReadBack(a, domain);
    ParseOne(AliasLine(a, domain, newline), rest, domain, prior);
  }

  lemma AliasNotEmpty(a: Alias, domain: string)
    ensures RenderAlias(a, domain) != ""
  {
  }

  /** Indented and terminated either way, the rendering of valid aliases is read back as those aliases, exactly
      if there are none or the domain is readable. */
  lemma {:induction false} BlockReadBack(aliases: seq<Alias>, domain: string, newline: string, prior: seq<Alias>)
    requires ValidAliases(aliases) && NewTo(aliases, prior) && Word(domain) && IsNewline(newline)
    ensures ParseLines(Indent(Render(aliases, domain), newline), domain, prior)
         == if aliases == [] || Readable(domain) then Success(prior + aliases) else Failure(Unmanaged)
    decreases |aliases|
  {
    if aliases == [] {
      assert prior + aliases == prior;
    } else {
      ReadBackFirst(aliases, domain, newline, prior);
      ValidRest(aliases);
      NewToMore(aliases, prior);
      BlockReadBack(aliases[1..], domain, newline, prior + [aliases[0]]);
      assert prior + [aliases[0]] + aliases[1..] == prior + aliases;
    }
  }

  // ---------------------------------------------------------------- the scanner on the block

  /** Inside the managed block at the top of the root server block. */
  predicate Inside(s: Scan) {
    s.inManaged && s.inRoot && s.depth == 1
  }

  lemma AliasLinePlain(a: Alias, domain: string, newline: string)
    requires ValidAlias(a) && Word(domain) && IsNewline(newline)
    ensures BraceDelta(AliasLine(a, domain, newline), None, false) == 0
  {
    var line := AliasLine(a, domain, newline);
    var r := RenderAlias(a, domain);
    RenderedShape(a, domain);
    forall i | 0 <= i < |line| ensures Ordinary(line[i]) {
      if 4 <= i < 4 + |r| {
        assert line[i] == r[i - 4];
      }
    }
    DeltaPlain(line, "");
    assert line + "" == line;
  }

  /** One line that, inside the managed block, only moves the scanner on. */
  predicate Quiet(line: string) {
    && line != "" && Whole(line) && FirstLine(line) == line && !IsMarker(line)
    && BraceDelta(line, None, false) == 0
    && Fields(Code(Trim(line))) != [] && Fields(Code(Trim(line)))[0] == "rewrite"
  }

  function Moved(s: Scan, n: nat): Scan {
    s.(offset := s.offset + n)
  }

  lemma QuietScanned(s: Scan, line: string)
    requires Inside(s) && Quiet(line)
    ensures ScanLine(s, line) == Success(Moved(s, |line|))
  {
    LineStages(s, line);
  }

  function Concat(lines: seq<string>): string {
    if lines == [] then "" else lines[0] + Concat(lines[1..])
  }

  lemma ScanLineThen(s: Scan, line: string, rest: string)
    requires line != "" && Whole(line) && FirstLine(line) == line && ScanLine(s, line).Success?
    ensures ScanText(s, line + rest) == ScanText(ScanLine(s, line).value, rest)
  {
    ScanConcat(s, line, rest);
    ScanOne(s, line);
  }

  lemma MovedTwice(s: Scan, line: string, rest: string)
    ensures Moved(Moved(s, |line|), |rest|) == Moved(s, |line + rest|)
  {
  }

  lemma QuietThen(s: Scan, t: Scan, line: string, rest: string)
    requires Inside(s) && Quiet(line) && t == Moved(s, |line|)
    ensures ScanText(s, line + rest) == ScanText(t, rest)
  {
    QuietScanned(s, line);
    ScanLineThen(s, line, rest);
  }

  lemma {:induction false} QuietLinesScanned(s: Scan, lines: seq<string>)
    requires Inside(s) && forall i | 0 <= i < |lines| :: Quiet(lines[i])
    ensures ScanText(s, Concat(lines)) == Success(Moved(s, |Concat(lines)|))
    decreases |lines|
  {
    if lines != [] {
      QuietLinesScanned(Moved(s, |lines[0]|), lines[1..]);
      QuietThen(s, Moved(s, |lines[0]|), lines[0], Concat(lines[1..]));
      MovedTwice(s, lines[0], Concat(lines[1..]));
    }
  }

  function AliasLines(aliases: seq<Alias>, domain: string, newline: string): (lines: seq<string>)
    ensures |lines| == |aliases|
    ensures forall i | 0 <= i < |lines| :: lines[i] == AliasLine(aliases[i], domain, newline)
  {
    if aliases == [] then []
    else [AliasLine(aliases[0], domain, newline)] + AliasLines(aliases[1..], domain, newline)
  }

  lemma AliasLineQuiet(a: Alias, domain: string, newline: string)
    requires ValidAlias(a) && Word(domain) && IsNewline(newline)
    ensures Quiet(AliasLine(a, domain, newline))
  {
    var r := RenderAlias(a, domain);
    var line := AliasLine(a, domain, newline);
    AliasLineShape(a, domain, newline);
    RenderedShape(a, domain);
    RenderedFields(a, domain);
    CodeOfPlain(r);
    AliasLinePlain(a, domain, newline);
    assert START[0] == '#' && END[0] == '#';
    assert Trim(line)[0] == 'r';
  }

  lemma {:induction false} IndentIsLines(aliases: seq<Alias>, domain: string, newline: string)
    requires ValidAliases(aliases) && Word(domain) && IsNewline(newline)
    ensures Indent(Render(aliases, domain), newline) == Concat(AliasLines(aliases, domain, newline))
  {
    if aliases != [] {
      IndentFirst(aliases, domain, newline);
      ValidRest(aliases);
      IndentIsLines(aliases[1..], domain, newline);
    }
  }

  /** The alias lines of the block change nothing but the position. */
  lemma BlockScanned(s: Scan, aliases: seq<Alias>, domain: string, newline: string)
    requires Inside(s) && ValidAliases(aliases) && Word(domain) && IsNewline(newline)
    ensures ScanText(s, Indent(Render(aliases, domain), newline))
         == Success(Moved(s, |Indent(Render(aliases, domain), newline)|))
  {
    var lines := AliasLines(aliases, domain, newline);
    forall i | 0 <= i < |lines| ensures Quiet(lines[i]) {
      AliasLineQuiet(aliases[i], domain, newline);
    }
    QuietLinesScanned(s, lines);
    IndentIsLines(aliases, domain, newline);
  }

  // ---------------------------------------------------------------- lines a parsed block may hold

  /** A line the parser accepts turns on neither plugin. */
  lemma ParsedLineFlags(s: Scan, line: string, domain: string)
    requires !IsMarker(line) && (Trim(line) == "" || ParseAlias(Trim(line), domain).Some?)
    requires ScanLine(s, line).Success?
    ensures ScanLine(s, line).value.hasKubernetes == s.hasKubernetes
    ensures ScanLine(s, line).value.hasReload == s.hasReload
  {
    LineStages(s, line);
    if Trim(line) != "" {
      FirstWordBeforeComment(Trim(line), "rewrite");
    }
  }

  /** The content of a managed block that parses turns on neither plugin. */
  lemma {:induction false} ParsedFlags(s: Scan, text: string, domain: string, prior: seq<Alias>)
    requires Unmarked(text) && ParseLines(text, domain, prior).Success? && ScanText(s, text).Success?
    ensures ScanText(s, text).value.hasKubernetes == s.hasKubernetes
    ensures ScanText(s, text).value.hasReload == s.hasReload
    decreases |text|
  {
    if text != "" {
      var line := FirstLine(text);
      var a := ParseAlias(Trim(line), domain);
      ParsedLineFlags(s, line, domain);
      ParsedFlags(ScanLine(s, line).value, OtherLines(text), domain,
                  if Trim(line) == "" then prior else prior + [a.value]);
    }
  }
}
