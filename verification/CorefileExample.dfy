/** A small Corefile that meets the premises of every law, so that none of them is empty. */
module CorefileExample {
  import opened Replies
  import opened Text
  import opened CorefileSpec
  import opened CorefileScan
  import opened CorefileAliases
  import opened CorefileLens
  import opened CorefileUpdate
  import opened CorefileLaws
  import opened CorefileShape
  import opened CorefileGrammar

  const SAMPLE := ".:53 {" + "\n" + ("kubernetes" + "\n" + ("reload" + "\n" + ("}" + "\n")))

  lemma WordLine(word: string)
    requires Solid(word) && '#' !in word && (word[0] != '.' || word != ROOT)
    ensures var line := word + "\n";
            && line != "" && Whole(line) && FirstLine(line) == line && !IsMarker(line) && Trim(line) == word
            && Fields(Code(Trim(line))) == [word]
  {
    var line := word + "\n";
    assert "" + word + "\n" == line;
    TrimPadded("", word, "\n");
    forall i | 0 <= i < |line| - 1 ensures line[i] != '\n' {
      assert line[i] == word[i];
    }
    OneLine(line);
    CodeOfPlain(word);
    LastField(word);
    assert START[0] == '#' && END[0] == '#';
  }

  /** The scanner's state after the line of a plugin. */
  function Plugged(s: Scan, word: string): Scan {
    s.(hasKubernetes := s.hasKubernetes || word == "kubernetes", hasReload := s.hasReload || word == "reload",
       offset := s.offset + |word| + 1)
  }

  /** The line of a plugin, at the top level of the root server block. */
  lemma PluginScanned(s: Scan, word: string)
    requires Ready(s) && Solid(word) && Plain(word) && word[0] != '.' && word != "rewrite"
    ensures ScanLine(s, word + "\n")
         == Success(Plugged(s, word))
  {
    WordLine(word);
    var line := word + "\n";
    DeltaPlain(line, "");
    assert line + "" == line;
    LineStages(s, line);
  }

  lemma RootScanned()
    ensures ScanLine(INITIAL, ".:53 {" + "\n")
         == Success(INITIAL.(rootFound := true, inRoot := true, insertAt := 7, depth := 1, offset := 7))
    ensures var line := ".:53 {" + "\n"; line != "" && Whole(line) && FirstLine(line) == line
  {
    var line := ROOT + "\n";
    assert "" + ROOT + "\n" == line;
    TrimPadded("", ROOT, "\n");
    OneLine(line);
    DeltaRoot(line);
    assert START[0] == '#' && END[0] == '#' && ROOT[0] == '.';
    LineStages(INITIAL, line);
  }

  lemma CloseScanned(s: Scan)
    requires Ready(s)
    ensures ScanLine(s, "}" + "\n") == Success(s.(depth := 0, inRoot := false, offset := s.offset + 2))
  {
    var line := "}" + "\n";
    WordLine("}");
    assert line[0] == '}' && line[1..] == "\n";
    DeltaPlain("\n", "");
    assert "\n" + "" == "\n";
    assert BraceDelta(line, None, false) == -1;
    LineStages(s, line);
  }

  function Begin(): Scan {
    INITIAL.(rootFound := true, inRoot := true, insertAt := 7, depth := 1, offset := 7)
  }

  lemma PluginThen(s: Scan, word: string, rest: string)
    requires Ready(s) && Solid(word) && Plain(word) && word[0] != '.' && word != "rewrite"
    ensures ScanText(s, word + "\n" + rest) == ScanText(Plugged(s, word), rest)
  {
    WordLine(word);
    PluginScanned(s, word);
    LineThen(s, Plugged(s, word), word + "\n", rest);
  }

  lemma LineThen(s: Scan, t: Scan, line: string, rest: string)
    requires line != "" && Whole(line) && FirstLine(line) == line && ScanLine(s, line) == Success(t)
    ensures ScanText(s, line + rest) == ScanText(t, rest)
  {
    ScanLineThen(s, line, rest);
  }

  lemma CloseLast(s: Scan)
    requires Ready(s)
    ensures ScanText(s, "}" + "\n") == Success(s.(depth := 0, inRoot := false, offset := s.offset + 2))
  {
    WordLine("}");
    CloseScanned(s);
    ScanOne(s, "}" + "\n");
  }

  lemma PluginsAreSolid()
    ensures Solid("kubernetes") && Plain("kubernetes") && Solid("reload") && Plain("reload")
    ensures "kubernetes" != "rewrite" && "reload" != "rewrite"
  {
    assert "kubernetes"[0] == 'k' && "reload"[2] == 'l' && "rewrite"[2] == 'w';
  }

  lemma SampleScanned() returns (t: Scan)
    ensures ScanText(INITIAL, SAMPLE) == Success(t) && Finished(t) && t.blockStart < 0 && t.blockEnd < 0
    ensures t.insertAt == 7
  {
    var last := "}" + "\n";
    var plugins := "kubernetes" + "\n" + ("reload" + "\n" + last);
    RootScanned();
    ScanLineThen(INITIAL, ".:53 {" + "\n", plugins);
    PluginsAreSolid();
    PluginThen(Begin(), "kubernetes", "reload" + "\n" + last);
    var s2 := Plugged(Begin(), "kubernetes");
    PluginThen(s2, "reload", last);
    var s3 := Plugged(s2, "reload");
    CloseLast(s3);
    t := s3.(depth := 0, inRoot := false, offset := s3.offset + 2);
    SampleParts(plugins);
  }

  lemma SampleParts(plugins: string)
    requires plugins == "kubernetes" + "\n" + ("reload" + "\n" + ("}" + "\n"))
    ensures SAMPLE == ".:53 {" + "\n" + plugins
  {
  }

  /** The sample has no block and is accepted. */
  lemma SampleAccepted(domain: string, parses: string -> bool)
    requires parses(SAMPLE)
    ensures Inspect(SAMPLE, domain, parses).Success?
    ensures var layout := Inspect(SAMPLE, domain, parses).value; layout.blockStart < 0 && layout.insertAt == 7
  {
    var t := SampleScanned();
    InspectFinished(SAMPLE, domain, parses, t);
  }

  const WEB := Alias("web", "web", "shop")

  lemma {:induction false} NoDots(s: string)
    requires '.' !in s
    ensures SplitDots(s) == [s]
  {
    if s != "" {
      NoDots(s[1..]);
      assert [s[0]] + s[1..] == s;
    }
  }

  lemma WebIsValid()
    ensures ValidAliases([WEB])
  {
    NoDots("web");
    assert LabelShape("web") && LabelShape("shop");
    assert ValidAlias(WEB);
  }

  lemma DomainIsReadable()
    ensures Readable("cluster.local") && Word("cluster.local")
  {
    assert "cluster.local"[7] == '.';
  }

  lemma WebIsShort(newline: string)
    requires IsNewline(newline)
    ensures |Block(Render([WEB], "cluster.local"), newline)| <= 300
    ensures |Indent(Render([WEB], "cluster.local"), newline)| <= 300
  {
    var domain := "cluster.local";
    WebIsValid();
    DomainIsReadable();
    RenderFirst([WEB], domain);
    IndentFirst([WEB], domain, newline);
    BlockAssembled(Render([WEB], domain), newline, "");
    assert [WEB][1..] == [];
    assert TrimDots(domain) == domain;
    assert |TargetOf(WEB, domain)| == 26;
    assert |RenderAlias(WEB, domain)| == 54;
  }

  /** With every text parsing: the sample takes the block of an alias, reads it back, takes it again without a
      change and gives it up again; so the premises of `UpdateFrames`, `PutGet`, `PutPut`, `PutAfterRemoval` and
      `AddThenRemove` can be met. */
  lemma PremisesAreMet(parses: string -> bool) returns (d: string)
    requires forall text :: parses(text)
    ensures var domain := "cluster.local";
            var rendered := Render([WEB], domain);
            && Update(SAMPLE, rendered, domain, parses) == Success(d)
            && Inspect(d, domain, parses).Success? && Inspect(d, domain, parses).value.aliases == [WEB]
            && Inspect(d, domain, parses).value.blockStart >= 0
            && Update(d, rendered, domain, parses) == Success(d)
            && Update(d, "", domain, parses) == Success(SAMPLE)
  {
    var domain := "cluster.local";
    SampleAccepted(domain, parses);
    WebIsValid();
    DomainIsReadable();
    NewlineIs(SAMPLE);
    WebIsShort(Newline(SAMPLE));
    var rendered := Render([WEB], domain);
    var p := UpdateIs(SAMPLE, rendered, domain, parses);
    SpliceIs(SAMPLE, Inspect(SAMPLE, domain, parses).value, p, Block(rendered, Newline(SAMPLE)));
    PutGet(SAMPLE, [WEB], domain, parses);
    d := Update(SAMPLE, rendered, domain, parses).value;
    RenderFirst([WEB], domain);
    UpdateFrames(SAMPLE, rendered, domain, parses);
    PutTwice(SAMPLE, d, [WEB], domain, parses);
    AddThenRemove(SAMPLE, rendered, domain, parses);
  }

  lemma WebTarget()
    ensures TargetOf(WEB, "cluster.local") == "web.shop.svc.cluster.local"
  {
    assert TrimDots("cluster.local") == "cluster.local";
    var a, b := "web" + "." + "shop" + ".", "svc" + ".";
    assert a == "web.shop." && b == "svc.";
    assert a + b == "web.shop.svc.";
    assert TargetOf(WEB, "cluster.local") == a + b + "cluster.local";
  }

  lemma RewriteWords()
    ensures "rewrite" + " " + "stop" + " " + "name" + " " + "exact" + " " == "rewrite stop name exact "
  {
    assert "rewrite" + " " + "stop" + " " == "rewrite stop ";
    assert "name" + " " + "exact" + " " == "name exact ";
  }

  lemma RenderedHead(a: Alias, domain: string)
    ensures RenderAlias(a, domain) == "rewrite stop name exact " + a.hostname + " " + TargetOf(a, domain)
  {
    RewriteWords();
  }

  /** The line of an alias, spelled out. */
  lemma WebIsRendered()
    ensures Render([WEB], "cluster.local")
         == "rewrite stop name exact " + "web" + " " + "web.shop.svc.cluster.local" + "\n"
  {
    var domain := "cluster.local";
    assert [WEB][1..] == [];
    RenderedHead(WEB, domain);
    WebTarget();
    assert Render([WEB], domain) == RenderAlias(WEB, domain) + "\n" + "";
  }

  const WEB_BLOCK := "    # BEGIN KuchDesk service aliases" + "\n"
    + ("    rewrite stop name exact " + "web" + " " + "web.shop.svc.cluster.local" + "\n")
    + ("    # END KuchDesk service aliases" + "\n")

  lemma WebLine()
    ensures AliasLine(WEB, "cluster.local", "\n")
         == "    rewrite stop name exact " + "web" + " " + "web.shop.svc.cluster.local" + "\n"
  {
    RenderedHead(WEB, "cluster.local");
    WebTarget();
    assert "    " + "rewrite stop name exact " == "    rewrite stop name exact ";
  }

  lemma MarkLines()
    ensures MarkLine(START, "\n") == "    # BEGIN KuchDesk service aliases" + "\n"
    ensures MarkLine(END, "\n") == "    # END KuchDesk service aliases" + "\n"
  {
  }

  lemma IndentedWeb()
    ensures Indent(Render([WEB], "cluster.local"), "\n") == AliasLine(WEB, "cluster.local", "\n")
  {
    WebIsValid();
    DomainIsReadable();
    IndentFirst([WEB], "cluster.local", "\n");
    assert [WEB][1..] == [];
  }

  lemma BlockOfWeb()
    ensures Block(Render([WEB], "cluster.local"), "\n") == WEB_BLOCK
  {
    var rendered := Render([WEB], "cluster.local");
    WebIsRendered();
    WebLine();
    MarkLines();
    IndentedWeb();
    BlockParts(rendered, "\n");
    var line := "    rewrite stop name exact " + "web" + " " + "web.shop.svc.cluster.local" + "\n";
    assert Indent(rendered, "\n") == line;
  }

  lemma SampleHasNoReturn()
    ensures Newline(SAMPLE) == "\n"
  {
    assert '\r' !in SAMPLE;
  }

  /** The text of the sample after it took the block of the alias, spelled out. */
  lemma SampleUpdated(parses: string -> bool)
    requires forall text :: parses(text)
    ensures Update(SAMPLE, Render([WEB], "cluster.local"), "cluster.local", parses)
         == Success(".:53 {" + "\n" + WEB_BLOCK + ("kubernetes" + "\n" + ("reload" + "\n" + ("}" + "\n"))))
  {
    var d := PremisesAreMet(parses);
    var domain, rendered := "cluster.local", Render([WEB], "cluster.local");
    SampleAccepted(domain, parses);
    UpdateIff(SAMPLE, rendered, domain, parses);
    SampleHasNoReturn();
    BlockOfWeb();
    var rest := "kubernetes" + "\n" + ("reload" + "\n" + ("}" + "\n"));
    SampleParts(rest);
    assert SAMPLE[..7] == ".:53 {" + "\n" && SAMPLE[7..] == rest;
  }
}
