/** The editor itself: loops over characters, lines and aliases, each proved to compute its specification. */
module Corefile {
  import opened Replies
  import opened Text
  import opened CorefileSpec
  import opened CorefileScan

  method CorefileBraceDelta(line: string) returns (delta: int)
    ensures delta == BraceDelta(line, None, false)
  {
    delta := 0;
    var quote: Option<char> := None;
    var escaped := false;
    for i := 0 to |line|
      invariant BraceDelta(line, None, false) == delta + BraceDelta(line[i..], quote, escaped)
    {
      var c := line[i];
      assert line[i..][1..] == line[i + 1..];
      if escaped {
        escaped := false;
        continue;
      }
      if c == '\\' {
        escaped := true;
        continue;
      }
      if quote.Some? {
        if c == quote.value {
          quote := None;
        }
        continue;
      }
      if c == '#' {
        break;
      }
      if c == '"' || c == '\'' {
        quote := Some(c);
        continue;
      }
      if c == '{' {
        delta := delta + 1;
      } else if c == '}' {
        delta := delta - 1;
      }
    }
  }

  lemma SeenMore(aliases: seq<Alias>, a: Alias, hostname: string)
    ensures Seen(aliases + [a], hostname) <==> Seen(aliases, hostname) || a.hostname == hostname
  {
    var more := aliases + [a];
    if Seen(aliases, hostname) {
      var i :| 0 <= i < |aliases| && aliases[i].hostname == hostname;
      assert more[i].hostname == hostname;
    }
    if a.hostname == hostname {
      assert more[|aliases|].hostname == hostname;
    }
  }

  method ParseManagedText(input: string, clusterDomain: string) returns (r: Result<seq<Alias>>)
    ensures r == ParseManaged(input, clusterDomain)
  {
    if |input| > MAX_MANAGED {
      return Failure(Unmanaged);
    }
    var aliases: seq<Alias> := [];
    var seen: set<string> := {};
    var rest := input;
    while rest != ""
      invariant ParseLines(input, clusterDomain, []) == ParseLines(rest, clusterDomain, aliases)
      invariant forall h :: h in seen <==> Seen(aliases, h)
      decreases |rest|
    {
      var line := Trim(FirstLine(rest));
      rest := OtherLines(rest);
      if line == "" {
        continue;
      }
      var fields := Fields(line);
      if |fields| != 6 || fields[0] != "rewrite" || fields[1] != "stop" || fields[2] != "name" || fields[3] != "exact" {
        return Failure(Unmanaged);
      }
      var targetParts := SplitDots(fields[5]);
      if |targetParts| < 5 || targetParts[2] != "svc" || JoinDots(targetParts[3..]) != clusterDomain
         || !IsLabel(targetParts[0]) || !IsLabel(targetParts[1]) || !IsSubdomain(fields[4]) || fields[4] in seen {
        return Failure(Unmanaged);
      }
      seen := seen + {fields[4]};
      var a := Alias(fields[4], targetParts[0], targetParts[1]);
      forall h: string ensures Seen(aliases + [a], h) <==> Seen(aliases, h) || a.hostname == h {
        SeenMore(aliases, a, h);
      }
      aliases := aliases + [a];
    }
    r := Success(aliases);
  }

  lemma JoinLine(output: string, line: string, rest: string)
    ensures output + (line + "\n" + rest) == output + line + "\n" + rest
  {
  }

  lemma RenderUnfold(aliases: seq<Alias>, i: nat, domain: string)
    requires i < |aliases|
    ensures Render(aliases[i..], domain) == RenderAlias(aliases[i], domain) + "\n" + Render(aliases[i + 1..], domain)
  {
    assert aliases[i..][1..] == aliases[i + 1..];
  }

  method RenderLine(a: Alias, clusterDomain: string) returns (line: string)
    ensures line == RenderAlias(a, clusterDomain)
  {
    var target := a.service + "." + a.namespace + ".svc." + TrimDots(clusterDomain);
    assert target == TargetOf(a, clusterDomain);
    line := "rewrite stop name exact " + a.hostname + " " + target;
  }

  method RenderAliases(aliases: seq<Alias>, clusterDomain: string) returns (output: string)
    ensures output == Render(aliases, clusterDomain)
  {
    output := "";
    for i := 0 to |aliases|
      invariant Render(aliases, clusterDomain) == output + Render(aliases[i..], clusterDomain)
    {
      var line := RenderLine(aliases[i], clusterDomain);
      RenderUnfold(aliases, i, clusterDomain);
      JoinLine(output, line, Render(aliases[i + 1..], clusterDomain));
      output := output + line + "\n";
    }
  }

  lemma JoinFour(output: string, pad: string, line: string, newline: string, rest: string)
    ensures output + (pad + line + newline + rest) == output + pad + line + newline + rest
  {
  }

  method IndentLines(rendered: string, newline: string) returns (block: string)
    ensures block == Indent(rendered, newline)
  {
    block := "";
    var rest := rendered;
    while rest != ""
      invariant Indent(rendered, newline) == block + Indent(rest, newline)
      decreases |rest|
    {
      var line := Bare(FirstLine(rest));
      JoinFour(block, "    ", line, newline, Indent(OtherLines(rest), newline));
      block := block + "    " + line + newline;
      rest := OtherLines(rest);
    }
  }

  method InspectRoot(scan: Scan, line: string) returns (r: Result<Scan>)
    ensures r == ScanRoot(scan, line)
  {
    var s := scan;
    if s.depth == 0 && Trim(line) == ROOT {
      if s.rootFound {
        return Failure(Unavailable);
      }
      s := s.(rootFound := true, inRoot := true, insertAt := s.offset + |line|);
    }
    r := Success(s);
  }

  method InspectMarker(scan: Scan, line: string) returns (r: Result<Scan>)
    ensures r == ScanMarker(scan, line)
  {
    var s := scan;
    var trimmed := Trim(line);
    if trimmed == START || trimmed == END {
      if !s.inRoot || s.depth != 1 {
        return Failure(Unmanaged);
      }
      if trimmed == START {
        if s.blockStart >= 0 {
          return Failure(Unmanaged);
        }
        s := s.(blockStart := s.offset, contentStart := s.offset + |line|, inManaged := true);
      } else {
        if s.blockStart < 0 || s.blockEnd >= 0 {
          return Failure(Unmanaged);
        }
        s := s.(contentEnd := s.offset, blockEnd := s.offset + |line|, inManaged := false);
      }
    }
    r := Success(s);
  }

  method InspectDirective(scan: Scan, line: string) returns (r: Result<Scan>)
    ensures r == ScanDirective(scan, line)
  {
    var s := scan;
    if s.inRoot && s.depth == 1 {
      var fields := Fields(Code(Trim(line)));
      if |fields| > 0 {
        if fields[0] == "rewrite" && !s.inManaged {
          return Failure(Unmanaged);
        }
        s := s.(hasKubernetes := s.hasKubernetes || fields[0] == "kubernetes",
                hasReload := s.hasReload || fields[0] == "reload");
      }
    }
    r := Success(s);
  }

  method InspectBraces(scan: Scan, line: string) returns (r: Result<Scan>)
    ensures r == ScanBraces(scan, line)
  {
    var s := scan;
    var delta := CorefileBraceDelta(line);
    s := s.(depth := s.depth + delta);
    if s.depth < 0 {
      return Failure(Unavailable);
    }
    if s.inRoot && s.depth == 0 {
      s := s.(inRoot := false);
    }
    s := s.(offset := s.offset + |line|);
    r := Success(s);
  }

  /** One line of the scan: the root line, the markers, the directives, the braces, in this order. */
  method InspectLine(scan: Scan, line: string) returns (r: Result<Scan>)
    ensures r == ScanLine(scan, line)
  {
    r := InspectRoot(scan, line);
    if r.Failure? {
      return;
    }
    r := InspectMarker(r.value, line);
    if r.Failure? {
      return;
    }
    r := InspectDirective(r.value, line);
    if r.Failure? {
      return;
    }
    r := InspectBraces(r.value, line);
  }

  method InspectCorefile(corefile: string, clusterDomain: string, parses: string -> bool) returns (r: Result<Layout>)
    ensures r == Inspect(corefile, clusterDomain, parses)
  {
    if corefile == "" || |corefile| > MAX_COREFILE {
      return Failure(Unavailable);
    }
    if !parses(corefile) {
      return Failure(Unavailable);
    }
    var s := INITIAL;
    var rest := corefile;
    while rest != ""
      invariant ScanText(INITIAL, corefile) == ScanText(s, rest)
      decreases |rest|
    {
      var step := InspectLine(s, FirstLine(rest));
      if step.Failure? {
        return Failure(step.fault);
      }
      s := step.value;
      rest := OtherLines(rest);
    }
    assert ScanText(INITIAL, corefile) == Success(s);
    if !s.rootFound || s.depth != 0 || !s.hasKubernetes || !s.hasReload {
      return Failure(Unavailable);
    }
    if (s.blockStart < 0) != (s.blockEnd < 0) {
      return Failure(Unmanaged);
    }
    if s.blockStart < 0 {
      return Success(Layout(s.insertAt, -1, -1, "", []));
    }
    TextSound(INITIAL, corefile);
    var parsed := ParseManagedText(corefile[s.contentStart..s.contentEnd], clusterDomain);
    if parsed.Failure? {
      return Failure(parsed.fault);
    }
    var rendered := RenderAliases(parsed.value, clusterDomain);
    r := Success(Layout(s.insertAt, s.blockStart, s.blockEnd, rendered, parsed.value));
  }

  /** Replaces, adds or removes the managed block and checks the result before handing it out. */
  method UpdateManagedCorefile(corefile: string, rendered: string, clusterDomain: string, parses: string -> bool)
      returns (r: Result<string>)
    ensures r == Update(corefile, rendered, clusterDomain, parses)
  {
    var inspected := InspectCorefile(corefile, clusterDomain, parses);
    if inspected.Failure? {
      return Failure(inspected.fault);
    }
    var layout := inspected.value;
    var newline := if HasCRLF(corefile) then "\r\n" else "\n";
    var block := "";
    if rendered != "" {
      var lines := IndentLines(rendered, newline);
      block := "    " + START + newline + lines + "    " + END + newline;
    }
    var updated := corefile;
    LayoutInside(corefile, clusterDomain, parses);
    if layout.blockStart >= 0 {
      updated := corefile[..layout.blockStart] + block + corefile[layout.blockEnd..];
    } else if block != "" {
      updated := corefile[..layout.insertAt] + block + corefile[layout.insertAt..];
    }
    var check := InspectCorefile(updated, clusterDomain, parses);
    if check.Failure? {
      return Failure(check.fault);
    }
    r := Success(updated);
  }

  /** The positions of a layout are positions in the file. */
  lemma LayoutInside(corefile: string, domain: string, parses: string -> bool)
    requires Inspect(corefile, domain, parses).Success?
    ensures var l := Inspect(corefile, domain, parses).value;
            l.insertAt <= |corefile| && (l.blockStart >= 0 ==> l.blockStart <= l.blockEnd <= |corefile|)
  {
    TextSound(INITIAL, corefile);
  }
}
