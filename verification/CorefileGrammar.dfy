/** Which lines the managed block may hold, and which aliases they declare. */
module CorefileGrammar {
  import opened Replies
  import opened Text
  import opened CorefileSpec
  import opened CorefileAliases
  import opened CorefileShape

  // ---------------------------------------------------------------- one line

  /** The target of an alias in this cluster domain, as the block spells it. */
  function Target(a: Alias, domain: string): string {
    a.service + "." + (a.namespace + "." + ("svc" + "." + domain))
  }

  lemma TargetParts(a: Alias, domain: string)
    requires IsLabel(a.service) && IsLabel(a.namespace)
    ensures SplitDots(Target(a, domain)) == [a.service, a.namespace, "svc"] + SplitDots(domain)
  {
    LabelIsWord(a.service);
    LabelIsWord(a.namespace);
    SplitCons("svc", domain);
    SplitCons(a.namespace, "svc" + "." + domain);
    SplitCons(a.service, a.namespace + "." + ("svc" + "." + domain));
  }

  lemma TargetJoined(text: string, a: Alias, domain: string)
    requires var parts := SplitDots(text);
             && |parts| >= 5 && parts[0] == a.service && parts[1] == a.namespace && parts[2] == "svc"
             && JoinDots(parts[3..]) == domain
    ensures text == Target(a, domain) && '.' in domain
  {
    var parts := SplitDots(text);
    JoinSplit(text);
    assert parts[1..][1..] == parts[2..] && parts[2..][1..] == parts[3..];
    assert JoinDots(parts[1..]) == a.namespace + "." + JoinDots(parts[2..]);
    assert JoinDots(parts[2..]) == "svc" + "." + domain;
    assert domain == parts[3] + "." + JoinDots(parts[3..][1..]);
    assert domain[|parts[3]|] == '.';
  }

  /** A line declares an alias exactly if its six words are these and the names are valid. */
  lemma AliasIff(line: string, domain: string, a: Alias)
    ensures ParseAlias(line, domain) == Some(a) <==>
              && ValidAlias(a) && '.' in domain
              && Fields(line) == ["rewrite", "stop", "name", "exact", a.hostname, Target(a, domain)]
  {
    var fields := Fields(line);
    if ParseAlias(line, domain) == Some(a) {
      TargetJoined(fields[5], a, domain);
    }
    if ValidAlias(a) && '.' in domain
       && fields == ["rewrite", "stop", "name", "exact", a.hostname, Target(a, domain)] {
      TargetParts(a, domain);
      SplitMany(domain);
      JoinSplit(domain);
      assert SplitDots(fields[5])[3..] == SplitDots(domain);
    }
  }

  // ---------------------------------------------------------------- the whole block

  /** Every line is blank or declares an alias. */
  predicate AllDeclare(lines: seq<string>, domain: string) {
    forall i | 0 <= i < |lines| :: Trim(lines[i]) == "" || ParseAlias(Trim(lines[i]), domain).Some?
  }

  /** The aliases the lines declare, in their order. */
  function Declared(lines: seq<string>, domain: string): seq<Alias> {
    if lines == [] then []
    else
      var a := ParseAlias(Trim(lines[0]), domain);
      (if a.Some? then [a.value] else []) + Declared(lines[1..], domain)
  }

  lemma BlankDeclaresNothing(domain: string)
    ensures ParseAlias("", domain).None?
  {
    assert Fields("") == [];
  }

  lemma DistinctParts(a: seq<Alias>, b: seq<Alias>)
    requires Distinct(a + b)
    ensures Distinct(a)
  {
    forall i, j | 0 <= i < j < |a| ensures a[i].hostname != a[j].hostname {
      assert (a + b)[i] == a[i] && (a + b)[j] == a[j];
    }
  }

  lemma SeenIsNotDistinct(prior: seq<Alias>, a: Alias)
    requires Distinct(prior)
    ensures Distinct(prior + [a]) <==> !Seen(prior, a.hostname)
  {
    var more := prior + [a];
    if Seen(prior, a.hostname) {
      var i: nat :| i < |prior| && prior[i].hostname == a.hostname;
      assert more[i].hostname == more[|prior|].hostname;
    } else {
      forall i, j | 0 <= i < j < |more| ensures more[i].hostname != more[j].hostname {
        assert more[i] == prior[i];
      }
    }
  }

  /** Reading succeeds exactly if every line is blank or declares an alias and no host name comes twice; it then
      gives the aliases of the lines in their order. */
  lemma {:induction false} LinesIff(text: string, domain: string, prior: seq<Alias>)
    requires Distinct(prior)
    ensures ParseLines(text, domain, prior)
         == if AllDeclare(Lines(text), domain) && Distinct(prior + Declared(Lines(text), domain))
            then Success(prior + Declared(Lines(text), domain)) else Failure(Unmanaged)
    decreases |text|
  {
    var lines := Lines(text);
    if text == "" {
      assert prior + [] == prior;
    } else {
      var line := Trim(FirstLine(text));
      var rest := Lines(OtherLines(text));
      var more := Declared(rest, domain);
      assert lines == [FirstLine(text)] + rest && lines[1..] == rest;
      BlankDeclaresNothing(domain);
      AllDeclareCons(FirstLine(text), rest, domain);
      if line == "" {
        LinesIff(OtherLines(text), domain, prior);
        assert [] + more == more;
      } else {
        var a := ParseAlias(line, domain);
        if a.Some? {
          SeenIsNotDistinct(prior, a.value);
          assert prior + [a.value] + more == prior + ([a.value] + more);
          if Seen(prior, a.value.hostname) {
            if Distinct(prior + [a.value] + more) {
              DistinctParts(prior + [a.value], more);
            }
          } else {
            LinesIff(OtherLines(text), domain, prior + [a.value]);
          }
        }
      }
    }
  }

  lemma AllDeclareCons(line: string, rest: seq<string>, domain: string)
    ensures AllDeclare([line] + rest, domain) <==>
              (Trim(line) == "" || ParseAlias(Trim(line), domain).Some?) && AllDeclare(rest, domain)
  {
    var lines := [line] + rest;
    assert lines[0] == line && forall i | 0 <= i < |rest| :: lines[i + 1] == rest[i];
    if AllDeclare(lines, domain) {
      forall i | 0 <= i < |rest| ensures Trim(rest[i]) == "" || ParseAlias(Trim(rest[i]), domain).Some? {
        assert lines[i + 1] == rest[i];
      }
    }
  }

  /** The managed text is read exactly if it is short enough, its lines declare aliases, and no host name comes
      twice. */
  lemma ManagedIff(text: string, domain: string)
    ensures ParseManaged(text, domain)
         == if && |text| <= MAX_MANAGED && AllDeclare(Lines(text), domain)
               && Distinct(Declared(Lines(text), domain))
            then Success(Declared(Lines(text), domain)) else Failure(Unmanaged)
  {
    LinesIff(text, domain, []);
    assert [] + Declared(Lines(text), domain) == Declared(Lines(text), domain);
  }

  // ---------------------------------------------------------------- braces

  /** No character that starts a quotation, an escape or a comment. */
  predicate Unquoted(s: string) {
    forall i | 0 <= i < |s| :: s[i] != '\\' && s[i] != '#' && s[i] != '"' && s[i] != '\''
  }

  function Count(s: string, c: char): nat {
    if s == "" then 0 else (if s[0] == c then 1 else 0) + Count(s[1..], c)
  }

  /** Outside quotations each brace counts. */
  lemma {:induction false} BracesCount(s: string, rest: string)
    requires Unquoted(s)
    ensures BraceDelta(s + rest, None, false) == Count(s, '{') - Count(s, '}') + BraceDelta(rest, None, false)
  {
    if s == "" {
      assert s + rest == rest;
    } else {
      assert (s + rest)[0] == s[0] && (s + rest)[1..] == s[1..] + rest;
      BracesCount(s[1..], rest);
    }
  }

  /** A comment does not count. */
  lemma CommentsDoNotCount(comment: string)
    ensures BraceDelta("#" + comment, None, false) == 0
  {
  }

  /** An escaped character does not count. */
  lemma EscapesDoNotCount(c: char, rest: string)
    ensures BraceDelta(['\\', c] + rest, None, false) == BraceDelta(rest, None, false)
  {
    var s := ['\\', c] + rest;
    assert s[1..] == [c] + rest && ([c] + rest)[1..] == rest;
  }

  lemma {:induction false} QuotedText(s: string, quote: char, rest: string)
    requires '\\' !in s && quote !in s && quote != '\\'
    ensures BraceDelta(s + [quote] + rest, Some(quote), false) == BraceDelta(rest, None, false)
  {
    var t := s + [quote] + rest;
    if s == "" {
      assert t[0] == quote && t[1..] == rest;
    } else {
      assert t[0] == s[0] && t[1..] == s[1..] + [quote] + rest;
      QuotedText(s[1..], quote, rest);
    }
  }

  /** Text between two quotes of a kind does not count, comment signs and the other quote included. */
  lemma QuotationsDoNotCount(s: string, quote: char, rest: string)
    requires (quote == '"' || quote == '\'') && '\\' !in s && quote !in s
    ensures BraceDelta([quote] + s + [quote] + rest, None, false) == BraceDelta(rest, None, false)
  {
    var t := [quote] + s + [quote] + rest;
    assert t[0] == quote && t[1..] == s + [quote] + rest;
    QuotedText(s, quote, rest);
  }

  // ---------------------------------------------------------------- what an update can touch

  lemma RewriteIsBetween(lines: seq<string>, i: nat, b: nat)
    requires i < |lines| && LineOk(lines, i) && Directive(lines, i, "rewrite")
    requires EndLine(lines, b) && b != i && forall e: nat | EndLine(lines, e) :: e == b
    requires forall a: nat | StartLine(lines, a) :: a < b
    ensures exists a: nat :: a < i < b && StartLine(lines, a) && EndLine(lines, b)
  {
    var a: nat :| a < i && ManagedSince(lines, a, i);
    assert StartLine(lines, a);
  }

  /** In an accepted file a rewrite at the top of the root server block is between the two markers. */
  lemma RewritesAreManaged(lines: seq<string>, i: nat)
    requires WellShaped(lines) && Directive(lines, i, "rewrite")
    ensures exists a: nat, b: nat :: a < i < b && StartLine(lines, a) && EndLine(lines, b)
  {
    assert LineOk(lines, i);
    assert exists a: nat :: StartLine(lines, a) by {
      var a: nat :| a < i && ManagedSince(lines, a, i);
      assert StartLine(lines, a);
    }
    var b: nat :| EndLine(lines, b);
    MarkersAreUnique(lines);
    if b == i {
      MarkerIsComment(lines[i]);
    }
    RewriteIsBetween(lines, i, b);
  }

  /** An update succeeds exactly if the file is accepted before it and after it. */
  lemma UpdateIff(corefile: string, rendered: string, domain: string, parses: string -> bool)
    ensures var r := Update(corefile, rendered, domain, parses);
            r.Success? <==>
              && Accepted(corefile, domain, parses)
              && Accepted(Spliced(corefile, rendered, domain, parses), domain, parses)
    ensures var r := Update(corefile, rendered, domain, parses);
            r.Success? ==> r.value == Spliced(corefile, rendered, domain, parses)
  {
    InspectIff(corefile, domain, parses);
    InspectIff(Spliced(corefile, rendered, domain, parses), domain, parses);
  }

  /** An accepted file with this rendering between its markers, or in a new block below the root line. */
  function Spliced(corefile: string, rendered: string, domain: string, parses: string -> bool): string {
    var layout := Inspect(corefile, domain, parses);
    if layout.Failure? then corefile
    else Splice(corefile, layout.value, Block(rendered, Newline(corefile)))
  }
}
