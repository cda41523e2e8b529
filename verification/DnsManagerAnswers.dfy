/** What the alias manager does with the request it is given: which requests it goes on with, what a preview shows,
    and what normalisation makes of a name. */
module DnsManagerAnswers {
  import opened Replies
  import opened Text
  import opened CorefileSpec
  import opened CorefileAliases
  import opened DnsManagerSpec
  import opened DnsManagerSafety
  import opened DnsManager

  // ---------------------------------------------------------------- normal forms

  predicate Dots(s: string) {
    forall i | 0 <= i < |s| :: s[i] == '.'
  }

  predicate Undotted(s: string) {
    s != "" ==> s[0] != '.' && s[|s| - 1] != '.'
  }

  predicate Unpadded(s: string) {
    s != "" ==> !IsSpace(s[0]) && !IsSpace(s[|s| - 1])
  }

  /** The same text in lower case: a capital letter becomes the small one, everything else stays. */
  predicate InLower(s: string, t: string) {
    |t| == |s| && forall i | 0 <= i < |s| ::
      if 'A' <= s[i] <= 'Z' then 'a' <= t[i] <= 'z' && t[i] - 'a' == s[i] - 'A' else t[i] == s[i]
  }

  lemma LowerMeans(s: string)
    ensures InLower(s, Lower(s))
  {
  }

  lemma {:induction false} DotsLeft(s: string) returns (dots: string)
    ensures Dots(dots) && s == dots + TrimDotsLeft(s) && (TrimDotsLeft(s) != "" ==> TrimDotsLeft(s)[0] != '.')
  {
    if s != "" && s[0] == '.' {
      var rest := DotsLeft(s[1..]);
      dots := "." + rest;
      assert s == "." + s[1..];
    } else {
      dots := "";
    }
  }

  lemma {:induction false} DotsRight(s: string) returns (dots: string)
    ensures Dots(dots) && s == TrimDotsRight(s) + dots
    ensures TrimDotsRight(s) != "" ==> TrimDotsRight(s)[|TrimDotsRight(s)| - 1] != '.'
  {
    if s != "" && s[|s| - 1] == '.' {
      var rest := DotsRight(s[..|s| - 1]);
      dots := rest + ".";
      assert s == s[..|s| - 1] + ".";
    } else {
      dots := "";
    }
  }

  lemma TrimUnpadded(s: string)
    ensures Unpadded(Trim(s))
  {
    var pad := TrimRightSplits(TrimLeft(s));
    TrimLeftShorter(s);
    if Trim(s) != "" {
      assert TrimLeft(s)[0] == Trim(s)[0];
    }
  }

  /** A service or namespace: the outer blanks go, capitals become small letters, everything else stays. */
  lemma NormalLabel(s: string) returns (left: string, core: string, right: string)
    ensures s == left + core + right && Blank(left) && Blank(right) && Unpadded(core)
    ensures InLower(core, Lower(Trim(s)))
  {
    left, right := TrimSplits(s);
    core := Trim(s);
    TrimUnpadded(s);
    LowerMeans(core);
  }

  /** A host name: the outer blanks go, then the outer dots, capitals become small letters, everything else stays. */
  lemma NormalHostname(s: string) returns (left: string, before: string, core: string, after: string, right: string)
    ensures s == left + (before + core + after) + right && Blank(left) && Blank(right)
    ensures Unpadded(before + core + after) && Dots(before) && Dots(after) && Undotted(core)
    ensures InLower(core, NormalizeDomain(s))
  {
    left, right := TrimSplits(s);
    var t := Trim(s);
    TrimUnpadded(s);
    before := DotsLeft(t);
    after := DotsRight(TrimDotsLeft(t));
    core := TrimDots(t);
    assert t == before + core + after;
    assert core != "" ==> TrimDotsLeft(t)[0] == core[0];
    LowerMeans(core);
  }

  // ---------------------------------------------------------------- which requests go on

  /** The normal forms of the aliases of a request, in their order. */
  function Normals(input: seq<Alias>): seq<Alias> {
    seq(|input|, i requires 0 <= i < |input| => Normal(input[i]))
  }

  /** The manager goes on with the request when the last version is this one: it is enabled, every alias passes, the
      rendering is accepted as directives, the cluster answers, the request names the version, and the file takes the
      aliases. */
  ghost predicate Granted(c: Config, request: Request, services: Services, reached: bool, version: nat, was: string) {
    && c.enabled && |request.aliases| <= MAX_ALIASES
    && (forall k | 0 <= k < |request.aliases| :: Passes(request.aliases, k, c.domain, services))
    && (request.aliases == [] || c.directives(Render(Normals(request.aliases), c.domain)))
    && reached && request.version == Some(version)
    && Update(was, Render(Normals(request.aliases), c.domain), c.domain, c.parses).Success?
  }

  lemma RenderEmptyIff(aliases: seq<Alias>, domain: string)
    ensures Render(aliases, domain) == "" <==> aliases == []
  {
  }

  lemma PrepareIff(c: Config, request: Request, services: Services)
    ensures Prepare(c, request, services).Passed? <==>
              && c.enabled && |request.aliases| <= MAX_ALIASES
              && (forall k | 0 <= k < |request.aliases| :: Passes(request.aliases, k, c.domain, services))
              && (request.aliases == [] || c.directives(Render(Normals(request.aliases), c.domain)))
    ensures var p := Prepare(c, request, services);
            p.Passed? ==> p.value == Normals(request.aliases) && ValidAliases(p.value)
  {
    ValidateIff(request.aliases, c.domain, services);
    var v := Validate(request.aliases, c.domain, services);
    if v.Passed? {
      assert v.value == Normals(request.aliases);
      RenderEmptyIff(v.value, c.domain);
    }
  }

  /** The plan of a request by what came of its parts. */
  predicate PlanIs(b: Begun, id: nat, request: Request, p: Checked<seq<Alias>>, reached: bool, n: nat,
                   u: Checked<string>) {
    if p.Refused? then b == Ended(Declined(p.why))
    else if !reached then b == Ended(Declined(Transport))
    else if u.Refused? then b == Ended(Declined(u.why))
    else if request.dryRun then b == Ended(Previewed(u.value))
    else b == Going(Fetched(Write(id, request, p.value), n, u.value))
  }

  lemma PlanParts(c: Config, history: seq<Entry>, id: nat, request: Request, services: Services, reached: bool)
      returns (b: Begun, p: Checked<seq<Alias>>, u: Checked<string>)
    requires history != []
    ensures b == Plan(c, history, id, request, services, reached) && p == Prepare(c, request, services)
    ensures var n := |history| - 1;
            PlanIs(b, id, request, p, reached, n, u)
            && (p.Passed? ==> u == Compute(c, request, p.value, n, history[n].text))
  {
    b := Plan(c, history, id, request, services, reached);
    p := Prepare(c, request, services);
    u := if p.Passed? then Compute(c, request, p.value, |history| - 1, history[|history| - 1].text)
         else Refused(Invalid);
  }

  lemma ComputeIff(c: Config, request: Request, aliases: seq<Alias>, version: nat, text: string)
    ensures var u := Update(text, Render(aliases, c.domain), c.domain, c.parses);
            var r := Compute(c, request, aliases, version, text);
            && (r.Passed? <==> request.version == Some(version) && u.Success?)
            && (r.Passed? ==> u == Success(r.value))
  {
  }

  /** A request is written, or shown as a preview, exactly if it is granted; what is written or shown is the update of
      the version it names with the normal forms of its aliases. */
  lemma PlanIff(c: Config, history: seq<Entry>, id: nat, request: Request, services: Services, reached: bool)
    requires history != []
    ensures var b, n := Plan(c, history, id, request, services, reached), |history| - 1;
            var granted := Granted(c, request, services, reached, n, history[n].text);
            && (b.Going? <==> granted && !request.dryRun)
            && (b.Ended? && b.outcome.Previewed? <==> granted && request.dryRun)
    ensures var b, n := Plan(c, history, id, request, services, reached), |history| - 1;
            var u := Update(history[n].text, Render(Normals(request.aliases), c.domain), c.domain, c.parses);
            && (b.Going? ==>
                  u.Success? && b.fetched == Fetched(Write(id, request, Normals(request.aliases)), n, u.value))
            && (b.Ended? && b.outcome.Previewed? ==> u == Success(b.outcome.text))
  {
    var b, p, u := PlanParts(c, history, id, request, services, reached);
    PrepareIff(c, request, services);
    var n := |history| - 1;
    ComputeIff(c, request, Normals(request.aliases), n, history[n].text);
  }

  // ---------------------------------------------------------------- previews

  /** The text is what the request would have stored on top of the last version. */
  ghost predicate Preview(c: Config, request: Request, version: nat, was: string, text: string) {
    && request.dryRun && request.version == Some(version) && ValidAliases(Normals(request.aliases))
    && Update(was, Render(Normals(request.aliases), c.domain), c.domain, c.parses) == Success(text)
    && (Word(c.domain) ==> Kept(c, was, text, Normals(request.aliases)))
  }

  lemma PlanPreviews(c: Config, history: seq<Entry>, id: nat, request: Request, services: Services, reached: bool)
    requires history != []
    requires var b := Plan(c, history, id, request, services, reached); b.Ended? && b.outcome.Previewed?
    ensures var b, n := Plan(c, history, id, request, services, reached), |history| - 1;
            Preview(c, request, n, history[n].text, b.outcome.text)
  {
    PlanIff(c, history, id, request, services, reached);
    PrepareIff(c, request, services);
    var n := |history| - 1;
    if Word(c.domain) {
      UpdateKept(c, Normals(request.aliases), history[n].text,
                 Plan(c, history, id, request, services, reached).outcome.text);
    }
  }

  /** What relates the move that began a request, the versions there were then, and the text shown for it. */
  type Showing = (Move, seq<Entry>, string) -> bool

  ghost function PreviewIn(c: Config): Showing {
    (m: Move, h: seq<Entry>, text: string) =>
      m.Begin? && h != [] && Preview(c, m.request, |h| - 1, h[|h| - 1].text, text)
  }

  /** The k-th move of a run began this request, and the text is what is to be shown for it. */
  ghost predicate ShownAt(shows: Showing, c: Config, s: State, moves: seq<Move>, k: nat, id: nat, text: string)
    requires s.history != [] && k < |moves|
  {
    moves[k].Begin? && moves[k].id == id && shows(moves[k], Run(c, s, moves[..k]).history, text)
  }

  lemma TookOutcome(s: State, m: nat, b: Begun, id: nat)
    ensures var t := Took(s, m, b);
            && t.history == s.history
            && (id !in s.outcomes && id in t.outcomes ==> m == id && b == Ended(t.outcomes[id]))
            && (id in s.outcomes && id != m ==> id in t.outcomes && t.outcomes[id] == s.outcomes[id])
  {
  }

  lemma FinishOutcome(s: State, m: Move, id: nat)
    requires m.Finish? && m.id in s.underway && m.id !in s.outcomes
    ensures var t := FinishStep(s, m);
            && (id !in s.outcomes && id in t.outcomes ==> !t.outcomes[id].Previewed?)
            && (id in s.outcomes ==> id in t.outcomes && t.outcomes[id] == s.outcomes[id])
  {
  }

  lemma BeginPreviews(c: Config, s: State, m: Move, id: nat)
    requires s.history != [] && m.Begin? && id !in s.outcomes
    requires var t := BeginStep(c, s, m); id in t.outcomes && t.outcomes[id].Previewed?
    ensures m.id == id && PreviewIn(c)(m, s.history, BeginStep(c, s, m).outcomes[id].text)
  {
    var b := Plan(c, s.history, m.id, m.request, m.services, m.reached);
    TookOutcome(s, m.id, b, id);
    PlanPreviews(c, s.history, m.id, m.request, m.services, m.reached);
  }

  ghost predicate Shown(shows: Showing, c: Config, s: State, moves: seq<Move>, id: nat, text: string)
    requires s.history != []
  {
    exists k :: 0 <= k < |moves| && ShownAt(shows, c, s, moves, k, id, text)
  }

  /** Moves of a run one at a time. */
  function First(c: Config, s: State, m: Move): (t: State)
    requires s.history != []
    ensures t.history != []
  {
    if Enabled(s, m) then Step(c, s, m) else s
  }

  lemma RunFirst(c: Config, s: State, moves: seq<Move>)
    requires s.history != [] && moves != []
    ensures Run(c, s, moves) == Run(c, First(c, s, moves[0]), moves[1..])
  {
  }

  lemma FirstOutcomes(c: Config, s: State, m: Move, id: nat)
    requires Inv(OnTopIn(c), s)
    ensures var t := First(c, s, m);
            && Inv(OnTopIn(c), t)
            && (id in s.outcomes ==> id in t.outcomes && t.outcomes[id] == s.outcomes[id])
            && (id !in s.outcomes && id in t.outcomes && t.outcomes[id].Previewed? ==>
                  m.Begin? && m.id == id && PreviewIn(c)(m, s.history, t.outcomes[id].text))
  {
    if Enabled(s, m) {
      StepKeeps(c, s, m);
      StepOutcomes(c, s, m, id);
    }
  }

  lemma ShownFirst(shows: Showing, c: Config, s: State, moves: seq<Move>, id: nat, text: string)
    requires s.history != [] && moves != [] && moves[0].Begin? && moves[0].id == id
    requires shows(moves[0], s.history, text)
    ensures Shown(shows, c, s, moves, id, text)
  {
    assert moves[..0] == [];
    assert ShownAt(shows, c, s, moves, 0, id, text);
  }

  lemma ShownLater(shows: Showing, c: Config, s: State, moves: seq<Move>, id: nat, text: string)
    requires s.history != [] && moves != [] && Shown(shows, c, First(c, s, moves[0]), moves[1..], id, text)
    ensures Shown(shows, c, s, moves, id, text)
  {
    var k :| 0 <= k < |moves[1..]| && ShownAt(shows, c, First(c, s, moves[0]), moves[1..], k, id, text);
    assert moves[..k + 1][1..] == moves[1..][..k];
    RunFirst(c, s, moves[..k + 1]);
    assert ShownAt(shows, c, s, moves, k + 1, id, text);
  }

  /** In a run, the outcomes there are stay, and a preview shows what its request would have stored on top of the
      version that was the last one when it began. */
  lemma {:induction false} RunPreviews(c: Config, s: State, moves: seq<Move>, id: nat)
    requires Inv(OnTopIn(c), s)
    ensures var t := Run(c, s, moves);
            && (id in s.outcomes ==> id in t.outcomes && t.outcomes[id] == s.outcomes[id])
            && (id !in s.outcomes && id in t.outcomes && t.outcomes[id].Previewed? ==>
                  Shown(PreviewIn(c), c, s, moves, id, t.outcomes[id].text))
    decreases |moves|
  {
    if moves != [] {
      var s' := First(c, s, moves[0]);
      FirstOutcomes(c, s, moves[0], id);
      RunPreviews(c, s', moves[1..], id);
      RunFirst(c, s, moves);
      var t := Run(c, s', moves[1..]);
      if id !in s.outcomes && id in t.outcomes && t.outcomes[id].Previewed? {
        if id in s'.outcomes {
          ShownFirst(PreviewIn(c), c, s, moves, id, t.outcomes[id].text);
        } else {
          ShownLater(PreviewIn(c), c, s, moves, id, t.outcomes[id].text);
        }
      }
    }
  }

  lemma StepOutcomes(c: Config, s: State, m: Move, id: nat)
    requires Inv(OnTopIn(c), s) && Enabled(s, m)
    ensures var t := Step(c, s, m);
            && (id in s.outcomes ==> id in t.outcomes && t.outcomes[id] == s.outcomes[id])
            && (id !in s.outcomes && id in t.outcomes && t.outcomes[id].Previewed? ==>
                  m.Begin? && m.id == id && PreviewIn(c)(m, s.history, t.outcomes[id].text))
  {
    match m
    case Edit(_) =>
    case Begin(_, _, _, _) =>
      var b := Plan(c, s.history, m.id, m.request, m.services, m.reached);
      TookOutcome(s, m.id, b, id);
      if id !in s.outcomes && id in Took(s, m.id, b).outcomes && Took(s, m.id, b).outcomes[id].Previewed? {
        BeginPreviews(c, s, m, id);
      }
    case Finish(_, _) =>
      assert UnderwayOk(OnTopIn(c), s, m.id);
      FinishOutcome(s, m, id);
  }

  /** A preview stores nothing, and shows the file that the request would have made of the version it names. */
  lemma PreviewsAreUpdates(c: Config, text: string, moves: seq<Move>, s: State, id: nat)
    requires s == Run(c, Initial(text), moves) && id in s.outcomes && s.outcomes[id].Previewed?
    ensures Shown(PreviewIn(c), c, Initial(text), moves, id, s.outcomes[id].text)
    ensures forall i: nat | i < |s.history| :: !WrittenBy(s, i, id)
  {
    RunPreviews(c, Initial(text), moves, id);
    forall i: nat | i < |s.history| ensures !WrittenBy(s, i, id) {
      if WrittenBy(s, i, id) {
        RunEntry(c, text, moves, s, i);
      }
    }
  }

  // ---------------------------------------------------------------- one call

  /** What a write under way comes to. */
  lemma ConcludedIs(s: State, id: nat, f: Fetched, texts: seq<string>, answer: Answer)
    requires s.history != [] && s.underway == map[id := f] && s.outcomes == map[] && f.version == |s.history| - 1
    ensures var t := Concluded(s, id, texts, answer);
            && id in t.outcomes
            && (t.outcomes[id].Stored? <==> texts == [] && answer.Delivered?)
            && (t.outcomes[id].Stored? ==> t.outcomes[id].version == |s.history|)
            && (t.outcomes[id] == Declined(Conflict) <==> texts != [] && answer.Delivered?)
            && t.history == s.history + (if texts == [] && !answer.Dropped? then [Entry(f.text, Some(f.write))]
                                         else Edits(texts))
  {
    EditsCount(texts);
    assert s.history + Edits([]) == s.history;
  }

  lemma {:induction false} EditsCount(texts: seq<string>)
    ensures |Edits(texts)| == |texts|
  {
    if texts != [] {
      EditsCount(texts[1..]);
    }
  }

  /** A call of `Replace` stores exactly if the request is granted, is no dry run, nobody else wrote in between and
      the request was not lost; it answers so exactly if the response was not lost either. Whoever wrote in between
      makes it a conflict, and a call that stores nothing leaves the versions as they were. */
  lemma ReplaceIff(c: Config, history: seq<Entry>, id: nat, request: Request, services: Services, reached: bool,
                   texts: seq<string>, answer: Answer)
    requires history != []
    ensures var n := |history| - 1;
            var goes := Granted(c, request, services, reached, n, history[n].text) && !request.dryRun;
            var t := Call(c, history, Begin(id, request, services, reached), texts, answer);
            && id in t.outcomes
            && (t.outcomes[id].Stored? <==> goes && texts == [] && answer.Delivered?)
            && (goes && texts != [] && answer.Delivered? ==> t.outcomes[id] == Declined(Conflict))
            && (if !goes then t.history == history
                else if texts != [] || answer.Dropped? then t.history == history + Edits(texts)
                else |t.history| == |history| + 1 && t.history[..|history|] == history
                     && t.history[|history|].write == Some(Write(id, request, Normals(request.aliases))))
  {
    var s := State(history, map[], map[]);
    var begin := Begin(id, request, services, reached);
    PlanIff(c, history, id, request, services, reached);
    var b := Plan(c, history, id, request, services, reached);
    assert BeginStep(c, s, begin) == Took(s, id, b);
    if b.Going? {
      ConcludedIs(Took(s, id, b), id, b.fetched, texts, answer);
    } else {
      assert Call(c, history, begin, texts, answer) == End(s, id, b.outcome);
    }
  }
}
