/** What the alias manager keeps over every interleaving of requests, other writers and lost answers. */
module DnsManagerSafety {
  import opened Replies
  import opened Text
  import opened CorefileSpec
  import opened CorefileAliases
  import opened CorefileUpdate
  import opened CorefileLaws
  import opened DnsManagerSpec

  // ---------------------------------------------------------------- validation

  predicate Fresh(input: seq<Alias>, k: nat)
    requires k < |input|
  {
    forall j | 0 <= j < k :: Normal(input[j]).hostname != Normal(input[k]).hostname
  }

  /** What the cluster says of the service of the k-th alias. */
  function Asked(input: seq<Alias>, k: nat, services: Services): Lookup
    requires k < |input|
  {
    services(k, Normal(input[k]).namespace, Normal(input[k]).service)
  }

  /** What is asked of the k-th alias of a request. */
  predicate Passes(input: seq<Alias>, k: nat, domain: string, services: Services)
    requires k < |input|
  {
    Acceptable(Normal(input[k]), domain) && Fresh(input, k) && Asked(input, k, services).Found?
  }

  predicate Normalised(input: seq<Alias>, done: seq<Alias>) {
    |done| <= |input| && forall i | 0 <= i < |done| :: done[i] == Normal(input[i])
  }

  lemma SeenIsStale(input: seq<Alias>, done: seq<Alias>)
    requires Normalised(input, done) && |done| < |input|
    ensures Seen(done, Normal(input[|done|]).hostname) <==> !Fresh(input, |done|)
  {
    var h := Normal(input[|done|]).hostname;
    if !Fresh(input, |done|) {
      var j :| 0 <= j < |done| && Normal(input[j]).hostname == h;
      assert done[j].hostname == h;
    }
  }

  /** One more alias: it passes, or the whole request is refused. */
  lemma ValidateNext(input: seq<Alias>, domain: string, services: Services, done: seq<Alias>)
    requires Normalised(input, done) && |done| < |input|
    ensures var r := ValidateFrom(input, domain, services, done);
            if Passes(input, |done|, domain, services)
            then r == ValidateFrom(input, domain, services, done + [Normal(input[|done|])])
            else r.Refused?
  {
    SeenIsStale(input, done);
  }

  ghost predicate AllPass(input: seq<Alias>, from: nat, domain: string, services: Services) {
    forall k | from <= k < |input| :: Passes(input, k, domain, services)
  }

  lemma AllPassNext(input: seq<Alias>, from: nat, domain: string, services: Services)
    requires from < |input|
    ensures AllPass(input, from, domain, services) <==>
              Passes(input, from, domain, services) && AllPass(input, from + 1, domain, services)
  {
  }

  lemma {:induction false} ValidateFromIff(input: seq<Alias>, domain: string, services: Services, done: seq<Alias>)
    requires Normalised(input, done)
    ensures var r := ValidateFrom(input, domain, services, done);
            && (r.Passed? <==> AllPass(input, |done|, domain, services))
            && (r.Passed? ==> |r.value| == |input| && Normalised(input, r.value))
    decreases |input| - |done|
  {
    if |done| < |input| {
      ValidateNext(input, domain, services, done);
      AllPassNext(input, |done|, domain, services);
      if Passes(input, |done|, domain, services) {
        ValidateFromIff(input, domain, services, done + [Normal(input[|done|])]);
      }
    }
  }

  /** A request is accepted exactly if it is short enough, every alias is acceptable once normalised, no two have
      the same host name and every service is found; what is accepted is a list of valid aliases, the normal
      forms of the ones asked for, none of which overrides the name of a service. */
  lemma ValidateIff(input: seq<Alias>, domain: string, services: Services)
    ensures var r := Validate(input, domain, services);
            && (r.Passed? <==>
                  |input| <= MAX_ALIASES && forall k | 0 <= k < |input| :: Passes(input, k, domain, services))
            && (r.Passed? ==>
                  && |r.value| == |input| && Normalised(input, r.value) && ValidAliases(r.value)
                  && forall i | 0 <= i < |input| :: !HasSuffix(r.value[i].hostname, ServiceSuffix(domain)))
  {
    ValidateFromIff(input, domain, services, []);
    var r := Validate(input, domain, services);
    if r.Passed? {
      forall i | 0 <= i < |input|
        ensures ValidAlias(r.value[i]) && !HasSuffix(r.value[i].hostname, ServiceSuffix(domain))
      {
        assert Passes(input, i, domain, services);
      }
      forall i, j | 0 <= i < j < |input| ensures r.value[i].hostname != r.value[j].hostname {
        assert Passes(input, j, domain, services);
      }
    }
  }

  /** The error of the first alias that does not pass tells a failed lookup from a bad request. */
  lemma {:induction false} FirstFailure(input: seq<Alias>, domain: string, services: Services, done: seq<Alias>,
                                        k: nat)
    requires Normalised(input, done) && |done| <= k < |input| && !Passes(input, k, domain, services)
    requires forall j | |done| <= j < k :: Passes(input, j, domain, services)
    ensures ValidateFrom(input, domain, services, done)
         == Refused(if Acceptable(Normal(input[k]), domain) && Fresh(input, k) && Asked(input, k, services).Broken?
                    then LookupFailed
                    else Invalid)
    decreases k - |done|
  {
    SeenIsStale(input, done);
    if |done| < k {
      assert Passes(input, |done|, domain, services);
      FirstFailure(input, domain, services, done + [Normal(input[|done|])], k);
    }
  }

  // ---------------------------------------------------------------- normal forms are fixed points

  lemma {:induction false} EndsOfParts(s: string)
    requires forall i | 0 <= i < |SplitDots(s)| :: SplitDots(s)[i] != ""
    ensures s != "" && s[0] != '.' && s[|s| - 1] != '.'
  {
    assert SplitDots(s)[0] != "";
    if s != "" {
      var rest := SplitDots(s[1..]);
      if s[0] != '.' && |s| > 1 {
        assert forall i | 1 <= i < |rest| :: SplitDots(s)[i] == rest[i];
        LastOfParts(s[1..], rest);
      }
    }
  }

  lemma {:induction false} LastOfParts(s: string, parts: seq<string>)
    requires s != "" && parts == SplitDots(s) && forall i | 1 <= i < |parts| :: parts[i] != ""
    ensures s[|s| - 1] != '.'
  {
    var rest := SplitDots(s[1..]);
    if |s| == 1 {
      assert s[1..] == "" && rest == [""];
      var two := ["", ""];
      assert two[1] == "" && (s[0] == '.' ==> parts == two);
    } else {
      if s[0] == '.' {
        assert forall i | 1 <= i < |rest| :: parts[i + 1] == rest[i];
      } else {
        assert forall i | 1 <= i < |rest| :: parts[i] == rest[i];
      }
      LastOfParts(s[1..], rest);
    }
  }

  lemma LowerFixed(s: string)
    requires forall i | 0 <= i < |s| :: !('A' <= s[i] <= 'Z')
    ensures Lower(s) == s
  {
  }

  lemma TrimFixed(s: string)
    requires s != "" && !IsSpace(s[0]) && !IsSpace(s[|s| - 1])
    ensures Trim(s) == s
  {
    TrimPadded("", s, "");
    assert "" + s + "" == s;
  }

  lemma HostnameChars(s: string, i: nat)
    requires IsSubdomain(s) && i < |s|
    ensures NameChar(s[i]) || s[i] == '-' || s[i] == '.'
  {
    if s[i] != '.' {
      var k, j := PartOf(s, i);
      assert LabelShape(SplitDots(s)[k]);
    }
  }

  /** A valid alias is its own normal form, so a list that was read can be sent back. */
  lemma NormalFixed(a: Alias)
    requires ValidAlias(a)
    ensures Normal(a) == a
  {
    var h := a.hostname;
    HostnameIsWord(h);
    forall i | 0 <= i < |SplitDots(h)| ensures SplitDots(h)[i] != "" {
      assert LabelShape(SplitDots(h)[i]);
    }
    EndsOfParts(h);
    TrimFixed(h);
    assert TrimDots(h) == h;
    forall i | 0 <= i < |h| ensures !('A' <= h[i] <= 'Z') {
      HostnameChars(h, i);
    }
    LowerFixed(h);
    LabelIsWord(a.service);
    LabelIsWord(a.namespace);
    TrimFixed(a.service);
    TrimFixed(a.namespace);
    LowerFixed(a.service);
    LowerFixed(a.namespace);
  }

  /** Sending back a list of valid aliases whose services are there and override no service name changes nothing. */
  lemma Resubmitted(aliases: seq<Alias>, domain: string, services: Services)
    requires ValidAliases(aliases) && |aliases| <= MAX_ALIASES
    requires forall i | 0 <= i < |aliases| ::
               && services(i, aliases[i].namespace, aliases[i].service).Found?
               && !HasSuffix(aliases[i].hostname, ServiceSuffix(domain))
    ensures Validate(aliases, domain, services) == Passed(aliases)
  {
    forall i | 0 <= i < |aliases| ensures Normal(aliases[i]) == aliases[i] {
      NormalFixed(aliases[i]);
    }
    forall k | 0 <= k < |aliases| ensures Passes(aliases, k, domain, services) {
      assert ValidAlias(aliases[k]);
    }
    ValidateIff(aliases, domain, services);
    var v := Validate(aliases, domain, services).value;
    assert forall i | 0 <= i < |aliases| :: v[i] == aliases[i];
    assert v == aliases;
  }

  // ---------------------------------------------------------------- the invariant of the store

  /** A text with these aliases that agrees with another outside the managed block. */
  predicate Kept(c: Config, was: string, text: string, aliases: seq<Alias>) {
    var before, after := Inspect(was, c.domain, c.parses), Inspect(text, c.domain, c.parses);
    && before.Success? && after.Success?
    && after.value.aliases == aliases
    && Outside(text, after.value) == Outside(was, before.value)
  }

  /** A text is what this write makes of the version its request names; it reads back as the normal forms of the
      aliases of the request, in their order, and agrees with that version outside the managed block. */
  ghost predicate OnTop(c: Config, w: Write, version: nat, was: string, text: string) {
    && w.request.version == Some(version) && !w.request.dryRun && ValidAliases(w.aliases)
    && |w.aliases| == |w.request.aliases| && Normalised(w.request.aliases, w.aliases)
    && Update(was, Render(w.aliases, c.domain), c.domain, c.parses) == Success(text)
    && (Word(c.domain) ==> Kept(c, was, text, w.aliases))
  }

  lemma UpdateKept(c: Config, aliases: seq<Alias>, was: string, text: string)
    requires ValidAliases(aliases) && Word(c.domain)
    requires Update(was, Render(aliases, c.domain), c.domain, c.parses) == Success(text)
    ensures Kept(c, was, text, aliases)
  {
    UpdateFrames(was, Render(aliases, c.domain), c.domain, c.parses);
    PutGet(was, aliases, c.domain, c.parses);
  }

  /** What relates a write, the version it names, that version's text and the text written. */
  type Rule = (Write, nat, string, string) -> bool

  ghost function OnTopIn(c: Config): Rule {
    (w: Write, version: nat, was: string, text: string) => OnTop(c, w, version, was, text)
  }

  predicate EntryOk(rule: Rule, s: State, i: nat)
    requires i < |s.history|
  {
    s.history[i].write.Some? ==>
      && i > 0 && rule(s.history[i].write.value, i - 1, s.history[i - 1].text, s.history[i].text)
      && s.history[i].write.value.id in s.outcomes
      && s.outcomes[s.history[i].write.value.id] in {Stored(i), Declined(Transport)}
  }

  predicate WrittenBy(s: State, i: nat, id: nat)
    requires i < |s.history|
  {
    s.history[i].write.Some? && s.history[i].write.value.id == id
  }

  ghost predicate OnceEach(s: State) {
    forall i: nat, j: nat, id: nat
      | i < |s.history| && j < |s.history| && WrittenBy(s, i, id) && WrittenBy(s, j, id)
      :: i == j
  }

  predicate UnderwayOk(rule: Rule, s: State, id: nat)
    requires id in s.underway
  {
    var f := s.underway[id];
    && id !in s.outcomes && f.write.id == id && f.version < |s.history|
    && rule(f.write, f.version, s.history[f.version].text, f.text)
  }

  predicate StoredOk(s: State, id: nat)
    requires id in s.outcomes
  {
    s.outcomes[id].Stored? ==> s.outcomes[id].version < |s.history| && WrittenBy(s, s.outcomes[id].version, id)
  }

  ghost predicate Inv(rule: Rule, s: State) {
    && s.history != []
    && (forall i: nat | i < |s.history| :: EntryOk(rule, s, i))
    && OnceEach(s)
    && (forall id | id in s.underway :: UnderwayOk(rule, s, id))
    && (forall id | id in s.outcomes :: StoredOk(s, id))
  }

  lemma EndKeeps(rule: Rule, s: State, id: nat, o: Outcome)
    requires Inv(rule, s) && id !in s.outcomes && !o.Stored?
    ensures Inv(rule, End(s, id, o))
  {
    var t := End(s, id, o);
    forall i: nat | i < |t.history| ensures EntryOk(rule, t, i) {
      assert EntryOk(rule, s, i);
    }
    forall i: nat, j: nat, x: nat | i < |t.history| && j < |t.history| && WrittenBy(t, i, x) && WrittenBy(t, j, x)
      ensures i == j
    {
      assert WrittenBy(s, i, x) && WrittenBy(s, j, x);
    }
    forall x | x in t.underway ensures UnderwayOk(rule, t, x) {
      assert UnderwayOk(rule, s, x);
    }
    forall x | x in t.outcomes ensures StoredOk(t, x) {
      if x != id {
        assert StoredOk(s, x);
        assert t.outcomes[x].Stored? ==> WrittenBy(s, t.outcomes[x].version, x);
      }
    }
  }

  lemma EditKeeps(rule: Rule, s: State, text: string)
    requires Inv(rule, s)
    ensures Inv(rule, s.(history := s.history + [Entry(text, None)]))
  {
    var t := s.(history := s.history + [Entry(text, None)]);
    forall i: nat | i < |t.history| ensures EntryOk(rule, t, i) {
      if i < |s.history| {
        assert EntryOk(rule, s, i);
      }
    }
    forall i: nat, j: nat, x: nat | i < |t.history| && j < |t.history| && WrittenBy(t, i, x) && WrittenBy(t, j, x)
      ensures i == j
    {
      assert i < |s.history| && j < |s.history|;
      assert WrittenBy(s, i, x) && WrittenBy(s, j, x);
    }
    forall x | x in t.underway ensures UnderwayOk(rule, t, x) {
      assert UnderwayOk(rule, s, x);
    }
    forall x | x in t.outcomes ensures StoredOk(t, x) {
      assert StoredOk(s, x);
      assert t.outcomes[x].Stored? ==> WrittenBy(s, t.outcomes[x].version, x);
    }
  }

  /** The one step that stores a text computed from an earlier read. */
  function Committed(s: State, f: Fetched, id: nat, o: Outcome): State {
    End(s.(history := s.history + [Entry(f.text, Some(f.write))]), id, o)
  }

  lemma CommitKeeps(rule: Rule, s: State, id: nat, o: Outcome)
    requires Inv(rule, s) && id in s.underway && s.underway[id].version == |s.history| - 1
    requires o in {Stored(|s.history|), Declined(Transport)}
    ensures Inv(rule, Committed(s, s.underway[id], id, o))
  {
    var f := s.underway[id];
    var n := |s.history|;
    var t := Committed(s, f, id, o);
    assert UnderwayOk(rule, s, id);
    forall i: nat | i < |t.history| ensures EntryOk(rule, t, i) {
      if i < n {
        assert EntryOk(rule, s, i);
      }
    }
    forall i: nat, j: nat, x: nat | i < |t.history| && j < |t.history| && WrittenBy(t, i, x) && WrittenBy(t, j, x)
      ensures i == j
    {
      CommitOnce(rule, s, id, o, i, j, x);
    }
    forall x | x in t.underway ensures UnderwayOk(rule, t, x) {
      assert UnderwayOk(rule, s, x);
    }
    forall x | x in t.outcomes ensures StoredOk(t, x) {
      if x == id {
        assert WrittenBy(t, n, id);
      } else {
        assert StoredOk(s, x);
        assert t.outcomes[x].Stored? ==> WrittenBy(s, t.outcomes[x].version, x);
      }
    }
  }

  lemma CommitOnce(rule: Rule, s: State, id: nat, o: Outcome, i: nat, j: nat, x: nat)
    requires Inv(rule, s) && id in s.underway
    requires var t := Committed(s, s.underway[id], id, o);
             i < |t.history| && j < |t.history| && WrittenBy(t, i, x) && WrittenBy(t, j, x)
    ensures i == j
  {
    var n := |s.history|;
    assert UnderwayOk(rule, s, id);
    if i < n {
      assert EntryOk(rule, s, i) && WrittenBy(s, i, x);
    }
    if j < n {
      assert EntryOk(rule, s, j) && WrittenBy(s, j, x);
    }
  }

  lemma StartKeeps(rule: Rule, s: State, f: Fetched)
    requires Inv(rule, s) && f.write.id !in s.outcomes
    requires f.version < |s.history| && rule(f.write, f.version, s.history[f.version].text, f.text)
    ensures Inv(rule, s.(underway := s.underway[f.write.id := f]))
  {
    var t := s.(underway := s.underway[f.write.id := f]);
    forall i: nat | i < |t.history| ensures EntryOk(rule, t, i) {
      assert EntryOk(rule, s, i);
    }
    forall i: nat, j: nat, x: nat | i < |t.history| && j < |t.history| && WrittenBy(t, i, x) && WrittenBy(t, j, x)
      ensures i == j
    {
      assert WrittenBy(s, i, x) && WrittenBy(s, j, x);
    }
    forall x | x in t.underway ensures UnderwayOk(rule, t, x) {
      if x != f.write.id {
        assert UnderwayOk(rule, s, x);
      }
    }
    forall x | x in t.outcomes ensures StoredOk(t, x) {
      assert StoredOk(s, x);
      assert t.outcomes[x].Stored? ==> WrittenBy(s, t.outcomes[x].version, x);
    }
  }

  lemma PreparedIsValid(c: Config, request: Request, services: Services)
    requires Prepare(c, request, services).Passed?
    ensures ValidAliases(Prepare(c, request, services).value)
    ensures Prepare(c, request, services) == Validate(request.aliases, c.domain, services)
    ensures var aliases := Prepare(c, request, services).value;
            |aliases| == |request.aliases| && Normalised(request.aliases, aliases)
  {
    ValidateIff(request.aliases, c.domain, services);
  }

  /** A write is under way only with a text computed from the version its request names. */
  lemma PlanIsOnTop(c: Config, history: seq<Entry>, id: nat, request: Request, services: Services, reached: bool)
    requires history != []
    ensures var b := Plan(c, history, id, request, services, reached);
            match b
            case Ended(o) => !o.Stored?
            case Going(f) =>
              && f.write.id == id && f.version == |history| - 1
              && OnTop(c, f.write, f.version, history[f.version].text, f.text)
  {
    var p := Prepare(c, request, services);
    if p.Passed? {
      PreparedIsValid(c, request, services);
      var n := |history| - 1;
      var u := Compute(c, request, p.value, n, history[n].text);
      if u.Passed? && !request.dryRun {
        ComputedIsOnTop(c, Write(id, request, p.value), n, history[n].text, u.value);
      }
    }
  }

  lemma ComputedIsOnTop(c: Config, w: Write, version: nat, was: string, text: string)
    requires ValidAliases(w.aliases) && !w.request.dryRun
    requires |w.aliases| == |w.request.aliases| && Normalised(w.request.aliases, w.aliases)
    requires Compute(c, w.request, w.aliases, version, was) == Passed(text)
    ensures OnTop(c, w, version, was, text)
  {
    if Word(c.domain) {
      UpdateKept(c, w.aliases, was, text);
    }
  }

  lemma TookKeeps(rule: Rule, s: State, id: nat, b: Begun)
    requires Inv(rule, s) && id !in s.outcomes
    requires match b
             case Ended(o) => !o.Stored?
             case Going(f) =>
               && f.write.id == id && f.version < |s.history|
               && rule(f.write, f.version, s.history[f.version].text, f.text)
    ensures Inv(rule, Took(s, id, b))
  {
    match b
    case Ended(o) => EndKeeps(rule, s, id, o);
    case Going(f) => StartKeeps(rule, s, f);
  }

  lemma BeginKeeps(c: Config, s: State, m: Move)
    requires Inv(OnTopIn(c), s) && m.Begin? && Enabled(s, m)
    ensures Inv(OnTopIn(c), BeginStep(c, s, m))
  {
    PlanIsOnTop(c, s.history, m.id, m.request, m.services, m.reached);
    TookKeeps(OnTopIn(c), s, m.id, Plan(c, s.history, m.id, m.request, m.services, m.reached));
  }

  /** A write that ends keeps any rule. */
  lemma FinishKeeps(rule: Rule, s: State, m: Move)
    requires Inv(rule, s) && m.Finish? && Enabled(s, m)
    ensures Inv(rule, FinishStep(s, m))
  {
    var f := s.underway[m.id];
    assert UnderwayOk(rule, s, m.id);
    if m.answer.Dropped? {
      EndKeeps(rule, s, m.id, Declined(Transport));
    } else if f.version != |s.history| - 1 {
      EndKeeps(rule, s, m.id, Declined(if m.answer.Delivered? then Conflict else Transport));
    } else {
      CommitKeeps(rule, s, m.id, if m.answer.Delivered? then Stored(|s.history|) else Declined(Transport));
    }
  }

  lemma StepKeeps(c: Config, s: State, m: Move)
    requires Inv(OnTopIn(c), s) && Enabled(s, m)
    ensures Inv(OnTopIn(c), Step(c, s, m))
  {
    match m
    case Edit(text) => EditKeeps(OnTopIn(c), s, text);
    case Begin(_, _, _, _) => BeginKeeps(c, s, m);
    case Finish(_, _) => FinishKeeps(OnTopIn(c), s, m);
  }

  /** The invariant holds after any sequence of moves. */
  lemma {:induction false} RunKeeps(c: Config, s: State, moves: seq<Move>)
    requires Inv(OnTopIn(c), s)
    ensures Inv(OnTopIn(c), Run(c, s, moves)) && s.history <= Run(c, s, moves).history
    decreases |moves|
  {
    if moves != [] {
      if Enabled(s, moves[0]) {
        StepKeeps(c, s, moves[0]);
        RunKeeps(c, Step(c, s, moves[0]), moves[1..]);
      } else {
        RunKeeps(c, s, moves[1..]);
      }
    }
  }

  // ---------------------------------------------------------------- no lost update

  /** The entries of a run, for the theorems below. */
  lemma RunEntry(c: Config, text: string, moves: seq<Move>, s: State, i: nat)
    requires s == Run(c, Initial(text), moves) && i < |s.history| && s.history[i].write.Some?
    ensures i > 0 && OnTop(c, s.history[i].write.value, i - 1, s.history[i - 1].text, s.history[i].text)
    ensures var id := s.history[i].write.value.id;
            id in s.outcomes && s.outcomes[id] in {Stored(i), Declined(Transport)}
    ensures forall j: nat | j < |s.history| && WrittenBy(s, j, s.history[i].write.value.id) :: j == i
  {
    RunKeeps(c, Initial(text), moves);
    assert EntryOk(OnTopIn(c), s, i);
    assert WrittenBy(s, i, s.history[i].write.value.id);
  }

  lemma RunStored(c: Config, text: string, moves: seq<Move>, s: State, id: nat)
    requires s == Run(c, Initial(text), moves) && id in s.outcomes && s.outcomes[id].Stored?
    ensures s.outcomes[id].version < |s.history| && WrittenBy(s, s.outcomes[id].version, id)
  {
    RunKeeps(c, Initial(text), moves);
    assert StoredOk(s, id);
  }

  /** Whatever requests, other writers and lost answers interleave: a request that succeeds stored exactly one
      version, right on top of the one it named; that version is the update of the named one, reads back as the normal
      forms of the aliases of the request and agrees with the named one outside the managed block. */
  lemma NoLostUpdate(c: Config, text: string, moves: seq<Move>, s: State, id: nat)
    requires s == Run(c, Initial(text), moves) && id in s.outcomes && s.outcomes[id].Stored?
    ensures var v := s.outcomes[id].version;
            && 0 < v < |s.history| && WrittenBy(s, v, id)
            && OnTop(c, s.history[v].write.value, v - 1, s.history[v - 1].text, s.history[v].text)
            && forall i: nat | i < |s.history| && WrittenBy(s, i, id) :: i == v
  {
    RunStored(c, text, moves, s, id);
    RunEntry(c, text, moves, s, s.outcomes[id].version);
  }

  /** A preview and a refusal other than a lost answer leave no version behind; no request leaves two. Every
      version the manager stored, acknowledged or not, is the update of the one before it. */
  lemma VersionsAreUpdates(c: Config, text: string, moves: seq<Move>, s: State, id: nat, i: nat)
    requires s == Run(c, Initial(text), moves) && i < |s.history| && WrittenBy(s, i, id)
    ensures id in s.outcomes && s.outcomes[id] in {Stored(i), Declined(Transport)}
    ensures forall j: nat | j < |s.history| && WrittenBy(s, j, id) :: j == i
    ensures i > 0 && OnTop(c, s.history[i].write.value, i - 1, s.history[i - 1].text, s.history[i].text)
  {
    RunEntry(c, text, moves, s, i);
  }
}
