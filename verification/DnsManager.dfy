/** The alias manager as a program: the validation loop and the replacement, which reads the store, computes the new
    text and asks the store to take it. */
module DnsManager {
  import opened Replies
  import opened Text
  import opened CorefileSpec
  import opened DnsManagerSpec
  import Corefile

  /** One alias, already normalised, after the host names already seen; no refusal means it passes. */
  method CheckAlias(alias: Alias, clusterDomain: string, seen: set<string>, service: Lookup)
      returns (why: Option<Refusal>)
    ensures why == if !Acceptable(alias, clusterDomain) || alias.hostname in seen then Some(Invalid)
                   else match service case Missing => Some(Invalid) case Broken => Some(LookupFailed) case Found => None
  {
    var serviceSuffix := ".svc." + Lower(TrimDots(clusterDomain));
    if !IsSubdomain(alias.hostname) {
      return Some(Invalid);
    }
    if HasSuffix(alias.hostname, serviceSuffix) {
      return Some(Invalid);
    }
    if !IsLabel(alias.service) || !IsLabel(alias.namespace) {
      return Some(Invalid);
    }
    if alias.hostname in seen {
      return Some(Invalid);
    }
    match service {
      case Missing => return Some(Invalid);
      case Broken => return Some(LookupFailed);
      case Found => return None;
    }
  }

  method Normalise(a: Alias) returns (n: Alias)
    ensures n == Normal(a)
  {
    n := Alias(NormalizeDomain(a.hostname), Lower(Trim(a.service)), Lower(Trim(a.namespace)));
  }

  ghost predicate SeenAre(seen: set<string>, done: seq<Alias>) {
    forall h :: h in seen <==> Seen(done, h)
  }

  lemma SeenGrows(seen: set<string>, done: seq<Alias>, a: Alias)
    requires SeenAre(seen, done)
    ensures SeenAre(seen + {a.hostname}, done + [a])
  {
    forall h ensures h in seen + {a.hostname} <==> Seen(done + [a], h) {
      Corefile.SeenMore(done, a, h);
    }
  }

  /** One more alias, for the loop. */
  lemma NextAlias(input: seq<Alias>, domain: string, services: Services, done: seq<Alias>, a: Alias,
                  why: Option<Refusal>)
    requires |done| < |input| && a == Normal(input[|done|])
    requires why == if !Acceptable(a, domain) || Seen(done, a.hostname) then Some(Invalid)
                    else
                      match services(|done|, a.namespace, a.service)
                      case Missing => Some(Invalid)
                      case Broken => Some(LookupFailed)
                      case Found => None
    ensures ValidateFrom(input, domain, services, done)
         == if why.Some? then Refused(why.value) else ValidateFrom(input, domain, services, done + [a])
  {
  }

  method ValidateAliases(input: seq<Alias>, clusterDomain: string, services: Services)
      returns (r: Checked<seq<Alias>>)
    ensures r == Validate(input, clusterDomain, services)
  {
    if |input| > MAX_ALIASES {
      return Refused(Invalid);
    }
    var aliases := input;
    var seen: set<string> := {};
    ghost var done: seq<Alias> := [];
    for index := 0 to |aliases|
      invariant |aliases| == |input| && |done| == index && aliases[..index] == done
      invariant forall k | index <= k < |input| :: aliases[k] == input[k]
      invariant Validate(input, clusterDomain, services) == ValidateFrom(input, clusterDomain, services, done)
      invariant SeenAre(seen, done)
    {
      var alias := Normalise(aliases[index]);
      var why := CheckAlias(alias, clusterDomain, seen, services(index, alias.namespace, alias.service));
      NextAlias(input, clusterDomain, services, done, alias, why);
      if why.Some? {
        return Refused(why.value);
      }
      SeenGrows(seen, done, alias);
      seen := seen + {alias.hostname};
      aliases := aliases[index := alias];
      done := done + [alias];
    }
    assert aliases[..|aliases|] == aliases;
    r := Passed(aliases);
  }

  /** The ConfigMap: one Corefile with a version, taken from a client only on top of the version it read. */
  class ConfigMap {
    var history: seq<Entry>

    constructor (text: string)
      ensures history == [Entry(text, None)]
    {
      history := [Entry(text, None)];
    }

    method Get() returns (version: nat, text: string)
      requires history != []
      ensures version == |history| - 1 && text == history[version].text
    {
      version := |history| - 1;
      text := history[version].text;
    }

    /** What other writers store in the meantime. */
    method Edit(texts: seq<string>)
      modifies this
      ensures history == old(history) + Edits(texts)
    {
      for i := 0 to |texts|
        invariant history == old(history) + Edits(texts[..i])
      {
        history := history + [Entry(texts[i], None)];
        assert texts[..i + 1] == texts[..i] + [texts[i]];
        EditsMore(texts[..i], texts[i]);
      }
      assert texts[..|texts|] == texts;
    }

    /** Whether the store took the write; the answer may be lost on the way. */
    method Put(version: nat, text: string, write: Write) returns (stored: bool)
      requires history != []
      modifies this
      ensures stored == (version == |old(history)| - 1)
      ensures history == if stored then old(history) + [Entry(text, Some(write))] else old(history)
    {
      stored := version == |history| - 1;
      if stored {
        history := history + [Entry(text, Some(write))];
      }
    }
  }

  function Edits(texts: seq<string>): seq<Entry> {
    if texts == [] then [] else [Entry(texts[0], None)] + Edits(texts[1..])
  }

  lemma {:induction false} EditsMore(texts: seq<string>, text: string)
    ensures Edits(texts + [text]) == Edits(texts) + [Entry(text, None)]
  {
    if texts == [] {
      assert texts + [text] == [text];
    } else {
      assert (texts + [text])[1..] == texts[1..] + [text];
      EditsMore(texts[1..], text);
    }
  }

  /** The moves of one call of `Replace` once it has begun: others write, and it ends. */
  function Concluded(s: State, id: nat, texts: seq<string>, answer: Answer): State {
    if id !in s.underway then s else FinishStep(Edited(s, texts), Finish(id, answer))
  }

  function Call(c: Config, history: seq<Entry>, begin: Move, texts: seq<string>, answer: Answer): State
    requires begin.Begin? && history != []
  {
    Concluded(BeginStep(c, State(history, map[], map[]), begin), begin.id, texts, answer)
  }

  lemma EditRun(c: Config, s: State, text: string, moves: seq<Move>, rest: seq<Move>)
    requires s.history != [] && moves == [Edit(text)] + rest
    ensures Run(c, s, moves) == Run(c, s.(history := s.history + [Entry(text, None)]), rest)
  {
    assert moves[1..] == rest;
  }

  /** The state after these edits. */
  function Edited(s: State, texts: seq<string>): State {
    s.(history := s.history + Edits(texts))
  }

  lemma EditedCons(s: State, text: string, texts: seq<string>)
    ensures Edited(s, [text] + texts) == Edited(s.(history := s.history + [Entry(text, None)]), texts)
  {
    assert ([text] + texts)[1..] == texts;
    assert s.history + [Entry(text, None)] + Edits(texts) == s.history + Edits([text] + texts);
  }

  lemma EditMovesCons(text: string, texts: seq<string>, rest: seq<Move>)
    ensures EditMoves([text] + texts) + rest == [Edit(text)] + (EditMoves(texts) + rest)
  {
    assert ([text] + texts)[1..] == texts;
  }

  lemma {:induction false} EditsRun(c: Config, s: State, t: State, texts: seq<string>, moves: seq<Move>,
                                    rest: seq<Move>)
    requires s.history != [] && t == Edited(s, texts) && moves == EditMoves(texts) + rest
    ensures Run(c, s, moves) == Run(c, t, rest)
    decreases |texts|
  {
    if texts == [] {
      assert moves == rest && s.history + [] == s.history;
    } else {
      assert texts == [texts[0]] + texts[1..];
      EditMovesCons(texts[0], texts[1..], rest);
      EditedCons(s, texts[0], texts[1..]);
      var more := EditMoves(texts[1..]) + rest;
      EditRun(c, s, texts[0], moves, more);
      EditsRun(c, s.(history := s.history + [Entry(texts[0], None)]), t, texts[1..], more, rest);
    }
  }

  function EditMoves(texts: seq<string>): seq<Move> {
    if texts == [] then [] else [Edit(texts[0])] + EditMoves(texts[1..])
  }

  /** A call is a run of the store, so what holds of every run holds of it. */
  lemma CallIsRun(c: Config, history: seq<Entry>, begin: Move, texts: seq<string>, answer: Answer)
    requires begin.Begin? && history != []
    ensures Call(c, history, begin, texts, answer)
         == if begin.id !in BeginStep(c, State(history, map[], map[]), begin).underway
            then Run(c, State(history, map[], map[]), [begin])
            else Run(c, State(history, map[], map[]), [begin] + (EditMoves(texts) + [Finish(begin.id, answer)]))
  {
    var s := State(history, map[], map[]);
    var began := BeginStep(c, s, begin);
    var last := [Finish(begin.id, answer)];
    assert began.history == history;
    if begin.id !in began.underway {
      assert [begin][1..] == [];
    } else {
      var moves := [begin] + (EditMoves(texts) + last);
      assert moves[1..] == EditMoves(texts) + last;
      EditsRun(c, began, Edited(began, texts), texts, EditMoves(texts) + last, last);
      assert last[1..] == [];
    }
  }

  class Manager {
    const config: Config

    constructor (config: Config)
      ensures this.config == config
    {
      this.config := config;
    }

    /** What comes before the read: validation, rendering and the check of the rendered directives. */
    method Prepared(request: Request, services: Services) returns (r: Checked<seq<Alias>>)
      ensures r == Prepare(config, request, services)
    {
      if !config.enabled {
        return Refused(Disabled);
      }
      r := ValidateAliases(request.aliases, config.domain, services);
      if r.Refused? {
        return;
      }
      var rendered := Corefile.RenderAliases(r.value, config.domain);
      if rendered != "" && !config.directives(rendered) {
        return Refused(Rejected);
      }
    }

    /** What comes after it: the version check and the new text. */
    method Computed(request: Request, aliases: seq<Alias>, version: nat, text: string) returns (r: Checked<string>)
      ensures r == Compute(config, request, aliases, version, text)
    {
      if request.version.None? || request.version.value != version {
        return Refused(Conflict);
      }
      var rendered := Corefile.RenderAliases(aliases, config.domain);
      var updated := Corefile.UpdateManagedCorefile(text, rendered, config.domain, config.parses);
      r := if updated.Failure? then Refused(Faulty(updated.fault)) else Passed(updated.value);
    }

    method Began(store: ConfigMap, id: nat, request: Request, services: Services, reached: bool) returns (b: Begun)
      requires store.history != []
      ensures b == Plan(config, store.history, id, request, services, reached)
    {
      var aliases := Prepared(request, services);
      if aliases.Refused? {
        return Ended(Declined(aliases.why));
      }
      if !reached {
        return Ended(Declined(Transport));
      }
      var version, text := store.Get();
      var updated := Computed(request, aliases.value, version, text);
      if updated.Refused? {
        return Ended(Declined(updated.why));
      }
      if request.dryRun {
        return Ended(Previewed(updated.value));
      }
      b := Going(Fetched(Write(id, request, aliases.value), version, updated.value));
    }

    method Conclude(store: ConfigMap, id: nat, b: Begun, edits: seq<string>, answer: Answer) returns (o: Outcome)
      requires store.history != []
      modifies store
      ensures var s := Concluded(Took(State(old(store.history), map[], map[]), id, b), id, edits, answer);
              store.history == s.history && s.outcomes == map[id := o]
    {
      if b.Ended? {
        return b.outcome;
      }
      store.Edit(edits);
      if answer.Dropped? {
        return Declined(Transport);
      }
      var stored := store.Put(b.fetched.version, b.fetched.text, b.fetched.write);
      if answer.ResponseLost? {
        return Declined(Transport);
      }
      o := if stored then Stored(|store.history| - 1) else Declined(Conflict);
    }

    /** Replaces the aliases on top of the version the request names; `edits` are the writes of others between the
        read and the write of this call, `reached` and `answer` what the network does. */
    method Replace(store: ConfigMap, id: nat, request: Request, services: Services, reached: bool,
                   edits: seq<string>, answer: Answer) returns (o: Outcome)
      requires store.history != []
      modifies store
      ensures var s := Call(config, old(store.history), Begin(id, request, services, reached), edits, answer);
              store.history == s.history && s.outcomes == map[id := o]
    {
      var b := Began(store, id, request, services, reached);
      o := Conclude(store, id, b, edits, answer);
    }
  }
}
