/** The alias manager: validation of a request, and its replacement of the managed block in a versioned store that
    other writers use too. */
module DnsManagerSpec {
  import opened Replies
  import opened Text
  import opened CorefileSpec

  const MAX_ALIASES := 200

  datatype Refusal = Disabled | Invalid | LookupFailed | Rejected | Conflict | Faulty(fault: Fault) | Transport

  datatype Checked<+T> = Passed(value: T) | Refused(why: Refusal)

  // ---------------------------------------------------------------- normalisation

  function LowerChar(c: char): char {
    if 'A' <= c <= 'Z' then (c as int + 32) as char else c
  }

  function Lower(s: string): (t: string)
    ensures |t| == |s| && forall i | 0 <= i < |s| :: t[i] == LowerChar(s[i])
  {
    if s == "" then "" else [LowerChar(s[0])] + Lower(s[1..])
  }

  function NormalizeDomain(s: string): string {
    Lower(TrimDots(Trim(s)))
  }

  function Normal(a: Alias): Alias {
    Alias(NormalizeDomain(a.hostname), Lower(Trim(a.service)), Lower(Trim(a.namespace)))
  }

  // ---------------------------------------------------------------- validation

  /** The answer to the question whether a service exists. */
  datatype Lookup = Found | Missing | Broken

  /** The answers by the number of the alias, the namespace and the service asked for. */
  type Services = (nat, string, string) -> Lookup

  function ServiceSuffix(domain: string): string {
    ".svc." + Lower(TrimDots(domain))
  }

  predicate HasSuffix(s: string, suffix: string) {
    |suffix| <= |s| && s[|s| - |suffix|..] == suffix
  }

  /** What is asked of a normalised alias by itself. */
  predicate Acceptable(a: Alias, domain: string) {
    && IsSubdomain(a.hostname) && !HasSuffix(a.hostname, ServiceSuffix(domain))
    && IsLabel(a.service) && IsLabel(a.namespace)
  }

  /** Checks the aliases one by one, after the ones already checked. */
  function ValidateFrom(input: seq<Alias>, domain: string, services: Services, done: seq<Alias>)
      : Checked<seq<Alias>>
    requires |done| <= |input|
    decreases |input| - |done|
  {
    if |done| == |input| then Passed(done)
    else
      var a := Normal(input[|done|]);
      if !Acceptable(a, domain) || Seen(done, a.hostname) then Refused(Invalid)
      else
        match services(|done|, a.namespace, a.service)
        case Missing => Refused(Invalid)
        case Broken => Refused(LookupFailed)
        case Found => ValidateFrom(input, domain, services, done + [a])
  }

  function Validate(input: seq<Alias>, domain: string, services: Services): Checked<seq<Alias>> {
    if |input| > MAX_ALIASES then Refused(Invalid) else ValidateFrom(input, domain, services, [])
  }

  // ---------------------------------------------------------------- the store

  /** The options of the manager; `parses` and `directives` stand for the two uses of the Caddyfile parser. */
  datatype Config = Config(enabled: bool, domain: string, parses: string -> bool, directives: string -> bool)

  datatype Request = Request(version: Option<nat>, aliases: seq<Alias>, dryRun: bool)

  /** A write the manager made: for which request, on top of which version, with which aliases. */
  datatype Write = Write(id: nat, request: Request, aliases: seq<Alias>)

  /** One version of the stored Corefile; other writers leave no `write`. */
  datatype Entry = Entry(text: string, write: Option<Write>)

  /** A write that is under way: computed from a version, not yet sent. */
  datatype Fetched = Fetched(write: Write, version: nat, text: string)

  datatype Outcome = Stored(version: nat) | Previewed(text: string) | Declined(why: Refusal)

  /** The store, whose versions are numbered by their position, with the requests under way and the ended ones. */
  datatype State = State(history: seq<Entry>, underway: map<nat, Fetched>, outcomes: map<nat, Outcome>)

  datatype Answer = Delivered | ResponseLost | Dropped

  datatype Move =
    | Edit(text: string)
    | Begin(id: nat, request: Request, services: Services, reached: bool)
    | Finish(id: nat, answer: Answer)

  /** Validation and rendering, before the store is read. */
  function Prepare(c: Config, request: Request, services: Services): Checked<seq<Alias>> {
    if !c.enabled then Refused(Disabled)
    else
      var v := Validate(request.aliases, c.domain, services);
      if v.Refused? then v
      else if Render(v.value, c.domain) != "" && !c.directives(Render(v.value, c.domain)) then Refused(Rejected)
      else v
  }

  /** The new text for the version that was read. */
  function Compute(c: Config, request: Request, aliases: seq<Alias>, version: nat, text: string): Checked<string> {
    if request.version != Some(version) then Refused(Conflict)
    else
      var u := Update(text, Render(aliases, c.domain), c.domain, c.parses);
      if u.Failure? then Refused(Faulty(u.fault)) else Passed(u.value)
  }

  function End(s: State, id: nat, o: Outcome): State {
    s.(outcomes := s.outcomes[id := o], underway := s.underway - {id})
  }

  /** A request up to its write: it has ended, or the write is under way. */
  datatype Begun = Ended(outcome: Outcome) | Going(fetched: Fetched)

  function Plan(c: Config, history: seq<Entry>, id: nat, request: Request, services: Services, reached: bool)
      : Begun
    requires history != []
  {
    var p := Prepare(c, request, services);
    if p.Refused? then Ended(Declined(p.why))
    else if !reached then Ended(Declined(Transport))
    else
      var version := |history| - 1;
      var u := Compute(c, request, p.value, version, history[version].text);
      if u.Refused? then Ended(Declined(u.why))
      else if request.dryRun then Ended(Previewed(u.value))
      else Going(Fetched(Write(id, request, p.value), version, u.value))
  }

  function Took(s: State, id: nat, b: Begun): State {
    match b
    case Ended(o) => End(s, id, o)
    case Going(f) => s.(underway := s.underway[id := f])
  }

  function BeginStep(c: Config, s: State, m: Move): State
    requires m.Begin? && s.history != []
  {
    Took(s, m.id, Plan(c, s.history, m.id, m.request, m.services, m.reached))
  }

  /** The store takes a write only on top of the version it was computed from. */
  function FinishStep(s: State, m: Move): State
    requires m.Finish? && m.id in s.underway
  {
    var f := s.underway[m.id];
    if m.answer.Dropped? then End(s, m.id, Declined(Transport))
    else if f.version != |s.history| - 1 then
      End(s, m.id, Declined(if m.answer.Delivered? then Conflict else Transport))
    else
      End(s.(history := s.history + [Entry(f.text, Some(f.write))]), m.id,
          if m.answer.Delivered? then Stored(|s.history|) else Declined(Transport))
  }

  predicate Enabled(s: State, m: Move) {
    match m
    case Edit(_) => true
    case Begin(id, _, _, _) => id !in s.underway && id !in s.outcomes
    case Finish(id, _) => id in s.underway
  }

  function Step(c: Config, s: State, m: Move): (t: State)
    requires s.history != [] && Enabled(s, m)
    ensures s.history <= t.history
  {
    match m
    case Edit(text) => s.(history := s.history + [Entry(text, None)])
    case Begin(_, _, _, _) => BeginStep(c, s, m)
    case Finish(_, _) => FinishStep(s, m)
  }

  /** Moves that are not possible are skipped. */
  function Run(c: Config, s: State, moves: seq<Move>): State
    requires s.history != []
    decreases |moves|
  {
    if moves == [] then s
    else if Enabled(s, moves[0]) then Run(c, Step(c, s, moves[0]), moves[1..])
    else Run(c, s, moves[1..])
  }

  function Initial(text: string): State {
    State([Entry(text, None)], map[], map[])
  }
}
