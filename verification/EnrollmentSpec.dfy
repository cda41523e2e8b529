/** The meaning of the enrollment controller as functions: from a state and the adversary's answers
    to the next state. The class in `EnrollmentController` computes these functions statement by statement. */
module EnrollmentSpec {
  import opened Replies
  import opened EnrollmentTypes

  /** The world outside the process: the ledger on disk, the number of calls made, what was done so far. */
  datatype Env = Env(disk: Option<Ledger>, now: nat, log: seq<Event>) {
    function Note(e: Event): Env {
      this.(now := now + 1, log := log + [e])
    }
  }

  /** The process and its world: the ledger in memory may be ahead of the one on disk. */
  datatype State = State(mem: Ledger, env: Env)

  datatype Ret<+T> = Ret(env: Env, reply: Reply<T, Error>)

  // ---------------------------------------------------------------- single calls

  function LoadPolicy(o: Oracle, env: Env): Ret<Policy> {
    var r := o.policy(env.now);
    var r' := if r.Ok? && !r.value.Valid() then Err(Local) else r;
    Ret(env.Note(PolicyRead(r')), r')
  }

  function Save(o: Oracle, mem: Ledger, env: Env): Ret<()> {
    var a := o.save(env.now);
    var env' := env.Note(LedgerSaved(mem, a.Reached(), a.Saved?)).(disk := if a.Reached() then Some(mem) else env.disk);
    Ret(env', if a.Saved? then Ok(()) else if a.SaveFailed? then Err(Local) else Crashed)
  }

  /** The adapter refuses a list with a malformed or repeated project id. */
  predicate ValidProjects(projects: seq<Project>) {
    && (forall i | 0 <= i < |projects| :: IsIdentifier(projects[i].id))
    && (forall i, j | 0 <= i < j < |projects| :: projects[i].id != projects[j].id)
  }

  function ReadProjects(o: Oracle, env: Env): Ret<seq<Project>> {
    var r := o.projects(env.now);
    Ret(env.Note(ProjectsRead), if r.Ok? && !ValidProjects(r.value) then Err(Local) else r)
  }

  function ReadIdentities(o: Oracle, env: Env): Ret<seq<Identity>> {
    Ret(env.Note(IdentitiesRead), o.identities(env.now))
  }

  function ReadMembers(o: Oracle, env: Env, project: Id, human: bool): Ret<seq<Membership>> {
    var r := o.members(env.now);
    Ret(env.Note(MembersRead(project, human, r)), r)
  }

  function Create(o: Oracle, env: Env, name: Id): Ret<Identity> {
    Ret(env.Note(Created(name)), o.create(env.now))
  }

  function EnrollHuman(o: Oracle, env: Env, project: Id): Ret<()> {
    Ret(env.Note(Enrolled(project)), o.enroll(env.now))
  }

  function SetMembership(o: Oracle, env: Env, project: Id, id: Id, role: string, existing: bool, human: bool): Ret<()> {
    Ret(env.Note(Granted(project, id, role, existing, human)), o.grant(env.now))
  }

  function Vet(o: Oracle, env: Env, project: Id, id: Id): Ret<()> {
    var r := o.vet(env.now);
    Ret(env.Note(Vetted(project, id, r.Ok?)), r)
  }

  /** The policy read just before a mutation decides whether it may be issued. */
  predicate Authorizes(latest: Policy, observed: Policy, project: Id) {
    && SameBinding(latest, observed) && latest.apply
    && (observed.repair ==> latest.repair)
    && (if project == "" then latest.createK8 else latest.Allows(project))
  }

  function Authorize(o: Oracle, env: Env, observed: Policy, project: Id): Ret<()> {
    var r := LoadPolicy(o, env);
    Ret(r.env,
        match r.reply
        case Crashed => Crashed
        case Err(_) => Err(Denied)
        case Ok(latest) => if Authorizes(latest, observed, project) then Ok(()) else Err(Denied))
  }

  // ---------------------------------------------------------------- one project

  datatype Stage =
    | Next(state: State, entry: Entry, items: seq<Membership>, human: bool)
    | Stop(state: State, verdict: Verdict)

  datatype Result = Result(state: State, verdict: Verdict)

  /** Puts the entry into the ledger in memory and saves the ledger. */
  function Record(o: Oracle, s: State, project: Id, entry: Entry): Ret<()> {
    Save(o, s.mem.With(project, entry), s.env)
  }

  function Revoke(o: Oracle, s: State, project: Id, entry: Entry): Result {
    var e := entry.(revoked := true);
    var r := Record(o, s, project, e);
    Result(State(s.mem.With(project, e), r.env),
           match r.reply
           case Ok(_) => Done(RevokedPreserved, "")
           case Err(x) => Failed(x)
           case Crashed => Died)
  }

  /** The machine reads the memberships again; from here on no human authority is used. */
  function Reread(o: Oracle, s: State, project: Id, entry: Entry): Stage {
    var r := ReadMembers(o, s.env, project, false);
    var s' := s.(env := r.env);
    match r.reply
    case Ok(items) => Next(s', entry, items, false)
    case Err(x) => Stop(s', Failed(x))
    case Crashed => Stop(s', Died)
  }

  /** An exact membership was read: the pending write, if it was this one, is complete. */
  function Confirm(o: Oracle, s: State, p: Policy, project: Id, entry: Entry, items: seq<Membership>,
                   human: bool, t: Target, k8: Id): Stage {
    var id := t.IdOf(p.host, k8);
    var e := t.MarkSeen(if entry.pending == id then entry.(pending := "") else entry);
    var r := Record(o, s, project, e);
    var s' := State(s.mem.With(project, e), r.env);
    match r.reply
    case Err(x) => Stop(s', Failed(x))
    case Crashed => Stop(s', Died)
    case Ok(_) => if t.Host? && human then Reread(o, s', project, e) else Next(s', e, items, human)
  }

  datatype Announced = Announced(state: State, reply: Reply<(), Error>)

  /** Before every mutation: save the ledger that marks it, then read the policy again. */
  function Announce(o: Oracle, s: State, mem: Ledger, p: Policy, project: Id): Announced {
    var r := Save(o, mem, s.env);
    if !r.reply.Ok? then Announced(State(mem, r.env), r.reply)
    else
      var a := Authorize(o, r.env, p, project);
      Announced(State(mem, a.env), a.reply)
  }

  /** Journal, re-read the policy, issue. */
  function Issue(o: Oracle, s: State, p: Policy, project: Id, entry: Entry, existing: bool,
                 human: bool, t: Target, k8: Id): Stage {
    var id := t.IdOf(p.host, k8);
    var e := entry.(pending := id);
    var a := Announce(o, s, s.mem.With(project, e), p, project);
    match a.reply
    case Err(x) => Stop(a.state, Failed(x))
    case Crashed => Stop(a.state, Died)
    case Ok(_) =>
      var g := SetMembership(o, a.state.env, project, id, t.Role(), existing, human);
      var s' := a.state.(env := g.env);
      match g.reply
      case Err(x) => Stop(s', Failed(x))
      case Crashed => Stop(s', Died)
      case Ok(_) => Next(s', e, [], human)
  }

  /** Read the memberships back and accept only the exact role. */
  function ReadBack(o: Oracle, s: State, p: Policy, project: Id, entry: Entry,
                    human: bool, t: Target, k8: Id): Stage {
    var id := t.IdOf(p.host, k8);
    var b := ReadMembers(o, s.env, project, human);
    var s1 := s.(env := b.env);
    match b.reply
    case Err(x) => Stop(s1, Failed(x))
    case Crashed => Stop(s1, Died)
    case Ok(items) =>
      if !HasExact(items, id, t.Role()) then Stop(s1, Failed(Denied))
      else
        var e := t.MarkSeen(entry).(pending := "");
        var r := Record(o, s1, project, e);
        var s2 := State(s1.mem.With(project, e), r.env);
        match r.reply
        case Err(x) => Stop(s2, Failed(x))
        case Crashed => Stop(s2, Died)
        case Ok(_) => if t.Host? then Reread(o, s2, project, e) else Next(s2, e, items, human)
  }

  function Write(o: Oracle, s: State, p: Policy, project: Id, entry: Entry, existing: bool,
                 human: bool, t: Target, k8: Id): Stage {
    var i := Issue(o, s, p, project, entry, existing, human, t, k8);
    if i.Stop? then i else ReadBack(o, i.state, p, project, i.entry, human, t, k8)
  }

  function Grant(o: Oracle, s: State, p: Policy, project: Id, entry: Entry, items: seq<Membership>,
                 human: bool, t: Target, k8: Id): Stage {
    var m := Find(items, t.IdOf(p.host, k8));
    if m.Some? && m.value.Exact(t.Role()) then Confirm(o, s, p, project, entry, items, human, t, k8)
    else if (t.Seen(entry) || m.Some?) && !p.repair then
      var r := Revoke(o, s, project, entry);
      Stop(r.state, r.verdict)
    else if entry.pending != "" && entry.pending != HUMAN && !p.repair then
      Stop(s, Done(EnrollmentRequired, ""))
    else if !p.apply then Stop(s, Done(DryRun, "enroll_machine_memberships"))
    else Write(o, s, p, project, entry, m.Some?, human, t, k8)
  }

  function Finalize(o: Oracle, s: State, project: Id, k8: Id, entry: Entry): Result {
    var v := Vet(o, s.env, project, k8);
    var s1 := s.(env := v.env);
    match v.reply
    case Err(x) => Result(s1, Failed(x))
    case Crashed => Result(s1, Died)
    case Ok(_) =>
      var e := entry.(pending := "", revoked := false);
      var r := Record(o, s1, project, e);
      Result(State(s1.mem.With(project, e), r.env),
             match r.reply
             case Ok(_) => Done(Ready, "")
             case Err(x) => Failed(x)
             case Crashed => Died)
  }

  function Grants(o: Oracle, s: State, p: Policy, project: Id, k8: Id, entry: Entry,
                  items: seq<Membership>, human: bool): Result {
    var h := Grant(o, s, p, project, entry, items, human, Host, k8);
    if h.Stop? then Result(h.state, h.verdict)
    else
      var r := Grant(o, h.state, p, project, h.entry, h.items, h.human, Reader, k8);
      if r.Stop? then Result(r.state, r.verdict)
      else Finalize(o, r.state, project, k8, r.entry)
  }

  /** Journal, re-read the policy, enroll the human, and read the memberships with the human's authority. */
  function Enroll(o: Oracle, s: State, p: Policy, project: Id, entry: Entry): Stage {
    var e := entry.(pending := HUMAN);
    var a := Announce(o, s, s.mem.With(project, e), p, project);
    match a.reply
    case Err(x) => Stop(a.state, Failed(x))
    case Crashed => Stop(a.state, Died)
    case Ok(_) =>
      var h := EnrollHuman(o, a.state.env, project);
      var s1 := a.state.(env := h.env);
      match h.reply
      case Err(x) => Stop(s1, Failed(x))
      case Crashed => Stop(s1, Died)
      case Ok(_) =>
        var b := ReadMembers(o, s1.env, project, true);
        var s2 := s1.(env := b.env);
        match b.reply
        case Err(x) => Stop(s2, Failed(x))
        case Crashed => Stop(s2, Died)
        case Ok(items) => Next(s2, e, items, true)
  }

  /** The machine may not read the project: look with human authority, enroll the human if that fails too. */
  function Recover(o: Oracle, s: State, p: Policy, project: Id, entry: Entry): Stage {
    if entry.hostSeen && !p.repair then
      var r := Revoke(o, s, project, entry);
      Stop(r.state, r.verdict)
    else if !p.apply then Stop(s, Done(EnrollmentRequired, ""))
    else
      var b := ReadMembers(o, s.env, project, true);
      var s1 := s.(env := b.env);
      match b.reply
      case Crashed => Stop(s1, Died)
      case Ok(items) => Next(s1, entry, items, true)
      case Err(x) =>
        if !Forbidden(x) then Stop(s1, Failed(x))
        else if entry.pending != "" && !p.repair then Stop(s1, Done(EnrollmentRequired, ""))
        else Enroll(o, s1, p, project, entry)
  }

  /** The first reads of a project, up to the point where its memberships are known. */
  function Discover(o: Oracle, s: State, p: Policy, project: Id): Stage {
    var entry := s.mem.EntryOf(project);
    if entry.revoked && !p.repair then Stop(s, Done(RevokedPreserved, ""))
    else
      var r := ReadMembers(o, s.env, project, false);
      var s1 := s.(env := r.env);
      match r.reply
      case Crashed => Stop(s1, Died)
      case Ok(items) => Next(s1, entry, items, false)
      case Err(x) => if Forbidden(x) then Recover(o, s1, p, project, entry) else Stop(s1, Failed(x))
  }

  function Reconcile(o: Oracle, s: State, p: Policy, project: Id, k8: Id): Result {
    var d := Discover(o, s, p, project);
    if d.Stop? then Result(d.state, d.verdict)
    else Grants(o, d.state, p, project, k8, d.entry, d.items, d.human)
  }

  // ---------------------------------------------------------------- one cycle

  function Fail(report: Report, e: Error): Report {
    report.(status := Classify(e),
            retryAfter := if e.StatusCode? || e.Upstream? then e.retryAfter else report.retryAfter)
  }

  predicate Matches(i: Identity, p: Policy, k8: Id) {
    if k8 != "" then i.id == k8 else i.name == p.k8Name
  }

  function Matching(identities: seq<Identity>, p: Policy, k8: Id): seq<Identity> {
    if identities == [] then []
    else (if Matches(identities[0], p, k8) then [identities[0]] else []) + Matching(identities[1..], p, k8)
  }

  /** The K8 identity to look for: the policy's, else the one the ledger remembers. */
  function Wanted(p: Policy, mem: Ledger): Id {
    if p.k8 != "" then p.k8 else mem.k8
  }

  datatype Ident =
    | Known(state: State, k8: Id)
    | Refused(state: State, error: Error)
    | DryCreate(state: State)
    | Lost(state: State)

  /** Journal the creation, re-read the policy, create. */
  function CreateK8(o: Oracle, s: State, p: Policy): Ident {
    var a := Announce(o, s, s.mem.(identityPending := true), p, "");
    match a.reply
    case Err(x) => Refused(a.state, x)
    case Crashed => Lost(a.state)
    case Ok(_) =>
      var c := Create(o, a.state.env, p.k8Name);
      var s' := a.state.(env := c.env);
      match c.reply
      case Err(x) => Refused(s', x)
      case Crashed => Lost(s')
      case Ok(i) => Known(s', i.id)
  }

  function Locate(o: Oracle, s: State, p: Policy, identities: seq<Identity>): Ident {
    var wanted := Wanted(p, s.mem);
    var matches := Matching(identities, p, wanted);
    if !exists i :: 0 <= i < |identities| && identities[i].id == p.host then Refused(s, Enrollment)
    else if |matches| > 1 then Refused(s, Denied)
    else if |matches| == 1 then Known(s, matches[0].id)
    else if wanted != "" || !p.createK8 || s.mem.identityPending then Refused(s, Enrollment)
    else if !p.apply then DryCreate(s)
    else CreateK8(o, s, p)
  }

  /** Finds or creates the K8 identity and stores it in the ledger. */
  function Identify(o: Oracle, s: State, p: Policy, identities: seq<Identity>): Ident {
    var l := Locate(o, s, p, identities);
    if !l.Known? then l
    else if l.k8 == p.host || !IsIdentifier(l.k8) then Refused(l.state, Denied)
    else
      var mem := l.state.mem.(k8 := l.k8, identityPending := false);
      var r := Save(o, mem, l.state.env);
      var s' := State(mem, r.env);
      match r.reply
      case Ok(_) => Known(s', l.k8)
      case Err(x) => Refused(s', x)
      case Crashed => Lost(s')
  }

  /** A cycle's outcome: a report and the projects it verified, or nothing because the process died. */
  datatype CycleResult =
    | Reported(state: State, report: Report, verified: set<Id>)
    | Perished(state: State)

  function Combine(report: Report, project: Id, v: Verdict): Report
    requires !v.Died?
  {
    var r := report.(results := report.results + [v.OutcomeFor(project)]);
    if v.Failed? then
      r.(status := PartialFailure,
         retryAfter := if RetryAfter(v.error) > r.retryAfter then RetryAfter(v.error) else r.retryAfter)
    else if v.status != Ready && r.status == Ready then r.(status := v.status)
    else r
  }

  /** The projects from index `i` on, under the policy last read. */
  function Sweep(o: Oracle, s: State, p: Policy, k8: Id, projects: seq<Project>, i: nat,
                 verified: set<Id>, report: Report): CycleResult
    requires i <= |projects|
    decreases |projects| - i
  {
    if i == |projects| then
      Reported(s, if !p.apply && report.status == Ready then report.(status := DryRun) else report, verified)
    else if !p.Allows(projects[i].id) then Sweep(o, s, p, k8, projects, i + 1, verified, report)
    else if o.contextDone(s.env.now) then Reported(s, Fail(report, Unavailable), verified)
    else
      var l := LoadPolicy(o, s.env);
      var s1 := s.(env := l.env);
      if l.reply.Crashed? then Perished(s1)
      else if l.reply.Err? || !SameBinding(l.reply.value, p) then
        Reported(s1, report.(status := InvalidPolicy), verified)
      else if !l.reply.value.Allows(projects[i].id) then
        Sweep(o, s1, l.reply.value, k8, projects, i + 1, verified, report)
      else Visit(o, s1, l.reply.value, k8, projects, i, verified, report)
  }

  /** Withdraws the project, reconciles it, and goes on with the others unless the remote asks to slow down. */
  function Visit(o: Oracle, s: State, p: Policy, k8: Id, projects: seq<Project>, i: nat,
                 verified: set<Id>, report: Report): CycleResult
    requires i < |projects|
    decreases |projects| - i, 0
  {
    var id := projects[i].id;
    var r := Reconcile(o, s.(env := s.env.Note(Withdrawn(id))), p, id, k8);
    if r.verdict.Died? then Perished(r.state)
    else
      var report' := Combine(report, id, r.verdict);
      if r.verdict.Failed? && Classify(r.verdict.error) == RateLimited then Reported(r.state, report', verified)
      else
        var ready := r.verdict.Done? && r.verdict.status == Ready;
        Sweep(o, r.state, p, k8, projects, i + 1, if ready then verified + {id} else verified, report')
  }

  const FRESH := Report(Ready, [], 0)

  /** A cycle after its reads: the K8 identity, then the projects. */
  function Proceed(o: Oracle, s: State, p: Policy, projects: seq<Project>, identities: seq<Identity>): CycleResult {
    match Identify(o, s, p, identities)
    case Lost(t) => Perished(t)
    case Refused(t, x) => Reported(t, Fail(FRESH, x), {})
    case DryCreate(t) => Reported(t, Report(DryRun, [Outcome("", Planned, "create_k8_identity")], 0), {})
    case Known(t, k8) => Sweep(o, t, p, k8, projects, 0, {}, FRESH)
  }

  /** A cycle up to its publication. */
  function Survey(o: Oracle, s: State, initial: Policy): CycleResult {
    var l := LoadPolicy(o, s.env);
    var s1 := s.(env := l.env);
    if l.reply.Crashed? then Perished(s1)
    else if l.reply.Err? then Reported(s1, FRESH.(status := InvalidPolicy), {})
    else
      var p := l.reply.value;
      if !SameBinding(p, initial) then Reported(s1, FRESH.(status := RestartRequired), {})
      else
        var ps := ReadProjects(o, s1.env);
        var s2 := s1.(env := ps.env);
        match ps.reply
        case Crashed => Perished(s2)
        case Err(x) => Reported(s2, Fail(FRESH, x), {})
        case Ok(projects) =>
          var is_ := ReadIdentities(o, s2.env);
          var s3 := s2.(env := is_.env);
          match is_.reply
          case Crashed => Perished(s3)
          case Err(x) => Reported(s3, Fail(FRESH, x), {})
          case Ok(identities) =>
            Proceed(o, s3, p, projects, identities)
  }

  /** One cycle: whatever it verified is published when it ends. */
  function Cycle(o: Oracle, s: State, initial: Policy): CycleResult {
    var c := Survey(o, s, initial);
    if c.Perished? then c
    else c.(state := c.state.(env := c.state.env.Note(Published(c.verified))))
  }

  // ---------------------------------------------------------------- runs

  function FreshLedger(p: Policy): Ledger {
    Ledger(p.organization, p.host, "", false, map[])
  }

  /** A ledger a controller with this policy may continue. */
  predicate InScope(l: Ledger, p: Policy) {
    && l.organization == p.organization && l.host == p.host
    && (p.k8 != "" && l.k8 != "" ==> p.k8 == l.k8)
  }

  datatype Process = Down | Up(mem: Ledger, initial: Policy)

  datatype System = System(process: Process, env: Env)

  const START := System(Down, Env(None, 0, []))

  /** A process starts: it reads the policy, then the ledger from disk, and refuses a ledger of another scope. */
  function Boot(o: Oracle, env: Env): System {
    var l := LoadPolicy(o, env);
    if !l.reply.Ok? || !o.load(l.env.now) then System(Down, l.env)
    else
      var p := l.reply.value;
      var mem := if l.env.disk.Some? then l.env.disk.value else FreshLedger(p);
      if InScope(mem, p) then System(Up(mem, p), l.env.Note(Booted(p))) else System(Down, l.env)
  }

  /** What happens next: a process is (re)started, whatever ran before, or the running one does a cycle. */
  datatype Step = Restart | DoCycle

  function Advance(o: Oracle, sys: System, step: Step): System {
    if step.Restart? then Boot(o, sys.env)
    else if sys.process.Down? then sys
    else
      var c := Cycle(o, State(sys.process.mem, sys.env), sys.process.initial);
      if c.Perished? then System(Down, c.state.env)
      else System(Up(c.state.mem, sys.process.initial), c.state.env)
  }

  /** Any run: restarts, cycles and, through the oracle, crashes at any call. */
  function Run(o: Oracle, steps: seq<Step>): System
    decreases |steps|
  {
    if steps == [] then START else Advance(o, Run(o, steps[..|steps| - 1]), steps[|steps| - 1])
  }
}
