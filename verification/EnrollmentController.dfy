/** The enrollment controller in the program's own form: objects whose methods update the ledger, the state
    file and the access set step by step. Each method computes the function of `EnrollmentSpec` it names. */
module EnrollmentController {
  import opened Replies
  import opened EnrollmentTypes
  import opened EnrollmentTheorems
  import opened EnrollmentTrace
  import Spec = EnrollmentSpec

  /** The remote, the policy file and the state file. Every call is answered by the oracle and logged. */
  class World {
    const oracle: Oracle
    var disk: Option<Ledger>
    var now: nat
    ghost var log: seq<Event>

    ghost function View(): Spec.Env
      reads this
    {
      Spec.Env(disk, now, log)
    }

    constructor (oracle: Oracle)
      ensures this.oracle == oracle && View() == Spec.START.env
    {
      this.oracle := oracle;
      disk, now, log := None, 0, [];
    }

    method Note(ghost e: Event)
      modifies this
      ensures View() == old(View()).Note(e)
    {
      now, log := now + 1, log + [e];
    }

    method LoadPolicy() returns (r: Reply<Policy, Error>)
      modifies this
      ensures Spec.LoadPolicy(oracle, old(View())) == Spec.Ret(View(), r)
    {
      r := oracle.policy(now);
      if r.Ok? && !r.value.Valid() {
        r := Err(Local);
      }
      Note(PolicyRead(r));
    }

    method Save(ledger: Ledger) returns (r: Reply<(), Error>)
      modifies this
      ensures Spec.Save(oracle, ledger, old(View())) == Spec.Ret(View(), r)
    {
      var answer := oracle.save(now);
      if answer.Reached() {
        disk := Some(ledger);
      }
      Note(LedgerSaved(ledger, answer.Reached(), answer.Saved?));
      r := match answer
           case Saved => Ok(())
           case SaveFailed(_) => Err(Local)
           case SaveCrashed(_) => Crashed;
    }

    method Projects() returns (r: Reply<seq<Project>, Error>)
      modifies this
      ensures Spec.ReadProjects(oracle, old(View())) == Spec.Ret(View(), r)
    {
      r := oracle.projects(now);
      if r.Ok? && !Spec.ValidProjects(r.value) {
        r := Err(Local);
      }
      Note(ProjectsRead);
    }

    method Identities() returns (r: Reply<seq<Identity>, Error>)
      modifies this
      ensures Spec.ReadIdentities(oracle, old(View())) == Spec.Ret(View(), r)
    {
      r := oracle.identities(now);
      Note(IdentitiesRead);
    }

    method Memberships(project: Id, human: bool) returns (r: Reply<seq<Membership>, Error>)
      modifies this
      ensures Spec.ReadMembers(oracle, old(View()), project, human) == Spec.Ret(View(), r)
    {
      r := oracle.members(now);
      Note(MembersRead(project, human, r));
    }

    method CreateIdentity(name: Id) returns (r: Reply<Identity, Error>)
      modifies this
      ensures Spec.Create(oracle, old(View()), name) == Spec.Ret(View(), r)
    {
      r := oracle.create(now);
      Note(Created(name));
    }

    method EnrollHuman(project: Id) returns (r: Reply<(), Error>)
      modifies this
      ensures Spec.EnrollHuman(oracle, old(View()), project) == Spec.Ret(View(), r)
    {
      r := oracle.enroll(now);
      Note(Enrolled(project));
    }

    method SetMembership(project: Id, id: Id, role: string, existing: bool, human: bool) returns (r: Reply<(), Error>)
      modifies this
      ensures Spec.SetMembership(oracle, old(View()), project, id, role, existing, human) == Spec.Ret(View(), r)
    {
      r := oracle.grant(now);
      Note(Granted(project, id, role, existing, human));
    }

    method ReadOnlyIdentity(project: Id, id: Id) returns (r: Reply<(), Error>)
      modifies this
      ensures Spec.Vet(oracle, old(View()), project, id) == Spec.Ret(View(), r)
    {
      r := oracle.vet(now);
      Note(Vetted(project, id, r.Ok?));
    }
  }

  /** The projects that requests may use. Publications and withdrawals are noted in the world's log, so
      that the set is at every moment the one that `Eligible` reads off the log. */
  class Access {
    const binding: Policy
    var verified: set<Id>

    constructor (binding: Policy)
      ensures this.binding == binding && verified == {}
    {
      this.binding := binding;
      verified := {};
    }

    method Publish(ids: set<Id>, world: World)
      modifies this, world
      ensures verified == ids && world.View() == old(world.View()).Note(Published(ids))
      ensures verified == Eligible(world.log)
    {
      verified := ids;
      world.Note(Published(ids));
    }

    method Withdraw(id: Id, world: World)
      requires verified == Eligible(world.log)
      modifies this, world
      ensures world.View() == old(world.View()).Note(Withdrawn(id))
      ensures verified == old(verified) - {id} && verified == Eligible(world.log)
    {
      verified := verified - {id};
      world.Note(Withdrawn(id));
      assert world.log[..|world.log| - 1] == old(world.log);
    }

    /** One request: the policy is read for it, and only allowed projects are answered. */
    method Projects(world: World) returns (out: set<Id>)
      modifies world
      ensures out == Answer(Spec.LoadPolicy(world.oracle, old(world.View())).reply, binding, verified)
      ensures world.View() == Spec.LoadPolicy(world.oracle, old(world.View())).env
    {
      var p := world.LoadPolicy();
      out := {};
      if p.Ok? && SameBinding(p.value, binding) {
        var rest := verified;
        while rest != {}
          invariant rest <= verified
          invariant out == set q | q in verified - rest && p.value.Allows(q)
          decreases |rest|
        {
          var id :| id in rest;
          if p.value.Allows(id) {
            out := out + {id};
          }
          rest := rest - {id};
        }
      }
    }
  }

  /** The first membership of an identity, by a scan from the front. */
  method FindMembership(items: seq<Membership>, id: Id) returns (m: Option<Membership>)
    ensures m == Find(items, id)
    ensures m.Some? ==> m.value in items && m.value.identity == id
    ensures m.None? ==> forall i | 0 <= i < |items| :: items[i].identity != id
  {
    for i := 0 to |items|
      invariant forall j | 0 <= j < i :: items[j].identity != id
      invariant Find(items, id) == Find(items[i..], id)
    {
      if items[i].identity == id {
        return Some(items[i]);
      }
    }
    return None;
  }

  lemma MatchingNext(identities: seq<Identity>, i: nat, p: Policy, k8: Id)
    requires i < |identities|
    ensures Spec.Matching(identities[i..], p, k8)
         == (if Spec.Matches(identities[i], p, k8) then [identities[i]] else [])
            + Spec.Matching(identities[i + 1..], p, k8)
  {
    assert identities[i..][1..] == identities[i + 1..];
  }

  /** The scan over the identities: is the host there, and which ones are the K8 identity? */
  method MatchIdentities(p: Policy, identities: seq<Identity>, k8: Id) returns (hostFound: bool, matches: seq<Identity>)
    ensures hostFound <==> exists j :: 0 <= j < |identities| && identities[j].id == p.host
    ensures matches == Spec.Matching(identities, p, k8)
  {
    hostFound, matches := false, [];
    for i := 0 to |identities|
      invariant hostFound <==> exists j :: 0 <= j < i && identities[j].id == p.host
      invariant matches + Spec.Matching(identities[i..], p, k8) == Spec.Matching(identities, p, k8)
    {
      if identities[i].id == p.host {
        hostFound := true;
      }
      MatchingNext(identities, i, p, k8);
      ghost var rest := Spec.Matching(identities[i + 1..], p, k8);
      if (k8 != "" && identities[i].id == k8) || (k8 == "" && identities[i].name == p.k8Name) {
        assert matches + ([identities[i]] + rest) == (matches + [identities[i]]) + rest;
        matches := matches + [identities[i]];
      } else {
        assert [] + rest == rest;
      }
    }
  }

  /** How the values returned by a stage of `Project` agree with the stage function. */
  ghost predicate Agrees(g: Spec.Stage, s: Spec.State, stop: Option<Verdict>, entry: Entry, items: seq<Membership>,
                         human: bool)
  {
    match stop
    case Some(v) => g == Spec.Stop(s, v)
    case None => g == Spec.Next(s, entry, items, human)
  }

  class Controller {
    const world: World
    const access: Access
    const initial: Policy
    var ledger: Ledger

    ghost function View(): Spec.State
      reads this, world
    {
      Spec.State(ledger, world.View())
    }

    ghost predicate Valid()
      reads this, world, access
    {
      access.verified == Eligible(world.log)
    }

    constructor (world: World, access: Access, initial: Policy, ledger: Ledger)
      ensures this.world == world && this.access == access && this.initial == initial && this.ledger == ledger
    {
      this.world, this.access, this.initial, this.ledger := world, access, initial, ledger;
    }

    /** Puts the entry into the ledger and saves the ledger; memory keeps the entry even if saving fails. */
    method Record(project: Id, entry: Entry) returns (r: Reply<(), Error>)
      modifies this`ledger, world
      ensures Spec.Record(world.oracle, old(View()), project, entry) == Spec.Ret(world.View(), r)
      ensures ledger == old(ledger).With(project, entry)
    {
      ledger := ledger.With(project, entry);
      r := world.Save(ledger);
    }

    method AuthorizeWrite(observed: Policy, project: Id) returns (r: Reply<(), Error>)
      modifies world
      ensures Spec.Authorize(world.oracle, old(world.View()), observed, project) == Spec.Ret(world.View(), r)
    {
      var latest := world.LoadPolicy();
      if latest.Crashed? {
        return Crashed;
      }
      if latest.Err? || !SameBinding(latest.value, observed) || !latest.value.apply {
        return Err(Denied);
      }
      if observed.repair && !latest.value.repair {
        return Err(Denied);
      }
      if project == "" {
        if !latest.value.createK8 {
          return Err(Denied);
        }
      } else if !latest.value.Allows(project) {
        return Err(Denied);
      }
      return Ok(());
    }

    method Revoke(project: Id, entry: Entry) returns (v: Verdict)
      modifies this`ledger, world
      ensures Spec.Revoke(world.oracle, old(View()), project, entry) == Spec.Result(View(), v)
    {
      var r := Record(project, entry.(revoked := true));
      v := match r
           case Ok(_) => Done(RevokedPreserved, "")
           case Err(x) => Failed(x)
           case Crashed => Died;
    }

    method Reread(project: Id, entry: Entry)
      returns (stop: Option<Verdict>, items: seq<Membership>)
      modifies world
      ensures Agrees(Spec.Reread(world.oracle, old(View()), project, entry), View(), stop, entry, items, false)
    {
      var r := world.Memberships(project, false);
      stop, items := None, [];
      match r {
        case Ok(read) => items := read;
        case Err(x) => stop := Some(Failed(x));
        case Crashed => stop := Some(Died);
      }
    }

    method Confirm(p: Policy, project: Id, before: Entry, read: seq<Membership>, human0: bool, t: Target, k8: Id)
      returns (stop: Option<Verdict>, entry: Entry, items: seq<Membership>, human: bool)
      modifies this`ledger, world
      ensures Agrees(Spec.Confirm(world.oracle, old(View()), p, project, before, read, human0, t, k8),
                     View(), stop, entry, items, human)
    {
      stop, entry, items, human := None, before, read, human0;
      if entry.pending == t.IdOf(p.host, k8) {
        entry := entry.(pending := "");
      }
      entry := t.MarkSeen(entry);
      var r := Record(project, entry);
      match r {
        case Err(x) => stop := Some(Failed(x));
        case Crashed => stop := Some(Died);
        case Ok(_) =>
          if t.Host? && human {
            human := false;
            stop, items := Reread(project, entry);
          }
      }
    }

    method Issue(p: Policy, project: Id, before: Entry, existing: bool, human: bool, t: Target, k8: Id)
      returns (stop: Option<Verdict>, entry: Entry)
      modifies this`ledger, world
      ensures Agrees(Spec.Issue(world.oracle, old(View()), p, project, before, existing, human, t, k8),
                     View(), stop, entry, [], human)
    {
      var id := t.IdOf(p.host, k8);
      stop, entry := None, before.(pending := id);
      var r := Record(project, entry);
      if r.Ok? {
        r := AuthorizeWrite(p, project);
        if r.Ok? {
          r := world.SetMembership(project, id, t.Role(), existing, human);
        }
      }
      match r {
        case Ok(_) =>
        case Err(x) => stop := Some(Failed(x));
        case Crashed => stop := Some(Died);
      }
    }

    method ReadBack(p: Policy, project: Id, before: Entry, human0: bool, t: Target, k8: Id)
      returns (stop: Option<Verdict>, entry: Entry, items: seq<Membership>, human: bool)
      modifies this`ledger, world
      ensures Agrees(Spec.ReadBack(world.oracle, old(View()), p, project, before, human0, t, k8),
                     View(), stop, entry, items, human)
    {
      stop, entry, items, human := None, before, [], human0;
      var b := world.Memberships(project, human);
      match b {
        case Err(x) => return Some(Failed(x)), entry, items, human;
        case Crashed => return Some(Died), entry, items, human;
        case Ok(read) => items := read;
      }
      var actual := FindMembership(items, t.IdOf(p.host, k8));
      if actual.None? || !actual.value.Exact(t.Role()) {
        return Some(Failed(Denied)), entry, items, human;
      }
      entry := t.MarkSeen(entry).(pending := "");
      var r := Record(project, entry);
      match r {
        case Err(x) => stop := Some(Failed(x));
        case Crashed => stop := Some(Died);
        case Ok(_) =>
          if t.Host? {
            human := false;
            stop, items := Reread(project, entry);
          }
      }
    }

    /** One turn of the loop over the two memberships. */
    method Grant(p: Policy, project: Id, before: Entry, read: seq<Membership>, human0: bool, t: Target, k8: Id)
      returns (stop: Option<Verdict>, entry: Entry, items: seq<Membership>, human: bool)
      modifies this`ledger, world
      ensures Agrees(Spec.Grant(world.oracle, old(View()), p, project, before, read, human0, t, k8),
                     View(), stop, entry, items, human)
    {
      stop, entry, items, human := None, before, read, human0;
      var m := FindMembership(items, t.IdOf(p.host, k8));
      if m.Some? && m.value.Exact(t.Role()) {
        stop, entry, items, human := Confirm(p, project, entry, items, human, t, k8);
        return;
      }
      if (t.Seen(entry) || m.Some?) && !p.repair {
        var v := Revoke(project, entry);
        stop := Some(v);
        return;
      }
      if entry.pending != "" && entry.pending != HUMAN && !p.repair {
        stop := Some(Done(EnrollmentRequired, ""));
        return;
      }
      if !p.apply {
        stop := Some(Done(DryRun, "enroll_machine_memberships"));
        return;
      }
      stop, entry := Issue(p, project, entry, m.Some?, human, t, k8);
      if stop.None? {
        stop, entry, items, human := ReadBack(p, project, entry, human, t, k8);
      }
    }

    method Finalize(project: Id, k8: Id, entry: Entry) returns (v: Verdict)
      modifies this`ledger, world
      ensures Spec.Finalize(world.oracle, old(View()), project, k8, entry) == Spec.Result(View(), v)
    {
      var r := world.ReadOnlyIdentity(project, k8);
      if r.Ok? {
        r := Record(project, entry.(pending := "", revoked := false));
      }
      v := match r
           case Ok(_) => Done(Ready, "")
           case Err(x) => Failed(x)
           case Crashed => Died;
    }

    method Enroll(p: Policy, project: Id, before: Entry)
      returns (stop: Option<Verdict>, entry: Entry, items: seq<Membership>)
      modifies this`ledger, world
      ensures Agrees(Spec.Enroll(world.oracle, old(View()), p, project, before), View(), stop, entry, items, true)
    {
      stop, entry, items := None, before.(pending := HUMAN), [];
      var r := Record(project, entry);
      if r.Ok? {
        r := AuthorizeWrite(p, project);
        if r.Ok? {
          r := world.EnrollHuman(project);
        }
      }
      match r {
        case Err(x) => return Some(Failed(x)), entry, items;
        case Crashed => return Some(Died), entry, items;
        case Ok(_) =>
      }
      var b := world.Memberships(project, true);
      match b {
        case Ok(read) => items := read;
        case Err(x) => stop := Some(Failed(x));
        case Crashed => stop := Some(Died);
      }
    }

    method Recover(p: Policy, project: Id, before: Entry)
      returns (stop: Option<Verdict>, entry: Entry, items: seq<Membership>)
      modifies this`ledger, world
      ensures Agrees(Spec.Recover(world.oracle, old(View()), p, project, before), View(), stop, entry, items, true)
    {
      stop, entry, items := None, before, [];
      if entry.hostSeen && !p.repair {
        var v := Revoke(project, entry);
        stop := Some(v);
        return;
      }
      if !p.apply {
        stop := Some(Done(EnrollmentRequired, ""));
        return;
      }
      var b := world.Memberships(project, true);
      match b {
        case Ok(read) => items := read;
        case Crashed => stop := Some(Died);
        case Err(x) =>
          if !Forbidden(x) {
            stop := Some(Failed(x));
          } else if entry.pending != "" && !p.repair {
            stop := Some(Done(EnrollmentRequired, ""));
          } else {
            stop, entry, items := Enroll(p, project, entry);
          }
      }
    }

    method Discover(p: Policy, project: Id)
      returns (stop: Option<Verdict>, entry: Entry, items: seq<Membership>, human: bool)
      modifies this`ledger, world
      ensures Agrees(Spec.Discover(world.oracle, old(View()), p, project), View(), stop, entry, items, human)
    {
      stop, entry, items, human := None, ledger.EntryOf(project), [], false;
      if entry.revoked && !p.repair {
        stop := Some(Done(RevokedPreserved, ""));
        return;
      }
      var r := world.Memberships(project, false);
      match r {
        case Ok(read) => items := read;
        case Crashed => stop := Some(Died);
        case Err(x) =>
          if !Forbidden(x) {
            stop := Some(Failed(x));
          } else {
            human := true;
            stop, entry, items := Recover(p, project, entry);
          }
      }
    }

    /** Reconciles one project: discover, then a loop over the host and the K8 membership, then the last check. */
    method Project(p: Policy, project: Id, k8: Id) returns (v: Verdict)
      modifies this`ledger, world
      ensures Spec.Reconcile(world.oracle, old(View()), p, project, k8) == Spec.Result(View(), v)
    {
      ghost var goal := Spec.Reconcile(world.oracle, View(), p, project, k8);
      var stop, entry, items, human := Discover(p, project);
      if stop.Some? {
        return stop.value;
      }
      var targets := [Host, Reader];
      for i := 0 to 2
        invariant i == 0 ==> Spec.Grants(world.oracle, View(), p, project, k8, entry, items, human) == goal
        invariant i == 1 ==> AfterHost(world.oracle, View(), p, project, k8, entry, items, human) == goal
        invariant i == 2 ==> Spec.Finalize(world.oracle, View(), project, k8, entry) == goal
      {
        stop, entry, items, human := Grant(p, project, entry, items, human, targets[i], k8);
        if stop.Some? {
          return stop.value;
        }
      }
      v := Finalize(project, k8, entry);
    }

    static ghost function AfterHost(o: Oracle, s: Spec.State, p: Policy, project: Id, k8: Id, entry: Entry,
                                    items: seq<Membership>, human: bool): Spec.Result {
      var r := Spec.Grant(o, s, p, project, entry, items, human, Reader, k8);
      if r.Stop? then Spec.Result(r.state, r.verdict) else Spec.Finalize(o, r.state, project, k8, r.entry)
    }

    /** Journal the creation, re-read the policy, create. */
    method CreateK8(p: Policy) returns (r: Reply<Identity, Error>)
      modifies this`ledger, world
      ensures Spec.CreateK8(world.oracle, old(View()), p) == IdentOf(View(), r)
    {
      ledger := ledger.(identityPending := true);
      var done := world.Save(ledger);
      if done.Ok? {
        done := AuthorizeWrite(p, "");
      }
      match done {
        case Err(x) => return Err(x);
        case Crashed => return Crashed;
        case Ok(_) =>
      }
      r := world.CreateIdentity(p.k8Name);
    }

    static ghost function IdentOf(s: Spec.State, r: Reply<Identity, Error>): Spec.Ident {
      match r
      case Ok(i) => Spec.Known(s, i.id)
      case Err(x) => Spec.Refused(s, x)
      case Crashed => Spec.Lost(s)
    }

    /** Finds or creates the K8 identity; `planned` is the dry run of a creation. */
    method Locate(p: Policy, identities: seq<Identity>) returns (planned: bool, r: Reply<Id, Error>)
      modifies this`ledger, world
      ensures Spec.Locate(world.oracle, old(View()), p, identities) == Located(View(), planned, r)
    {
      planned := false;
      var k8 := if p.k8 == "" then ledger.k8 else p.k8;
      var hostFound, matches := MatchIdentities(p, identities, k8);
      if !hostFound {
        return false, Err(Enrollment);
      }
      if |matches| > 1 {
        return false, Err(Denied);
      }
      if |matches| == 1 {
        return false, Ok(matches[0].id);
      }
      if k8 != "" || !p.createK8 || ledger.identityPending {
        return false, Err(Enrollment);
      }
      if !p.apply {
        return true, Err(Local);
      }
      var i := CreateK8(p);
      r := match i case Ok(v) => Ok(v.id) case Err(x) => Err(x) case Crashed => Crashed;
    }

    static ghost function Located(s: Spec.State, planned: bool, r: Reply<Id, Error>): Spec.Ident {
      if planned then Spec.DryCreate(s)
      else
        match r
        case Ok(id) => Spec.Known(s, id)
        case Err(x) => Spec.Refused(s, x)
        case Crashed => Spec.Lost(s)
    }

    method Identify(p: Policy, identities: seq<Identity>) returns (planned: bool, r: Reply<Id, Error>)
      modifies this`ledger, world
      ensures Spec.Identify(world.oracle, old(View()), p, identities) == Located(View(), planned, r)
      ensures !planned && r.Ok? ==> ledger.k8 == r.value
    {
      planned, r := Locate(p, identities);
      if planned || !r.Ok? {
        return;
      }
      if r.value == p.host || !IsIdentifier(r.value) {
        return false, Err(Denied);
      }
      ledger := ledger.(k8 := r.value, identityPending := false);
      var done := world.Save(ledger);
      match done {
        case Ok(_) =>
        case Err(x) => return false, Err(x);
        case Crashed => return false, Crashed;
      }
    }

    /** What a survey returns, as a result of the specification. */
    static ghost function CycleOf(s: Spec.State, report: Option<Report>, verified: set<Id>): Spec.CycleResult {
      match report
      case None => Spec.Perished(s)
      case Some(r) => Spec.Reported(s, r, verified)
    }

    /** The loop over the projects: re-read the policy, withdraw, reconcile. */
    method Sweep(p0: Policy, k8: Id, projects: seq<Project>) returns (result: Option<Report>, verified: set<Id>)
      requires Valid() && ledger.k8 == k8
      modifies this`ledger, world, access
      ensures Valid()
      ensures Spec.Sweep(world.oracle, old(View()), p0, k8, projects, 0, {}, Spec.FRESH)
           == CycleOf(View(), result, verified)
    {
      ghost var goal := Spec.Sweep(world.oracle, View(), p0, k8, projects, 0, {}, Spec.FRESH);
      var p, report := p0, Spec.FRESH;
      verified := {};
      for i := 0 to |projects|
        invariant Valid() && ledger.k8 == k8
        invariant Spec.Sweep(world.oracle, View(), p, k8, projects, i, verified, report) == goal
      {
        var id := projects[i].id;
        if !p.Allows(id) {
          continue;
        }
        if world.oracle.contextDone(world.now) {
          return Some(Spec.Fail(report, Unavailable)), verified;
        }
        ghost var log := world.log;
        var latest := world.LoadPolicy();
        EligibleQuiet(log, world.log);
        if latest.Crashed? {
          return None, verified;
        }
        if latest.Err? || !SameBinding(latest.value, p) {
          return Some(report.(status := InvalidPolicy)), verified;
        }
        p := latest.value;
        if !p.Allows(id) {
          continue;
        }
        ghost var before := View();
        assert Spec.Visit(world.oracle, before, p, k8, projects, i, verified, report) == goal;
        access.Withdraw(id, world);
        ghost var withdrawn := View();
        var v := Project(p, id, k8);
        ProjectEligible(world.oracle, withdrawn, p, id, k8);
        if v.Died? {
          return None, verified;
        }
        report := Spec.Combine(report, id, v);
        if v.Failed? && Classify(v.error) == RateLimited {
          return Some(report), verified;
        }
        if v.Done? && v.status == Ready {
          verified := verified + {id};
        }
      }
      if !p.apply && report.status == Ready {
        report := report.(status := DryRun);
      }
      result := Some(report);
    }

    /** A cycle after its reads: the K8 identity, then the projects. */
    method Proceed(p: Policy, projects: seq<Project>, identities: seq<Identity>)
      returns (result: Option<Report>, verified: set<Id>)
      requires Valid()
      modifies this`ledger, world, access
      ensures Valid()
      ensures Spec.Proceed(world.oracle, old(View()), p, projects, identities) == CycleOf(View(), result, verified)
    {
      ghost var s3 := View();
      var planned, k8 := Identify(p, identities);
      IdentifyEligible(world.oracle, s3, p, identities);
      if planned {
        return Some(Report(DryRun, [Outcome("", Planned, "create_k8_identity")], 0)), {};
      }
      match k8 {
        case Crashed => return None, {};
        case Err(x) => return Some(Spec.Fail(Spec.FRESH, x)), {};
        case Ok(_) =>
      }
      result, verified := Sweep(p, k8.value, projects);
    }

    method Survey() returns (result: Option<Report>, verified: set<Id>)
      requires Valid()
      modifies this`ledger, world, access
      ensures Valid()
      ensures Spec.Survey(world.oracle, old(View()), initial) == CycleOf(View(), result, verified)
    {
      verified := {};
      ghost var s0 := View();
      var read := world.LoadPolicy();
      EligibleQuiet(s0.env.log, world.log);
      if read.Crashed? {
        return None, {};
      }
      if read.Err? {
        return Some(Spec.FRESH.(status := InvalidPolicy)), {};
      }
      var p := read.value;
      if !SameBinding(p, initial) {
        return Some(Spec.FRESH.(status := RestartRequired)), {};
      }
      var listed := world.Projects();
      EligibleQuiet(s0.env.log, world.log);
      match listed {
        case Crashed => return None, {};
        case Err(x) => return Some(Spec.Fail(Spec.FRESH, x)), {};
        case Ok(_) =>
      }
      var identities := world.Identities();
      EligibleQuiet(s0.env.log, world.log);
      match identities {
        case Crashed => return None, {};
        case Err(x) => return Some(Spec.Fail(Spec.FRESH, x)), {};
        case Ok(_) =>
      }
      result, verified := Proceed(p, listed.value, identities.value);
    }

    /** One cycle. Whatever it verified is published when it ends, also when it ends early; a cycle in which
        the process dies publishes nothing. The access set is at all times the one the log determines. */
    method Cycle() returns (result: Option<Report>)
      requires Valid()
      modifies this`ledger, world, access
      ensures Valid()
      ensures Spec.Cycle(world.oracle, old(View()), initial)
              == CycleOf(View(), result, if result.Some? then access.verified else {})
    {
      var verified: set<Id>;
      result, verified := Survey();
      if result.Some? {
        access.Publish(verified, world);
      }
    }
  }

  /** Starts a process: read the policy, then the ledger from disk, and refuse a ledger of another scope. */
  method NewController(world: World) returns (c: Controller?)
    modifies world
    ensures c != null ==> fresh(c) && fresh(c.access) && c.world == world && c.Valid()
    ensures Spec.Boot(world.oracle, old(world.View())) ==
            Spec.System(if c == null then Spec.Down else Spec.Up(c.ledger, c.initial), world.View())
  {
    c := null;
    var read := world.LoadPolicy();
    if !read.Ok? || !world.oracle.load(world.now) {
      return;
    }
    var p := read.value;
    var ledger := Ledger(p.organization, p.host, "", false, map[]);
    if world.disk.Some? {
      ledger := world.disk.value;
    }
    if ledger.organization != p.organization || ledger.host != p.host
       || (p.k8 != "" && ledger.k8 != "" && p.k8 != ledger.k8) {
      return;
    }
    var access := new Access(p);
    world.Note(Booted(p));
    c := new Controller(world, access, p, ledger);
  }

  /** A whole run: the program, restarted and cycled as the steps say, leaves the world that `Run` describes. */
  method RunProgram(oracle: Oracle, steps: seq<Spec.Step>) returns (world: World)
    ensures fresh(world) && world.oracle == oracle && world.View() == Spec.Run(oracle, steps).env
  {
    world := new World(oracle);
    var c: Controller? := null;
    for i := 0 to |steps|
      invariant fresh(world) && world.oracle == oracle
      invariant c != null ==> fresh(c) && fresh(c.access) && c.world == world && c.Valid()
      invariant Spec.Run(oracle, steps[..i]) ==
                Spec.System(if c == null then Spec.Down else Spec.Up(c.ledger, c.initial), world.View())
    {
      assert steps[..i + 1][..i] == steps[..i];
      if steps[i].Restart? {
        c := NewController(world);
      } else if c != null {
        var report := c.Cycle();
        if report.None? {
          c := null;
        }
      }
    }
    assert steps[..|steps|] == steps;
  }

  /** Nothing in the second log beyond the first publishes, withdraws or starts. */
  ghost predicate Unpublished(log: seq<Event>, log': seq<Event>) {
    && log <= log'
    && forall i | |log| <= i < |log'| :: !log'[i].Published? && !log'[i].Booted? && !log'[i].Withdrawn?
  }

  /** Such events leave the eligible projects as they are. */
  lemma {:induction false} EligibleQuiet(log: seq<Event>, log': seq<Event>)
    requires Unpublished(log, log')
    ensures Eligible(log') == Eligible(log)
    decreases |log'|
  {
    if |log'| > |log| {
      EligibleQuiet(log, log'[..|log'| - 1]);
    } else {
      assert log' == log;
    }
  }

  lemma ProjectEligible(o: Oracle, s: Spec.State, p: Policy, project: Id, k8: Id)
    requires s.mem.k8 == k8
    ensures var t := Spec.Reconcile(o, s, p, project, k8).state;
            Eligible(t.env.log) == Eligible(s.env.log) && t.mem.k8 == k8
  {
    ReconcileConfined(o, s, p, project, k8);
    var t := Spec.Reconcile(o, s, p, project, k8).state;
    forall i | |s.env.log| <= i < |t.env.log|
      ensures !t.env.log[i].Published? && !t.env.log[i].Booted? && !t.env.log[i].Withdrawn?
    {
      assert EventOk(t.env.log, i, p, project, k8);
    }
    EligibleQuiet(s.env.log, t.env.log);
  }

  lemma IdentifyEligible(o: Oracle, s: Spec.State, p: Policy, identities: seq<Identity>)
    ensures Eligible(Spec.Identify(o, s, p, identities).state.env.log) == Eligible(s.env.log)
  {
    IdentifyUnpublished(o, s, p, identities);
    EligibleQuiet(s.env.log, Spec.Identify(o, s, p, identities).state.env.log);
  }

  lemma IdentifyUnpublished(o: Oracle, s: Spec.State, p: Policy, identities: seq<Identity>)
    ensures Unpublished(s.env.log, Spec.Identify(o, s, p, identities).state.env.log)
  {
    CreateUnpublished(o, s, p);
    var l := Spec.Locate(o, s, p, identities);
    assert Unpublished(s.env.log, l.state.env.log);
  }

  lemma CreateUnpublished(o: Oracle, s: Spec.State, p: Policy)
    ensures Unpublished(s.env.log, Spec.CreateK8(o, s, p).state.env.log)
  {
    var a := Spec.Announce(o, s, s.mem.(identityPending := true), p, "");
    assert Unpublished(s.env.log, a.state.env.log);
  }
}
