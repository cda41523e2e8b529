/** Three theorems at the edges of the protocol: creation under any policy, the finality of a revocation,
    and the one identity id for which a grant can be issued twice. */
module EnrollmentLimits {
  import opened Replies
  import opened EnrollmentTypes
  import opened EnrollmentSpec
  import opened EnrollmentTrace
  import opened EnrollmentSafety
  import opened EnrollmentRuns

  // ---------------------------------------------------------------- creation, under any policy

  ghost predicate HasCreated(log: seq<Event>) {
    exists i :: 0 <= i < |log| && log[i].Created?
  }

  predicate Remembers(l: Ledger) {
    l.identityPending || l.k8 != ""
  }

  ghost predicate CreatedOnce(env: Env) {
    && (forall i, j | 0 <= i < j < |env.log| :: !(env.log[i].Created? && env.log[j].Created?))
    && (HasCreated(env.log) ==> env.disk.Some? && Remembers(env.disk.value))
  }

  ghost predicate CreationInv(s: State) {
    CreatedOnce(s.env) && (HasCreated(s.env.log) ==> Remembers(s.mem))
  }

  /** A step that creates nothing and writes only ledgers that remember what this one remembers. */
  lemma NothingCreated(s: State, t: State)
    requires CreationInv(s) && s.env.log <= t.env.log
    requires forall i | |s.env.log| <= i < |t.env.log| :: !t.env.log[i].Created?
    requires Remembers(s.mem) ==> Remembers(t.mem)
    requires t.env.disk == s.env.disk || (t.env.disk.Some? && (Remembers(s.mem) ==> Remembers(t.env.disk.value)))
    ensures CreationInv(t)
  {
    forall i, j | 0 <= i < j < |t.env.log| ensures !(t.env.log[i].Created? && t.env.log[j].Created?) {
      if j < |s.env.log| {
        assert t.env.log[i] == s.env.log[i] && t.env.log[j] == s.env.log[j];
      }
    }
    assert HasCreated(t.env.log) ==> HasCreated(s.env.log);
  }

  lemma CreateOnce(o: Oracle, s: State, p: Policy)
    requires CreationInv(s) && !Remembers(s.mem)
    ensures CreationInv(CreateK8(o, s, p).state)
  {
    var mem := s.mem.(identityPending := true);
    var a := Announce(o, s, mem, p, "");
    NothingCreated(s, a.state);
    if a.reply.Ok? {
      assert forall i | 0 <= i < |a.state.env.log| :: !a.state.env.log[i].Created?;
      assert a.state.env.disk == Some(mem);
    }
  }

  lemma IdentifyOnce(o: Oracle, s: State, p: Policy, identities: seq<Identity>)
    requires CreationInv(s)
    ensures var l := Identify(o, s, p, identities); CreationInv(l.state) && (l.Known? ==> l.state.mem.k8 == l.k8)
  {
    var l := Locate(o, s, p, identities);
    if l.state != s {
      CreateOnce(o, s, p);
    }
    if l.Known? && IsIdentifier(l.k8) {
      var mem := l.state.mem.(k8 := l.k8, identityPending := false);
      NothingCreated(l.state, State(mem, Save(o, mem, l.state.env).env));
    }
  }

  lemma SweepOnce(o: Oracle, s: State, p: Policy, k8: Id, projects: seq<Project>, i: nat,
                  verified: set<Id>, report: Report)
    requires i <= |projects| && CreationInv(s) && s.mem.k8 == k8
    ensures CreationInv(Sweep(o, s, p, k8, projects, i, verified, report).state)
    decreases |projects| - i
  {
    if i == |projects| || (o.contextDone(s.env.now) && p.Allows(projects[i].id)) {
    } else if !p.Allows(projects[i].id) {
      SweepOnce(o, s, p, k8, projects, i + 1, verified, report);
    } else {
      var l := LoadPolicy(o, s.env);
      var s1 := s.(env := l.env);
      NothingCreated(s, s1);
      if l.reply.Ok? && SameBinding(l.reply.value, p) {
        if l.reply.value.Allows(projects[i].id) {
          VisitOnce(o, s1, l.reply.value, k8, projects, i, verified, report);
        } else {
          SweepOnce(o, s1, l.reply.value, k8, projects, i + 1, verified, report);
        }
      }
    }
  }

  lemma VisitOnce(o: Oracle, s: State, p: Policy, k8: Id, projects: seq<Project>, i: nat,
                  verified: set<Id>, report: Report)
    requires i < |projects| && CreationInv(s) && s.mem.k8 == k8
    ensures CreationInv(Visit(o, s, p, k8, projects, i, verified, report).state)
    decreases |projects| - i, 0
  {
    var id := projects[i].id;
    var s1 := s.(env := s.env.Note(Withdrawn(id)));
    NothingCreated(s, s1);
    var r := Reconcile(o, s1, p, id, k8);
    ReconcileConfined(o, s1, p, id, k8);
    forall j | |s1.env.log| <= j < |r.state.env.log| ensures !r.state.env.log[j].Created? {
      assert EventOk(r.state.env.log, j, p, id, k8);
    }
    NothingCreated(s1, r.state);
    if !r.verdict.Died? {
      var ready := r.verdict.Done? && r.verdict.status == Ready;
      SweepOnce(o, r.state, p, k8, projects, i + 1, if ready then verified + {id} else verified,
                Combine(report, id, r.verdict));
    }
  }

  lemma CycleOnce(o: Oracle, s: State, initial: Policy)
    requires CreationInv(s)
    ensures CreationInv(Cycle(o, s, initial).state)
  {
    var s1 := s.(env := LoadPolicy(o, s.env).env);
    NothingCreated(s, s1);
    var r := LoadPolicy(o, s.env).reply;
    if r.Ok? && SameBinding(r.value, initial) {
      var ps := ReadProjects(o, s1.env);
      var s2 := s1.(env := ps.env);
      NothingCreated(s1, s2);
      var ids := ReadIdentities(o, s2.env);
      var s3 := s2.(env := ids.env);
      NothingCreated(s2, s3);
      if ps.reply.Ok? && ids.reply.Ok? {
        IdentifyOnce(o, s3, r.value, ids.reply.value);
        var k := Identify(o, s3, r.value, ids.reply.value);
        if k.Known? {
          SweepOnce(o, k.state, r.value, k.k8, ps.reply.value, 0, {}, FRESH);
        }
      }
    }
    var c := Survey(o, s, initial);
    NothingCreated(c.state, c.state.(env := c.state.env.Note(Published(if c.Reported? then c.verified else {}))));
  }

  ghost predicate CreationOk(sys: System) {
    CreatedOnce(sys.env) && (sys.process.Up? ==> CreationInv(State(sys.process.mem, sys.env)))
  }

  lemma BootOnce(o: Oracle, env: Env)
    requires CreatedOnce(env)
    ensures CreationOk(Boot(o, env))
  {
    var l := LoadPolicy(o, env);
    NoteOnce(env, PolicyRead(l.reply));
    if Boot(o, env).process.Up? {
      NoteOnce(l.env, Booted(l.reply.value));
    }
  }

  lemma NoteOnce(env: Env, e: Event)
    requires CreatedOnce(env) && !e.Created?
    ensures CreatedOnce(env.Note(e)) && (HasCreated(env.Note(e).log) ==> HasCreated(env.log))
  {
    var mem := Ledger("", "", "", true, map[]);
    NothingCreated(State(mem, env), State(mem, env.Note(e)));
  }

  lemma {:induction false} RunOnce(o: Oracle, steps: seq<Step>)
    ensures CreationOk(Run(o, steps))
    decreases |steps|
  {
    if steps != [] {
      RunOnce(o, steps[..|steps| - 1]);
      var sys := Run(o, steps[..|steps| - 1]);
      if steps[|steps| - 1].Restart? {
        BootOnce(o, sys.env);
      } else if sys.process.Up? {
        CycleOnce(o, State(sys.process.mem, sys.env), sys.process.initial);
      }
    }
  }

  /** Over every run, under any policies, the K8 identity is created at most once. */
  lemma CreatedAtMostOnce(o: Oracle, steps: seq<Step>, i: nat, j: nat)
    requires var log := Run(o, steps).env.log; i < |log| && j < |log| && log[i].Created? && log[j].Created?
    ensures i == j
  {
    RunOnce(o, steps);
    var log := Run(o, steps).env.log;
    assert log[i].Created? && log[j].Created?;
  }

  // ---------------------------------------------------------------- a revocation is final without repair

  /** Revoked in memory and on disk; since n nothing was issued for the project and it was not published. */
  ghost predicate Sealed(s: State, q: Id, n: nat) {
    && s.mem.EntryOf(q).revoked && s.env.disk.Some? && s.env.disk.value.EntryOf(q).revoked
    && SilentSince(s.env.log, q, n)
  }

  ghost predicate SilentSince(log: seq<Event>, q: Id, n: nat) {
    forall i | n <= i < |log| :: Silent(log[i], q)
  }

  predicate Silent(e: Event, q: Id) {
    && ((e.Enrolled? || e.Granted?) ==> e.project != q)
    && (e.Published? ==> q !in e.ids)
  }

  /** A step that keeps the entry and adds only events that are silent about the project. */
  lemma SealKept(s: State, t: State, q: Id, n: nat)
    requires Sealed(s, q, n) && s.env.log <= t.env.log
    requires t.mem.EntryOf(q) == s.mem.EntryOf(q)
    requires t.env.disk == s.env.disk || (t.env.disk.Some? && t.env.disk.value.EntryOf(q) == s.mem.EntryOf(q))
    requires forall i | |s.env.log| <= i < |t.env.log| :: Silent(t.env.log[i], q)
    ensures Sealed(t, q, n)
  {
    forall i | n <= i < |t.env.log| ensures Silent(t.env.log[i], q) {
      if i < |s.env.log| {
        assert Silent(s.env.log[i], q);
      }
    }
  }

  lemma IdentifySealed(o: Oracle, s: State, p: Policy, identities: seq<Identity>, q: Id, n: nat)
    requires Sealed(s, q, n)
    ensures var l := Identify(o, s, p, identities); Sealed(l.state, q, n) && (l.Known? ==> l.state.mem.k8 == l.k8)
  {
    var l := Locate(o, s, p, identities);
    LocateSealed(o, s, p, identities, q, n);
    if l.Known? && l.k8 != p.host && IsIdentifier(l.k8) {
      var mem := l.state.mem.(k8 := l.k8, identityPending := false);
      SealKept(l.state, State(mem, Save(o, mem, l.state.env).env), q, n);
    }
  }

  lemma LocateSealed(o: Oracle, s: State, p: Policy, identities: seq<Identity>, q: Id, n: nat)
    requires Sealed(s, q, n)
    ensures Sealed(Locate(o, s, p, identities).state, q, n)
  {
    if Locate(o, s, p, identities).state != s {
      var a := Announce(o, s, s.mem.(identityPending := true), p, "");
      SealKept(s, a.state, q, n);
      SealKept(a.state, a.state.(env := Create(o, a.state.env, p.k8Name).env), q, n);
    }
  }

  lemma SweepSealed(o: Oracle, s: State, p: Policy, k8: Id, projects: seq<Project>, i: nat,
                    verified: set<Id>, report: Report, q: Id, n: nat)
    requires NoRepair(o) && i <= |projects| && Sealed(s, q, n) && s.mem.k8 == k8 && q !in verified
    ensures var c := Sweep(o, s, p, k8, projects, i, verified, report);
            Sealed(c.state, q, n) && (c.Reported? ==> q !in c.verified)
    decreases |projects| - i
  {
    if i == |projects| || (o.contextDone(s.env.now) && p.Allows(projects[i].id)) {
    } else if !p.Allows(projects[i].id) {
      SweepSealed(o, s, p, k8, projects, i + 1, verified, report, q, n);
    } else {
      var l := LoadPolicy(o, s.env);
      var s1 := s.(env := l.env);
      SealKept(s, s1, q, n);
      if l.reply.Ok? && SameBinding(l.reply.value, p) {
        if l.reply.value.Allows(projects[i].id) {
          VisitSealed(o, s1, l.reply.value, k8, projects, i, verified, report, q, n);
        } else {
          SweepSealed(o, s1, l.reply.value, k8, projects, i + 1, verified, report, q, n);
        }
      }
    }
  }

  lemma VisitSealed(o: Oracle, s: State, p: Policy, k8: Id, projects: seq<Project>, i: nat,
                    verified: set<Id>, report: Report, q: Id, n: nat)
    requires NoRepair(o) && i < |projects| && Sealed(s, q, n) && s.mem.k8 == k8 && q !in verified && !p.repair
    ensures var c := Visit(o, s, p, k8, projects, i, verified, report);
            Sealed(c.state, q, n) && (c.Reported? ==> q !in c.verified)
    decreases |projects| - i, 0
  {
    var id := projects[i].id;
    var s1 := s.(env := s.env.Note(Withdrawn(id)));
    SealKept(s, s1, q, n);
    var r := Reconcile(o, s1, p, id, k8);
    assert Sealed(r.state, q, n) && (id == q ==> r.verdict == Done(RevokedPreserved, "")) by {
      if id == q {
        assert r == Result(s1, Done(RevokedPreserved, ""));
      } else {
        ReconcileConfined(o, s1, p, id, k8);
        forall j | |s1.env.log| <= j < |r.state.env.log| ensures Silent(r.state.env.log[j], q) {
          assert EventOk(r.state.env.log, j, p, id, k8);
        }
        SealKept(s1, r.state, q, n);
      }
    }
    ReconcileConfined(o, s1, p, id, k8);
    if !r.verdict.Died? {
      var ready := r.verdict.Done? && r.verdict.status == Ready;
      SweepSealed(o, r.state, p, k8, projects, i + 1, if ready then verified + {id} else verified,
                  Combine(report, id, r.verdict), q, n);
    }
  }

  lemma SurveySealed(o: Oracle, s: State, initial: Policy, q: Id, n: nat)
    requires NoRepair(o) && Sealed(s, q, n)
    ensures var c := Survey(o, s, initial); Sealed(c.state, q, n) && (c.Reported? ==> q !in c.verified)
  {
    var s1 := s.(env := LoadPolicy(o, s.env).env);
    SealKept(s, s1, q, n);
    var r := LoadPolicy(o, s.env).reply;
    if r.Ok? && SameBinding(r.value, initial) {
      var ps := ReadProjects(o, s1.env);
      var s2 := s1.(env := ps.env);
      SealKept(s1, s2, q, n);
      var ids := ReadIdentities(o, s2.env);
      var s3 := s2.(env := ids.env);
      SealKept(s2, s3, q, n);
      if ps.reply.Ok? && ids.reply.Ok? {
        IdentifySealed(o, s3, r.value, ids.reply.value, q, n);
        var k := Identify(o, s3, r.value, ids.reply.value);
        if k.Known? {
          SweepSealed(o, k.state, r.value, k.k8, ps.reply.value, 0, {}, FRESH, q, n);
        }
      }
    }
  }

  lemma CycleSealed(o: Oracle, s: State, initial: Policy, q: Id, n: nat)
    requires NoRepair(o) && Sealed(s, q, n)
    ensures Sealed(Cycle(o, s, initial).state, q, n)
  {
    SurveySealed(o, s, initial, q, n);
    var c := Survey(o, s, initial);
    if c.Reported? {
      SealKept(c.state, Cycle(o, s, initial).state, q, n);
    }
  }

  ghost predicate SystemSealed(sys: System, q: Id, n: nat) {
    && sys.env.disk.Some? && sys.env.disk.value.EntryOf(q).revoked && SilentSince(sys.env.log, q, n)
    && (sys.process.Up? ==> sys.process.mem.EntryOf(q).revoked)
  }

  lemma AdvanceSealed(o: Oracle, sys: System, step: Step, q: Id, n: nat)
    requires NoRepair(o) && SystemSealed(sys, q, n)
    ensures SystemSealed(Advance(o, sys, step), q, n)
  {
    if step.Restart? {
      var s := State(sys.env.disk.value, sys.env);
      SealKept(s, s.(env := Boot(o, sys.env).env), q, n);
    } else if sys.process.Up? {
      CycleSealed(o, State(sys.process.mem, sys.env), sys.process.initial, q, n);
    }
  }

  /** Once a revocation is on disk, no continuation of the run, with whatever crashes and restarts, changes
      the project at the remote or publishes it again; the revocation stays on disk. */
  lemma {:induction false} RevocationIsFinal(o: Oracle, steps: seq<Step>, more: seq<Step>, q: Id)
    requires NoRepair(o)
    requires var env := Run(o, steps).env; env.disk.Some? && env.disk.value.EntryOf(q).revoked
    ensures SystemSealed(Run(o, steps + more), q, |Run(o, steps).env.log|)
    decreases |more|
  {
    if more == [] {
      assert steps + more == steps;
      RunKeeps(o, steps);
    } else {
      var front := more[..|more| - 1];
      RevocationIsFinal(o, steps, front, q);
      assert (steps + more)[..|steps + more| - 1] == steps + front;
      AdvanceSealed(o, Run(o, steps + front), more[|more| - 1], q, |Run(o, steps).env.log|);
    }
  }

  // ---------------------------------------------------------------- the identity named like the marker

  /** A policy whose host identity has the id that the ledger uses as the human-enrollment marker. */
  const MARKED_POLICY := Policy("v0.151.0", "org", HUMAN, "k8", "", false, [], [], true, true, false, 30, 1)

  /** The remote lists one project without memberships, and the response to every grant is lost. */
  function LosingRemote(project: Id): Oracle {
    Oracle(n => Ok(MARKED_POLICY), n => true, n => Saved, n => Ok([Project(project, "")]),
           n => Ok([Identity(HUMAN, ""), Identity("k8", "")]), n => Err(Unavailable), n => Ok([]),
           n => Err(Unavailable), n => Err(Unavailable), n => Err(Unavailable), n => false)
  }

  lemma MarkedPolicyValid()
    ensures MARKED_POLICY.Valid() && IsIdentifier(HUMAN)
  {
    assert IsIdentifier("org") && IsIdentifier("k8");
  }

  /** What the two cycles start from: nothing seen, and either nothing pending or the host's grant. */
  ghost predicate BeforeGrant(s: State, project: Id) {
    && s.mem.organization == "org" && s.mem.host == HUMAN
    && (s.mem.k8 == "" || s.mem.k8 == "k8")
    && (s.mem.EntryOf(project) == UNKNOWN || s.mem.EntryOf(project) == UNKNOWN.(pending := HUMAN))
  }

  lemma GrantAgain(s: State, project: Id)
    requires BeforeGrant(s, project) && IsIdentifier(project)
    ensures var o := LosingRemote(project);
            var r := Reconcile(o, s, MARKED_POLICY, project, "k8");
            && r.verdict == Failed(Unavailable) && s.env.log <= r.state.env.log && BeforeGrant(r.state, project)
            && |r.state.env.log| > |s.env.log| && GrantOf(r.state.env.log[|r.state.env.log| - 1], project, HUMAN)
  {
    MarkedPolicyValid();
    var o := LosingRemote(project);
    var p := MARKED_POLICY;
    var d := Discover(o, s, p, project);
    assert d.Next? && d.items == [];
    var i := Issue(o, d.state, p, project, d.entry, false, false, Host, "k8");
    assert i.Stop? && i.verdict == Failed(Unavailable);
    assert Grant(o, d.state, p, project, d.entry, [], false, Host, "k8") == i;
  }

  lemma OneVisitGrants(s: State, project: Id)
    requires BeforeGrant(s, project) && IsIdentifier(project)
    ensures var o := LosingRemote(project);
            var s4 := s.(env := LoadPolicy(o, s.env).env);
            var c := Visit(o, s4, MARKED_POLICY, "k8", [Project(project, "")], 0, {}, FRESH);
            && c.Reported? && s.env.log <= c.state.env.log && BeforeGrant(c.state, project)
            && exists i :: |s.env.log| <= i < |c.state.env.log| && GrantOf(c.state.env.log[i], project, HUMAN)
  {
    MarkedPolicyValid();
    var o := LosingRemote(project);
    var p := MARKED_POLICY;
    var projects := [Project(project, "")];
    var s4 := s.(env := LoadPolicy(o, s.env).env);
    var s5 := s4.(env := s4.env.Note(Withdrawn(project)));
    GrantAgain(s5, project);
    var r := Reconcile(o, s5, p, project, "k8");
    var report := Combine(FRESH, project, r.verdict);
    assert Sweep(o, r.state, p, "k8", projects, 1, {}, report) == Reported(r.state, report, {});
    assert Visit(o, s4, p, "k8", projects, 0, {}, FRESH) == Reported(r.state, report, {});
  }

  /** A project that is still allowed is visited. */
  lemma SweepVisits(o: Oracle, s: State, p: Policy, k8: Id, projects: seq<Project>, i: nat, verified: set<Id>,
                    report: Report)
    requires i < |projects| && p.Allows(projects[i].id) && !o.contextDone(s.env.now)
    requires LoadPolicy(o, s.env).reply == Ok(p)
    ensures Sweep(o, s, p, k8, projects, i, verified, report)
         == Visit(o, s.(env := LoadPolicy(o, s.env).env), p, k8, projects, i, verified, report)
  {
  }

  lemma VisitGrantsAgain(s: State, project: Id)
    requires BeforeGrant(s, project) && IsIdentifier(project)
    ensures var o := LosingRemote(project);
            var c := Sweep(o, s, MARKED_POLICY, "k8", [Project(project, "")], 0, {}, FRESH);
            && c.Reported? && s.env.log <= c.state.env.log && BeforeGrant(c.state, project)
            && exists i :: |s.env.log| <= i < |c.state.env.log| && GrantOf(c.state.env.log[i], project, HUMAN)
  {
    MarkedPolicyValid();
    OneVisitGrants(s, project);
    SweepVisits(LosingRemote(project), s, MARKED_POLICY, "k8", [Project(project, "")], 0, {}, FRESH);
  }

  lemma MarkedIdentified(s: State, project: Id)
    requires BeforeGrant(s, project)
    ensures var l := Identify(LosingRemote(project), s, MARKED_POLICY, [Identity(HUMAN, ""), Identity("k8", "")]);
            l.Known? && l.k8 == "k8" && s.env.log <= l.state.env.log && BeforeGrant(l.state, project)
  {
    MarkedPolicyValid();
    var o := LosingRemote(project);
    var p := MARKED_POLICY;
    var identities := [Identity(HUMAN, ""), Identity("k8", "")];
    assert identities[0].id == p.host;
    assert |HUMAN| != |"k8"| && !Matches(identities[0], p, "k8");
    assert identities[1..] == [Identity("k8", "")];
    assert Matching([Identity("k8", "")], p, "k8") == [Identity("k8", "")] + Matching([], p, "k8");
    assert Matching(identities, p, "k8") == [Identity("k8", "")];
    assert Locate(o, s, p, identities) == Known(s, "k8");
  }

  lemma CycleGrantsAgain(s: State, project: Id)
    requires BeforeGrant(s, project) && IsIdentifier(project)
    ensures var o := LosingRemote(project);
            var c := Cycle(o, s, MARKED_POLICY);
            && c.Reported? && s.env.log <= c.state.env.log && BeforeGrant(c.state, project)
            && exists i :: |s.env.log| <= i < |c.state.env.log| && GrantOf(c.state.env.log[i], project, HUMAN)
  {
    MarkedPolicyValid();
    var o := LosingRemote(project);
    var p := MARKED_POLICY;
    var w := MarkedSurvey(s, project);
    var i :| |s.env.log| <= i < |w.state.env.log| && GrantOf(w.state.env.log[i], project, HUMAN);
    assert Cycle(o, s, p).state.env.log[i] == w.state.env.log[i];
  }

  lemma MarkedSurvey(s: State, project: Id) returns (w: CycleResult)
    requires BeforeGrant(s, project) && IsIdentifier(project)
    ensures w == Survey(LosingRemote(project), s, MARKED_POLICY)
    ensures w.Reported? && s.env.log <= w.state.env.log && BeforeGrant(w.state, project)
    ensures exists i :: |s.env.log| <= i < |w.state.env.log| && GrantOf(w.state.env.log[i], project, HUMAN)
  {
    MarkedPolicyValid();
    var o := LosingRemote(project);
    var s1 := s.(env := LoadPolicy(o, s.env).env);
    var s2 := s1.(env := ReadProjects(o, s1.env).env);
    var s3 := s2.(env := ReadIdentities(o, s2.env).env);
    w := MarkedProceeds(s3, project);
    assert ReadProjects(o, s1.env).reply == Ok([Project(project, "")]);
  }

  lemma MarkedProceeds(s: State, project: Id) returns (w: CycleResult)
    requires BeforeGrant(s, project) && IsIdentifier(project)
    ensures w == Proceed(LosingRemote(project), s, MARKED_POLICY, [Project(project, "")],
                         [Identity(HUMAN, ""), Identity("k8", "")])
    ensures w.Reported? && s.env.log <= w.state.env.log && BeforeGrant(w.state, project)
    ensures exists i :: |s.env.log| <= i < |w.state.env.log| && GrantOf(w.state.env.log[i], project, HUMAN)
  {
    var o := LosingRemote(project);
    MarkedIdentified(s, project);
    var k := Identify(o, s, MARKED_POLICY, [Identity(HUMAN, ""), Identity("k8", "")]);
    VisitGrantsAgain(k.state, project);
    w := Sweep(o, k.state, MARKED_POLICY, "k8", [Project(project, "")], 0, {}, FRESH);
  }

  /** A host identity whose id is the marker is granted the same membership twice. */
  lemma MarkerGrantedTwice(project: Id)
    requires IsIdentifier(project)
    ensures var o := LosingRemote(project);
            NoRepair(o) && GrantedTwice(Run(o, [Restart, DoCycle, DoCycle]).env.log, project, HUMAN)
  {
    MarkedPolicyValid();
    var o := LosingRemote(project);
    var one := [Restart];
    var two := [Restart, DoCycle];
    var three := [Restart, DoCycle, DoCycle];
    assert one[..0] == [] && two[..1] == one && three[..2] == two;
    var a := Run(o, one);
    assert a == Boot(o, START.env);
    assert a.process == Up(FreshLedger(MARKED_POLICY), MARKED_POLICY);
    var s := State(a.process.mem, a.env);
    CycleGrantsAgain(s, project);
    var c := Cycle(o, s, MARKED_POLICY);
    assert Run(o, two) == System(Up(c.state.mem, MARKED_POLICY), c.state.env);
    CycleGrantsAgain(c.state, project);
    var d := Cycle(o, c.state, MARKED_POLICY);
    assert Run(o, three).env == d.state.env;
    var i :| |s.env.log| <= i < |c.state.env.log| && GrantOf(c.state.env.log[i], project, HUMAN);
    var j :| |c.state.env.log| <= j < |d.state.env.log| && GrantOf(d.state.env.log[j], project, HUMAN);
    assert d.state.env.log[i] == c.state.env.log[i];
  }

  /** The run with these answers and steps never grants this membership twice. */
  ghost predicate NeverTwice(o: Oracle, steps: seq<Step>, project: Id, id: Id) {
    NoRepair(o) ==> !GrantedTwice(Run(o, steps).env.log, project, id)
  }

  /** The exact scope of the at-most-once guarantee: it holds of an identity if and only if its id is not
      the marker, although the identifier syntax admits that id. */
  lemma GrantedAtMostOnceIff(project: Id, id: Id)
    requires IsIdentifier(project) && IsIdentifier(id)
    ensures (forall o: Oracle, steps: seq<Step> :: NeverTwice(o, steps, project, id)) <==> id != HUMAN
  {
    if id == HUMAN {
      MarkerGrantedTwice(project);
      assert !NeverTwice(LosingRemote(project), [Restart, DoCycle, DoCycle], project, id);
    } else {
      forall o: Oracle, steps: seq<Step> ensures NeverTwice(o, steps, project, id) {
        if NoRepair(o) {
          GrantedAtMostOnce(o, steps, project, id);
        }
      }
    }
  }
}
