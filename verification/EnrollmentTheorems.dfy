/** Theorems about every run, under any policies: the K8 identity is created at most once, every mutation
    is journaled and authorized, and no project is served unless the last cycle verified it. */
module EnrollmentTheorems {
  import opened Replies
  import opened EnrollmentTypes
  import opened EnrollmentSpec
  import opened EnrollmentTrace
  import opened EnrollmentEvidence

  /** The policy the current process was started with. */
  function LastBoot(log: seq<Event>): Option<Policy> {
    if log == [] then None
    else if log[|log| - 1].Booted? then Some(log[|log| - 1].policy)
    else LastBoot(log[..|log| - 1])
  }

  /** A mutation directly follows the saved ledger that marks it and the policy that allows it. */
  predicate WriteAhead(log: seq<Event>, i: nat, initial: Policy)
    requires i < |log|
  {
    var e := log[i];
    e.Mutation() ==>
      && 2 <= i && log[i - 2].LedgerSaved? && log[i - 2].ok && log[i - 2].reached
      && log[i - 1].PolicyRead? && log[i - 1].policyReply.Ok?
      && var l := log[i - 2].ledger;
         var p := log[i - 1].policyReply.value;
         && p.Valid() && SameBinding(p, initial) && p.apply
         && match e
            case Created(_) => l.identityPending && p.createK8
            case Enrolled(q) => l.EntryOf(q).pending == HUMAN && p.Allows(q)
            case Granted(q, id, role, _, human) =>
              && l.EntryOf(q).pending == id && p.Allows(q)
              && ((id == p.host && role == "admin") || (id == l.k8 && role == "viewer" && !human))
            case _ => true
  }

  /** The cycle verified the project after withdrawing it, and nothing was published in between. */
  ghost predicate Verified(log: seq<Event>, n: nat, m: nat, project: Id, host: Id)
    requires m <= |log|
  {
    exists w, k8 :: n <= w < m && log[w] == Withdrawn(project) && Evidence(log, w, m, project, host, k8)
  }

  predicate Quiet(log: seq<Event>, n: nat, m: nat)
    requires m <= |log|
  {
    forall i | n <= i < m :: !log[i].Published? && !log[i].Booted?
  }

  /** What one cycle adds to the log before it publishes. */
  ghost predicate Segment(log: seq<Event>, log': seq<Event>, initial: Policy) {
    && log <= log' && Quiet(log', |log|, |log'|)
    && forall i | |log| <= i < |log'| :: WriteAhead(log', i, initial)
  }

  ghost predicate AllVerified(log: seq<Event>, n: nat, verified: set<Id>, host: Id) {
    forall q | q in verified :: Verified(log, n, |log|, q, host)
  }

  lemma SegmentsCompose(a: seq<Event>, b: seq<Event>, c: seq<Event>, initial: Policy)
    requires Segment(a, b, initial) && Segment(b, c, initial)
    ensures Segment(a, c, initial)
  {
    forall i | |a| <= i < |c| ensures WriteAhead(c, i, initial) && !c[i].Published? && !c[i].Booted? {
      if i < |b| {
        assert WriteAhead(b, i, initial);
        assert forall j | 0 <= j <= i :: c[j] == b[j];
      }
    }
  }

  lemma VerifiedGrows(log: seq<Event>, log': seq<Event>, n: nat, m: nat, m': nat, project: Id, host: Id)
    requires log <= log' && m <= |log| && m <= m' <= |log'| && Verified(log, n, m, project, host)
    ensures Verified(log', n, m', project, host)
  {
    var w, k8 :| n <= w < m && log[w] == Withdrawn(project) && Evidence(log, w, m, project, host, k8);
    EvidenceGrows(log, log', w, m, m', project, host, k8);
    assert log'[w] == log[w];
  }

  lemma EvidenceGrows(log: seq<Event>, log': seq<Event>, w: nat, m: nat, m': nat, project: Id, host: Id, k8: Id)
    requires log <= log' && m <= |log| && m <= m' <= |log'| && Evidence(log, w, m, project, host, k8)
    ensures Evidence(log', w, m', project, host, k8)
  {
    var v :| w <= v < m && log[v] == Vetted(project, k8, true)
      && Confirmed(log, w, v, project, host, "admin", false)
      && Confirmed(log, w, v, project, k8, "viewer", true);
    ConfirmedGrows(log, log', w, v, v, project, host, "admin", false);
    ConfirmedGrows(log, log', w, v, v, project, k8, "viewer", true);
    assert log'[v] == log[v];
  }

  lemma AllVerifiedGrows(log: seq<Event>, log': seq<Event>, n: nat, verified: set<Id>, host: Id)
    requires log <= log' && AllVerified(log, n, verified, host)
    ensures AllVerified(log', n, verified, host)
  {
    forall q | q in verified ensures Verified(log', n, |log'|, q, host) {
      VerifiedGrows(log, log', n, |log|, |log'|, q, host);
    }
  }

  lemma LocalSegment(s: State, t: State, p: Policy, initial: Policy, project: Id, k8: Id)
    requires Confined(s, t, p, project, k8) && SameBinding(p, initial) && project != ""
    ensures Segment(s.env.log, t.env.log, initial)
  {
    forall i | |s.env.log| <= i < |t.env.log|
      ensures WriteAhead(t.env.log, i, initial) && !t.env.log[i].Published? && !t.env.log[i].Booted?
    {
      assert EventOk(t.env.log, i, p, project, k8);
    }
  }

  // ---------------------------------------------------------------- one cycle

  lemma IdentifySegment(o: Oracle, s: State, p: Policy, initial: Policy, identities: seq<Identity>)
    requires SameBinding(p, initial)
    ensures var l := Identify(o, s, p, identities);
            Segment(s.env.log, l.state.env.log, initial) && (l.Known? ==> l.state.mem.k8 == l.k8)
  {
    var l := Locate(o, s, p, identities);
    assert Segment(s.env.log, l.state.env.log, initial) by {
      if l.state != s {
        CreateSegment(o, s, p, initial);
      }
    }
    var t := Identify(o, s, p, identities);
    assert Segment(l.state.env.log, t.state.env.log, initial);
    SegmentsCompose(s.env.log, l.state.env.log, t.state.env.log, initial);
  }

  lemma CreateSegment(o: Oracle, s: State, p: Policy, initial: Policy)
    requires SameBinding(p, initial)
    ensures Segment(s.env.log, CreateK8(o, s, p).state.env.log, initial)
  {
    var mem := s.mem.(identityPending := true);
    var a := Announce(o, s, mem, p, "");
    if a.reply.Ok? {
      var log := a.state.env.Note(Created(p.k8Name)).log;
      var n := |log| - 1;
      assert log[n - 1] == PolicyRead(LoadPolicy(o, Save(o, mem, s.env).env).reply);
      assert log[n - 2] == LedgerSaved(mem, true, true);
      assert WriteAhead(log, n, initial);
    }
  }

  ghost predicate CycleOk(c: CycleResult, log: seq<Event>, initial: Policy) {
    && Segment(log, c.state.env.log, initial)
    && (c.Reported? ==> AllVerified(c.state.env.log, |log|, c.verified, initial.host))
  }

  lemma SweepOk(o: Oracle, s: State, p: Policy, initial: Policy, k8: Id, projects: seq<Project>, i: nat,
                verified: set<Id>, report: Report, log: seq<Event>)
    requires i <= |projects| && ValidProjects(projects) && SameBinding(p, initial) && s.mem.k8 == k8
    requires Segment(log, s.env.log, initial) && AllVerified(s.env.log, |log|, verified, initial.host)
    ensures CycleOk(Sweep(o, s, p, k8, projects, i, verified, report), log, initial)
    decreases |projects| - i
  {
    if i == |projects| || (o.contextDone(s.env.now) && p.Allows(projects[i].id)) {
    } else if !p.Allows(projects[i].id) {
      SweepOk(o, s, p, initial, k8, projects, i + 1, verified, report, log);
    } else {
      var l := LoadPolicy(o, s.env);
      var s1 := s.(env := l.env);
      assert Segment(s.env.log, s1.env.log, initial);
      SegmentsCompose(log, s.env.log, s1.env.log, initial);
      AllVerifiedGrows(s.env.log, s1.env.log, |log|, verified, initial.host);
      if l.reply.Ok? && SameBinding(l.reply.value, p) {
        if l.reply.value.Allows(projects[i].id) {
          VisitOk(o, s1, l.reply.value, initial, k8, projects, i, verified, report, log);
        } else {
          SweepOk(o, s1, l.reply.value, initial, k8, projects, i + 1, verified, report, log);
        }
      }
    }
  }

  /** The reconciliation of one project extends the cycle's segment, with evidence if it ends ready. */
  lemma VisitStep(o: Oracle, s: State, p: Policy, initial: Policy, k8: Id, project: Id, log: seq<Event>)
    requires SameBinding(p, initial) && s.mem.k8 == k8 && project != "" && Segment(log, s.env.log, initial)
    ensures var r := Reconcile(o, s.(env := s.env.Note(Withdrawn(project))), p, project, k8);
            && s.env.log <= r.state.env.log && Segment(log, r.state.env.log, initial) && r.state.mem.k8 == k8
            && (r.verdict.Done? && r.verdict.status == Ready ==>
                  Verified(r.state.env.log, |log|, |r.state.env.log|, project, initial.host))
  {
    var s1 := s.(env := s.env.Note(Withdrawn(project)));
    var r := Reconcile(o, s1, p, project, k8);
    assert Segment(s.env.log, s1.env.log, initial);
    SegmentsCompose(log, s.env.log, s1.env.log, initial);
    ReconcileConfined(o, s1, p, project, k8);
    LocalSegment(s1, r.state, p, initial, project, k8);
    SegmentsCompose(log, s1.env.log, r.state.env.log, initial);
    ReadyHasEvidence(o, s1, p, project, k8);
    if r.verdict.Done? && r.verdict.status == Ready {
      EvidenceVerifies(r.state.env.log, |log|, |s.env.log|, project, initial.host, k8);
    }
  }

  /** Evidence gathered after the withdrawal at w. */
  lemma EvidenceVerifies(log: seq<Event>, n: nat, w: nat, project: Id, host: Id, k8: Id)
    requires n <= w < |log| && log[w] == Withdrawn(project) && Evidence(log, w + 1, |log|, project, host, k8)
    ensures Verified(log, n, |log|, project, host)
  {
    var v :| w + 1 <= v < |log| && log[v] == Vetted(project, k8, true)
      && Confirmed(log, w + 1, v, project, host, "admin", false)
      && Confirmed(log, w + 1, v, project, k8, "viewer", true);
    ConfirmedEarlier(log, w, v, project, host, "admin", false);
    ConfirmedEarlier(log, w, v, project, k8, "viewer", true);
    assert Evidence(log, w, |log|, project, host, k8);
  }

  lemma ConfirmedEarlier(log: seq<Event>, n: nat, m: nat, project: Id, id: Id, role: string, machine: bool)
    requires m <= |log| && Confirmed(log, n + 1, m, project, id, role, machine)
    ensures Confirmed(log, n, m, project, id, role, machine)
  {
  }

  lemma OneMoreVerified(log: seq<Event>, n: nat, verified: set<Id>, id: Id, host: Id)
    requires AllVerified(log, n, verified, host) && Verified(log, n, |log|, id, host)
    ensures AllVerified(log, n, verified + {id}, host)
  {
  }

  lemma VisitOk(o: Oracle, s: State, p: Policy, initial: Policy, k8: Id, projects: seq<Project>, i: nat,
                verified: set<Id>, report: Report, log: seq<Event>)
    requires i < |projects| && ValidProjects(projects) && SameBinding(p, initial) && s.mem.k8 == k8
    requires Segment(log, s.env.log, initial) && AllVerified(s.env.log, |log|, verified, initial.host)
    ensures CycleOk(Visit(o, s, p, k8, projects, i, verified, report), log, initial)
    decreases |projects| - i, 0
  {
    var id := projects[i].id;
    VisitStep(o, s, p, initial, k8, id, log);
    var r := Reconcile(o, s.(env := s.env.Note(Withdrawn(id))), p, id, k8);
    AllVerifiedGrows(s.env.log, r.state.env.log, |log|, verified, initial.host);
    if !r.verdict.Died? {
      var ready := r.verdict.Done? && r.verdict.status == Ready;
      if ready {
        OneMoreVerified(r.state.env.log, |log|, verified, id, initial.host);
      }
      SweepOk(o, r.state, p, initial, k8, projects, i + 1, if ready then verified + {id} else verified,
              Combine(report, id, r.verdict), log);
    }
  }

  lemma SurveyOk(o: Oracle, s: State, initial: Policy)
    ensures CycleOk(Survey(o, s, initial), s.env.log, initial)
  {
    var log := s.env.log;
    var l := LoadPolicy(o, s.env);
    var s1 := s.(env := l.env);
    assert Segment(log, s1.env.log, initial);
    if l.reply.Ok? && SameBinding(l.reply.value, initial) {
      var p := l.reply.value;
      var ps := ReadProjects(o, s1.env);
      var s2 := s1.(env := ps.env);
      assert Segment(log, s2.env.log, initial);
      var ids := ReadIdentities(o, s2.env);
      var s3 := s2.(env := ids.env);
      assert Segment(log, s3.env.log, initial);
      if ps.reply.Ok? && ids.reply.Ok? {
        IdentifySegment(o, s3, p, initial, ids.reply.value);
        var k := Identify(o, s3, p, ids.reply.value);
        SegmentsCompose(log, s3.env.log, k.state.env.log, initial);
        if k.Known? {
          SweepOk(o, k.state, p, initial, k.k8, ps.reply.value, 0, {}, FRESH, log);
        }
      }
    }
  }

  // ---------------------------------------------------------------- runs

  /** What every log keeps, relative to the policy its process was started with. */
  ghost predicate LogOk(log: seq<Event>) {
    forall i | 0 <= i < |log| :: EntryFine(log, i)
  }

  ghost predicate EntryFine(log: seq<Event>, i: nat)
    requires i < |log|
  {
    && (log[i].Mutation() ==> LastBoot(log[..i]).Some? && WriteAhead(log, i, LastBoot(log[..i]).value))
    && (log[i].Published? ==> LastBoot(log[..i]).Some? && PublishedFine(log, i, LastBoot(log[..i]).value.host))
  }

  /** Every published project was withdrawn and verified since the last publication or start. */
  ghost predicate PublishedFine(log: seq<Event>, i: nat, host: Id)
    requires i < |log| && log[i].Published?
  {
    exists n: nat :: n <= i && Quiet(log, n, i) && forall q | q in log[i].ids :: Verified(log, n, i, q, host)
  }

  lemma {:induction false} LastBootQuiet(log: seq<Event>, log': seq<Event>)
    requires log <= log' && forall i | |log| <= i < |log'| :: !log'[i].Booted?
    ensures LastBoot(log') == LastBoot(log)
    decreases |log'|
  {
    if |log'| > |log| {
      LastBootQuiet(log, log'[..|log'| - 1]);
    } else {
      assert log' == log;
    }
  }

  lemma EntryFineGrows(log: seq<Event>, log': seq<Event>, i: nat)
    requires i < |log| && log <= log' && EntryFine(log, i)
    ensures EntryFine(log', i)
  {
    assert log'[..i] == log[..i];
    assert forall j | 0 <= j <= i :: log'[j] == log[j];
    if log[i].Published? {
      PublishedGrows(log, log', i, LastBoot(log[..i]).value.host);
    }
  }

  lemma PublishedGrows(log: seq<Event>, log': seq<Event>, i: nat, host: Id)
    requires i < |log| && log <= log' && log[i].Published? && PublishedFine(log, i, host)
    ensures PublishedFine(log', i, host)
  {
    assert forall j | 0 <= j <= i :: log'[j] == log[j];
    var n: nat :| n <= i && Quiet(log, n, i) && forall q | q in log[i].ids :: Verified(log, n, i, q, host);
    forall q | q in log'[i].ids ensures Verified(log', n, i, q, host) {
      VerifiedGrows(log, log', n, i, i, q, host);
    }
    assert Quiet(log', n, i);
  }

  lemma SegmentKeepsLog(log: seq<Event>, log': seq<Event>, initial: Policy)
    requires LogOk(log) && LastBoot(log) == Some(initial) && Segment(log, log', initial)
    ensures LogOk(log') && LastBoot(log') == Some(initial)
  {
    LastBootQuiet(log, log');
    forall i | 0 <= i < |log'| ensures EntryFine(log', i) {
      if i < |log| {
        EntryFineGrows(log, log', i);
      } else {
        LastBootQuiet(log, log'[..i]);
      }
    }
  }

  ghost predicate Traced(sys: System) {
    && LogOk(sys.env.log)
    && (sys.process.Up? ==> LastBoot(sys.env.log) == Some(sys.process.initial))
  }

  lemma NoteFine(log: seq<Event>, e: Event)
    requires LogOk(log) && !e.Mutation() && !e.Published?
    ensures LogOk(log + [e])
  {
    forall i | 0 <= i < |log + [e]| ensures EntryFine(log + [e], i) {
      if i < |log| {
        EntryFineGrows(log, log + [e], i);
      }
    }
  }

  lemma BootTraced(o: Oracle, env: Env)
    requires LogOk(env.log)
    ensures Traced(Boot(o, env))
  {
    var l := LoadPolicy(o, env);
    NoteFine(env.log, PolicyRead(l.reply));
    if Boot(o, env).process.Up? {
      NoteFine(l.env.log, Booted(l.reply.value));
    }
  }

  lemma CycleTraced(o: Oracle, s: State, initial: Policy)
    requires LogOk(s.env.log) && LastBoot(s.env.log) == Some(initial)
    ensures var c := Cycle(o, s, initial);
            LogOk(c.state.env.log) && LastBoot(c.state.env.log) == Some(initial)
  {
    SurveyOk(o, s, initial);
    var c := Survey(o, s, initial);
    SegmentKeepsLog(s.env.log, c.state.env.log, initial);
    if c.Reported? {
      PublicationFine(c.state.env.log, |s.env.log|, c.verified, initial);
    }
  }

  lemma PublicationFine(log: seq<Event>, n: nat, verified: set<Id>, initial: Policy)
    requires LogOk(log) && LastBoot(log) == Some(initial) && n <= |log| && Quiet(log, n, |log|)
    requires AllVerified(log, n, verified, initial.host)
    ensures var log' := log + [Published(verified)]; LogOk(log') && LastBoot(log') == Some(initial)
  {
    var log' := log + [Published(verified)];
    LastBootQuiet(log, log');
    forall i | 0 <= i < |log'| ensures EntryFine(log', i) {
      if i < |log| {
        EntryFineGrows(log, log', i);
      } else {
        assert log'[..i] == log;
        AllVerifiedGrowsTo(log, log', n, verified, initial.host);
        assert Quiet(log', n, i);
        assert PublishedFine(log', i, initial.host);
      }
    }
  }

  lemma AllVerifiedGrowsTo(log: seq<Event>, log': seq<Event>, n: nat, verified: set<Id>, host: Id)
    requires log <= log' && AllVerified(log, n, verified, host)
    ensures forall q | q in verified :: Verified(log', n, |log|, q, host)
  {
    forall q | q in verified ensures Verified(log', n, |log|, q, host) {
      VerifiedGrows(log, log', n, |log|, |log|, q, host);
    }
  }

  lemma {:induction false} RunTraced(o: Oracle, steps: seq<Step>)
    ensures Traced(Run(o, steps))
    decreases |steps|
  {
    if steps != [] {
      RunTraced(o, steps[..|steps| - 1]);
      var sys := Run(o, steps[..|steps| - 1]);
      if steps[|steps| - 1].Restart? {
        BootTraced(o, sys.env);
      } else if sys.process.Up? {
        CycleTraced(o, State(sys.process.mem, sys.env), sys.process.initial);
      }
    }
  }

  /** Over every run, each mutation was issued right after the ledger marking it reached the disk and the
      policy was re-read: same binding as at the start, Apply on, the project allowed. */
  lemma EveryMutationIsWriteAhead(o: Oracle, steps: seq<Step>, i: nat)
    requires i < |Run(o, steps).env.log| && Run(o, steps).env.log[i].Mutation()
    ensures var log := Run(o, steps).env.log;
            LastBoot(log[..i]).Some? && WriteAhead(log, i, LastBoot(log[..i]).value)
  {
    RunTraced(o, steps);
    assert EntryFine(Run(o, steps).env.log, i);
  }

  // ---------------------------------------------------------------- access

  /** The projects eligible for requests after a log: the last publication, less what was withdrawn since. */
  function Eligible(log: seq<Event>): set<Id> {
    if log == [] then {}
    else
      var e := log[|log| - 1];
      if e.Published? then e.ids
      else if e.Booted? then {}
      else if e.Withdrawn? then Eligible(log[..|log| - 1]) - {e.project}
      else Eligible(log[..|log| - 1])
  }

  /** The answer to one request: the policy is read again for it. */
  function Answer(latest: Reply<Policy, Error>, binding: Policy, eligible: set<Id>): set<Id> {
    if !latest.Ok? || !SameBinding(latest.value, binding) then {}
    else set q | q in eligible && latest.value.Allows(q)
  }

  /** Publication j holds the project, and up to k nothing else was published and nothing withdrew it. */
  predicate LastPublished(log: seq<Event>, j: nat, k: nat, q: Id)
    requires k <= |log|
  {
    && j < k && log[j].Published? && q in log[j].ids
    && forall i | j < i < k :: !log[i].Published? && !log[i].Booted? && log[i] != Withdrawn(q)
  }

  /** A project is eligible exactly if the last publication holds it and nothing withdrew it since. */
  lemma {:induction false} EligibleIff(log: seq<Event>, k: nat, q: Id)
    requires k <= |log|
    ensures q in Eligible(log[..k]) <==> exists j: nat :: LastPublished(log, j, k, q)
  {
    if k > 0 {
      EligibleIff(log, k - 1, q);
      assert log[..k][..k - 1] == log[..k - 1];
      var e := log[k - 1];
      if q in Eligible(log[..k]) {
        if e.Published? {
          assert LastPublished(log, k - 1, k, q);
        } else {
          var j: nat :| LastPublished(log, j, k - 1, q);
          assert LastPublished(log, j, k, q);
        }
      } else {
        forall j: nat ensures !LastPublished(log, j, k, q) {
          if j < k - 1 {
            assert !LastPublished(log, j, k - 1, q) || e.Published? || e.Booted? || e == Withdrawn(q);
          }
        }
      }
    }
  }

  /** The project was verified by the cycle that published it at j, after that cycle withdrew it. */
  ghost predicate VerifiedAt(log: seq<Event>, n: nat, j: nat, q: Id)
    requires j <= |log|
  {
    && n <= j && Quiet(log, n, j)
    && LastBoot(log[..j]).Some? && Verified(log, n, j, q, LastBoot(log[..j]).value.host)
  }

  /** Access safety: take any run, cut its log anywhere, and let a request come in there. Every project in
      the answer is allowed by the policy read for that request, was verified by the last completed cycle
      of this process after being withdrawn in it, and was not withdrawn since. */
  lemma AccessIsVerified(o: Oracle, steps: seq<Step>, k: nat, latest: Reply<Policy, Error>, binding: Policy, q: Id)
    requires k <= |Run(o, steps).env.log|
    requires q in Answer(latest, binding, Eligible(Run(o, steps).env.log[..k]))
    ensures latest.Ok? && SameBinding(latest.value, binding) && latest.value.Allows(q)
    ensures var log := Run(o, steps).env.log;
            exists n: nat, j: nat :: LastPublished(log, j, k, q) && VerifiedAt(log, n, j, q)
  {
    RunTraced(o, steps);
    PublishedIsVerified(Run(o, steps).env.log, k, q);
  }

  lemma PublishedIsVerified(log: seq<Event>, k: nat, q: Id)
    requires LogOk(log) && k <= |log| && q in Eligible(log[..k])
    ensures exists n: nat, j: nat :: LastPublished(log, j, k, q) && VerifiedAt(log, n, j, q)
  {
    EligibleIff(log, k, q);
    var j: nat :| LastPublished(log, j, k, q);
    assert EntryFine(log, j);
    var host := LastBoot(log[..j]).value.host;
    var n: nat :| n <= j && Quiet(log, n, j) && forall x | x in log[j].ids :: Verified(log, n, j, x, host);
    assert VerifiedAt(log, n, j, q);
  }
}
