/** What the controller gets done when the answers let it: a healthy project ends ready, a fresh one is set up, and
    every project the policy allows is visited. */
module EnrollmentProgress {
  import opened Replies
  import opened EnrollmentTypes
  import opened EnrollmentSpec
  import opened EnrollmentTrace
  import opened EnrollmentAnswers

  // ---------------------------------------------------------------- one project

  /** The policy read by the n-th call lets a mutation of the project go ahead. */
  predicate Permits(o: Oracle, n: nat, p: Policy, project: Id) {
    && project != "" && o.policy(n).Ok? && o.policy(n).value.Valid()
    && var latest := o.policy(n).value;
       && SameBinding(latest, p) && latest.apply && (p.repair ==> latest.repair) && latest.Allows(project)
  }

  /** Both memberships are there and exact. */
  predicate Complete(items: seq<Membership>, host: Id, k8: Id) {
    HasExact(items, host, "admin") && HasExact(items, k8, "viewer")
  }

  /** The last check and save. */
  lemma FinalizeGoes(o: Oracle, s: State, project: Id, k8: Id, entry: Entry)
    requires o.vet(s.env.now).Ok? && o.save(s.env.now + 1).Saved?
    ensures Finalize(o, s, project, k8, entry).verdict == Done(Ready, "")
  {
  }

  lemma ConfirmGoes(o: Oracle, s: State, p: Policy, project: Id, entry: Entry, items: seq<Membership>,
                    t: Target, k8: Id)
    requires HasExact(items, t.IdOf(p.host, k8), t.Role()) && o.save(s.env.now).Saved?
    ensures var g := Grant(o, s, p, project, entry, items, false, t, k8);
            g.Next? && g.items == items && !g.human && g.state.env.now == s.env.now + 1
  {
  }

  /** A project whose memberships are both exact ends ready if the saves and the check succeed. */
  lemma HealthyIsReady(o: Oracle, s: State, p: Policy, project: Id, k8: Id)
    requires !s.mem.EntryOf(project).revoked || p.repair
    requires var n := s.env.now;
             && o.members(n).Ok? && Complete(o.members(n).value, p.host, k8)
             && o.save(n + 1).Saved? && o.save(n + 2).Saved? && o.vet(n + 3).Ok? && o.save(n + 4).Saved?
    ensures Reconcile(o, s, p, project, k8).verdict == Done(Ready, "")
  {
    var items := o.members(s.env.now).value;
    FirstReadGoes(o, s, p, project);
    var d := Discover(o, s, p, project);
    ConfirmGoes(o, d.state, p, project, d.entry, items, Host, k8);
    var h := Grant(o, d.state, p, project, d.entry, items, false, Host, k8);
    ConfirmGoes(o, h.state, p, project, h.entry, items, Reader, k8);
    var r := Grant(o, h.state, p, project, h.entry, items, false, Reader, k8);
    FinalizeGoes(o, r.state, project, k8, r.entry);
  }

  /** The pending mark does not stop this write. */
  predicate Free(entry: Entry, p: Policy) {
    entry.pending == "" || entry.pending == HUMAN || p.repair
  }

  /** The answers let a write of the membership go ahead as far as its request. */
  predicate Requested(log: seq<Event>, n: nat, s: State, project: Id, entry: Entry, id: Id, role: string,
                      existing: bool, human: bool) {
    && s.env.log <= log && n == |s.env.log| && n + 2 < |log|
    && log[n] == LedgerSaved(s.mem.With(project, entry.(pending := id)), true, true)
    && log[n + 2] == Granted(project, id, role, existing, human)
  }

  lemma IssueRequests(o: Oracle, s: State, p: Policy, project: Id, entry: Entry, existing: bool,
                      human: bool, t: Target, k8: Id)
    requires o.save(s.env.now).Saved? && Permits(o, s.env.now + 1, p, project)
    ensures Requested(Issue(o, s, p, project, entry, existing, human, t, k8).state.env.log, |s.env.log|, s, project,
                      entry, t.IdOf(p.host, k8), t.Role(), existing, human)
  {
  }

  /** A missing membership is asked for: the mark is saved, the policy read, the role requested. Without repair the
      identity must neither have been seen nor hold another role. */
  lemma MissingIsGranted(o: Oracle, s: State, p: Policy, project: Id, entry: Entry, items: seq<Membership>,
                         human: bool, t: Target, k8: Id)
    requires var id := t.IdOf(p.host, k8);
             && !HasExact(items, id, t.Role())
             && (p.repair || (!t.Seen(entry) && Find(items, id).None?))
    requires Free(entry, p) && p.apply && o.save(s.env.now).Saved? && Permits(o, s.env.now + 1, p, project)
    ensures Requested(Grant(o, s, p, project, entry, items, human, t, k8).state.env.log, |s.env.log|, s, project, entry,
                      t.IdOf(p.host, k8), t.Role(), Find(items, t.IdOf(p.host, k8)).Some?, human)
  {
    var existing := Find(items, t.IdOf(p.host, k8)).Some?;
    IssueRequests(o, s, p, project, entry, existing, human, t, k8);
    var i := Issue(o, s, p, project, entry, existing, human, t, k8);
    if i.Next? {
      ReadBackUnvetted(o, i.state, p, project, i.entry, human, t, k8);
    }
    assert Grant(o, s, p, project, entry, items, human, t, k8)
        == Write(o, s, p, project, entry, existing, human, t, k8);
  }

  /** A granted membership that is read back exact is recorded; the host's is followed by another read. */
  lemma GrantedIsRecorded(o: Oracle, s: State, p: Policy, project: Id, entry: Entry, items: seq<Membership>,
                          t: Target, k8: Id)
    requires !HasExact(items, t.IdOf(p.host, k8), t.Role())
    requires p.repair || (!t.Seen(entry) && Find(items, t.IdOf(p.host, k8)).None?)
    requires Free(entry, p) && p.apply && o.save(s.env.now).Saved? && Permits(o, s.env.now + 1, p, project)
    requires var n := s.env.now;
             && o.grant(n + 2).Ok? && o.members(n + 3).Ok? && o.save(n + 4).Saved?
             && HasExact(o.members(n + 3).value, t.IdOf(p.host, k8), t.Role())
             && (t.Host? ==> o.members(n + 5).Ok?)
    ensures var n := s.env.now;
            var g := Grant(o, s, p, project, entry, items, false, t, k8);
            && g.Next? && !g.human && g.entry == t.MarkSeen(entry).(pending := "")
            && g.state.env.now == (if t.Host? then n + 6 else n + 5)
            && g.items == o.members(if t.Host? then n + 5 else n + 3).value
  {
    var i := Issue(o, s, p, project, entry, Find(items, t.IdOf(p.host, k8)).Some?, false, t, k8);
    assert i.Next? && i.state.env.now == s.env.now + 3;
    var b := ReadBack(o, i.state, p, project, i.entry, false, t, k8);
    assert b.Next?;
  }

  lemma FirstReadGoes(o: Oracle, s: State, p: Policy, project: Id)
    requires (!s.mem.EntryOf(project).revoked || p.repair) && o.members(s.env.now).Ok?
    ensures var d := Discover(o, s, p, project);
            && d.Next? && !d.human && d.state.env.now == s.env.now + 1 && d.state.mem == s.mem
            && d.items == o.members(s.env.now).value && d.entry == s.mem.EntryOf(project)
  {
  }

  /** A project nothing is known of, on which neither identity has a membership, ends ready in one reconciliation
      if the remote does as it is asked. */
  lemma FreshIsReady(o: Oracle, s: State, p: Policy, project: Id, k8: Id)
    requires s.mem.EntryOf(project) == UNKNOWN && p.apply
    requires var n := s.env.now;
             && o.members(n).Ok? && Find(o.members(n).value, p.host).None?
             && o.save(n + 1).Saved? && Permits(o, n + 2, p, project) && o.grant(n + 3).Ok?
             && o.members(n + 4).Ok? && HasExact(o.members(n + 4).value, p.host, "admin") && o.save(n + 5).Saved?
    requires var n := s.env.now;
             && o.members(n + 6).Ok? && Find(o.members(n + 6).value, k8).None?
             && o.save(n + 7).Saved? && Permits(o, n + 8, p, project) && o.grant(n + 9).Ok?
             && o.members(n + 10).Ok? && HasExact(o.members(n + 10).value, k8, "viewer") && o.save(n + 11).Saved?
             && o.vet(n + 12).Ok? && o.save(n + 13).Saved?
    ensures Reconcile(o, s, p, project, k8).verdict == Done(Ready, "")
  {
    FirstReadGoes(o, s, p, project);
    var d := Discover(o, s, p, project);
    GrantedIsRecorded(o, d.state, p, project, d.entry, d.items, Host, k8);
    var h := Grant(o, d.state, p, project, d.entry, d.items, false, Host, k8);
    GrantedIsRecorded(o, h.state, p, project, h.entry, h.items, Reader, k8);
    var r := Grant(o, h.state, p, project, h.entry, h.items, false, Reader, k8);
    FinalizeGoes(o, r.state, project, k8, r.entry);
  }

  /** A project the machine and the human may not read is enrolled: the mark is saved and the policy read first. */
  lemma ForbiddenIsEnrolled(o: Oracle, s: State, p: Policy, project: Id, k8: Id)
    requires s.mem.EntryOf(project) == UNKNOWN && p.apply
    requires var n := s.env.now;
             && o.members(n).Err? && Forbidden(o.members(n).error)
             && o.members(n + 1).Err? && Forbidden(o.members(n + 1).error)
             && o.save(n + 2).Saved? && Permits(o, n + 3, p, project)
    ensures var log, n := Discover(o, s, p, project).state.env.log, |s.env.log|;
            && s.env.log <= log && n + 4 < |log| && log[n + 4] == Enrolled(project)
            && log[n + 2] == LedgerSaved(s.mem.With(project, UNKNOWN.(pending := HUMAN)), true, true)
  {
    var s1 := s.(env := ReadMembers(o, s.env, project, false).env);
    var s2 := s1.(env := ReadMembers(o, s1.env, project, true).env);
    assert Discover(o, s, p, project) == Enroll(o, s2, p, project, UNKNOWN);
  }

  /** A missing K8 identity is created once the intention is on disk and the policy allows it. */
  lemma MissingIsCreated(o: Oracle, s: State, p: Policy, identities: seq<Identity>)
    requires exists i :: 0 <= i < |identities| && identities[i].id == p.host
    requires Matching(identities, p, Wanted(p, s.mem)) == []
    requires p.k8 == "" && s.mem.k8 == "" && !s.mem.identityPending && p.createK8 && p.apply
    requires o.save(s.env.now).Saved? && o.policy(s.env.now + 1).Ok? && o.policy(s.env.now + 1).value.Valid()
    requires var latest := o.policy(s.env.now + 1).value;
             SameBinding(latest, p) && latest.apply && (p.repair ==> latest.repair) && latest.createK8
    ensures var log, n := Locate(o, s, p, identities).state.env.log, |s.env.log|;
            && s.env.log <= log && |log| == n + 3 && log[n + 2] == Created(p.k8Name)
            && log[n] == LedgerSaved(s.mem.(identityPending := true), true, true)
  {
  }

  // ---------------------------------------------------------------- every allowed project is visited

  function AllowedIds(projects: seq<Project>, p: Policy): seq<Id> {
    if projects == [] then []
    else (if p.Allows(projects[0].id) then [projects[0].id] else []) + AllowedIds(projects[1..], p)
  }

  /** The policy stays the same and no cycle is cut short. */
  ghost predicate Steady(o: Oracle, p: Policy) {
    p.Valid() && forall n: nat :: o.policy(n) == Ok(p) && !o.contextDone(n)
  }

  /** The outcome a visit adds. */
  function Added(o: Oracle, s: State, p: Policy, project: Id, k8: Id): Result {
    var s1 := s.(env := LoadPolicy(o, s.env).env);
    Reconcile(o, s1.(env := s1.env.Note(Withdrawn(project))), p, project, k8)
  }

  lemma SweepVisits(o: Oracle, s: State, p: Policy, k8: Id, projects: seq<Project>, i: nat,
                    verified: set<Id>, report: Report)
    requires i < |projects| && Steady(o, p) && p.Allows(projects[i].id)
    ensures var r, id := Added(o, s, p, projects[i].id, k8), projects[i].id;
            var c := Sweep(o, s, p, k8, projects, i, verified, report);
            if r.verdict.Died? then c.Perished?
            else
              var report' := Combine(report, id, r.verdict);
              if r.verdict.Failed? && Classify(r.verdict.error) == RateLimited
              then c == Reported(r.state, report', verified)
              else
                c == Sweep(o, r.state, p, k8, projects, i + 1,
                           if r.verdict.Done? && r.verdict.status == Ready then verified + {id} else verified, report')
  {
  }

  lemma CombineNames(report: Report, project: Id, v: Verdict)
    requires !v.Died?
    ensures var r := Combine(report, project, v);
            && Named(r.results) == Named(report.results) + [project] && r.results != []
            && r.results[|r.results| - 1] == v.OutcomeFor(project)
  {
    NamedOneMore(report.results, v.OutcomeFor(project));
  }

  ghost predicate AllOrRateLimited(names: seq<Id>, all: seq<Id>, results: seq<Outcome>) {
    names == all || (results != [] && names <= all && results[|results| - 1].status == RateLimited)
  }

  /** While the policy stays the same and the cycle is not cut short, the report has an outcome for every project the
      policy allows, in the order of the list, unless the remote asked to slow down at the last one it has. */
  lemma AllowedAreVisited(o: Oracle, s: State, p: Policy, k8: Id, projects: seq<Project>, i: nat,
                          verified: set<Id>, report: Report)
    requires i <= |projects| && Steady(o, p)
    ensures var c := Sweep(o, s, p, k8, projects, i, verified, report);
            c.Reported? ==>
              AllOrRateLimited(Named(c.report.results), Named(report.results) + AllowedIds(projects[i..], p),
                               c.report.results)
    decreases |projects| - i
  {
    var before := Named(report.results);
    if i == |projects| {
      assert before + [] == before;
    } else {
      var rest := AllowedIds(projects[i + 1..], p);
      assert projects[i..][1..] == projects[i + 1..];
      if !p.Allows(projects[i].id) {
        AllowedAreVisited(o, s, p, k8, projects, i + 1, verified, report);
        assert [] + rest == rest;
      } else {
        var id := projects[i].id;
        SweepVisits(o, s, p, k8, projects, i, verified, report);
        var r := Added(o, s, p, id, k8);
        if !r.verdict.Died? {
          CombineNames(report, id, r.verdict);
          var report' := Combine(report, id, r.verdict);
          var ready := r.verdict.Done? && r.verdict.status == Ready;
          assert before + ([id] + rest) == before + [id] + rest;
          AllowedAreVisited(o, r.state, p, k8, projects, i + 1, if ready then verified + {id} else verified, report');
        }
      }
    }
  }

  // ---------------------------------------------------------------- a healthy remote

  predicate HostIsThere(identities: seq<Identity>, host: Id) {
    exists i :: 0 <= i < |identities| && identities[i].id == host
  }

  /** The i-th identity, and no other, is the one to look for. */
  predicate OnlyMatch(identities: seq<Identity>, p: Policy, wanted: Id, i: nat) {
    && i < |identities| && Matches(identities[i], p, wanted)
    && forall j | 0 <= j < |identities| && j != i :: !Matches(identities[j], p, wanted)
  }

  lemma {:induction false} NoMatch(identities: seq<Identity>, p: Policy, wanted: Id)
    ensures Matching(identities, p, wanted) == [] <==>
              forall j | 0 <= j < |identities| :: !Matches(identities[j], p, wanted)
  {
    if identities != [] {
      NoMatch(identities[1..], p, wanted);
      assert forall j | 1 <= j < |identities| :: identities[j] == identities[1..][j - 1];
    }
  }

  lemma {:induction false} OneMatch(identities: seq<Identity>, p: Policy, wanted: Id, i: nat)
    requires OnlyMatch(identities, p, wanted, i)
    ensures Matching(identities, p, wanted) == [identities[i]]
  {
    var rest := identities[1..];
    assert forall j | 0 <= j < |rest| :: rest[j] == identities[j + 1];
    if i == 0 {
      NoMatch(rest, p, wanted);
    } else {
      OneMatch(rest, p, wanted, i - 1);
    }
  }

  lemma {:induction false} MatchedOnce(identities: seq<Identity>, p: Policy, wanted: Id) returns (i: nat)
    requires |Matching(identities, p, wanted)| == 1
    ensures OnlyMatch(identities, p, wanted, i)
  {
    var rest := identities[1..];
    assert forall j | 1 <= j < |identities| :: identities[j] == rest[j - 1];
    if Matches(identities[0], p, wanted) {
      assert Matching(rest, p, wanted) == [];
      NoMatch(rest, p, wanted);
      i := 0;
    } else {
      var k := MatchedOnce(rest, p, wanted);
      i := k + 1;
    }
  }

  /** An identity that is there is taken exactly if the host is there too and no other identity matches. */
  lemma FoundIff(o: Oracle, s: State, p: Policy, identities: seq<Identity>, k8: Id)
    ensures Locate(o, s, p, identities) == Known(s, k8) <==>
              && HostIsThere(identities, p.host)
              && exists i: nat :: OnlyMatch(identities, p, Wanted(p, s.mem), i) && identities[i].id == k8
  {
    var wanted := Wanted(p, s.mem);
    if Locate(o, s, p, identities) == Known(s, k8) {
      assert |Matching(identities, p, wanted)| == 1;
      var i := MatchedOnce(identities, p, wanted);
      OneMatch(identities, p, wanted, i);
    }
    if i: nat :| OnlyMatch(identities, p, wanted, i) && identities[i].id == k8 {
      OneMatch(identities, p, wanted, i);
    }
  }

  /** The policy stays the same, every save reaches the disk, every project shows both roles, the check passes. */
  ghost predicate Healthy(o: Oracle, p: Policy, k8: Id) {
    && Steady(o, p)
    && forall n: nat ::
      && o.save(n).Saved? && o.vet(n).Ok?
      && o.members(n).Ok? && Complete(o.members(n).value, p.host, k8)
  }

  ghost predicate NothingRevoked(l: Ledger) {
    forall q :: !l.EntryOf(q).revoked
  }

  lemma HealthyVisit(o: Oracle, s: State, p: Policy, project: Id, k8: Id)
    requires Healthy(o, p, k8) && NothingRevoked(s.mem) && s.mem.k8 == k8
    ensures var r := Added(o, s, p, project, k8);
            r.verdict == Done(Ready, "") && NothingRevoked(r.state.mem) && r.state.mem.k8 == k8
  {
    var s1 := s.(env := LoadPolicy(o, s.env).env);
    var s2 := s1.(env := s1.env.Note(Withdrawn(project)));
    HealthyIsReady(o, s2, p, project, k8);
    ReadyIff(o, s2, p, project, k8);
    ReconcileConfined(o, s2, p, project, k8);
    var r := Reconcile(o, s2, p, project, k8);
    forall q ensures !r.state.mem.EntryOf(q).revoked {
      if q != project {
        assert r.state.mem.EntryOf(q) == s2.mem.EntryOf(q);
      }
    }
  }

  lemma HealthySweep(o: Oracle, s: State, p: Policy, k8: Id, projects: seq<Project>, i: nat,
                     verified: set<Id>, report: Report)
    requires i <= |projects| && Healthy(o, p, k8) && NothingRevoked(s.mem) && s.mem.k8 == k8
    requires report.status == Ready
    ensures var c := Sweep(o, s, p, k8, projects, i, verified, report);
            && c.Reported? && c.report.status == (if p.apply then Ready else DryRun)
            && forall q :: q in c.verified <==> q in verified || q in AllowedIds(projects[i..], p)
    decreases |projects| - i
  {
    if i < |projects| {
      var id := projects[i].id;
      var rest := AllowedIds(projects[i + 1..], p);
      assert projects[i..][1..] == projects[i + 1..];
      if !p.Allows(id) {
        HealthySweep(o, s, p, k8, projects, i + 1, verified, report);
        assert [] + rest == rest;
      } else {
        SweepVisits(o, s, p, k8, projects, i, verified, report);
        HealthyVisit(o, s, p, id, k8);
        var r := Added(o, s, p, id, k8);
        HealthySweep(o, r.state, p, k8, projects, i + 1, verified + {id}, Combine(report, id, r.verdict));
        assert forall q :: q in [id] + rest <==> q == id || q in rest;
      }
    }
  }

  /** A healthy remote: the cycle publishes every project the policy allows, and no other, and reports it so. */
  lemma HealthyIsPublished(o: Oracle, s: State, initial: Policy, p: Policy, k8: Id, projects: seq<Project>,
                           identities: seq<Identity>, i: nat)
    requires Healthy(o, p, k8) && SameBinding(p, initial) && NothingRevoked(s.mem)
    requires o.projects(s.env.now + 1) == Ok(projects) && ValidProjects(projects)
    requires o.identities(s.env.now + 2) == Ok(identities) && HostIsThere(identities, p.host)
    requires OnlyMatch(identities, p, Wanted(p, s.mem), i) && identities[i].id == k8
    requires k8 != p.host && IsIdentifier(k8)
    ensures var c := Cycle(o, s, initial);
            && c.Reported? && c.report.status == (if p.apply then Ready else DryRun)
            && forall q :: q in c.verified <==> q in AllowedIds(projects, p)
  {
    var s1 := s.(env := LoadPolicy(o, s.env).env);
    var s2 := s1.(env := ReadProjects(o, s1.env).env);
    var s3 := s2.(env := ReadIdentities(o, s2.env).env);
    FoundIff(o, s3, p, identities, k8);
    var l := Identify(o, s3, p, identities);
    assert l.Known? && l.k8 == k8 && l.state.mem == s.mem.(k8 := k8, identityPending := false);
    assert forall q :: l.state.mem.EntryOf(q) == s.mem.EntryOf(q);
    HealthySweep(o, l.state, p, k8, projects, 0, {}, FRESH);
    assert projects[0..] == projects;
    var w := Sweep(o, l.state, p, k8, projects, 0, {}, FRESH);
    assert Proceed(o, s3, p, projects, identities) == w;
    assert Survey(o, s, initial) == w;
  }

  // ---------------------------------------------------------------- what stops a grant

  /** A missing membership that must not be requested: an earlier request is still open, or nothing may be applied. */
  lemma MissingIsHeldBack(o: Oracle, s: State, p: Policy, project: Id, entry: Entry, items: seq<Membership>,
                          human: bool, t: Target, k8: Id)
    requires var id := t.IdOf(p.host, k8);
             && !HasExact(items, id, t.Role())
             && (p.repair || (!t.Seen(entry) && Find(items, id).None?))
    requires !Free(entry, p) || !p.apply
    ensures Grant(o, s, p, project, entry, items, human, t, k8)
         == Stop(s, if Free(entry, p) then Done(DryRun, "enroll_machine_memberships") else Done(EnrollmentRequired, ""))
  {
  }

  ghost predicate Unchanging(log: seq<Event>, log': seq<Event>) {
    log <= log' && forall i | |log| <= i < |log'| :: !log'[i].Mutation()
  }

  lemma UnchangingCompose(a: seq<Event>, b: seq<Event>, c: seq<Event>)
    requires Unchanging(a, b) && Unchanging(b, c)
    ensures Unchanging(a, c)
  {
  }

  lemma ConfirmOnlyReads(o: Oracle, s: State, p: Policy, project: Id, entry: Entry, items: seq<Membership>,
                         human: bool, t: Target, k8: Id)
    ensures Unchanging(s.env.log, Confirm(o, s, p, project, entry, items, human, t, k8).state.env.log)
  {
  }

  lemma GrantOnlyReads(o: Oracle, s: State, p: Policy, project: Id, entry: Entry, items: seq<Membership>,
                       human: bool, t: Target, k8: Id)
    requires !p.apply
    ensures Unchanging(s.env.log, Grant(o, s, p, project, entry, items, human, t, k8).state.env.log)
  {
    ConfirmOnlyReads(o, s, p, project, entry, items, human, t, k8);
    assert Unchanging(s.env.log, Revoke(o, s, project, entry).state.env.log);
  }

  lemma DiscoverOnlyReads(o: Oracle, s: State, p: Policy, project: Id)
    requires !p.apply
    ensures Unchanging(s.env.log, Discover(o, s, p, project).state.env.log)
  {
  }

  lemma FinalizeOnlyReads(o: Oracle, s: State, project: Id, k8: Id, entry: Entry)
    ensures Unchanging(s.env.log, Finalize(o, s, project, k8, entry).state.env.log)
  {
  }

  lemma ReaderOnlyReads(o: Oracle, h: Stage, p: Policy, project: Id, k8: Id)
    requires h.Next? && !p.apply
    ensures var r := Grant(o, h.state, p, project, h.entry, h.items, h.human, Reader, k8);
            var log := if r.Stop? then r.state.env.log else Finalize(o, r.state, project, k8, r.entry).state.env.log;
            Unchanging(h.state.env.log, log)
  {
    GrantOnlyReads(o, h.state, p, project, h.entry, h.items, h.human, Reader, k8);
    var r := Grant(o, h.state, p, project, h.entry, h.items, h.human, Reader, k8);
    if r.Next? {
      FinalizeOnlyReads(o, r.state, project, k8, r.entry);
      UnchangingCompose(h.state.env.log, r.state.env.log, Finalize(o, r.state, project, k8, r.entry).state.env.log);
    }
  }

  /** Without the permission to apply nothing is changed at the remote, whatever the policy read later says. */
  lemma WithoutApply(o: Oracle, s: State, p: Policy, project: Id, k8: Id)
    requires !p.apply
    ensures Unchanging(s.env.log, Reconcile(o, s, p, project, k8).state.env.log)
  {
    DiscoverOnlyReads(o, s, p, project);
    var d := Discover(o, s, p, project);
    if d.Next? {
      GrantOnlyReads(o, d.state, p, project, d.entry, d.items, d.human, Host, k8);
      var h := Grant(o, d.state, p, project, d.entry, d.items, d.human, Host, k8);
      UnchangingCompose(s.env.log, d.state.env.log, h.state.env.log);
      if h.Next? {
        ReaderOnlyReads(o, h, p, project, k8);
        UnchangingCompose(s.env.log, h.state.env.log, Reconcile(o, s, p, project, k8).state.env.log);
      }
    }
  }

  /** The pause a cycle asks for never gets shorter. */
  lemma PauseIsKept(o: Oracle, s: State, p: Policy, k8: Id, projects: seq<Project>, i: nat,
                    verified: set<Id>, report: Report)
    requires i <= |projects|
    ensures var c := Sweep(o, s, p, k8, projects, i, verified, report);
            c.Reported? ==> c.report.retryAfter >= report.retryAfter
    decreases |projects| - i
  {
    if i < |projects| && p.Allows(projects[i].id) && !o.contextDone(s.env.now) {
      var l := LoadPolicy(o, s.env);
      var s1 := s.(env := l.env);
      if l.reply.Ok? && SameBinding(l.reply.value, p) {
        if l.reply.value.Allows(projects[i].id) {
          VisitPause(o, s1, l.reply.value, k8, projects, i, verified, report);
        } else {
          PauseIsKept(o, s1, l.reply.value, k8, projects, i + 1, verified, report);
        }
      }
    } else if i < |projects| && !p.Allows(projects[i].id) {
      PauseIsKept(o, s, p, k8, projects, i + 1, verified, report);
    }
  }

  /** It is at least what the remote asked for when a project failed. */
  lemma VisitPause(o: Oracle, s: State, p: Policy, k8: Id, projects: seq<Project>, i: nat,
                   verified: set<Id>, report: Report)
    requires i < |projects|
    ensures var c := Visit(o, s, p, k8, projects, i, verified, report);
            var v := Reconcile(o, s.(env := s.env.Note(Withdrawn(projects[i].id))), p, projects[i].id, k8).verdict;
            c.Reported? ==>
              && c.report.retryAfter >= report.retryAfter
              && (v.Failed? ==> c.report.retryAfter >= RetryAfter(v.error))
    decreases |projects| - i, 0
  {
    var id := projects[i].id;
    var r := Reconcile(o, s.(env := s.env.Note(Withdrawn(id))), p, id, k8);
    if !r.verdict.Died? {
      var report' := Combine(report, id, r.verdict);
      var ready := r.verdict.Done? && r.verdict.status == Ready;
      PauseIsKept(o, r.state, p, k8, projects, i + 1, if ready then verified + {id} else verified, report');
    }
  }
}
