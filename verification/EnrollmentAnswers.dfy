/** What a cycle says: which projects it publishes and reports ready, read off the answers it got and not off the
    way it works. */
module EnrollmentAnswers {
  import opened Replies
  import opened EnrollmentTypes
  import opened EnrollmentSpec
  import opened EnrollmentTheorems

  // ---------------------------------------------------------------- a project that passed

  /** At v the K8 identity was accepted as read-only for the project, and the ledger was saved right after. */
  predicate Passed(log: seq<Event>, v: nat, project: Id) {
    && v + 1 < |log|
    && log[v].Vetted? && log[v].project == project && log[v].accepted
    && log[v + 1].LedgerSaved? && log[v + 1].ok
  }

  ghost predicate PassedSince(log: seq<Event>, n: nat, project: Id) {
    exists v: nat :: n <= v && Passed(log, v, project)
  }

  /** The second log goes on from the first without any check of the K8 identity or withdrawal. */
  ghost predicate Unvetted(log: seq<Event>, log': seq<Event>) {
    log <= log' && forall i | |log| <= i < |log'| :: !log'[i].Vetted? && !log'[i].Withdrawn?
  }

  ghost predicate NoWithdrawal(log: seq<Event>, log': seq<Event>) {
    log <= log' && forall i | |log| <= i < |log'| :: !log'[i].Withdrawn?
  }

  lemma UnvettedCompose(a: seq<Event>, b: seq<Event>, c: seq<Event>)
    requires Unvetted(a, b) && Unvetted(b, c)
    ensures Unvetted(a, c)
  {
  }

  lemma ConfirmUnvetted(o: Oracle, s: State, p: Policy, project: Id, entry: Entry, items: seq<Membership>,
                        human: bool, t: Target, k8: Id)
    ensures Unvetted(s.env.log, Confirm(o, s, p, project, entry, items, human, t, k8).state.env.log)
  {
  }

  lemma AnnounceUnvetted(o: Oracle, s: State, mem: Ledger, p: Policy, project: Id)
    ensures Unvetted(s.env.log, Announce(o, s, mem, p, project).state.env.log)
  {
  }

  lemma IssueUnvetted(o: Oracle, s: State, p: Policy, project: Id, entry: Entry, existing: bool,
                      human: bool, t: Target, k8: Id)
    ensures Unvetted(s.env.log, Issue(o, s, p, project, entry, existing, human, t, k8).state.env.log)
  {
    var id := t.IdOf(p.host, k8);
    var mem := s.mem.With(project, entry.(pending := id));
    AnnounceUnvetted(o, s, mem, p, project);
    var a := Announce(o, s, mem, p, project);
    if a.reply.Ok? {
      var log := a.state.env.Note(Granted(project, id, t.Role(), existing, human)).log;
      assert Issue(o, s, p, project, entry, existing, human, t, k8).state.env.log == log;
      UnvettedCompose(s.env.log, a.state.env.log, log);
    }
  }

  lemma RereadUnvetted(o: Oracle, s: State, project: Id, entry: Entry)
    ensures Unvetted(s.env.log, Reread(o, s, project, entry).state.env.log)
  {
  }

  lemma ReadBackUnvetted(o: Oracle, s: State, p: Policy, project: Id, entry: Entry,
                         human: bool, t: Target, k8: Id)
    ensures Unvetted(s.env.log, ReadBack(o, s, p, project, entry, human, t, k8).state.env.log)
  {
    var s1 := s.(env := ReadMembers(o, s.env, project, human).env);
    var e := t.MarkSeen(entry).(pending := "");
    var s2 := State(s1.mem.With(project, e), Record(o, s1, project, e).env);
    var s3 := Reread(o, s2, project, e).state;
    assert Unvetted(s.env.log, s1.env.log) && Unvetted(s1.env.log, s2.env.log);
    UnvettedCompose(s.env.log, s1.env.log, s2.env.log);
    RereadUnvetted(o, s2, project, e);
    UnvettedCompose(s.env.log, s2.env.log, s3.env.log);
    assert ReadBack(o, s, p, project, entry, human, t, k8).state in {s1, s2, s3};
  }

  /** A stage that stops does not stop ready, and one that goes on has seen its role. */
  predicate Orderly(g: Stage, entry: Entry, t: Target) {
    if g.Stop? then g.verdict.Done? ==> g.verdict.status != Ready
    else t.Seen(g.entry) && (entry.hostSeen ==> g.entry.hostSeen)
  }

  lemma WriteUnvetted(o: Oracle, s: State, p: Policy, project: Id, entry: Entry, existing: bool,
                      human: bool, t: Target, k8: Id)
    ensures var g := Write(o, s, p, project, entry, existing, human, t, k8);
            Unvetted(s.env.log, g.state.env.log) && Orderly(g, entry, t)
  {
    IssueUnvetted(o, s, p, project, entry, existing, human, t, k8);
    var i := Issue(o, s, p, project, entry, existing, human, t, k8);
    if i.Next? {
      ReadBackUnvetted(o, i.state, p, project, i.entry, human, t, k8);
      var b := ReadBack(o, i.state, p, project, i.entry, human, t, k8);
      UnvettedCompose(s.env.log, i.state.env.log, b.state.env.log);
    }
  }

  lemma ConfirmOrderly(o: Oracle, s: State, p: Policy, project: Id, entry: Entry, items: seq<Membership>,
                       human: bool, t: Target, k8: Id)
    ensures Orderly(Confirm(o, s, p, project, entry, items, human, t, k8), entry, t)
  {
  }

  lemma GrantUnvetted(o: Oracle, s: State, p: Policy, project: Id, entry: Entry, items: seq<Membership>,
                      human: bool, t: Target, k8: Id)
    ensures var g := Grant(o, s, p, project, entry, items, human, t, k8);
            Unvetted(s.env.log, g.state.env.log) && Orderly(g, entry, t)
  {
    ConfirmUnvetted(o, s, p, project, entry, items, human, t, k8);
    ConfirmOrderly(o, s, p, project, entry, items, human, t, k8);
    WriteUnvetted(o, s, p, project, entry, Find(items, t.IdOf(p.host, k8)).Some?, human, t, k8);
  }

  lemma RecoverUnvetted(o: Oracle, s: State, p: Policy, project: Id, entry: Entry)
    ensures var d := Recover(o, s, p, project, entry);
            && Unvetted(s.env.log, d.state.env.log)
            && (d.Stop? ==> d.verdict.Done? ==> d.verdict.status != Ready)
  {
    var s1 := s.(env := ReadMembers(o, s.env, project, true).env);
    EnrollUnvetted(o, s1, p, project, entry);
    assert Unvetted(s.env.log, s1.env.log);
    UnvettedCompose(s.env.log, s1.env.log, Enroll(o, s1, p, project, entry).state.env.log);
  }

  lemma DiscoverUnvetted(o: Oracle, s: State, p: Policy, project: Id)
    ensures var d := Discover(o, s, p, project);
            && Unvetted(s.env.log, d.state.env.log)
            && (d.Stop? ==> d.verdict.Done? ==> d.verdict.status != Ready)
  {
    var entry := s.mem.EntryOf(project);
    var s1 := s.(env := ReadMembers(o, s.env, project, false).env);
    assert Unvetted(s.env.log, s1.env.log);
    RecoverUnvetted(o, s1, p, project, entry);
    UnvettedCompose(s.env.log, s1.env.log, Recover(o, s1, p, project, entry).state.env.log);
  }

  lemma EnrollUnvetted(o: Oracle, s: State, p: Policy, project: Id, entry: Entry)
    ensures var d := Enroll(o, s, p, project, entry);
            && Unvetted(s.env.log, d.state.env.log)
            && (d.Stop? ==> d.verdict.Done? ==> d.verdict.status != Ready)
  {
  }

  /** A reconciliation ends ready exactly if in it the K8 identity was accepted and the ledger saved right after;
      these are then its last two events, the entry is complete, and the disk holds the ledger in memory. */
  lemma ReadyIff(o: Oracle, s: State, p: Policy, project: Id, k8: Id)
    ensures var r, n := Reconcile(o, s, p, project, k8), |s.env.log|;
            && NoWithdrawal(s.env.log, r.state.env.log)
            && (r.verdict.Done? && r.verdict.status == Ready <==> PassedSince(r.state.env.log, n, project))
            && (forall q | q != project :: !PassedSince(r.state.env.log, n, q))
    ensures var r := Reconcile(o, s, p, project, k8);
            r.verdict.Done? && r.verdict.status == Ready ==>
              && Passed(r.state.env.log, |r.state.env.log| - 2, project)
              && r.state.env.disk == Some(r.state.mem)
              && r.state.mem.EntryOf(project) == Entry(true, true, "", false)
  {
    DiscoverUnvetted(o, s, p, project);
    var d := Discover(o, s, p, project);
    if d.Next? {
      GrantUnvetted(o, d.state, p, project, d.entry, d.items, d.human, Host, k8);
      var h := Grant(o, d.state, p, project, d.entry, d.items, d.human, Host, k8);
      UnvettedCompose(s.env.log, d.state.env.log, h.state.env.log);
      if h.Next? {
        GrantUnvetted(o, h.state, p, project, h.entry, h.items, h.human, Reader, k8);
        var r := Grant(o, h.state, p, project, h.entry, h.items, h.human, Reader, k8);
        UnvettedCompose(s.env.log, h.state.env.log, r.state.env.log);
        if r.Next? {
          FinalizePasses(o, r.state, s.env.log, project, k8, r.entry);
        }
      }
    }
  }

  lemma FinalizePasses(o: Oracle, s: State, log: seq<Event>, project: Id, k8: Id, entry: Entry)
    requires Unvetted(log, s.env.log) && entry.hostSeen && entry.k8Seen
    ensures var r := Finalize(o, s, project, k8, entry);
            && NoWithdrawal(log, r.state.env.log)
            && (r.verdict.Done? && r.verdict.status == Ready <==> PassedSince(r.state.env.log, |log|, project))
            && (forall q | q != project :: !PassedSince(r.state.env.log, |log|, q))
            && (r.verdict.Done? && r.verdict.status == Ready ==>
                  && Passed(r.state.env.log, |r.state.env.log| - 2, project)
                  && r.state.env.disk == Some(r.state.mem)
                  && r.state.mem.EntryOf(project) == Entry(true, true, "", false))
  {
    var r := Finalize(o, s, project, k8, entry);
    var n := |s.env.log|;
    var log' := r.state.env.log;
    assert log'[n].Vetted? && log'[n].project == project;
    if r.verdict.Done? && r.verdict.status == Ready {
      assert Passed(log', n, project);
    }
    assert forall i | |log| <= i < n :: log'[i] == s.env.log[i];
    assert forall q, v: nat | |log| <= v && Passed(log', v, q) :: v == n;
  }

  // ---------------------------------------------------------------- a cycle

  /** The report calls the project ready. */
  ghost predicate Lists(results: seq<Outcome>, project: Id) {
    exists i :: 0 <= i < |results| && results[i].project == project && results[i].status == Ready
  }

  predicate AllReady(results: seq<Outcome>) {
    forall i | 0 <= i < |results| :: results[i].status == Ready
  }

  /** The projects withdrawn in a log from n on, in order. */
  function Withdrawals(log: seq<Event>, n: nat): seq<Id> {
    if |log| <= n then []
    else
      var e := log[|log| - 1];
      Withdrawals(log[..|log| - 1], n) + (if e.Withdrawn? then [e.project] else [])
  }

  function Named(results: seq<Outcome>): seq<Id> {
    seq(|results|, i requires 0 <= i < |results| => results[i].project)
  }

  /** The three accounts of a cycle so far agree: the set it will publish, its report, and the log since n. */
  ghost predicate Agree(log: seq<Event>, n: nat, verified: set<Id>, results: seq<Outcome>) {
    && n <= |log|
    && (forall q :: q in verified <==> Lists(results, q))
    && (forall q :: q in verified <==> PassedSince(log, n, q))
    && Named(results) == Withdrawals(log, n)
  }

  lemma {:induction false} WithdrawalsSame(log: seq<Event>, log': seq<Event>, n: nat)
    requires n <= |log| && NoWithdrawal(log, log')
    ensures Withdrawals(log', n) == Withdrawals(log, n)
    decreases |log'|
  {
    if |log'| > |log| {
      WithdrawalsSame(log, log'[..|log'| - 1], n);
    } else {
      assert log' == log;
    }
  }

  lemma PassedAppend(log: seq<Event>, log': seq<Event>, n: nat, q: Id)
    requires n <= |log| && log <= log' && (|log'| > |log| ==> !log'[|log|].LedgerSaved?)
    ensures PassedSince(log', n, q) <==> PassedSince(log, n, q) || PassedSince(log', |log|, q)
  {
    if PassedSince(log', n, q) {
      var v: nat :| n <= v && Passed(log', v, q);
      assert v + 1 < |log| ==> Passed(log, v, q);
    }
    if PassedSince(log, n, q) {
      var v: nat :| n <= v && Passed(log, v, q);
      assert Passed(log', v, q);
    }
    if PassedSince(log', |log|, q) {
      var v: nat :| |log| <= v && Passed(log', v, q);
    }
  }

  lemma PassedLater(log: seq<Event>, n: nat, q: Id)
    requires n < |log| && !log[n].Vetted?
    ensures PassedSince(log, n, q) <==> PassedSince(log, n + 1, q)
  {
    if PassedSince(log, n, q) {
      var v: nat :| n <= v && Passed(log, v, q);
      assert n + 1 <= v;
    }
    if PassedSince(log, n + 1, q) {
      var v: nat :| n + 1 <= v && Passed(log, v, q);
    }
  }

  /** Events that neither end a check nor withdraw change none of the accounts. */
  lemma AgreeLater(log: seq<Event>, e: Event, n: nat, verified: set<Id>, results: seq<Outcome>)
    requires Agree(log, n, verified, results) && !e.LedgerSaved? && !e.Withdrawn?
    ensures Agree(log + [e], n, verified, results)
  {
    WithdrawalsSame(log, log + [e], n);
    forall q ensures PassedSince(log + [e], n, q) <==> PassedSince(log, n, q) {
      PassedAppend(log, log + [e], n, q);
    }
  }

  lemma ListsOneMore(results: seq<Outcome>, more: Outcome, q: Id)
    ensures Lists(results + [more], q) <==> Lists(results, q) || (more.project == q && more.status == Ready)
  {
    var all := results + [more];
    if Lists(results, q) {
      var i :| 0 <= i < |results| && results[i].project == q && results[i].status == Ready;
      assert all[i].project == q && all[i].status == Ready;
    }
    if more.project == q && more.status == Ready {
      assert all[|results|].project == q && all[|results|].status == Ready;
    }
  }

  lemma NamedOneMore(results: seq<Outcome>, more: Outcome)
    ensures Named(results + [more]) == Named(results) + [more.project]
  {
  }

  /** A visit that did not die adds one outcome, one withdrawal, and one passed check exactly if it ended ready. */
  lemma AgreeVisit(log: seq<Event>, log': seq<Event>, n: nat, verified: set<Id>, results: seq<Outcome>,
                   more: Outcome, m: nat)
    requires Agree(log, n, verified, results) && NoWithdrawal(log + [Withdrawn(more.project)], log')
    requires m == |log| + 1 && (more.status == Ready <==> PassedSince(log', m, more.project))
    requires forall q | q != more.project :: !PassedSince(log', m, q)
    ensures Agree(log', n, if more.status == Ready then verified + {more.project} else verified, results + [more])
  {
    var mid := log + [Withdrawn(more.project)];
    WithdrawalsSame(mid, log', n);
    assert mid[..|log|] == log;
    NamedOneMore(results, more);
    assert log <= log' && log'[|log|] == Withdrawn(more.project);
    forall q ensures PassedSince(log', n, q) <==> PassedSince(log, n, q) || (more.project == q && more.status == Ready)
    {
      PassedAppend(log, log', n, q);
      PassedLater(log', |log|, q);
    }
    forall q {
      ListsOneMore(results, more, q);
    }
  }

  ghost predicate Answers(c: CycleResult, n: nat) {
    c.Reported? ==>
      && Agree(c.state.env.log, n, c.verified, c.report.results)
      && (c.report.status == Ready ==> AllReady(c.report.results))
      && (AllReady(c.report.results) ==> c.report.status in {Ready, DryRun, InvalidPolicy, TemporarilyUnavailable})
  }

  lemma SweepAnswers(o: Oracle, s: State, p: Policy, k8: Id, projects: seq<Project>, i: nat,
                     verified: set<Id>, report: Report, n: nat)
    requires i <= |projects| && Agree(s.env.log, n, verified, report.results)
    requires report.status == Ready <==> AllReady(report.results)
    ensures Answers(Sweep(o, s, p, k8, projects, i, verified, report), n)
    decreases |projects| - i
  {
    if i == |projects| || (o.contextDone(s.env.now) && p.Allows(projects[i].id)) {
    } else if !p.Allows(projects[i].id) {
      SweepAnswers(o, s, p, k8, projects, i + 1, verified, report, n);
    } else {
      var l := LoadPolicy(o, s.env);
      var s1 := s.(env := l.env);
      AgreeLater(s.env.log, PolicyRead(l.reply), n, verified, report.results);
      if l.reply.Ok? && SameBinding(l.reply.value, p) {
        if l.reply.value.Allows(projects[i].id) {
          VisitAnswers(o, s1, l.reply.value, k8, projects, i, verified, report, n);
        } else {
          SweepAnswers(o, s1, l.reply.value, k8, projects, i + 1, verified, report, n);
        }
      }
    }
  }

  lemma CombineAnswers(report: Report, project: Id, v: Verdict)
    requires !v.Died? && (report.status == Ready <==> AllReady(report.results))
    ensures var r := Combine(report, project, v);
            && r.results == report.results + [v.OutcomeFor(project)]
            && (r.status == Ready <==> AllReady(r.results))
            && (v.OutcomeFor(project).status == Ready <==> v.Done? && v.status == Ready)
  {
    var more := v.OutcomeFor(project);
    var all := report.results + [more];
    assert all[|report.results|] == more;
    assert AllReady(all) <==> AllReady(report.results) && more.status == Ready by {
      if AllReady(all) {
        forall i | 0 <= i < |report.results| ensures report.results[i].status == Ready {
          assert all[i] == report.results[i];
        }
      }
    }
  }

  lemma VisitAnswers(o: Oracle, s: State, p: Policy, k8: Id, projects: seq<Project>, i: nat,
                     verified: set<Id>, report: Report, n: nat)
    requires i < |projects| && Agree(s.env.log, n, verified, report.results)
    requires report.status == Ready <==> AllReady(report.results)
    ensures Answers(Visit(o, s, p, k8, projects, i, verified, report), n)
    decreases |projects| - i, 0
  {
    var id := projects[i].id;
    var s1 := s.(env := s.env.Note(Withdrawn(id)));
    var r := Reconcile(o, s1, p, id, k8);
    ReadyIff(o, s1, p, id, k8);
    if !r.verdict.Died? {
      CombineAnswers(report, id, r.verdict);
      var report' := Combine(report, id, r.verdict);
      var ready := r.verdict.Done? && r.verdict.status == Ready;
      AgreeVisit(s.env.log, r.state.env.log, n, verified, report.results, r.verdict.OutcomeFor(id),
                 |s1.env.log|);
      SweepAnswers(o, r.state, p, k8, projects, i + 1, if ready then verified + {id} else verified, report', n);
    }
  }

  /** A cycle that would create the K8 identity, had it been allowed to, only says so. */
  predicate PlansIdentity(results: seq<Outcome>) {
    results == [Outcome("", Planned, "create_k8_identity")]
  }

  /** What a cycle that began at n and did not die says at its end. */
  ghost predicate Told(log: seq<Event>, n: nat, verified: set<Id>, report: Report) {
    && n <= |log|
    && (forall q :: q in verified <==> Lists(report.results, q))
    && (forall q :: q in verified <==> PassedSince(log, n, q))
    && (Withdrawals(log, n) == Named(report.results) || (Withdrawals(log, n) == [] && PlansIdentity(report.results)))
    && (report.status == Ready ==> AllReady(report.results))
    && (report.results != [] && AllReady(report.results) ==>
          report.status in {Ready, DryRun, InvalidPolicy, TemporarilyUnavailable})
  }

  lemma {:induction false} NothingYet(log: seq<Event>, log': seq<Event>)
    requires Unvetted(log, log')
    ensures Withdrawals(log', |log|) == [] && forall q :: !PassedSince(log', |log|, q)
    decreases |log'|
  {
    WithdrawalsSame(log, log', |log|);
  }

  lemma StartAgrees(log: seq<Event>, log': seq<Event>)
    requires Unvetted(log, log')
    ensures Agree(log', |log|, {}, [])
  {
    NothingYet(log, log');
  }

  /** A cycle that stopped before its first project. */
  lemma EarlyTold(log: seq<Event>, log': seq<Event>, report: Report)
    requires Unvetted(log, log') && (report.results == [] || PlansIdentity(report.results))
    requires PlansIdentity(report.results) ==> report.status == DryRun
    ensures Told(log', |log|, {}, report)
  {
    NothingYet(log, log');
  }

  lemma LocateUnvetted(o: Oracle, s: State, p: Policy, identities: seq<Identity>)
    ensures Unvetted(s.env.log, Locate(o, s, p, identities).state.env.log)
  {
    var mem := s.mem.(identityPending := true);
    AnnounceUnvetted(o, s, mem, p, "");
    var a := Announce(o, s, mem, p, "");
    UnvettedCompose(s.env.log, a.state.env.log, a.state.env.Note(Created(p.k8Name)).log);
  }

  lemma IdentifyUnvetted(o: Oracle, s: State, p: Policy, identities: seq<Identity>)
    ensures Unvetted(s.env.log, Identify(o, s, p, identities).state.env.log)
  {
    var l := Locate(o, s, p, identities);
    LocateUnvetted(o, s, p, identities);
    UnvettedCompose(s.env.log, l.state.env.log, Identify(o, s, p, identities).state.env.log);
  }

  lemma SweptTold(c: CycleResult, n: nat)
    requires c.Reported? && Answers(c, n)
    ensures Told(c.state.env.log, n, c.verified, c.report)
  {
  }

  lemma ProceedTold(o: Oracle, s: State, p: Policy, projects: seq<Project>, identities: seq<Identity>, log: seq<Event>)
    requires Unvetted(log, s.env.log)
    ensures var c := Proceed(o, s, p, projects, identities);
            c.Reported? ==> Told(c.state.env.log, |log|, c.verified, c.report)
  {
    IdentifyUnvetted(o, s, p, identities);
    var l := Identify(o, s, p, identities);
    UnvettedCompose(log, s.env.log, l.state.env.log);
    var c := Proceed(o, s, p, projects, identities);
    if l.Known? {
      StartAgrees(log, l.state.env.log);
      SweepAnswers(o, l.state, p, l.k8, projects, 0, {}, FRESH, |log|);
      if c.Reported? {
        SweptTold(c, |log|);
      }
    } else if c.Reported? {
      assert c.verified == {};
      EarlyTold(log, l.state.env.log, c.report);
    }
  }

  lemma SurveyTold(o: Oracle, s: State, initial: Policy)
    ensures var c := Survey(o, s, initial);
            c.Reported? ==> Told(c.state.env.log, |s.env.log|, c.verified, c.report)
  {
    var c := Survey(o, s, initial);
    var l := LoadPolicy(o, s.env);
    var s1 := s.(env := l.env);
    assert Unvetted(s.env.log, s1.env.log);
    var ps := ReadProjects(o, s1.env);
    var s2 := s1.(env := ps.env);
    assert Unvetted(s.env.log, s2.env.log);
    var ids := ReadIdentities(o, s2.env);
    var s3 := s2.(env := ids.env);
    assert Unvetted(s.env.log, s3.env.log);
    if l.reply.Ok? && SameBinding(l.reply.value, initial) && ps.reply.Ok? && ids.reply.Ok? {
      ProceedTold(o, s3, l.reply.value, ps.reply.value, ids.reply.value, s.env.log);
      assert c == Proceed(o, s3, l.reply.value, ps.reply.value, ids.reply.value);
    } else if c.Reported? {
      EarlyTold(s.env.log, c.state.env.log, c.report);
    }
  }

  /** A cycle that does not die publishes a project exactly if its report calls the project ready, and that exactly
      if in this cycle the K8 identity was accepted for it and the ledger saved right after. The report has one
      outcome for each project the cycle withdrew, in this order. */
  lemma CycleTold(o: Oracle, s: State, initial: Policy)
    ensures var c := Cycle(o, s, initial);
            c.Reported? ==>
              && Told(c.state.env.log, |s.env.log|, c.verified, c.report)
              && c.state.env.log[|c.state.env.log| - 1] == Published(c.verified)
  {
    SurveyTold(o, s, initial);
    var c := Survey(o, s, initial);
    if c.Reported? {
      PublishTold(c.state.env.log, |s.env.log|, c.verified, c.report);
    }
  }

  lemma PublishTold(log: seq<Event>, n: nat, verified: set<Id>, report: Report)
    requires Told(log, n, verified, report)
    ensures Told(log + [Published(verified)], n, verified, report)
  {
    var log' := log + [Published(verified)];
    WithdrawalsSame(log, log', n);
    forall q ensures PassedSince(log', n, q) <==> PassedSince(log, n, q) {
      PassedAppend(log, log', n, q);
    }
  }

  // ---------------------------------------------------------------- runs

  /** The project passed before i, in what is at i the running process's current cycle. */
  ghost predicate PassedFor(log: seq<Event>, i: nat, q: Id)
    requires i <= |log|
  {
    exists v: nat :: v + 1 < i && Passed(log, v, q) && Quiet(log, v, i)
  }

  ghost predicate PublishedExactly(log: seq<Event>, i: nat)
    requires i < |log|
  {
    log[i].Published? ==> forall q :: q in log[i].ids <==> PassedFor(log, i, q)
  }

  ghost predicate AtRest(log: seq<Event>) {
    log != [] && (log[|log| - 1].Published? || log[|log| - 1].Booted?)
  }

  ghost predicate Exact(sys: System) {
    && (forall i | 0 <= i < |sys.env.log| :: PublishedExactly(sys.env.log, i))
    && (sys.process.Up? ==> AtRest(sys.env.log))
  }

  lemma PublishedLater(log: seq<Event>, log': seq<Event>, i: nat)
    requires i < |log| && log <= log' && PublishedExactly(log, i)
    ensures PublishedExactly(log', i)
  {
    assert forall j | 0 <= j <= i :: log'[j] == log[j];
    forall q ensures PassedFor(log', i, q) <==> PassedFor(log, i, q) {
      if PassedFor(log', i, q) {
        var v: nat :| v + 1 < i && Passed(log', v, q) && Quiet(log', v, i);
        assert Passed(log, v, q) && Quiet(log, v, i);
      }
      if PassedFor(log, i, q) {
        var v: nat :| v + 1 < i && Passed(log, v, q) && Quiet(log, v, i);
        assert Passed(log', v, q) && Quiet(log', v, i);
      }
    }
  }

  /** Since the cycle began at n is since the last publication or start. */
  lemma SinceIsFor(log: seq<Event>, n: nat, i: nat, q: Id)
    requires 0 < n <= i && i + 1 == |log| && log[i].Published? && Quiet(log, n, i)
    requires log[n - 1].Published? || log[n - 1].Booted?
    ensures PassedSince(log, n, q) <==> PassedFor(log, i, q)
  {
    if PassedSince(log, n, q) {
      var v: nat :| n <= v && Passed(log, v, q);
      assert Quiet(log, v, i);
    }
    if PassedFor(log, i, q) {
      var v: nat :| v + 1 < i && Passed(log, v, q) && Quiet(log, v, i);
      assert v >= n;
    }
  }

  lemma CycleExact(o: Oracle, sys: System)
    requires Exact(sys) && sys.process.Up?
    ensures Exact(Advance(o, sys, DoCycle))
  {
    var s := State(sys.process.mem, sys.env);
    var initial := sys.process.initial;
    SurveyOk(o, s, initial);
    CycleTold(o, s, initial);
    var c := Cycle(o, s, initial);
    var log, n := c.state.env.log, |sys.env.log|;
    var w := Survey(o, s, initial);
    assert c.Reported? ==> log == w.state.env.log + [Published(c.verified)];
    forall i | 0 <= i < |log| ensures PublishedExactly(log, i) {
      if i < n {
        PublishedLater(sys.env.log, log, i);
      } else if c.Reported? && i == |log| - 1 {
        assert Quiet(log, n, i);
        assert log[n - 1] == sys.env.log[n - 1];
        forall q {
          SinceIsFor(log, n, i, q);
        }
      } else {
        assert !log[i].Published?;
      }
    }
  }

  lemma BootExact(o: Oracle, sys: System)
    requires Exact(sys)
    ensures Exact(Advance(o, sys, Restart))
  {
    var sys' := Boot(o, sys.env);
    forall i | 0 <= i < |sys'.env.log| ensures PublishedExactly(sys'.env.log, i) {
      if i < |sys.env.log| {
        PublishedLater(sys.env.log, sys'.env.log, i);
      }
    }
  }

  lemma {:induction false} RunExact(o: Oracle, steps: seq<Step>)
    ensures Exact(Run(o, steps))
    decreases |steps|
  {
    if steps != [] {
      RunExact(o, steps[..|steps| - 1]);
      var sys := Run(o, steps[..|steps| - 1]);
      if steps[|steps| - 1].Restart? {
        BootExact(o, sys);
      } else if sys.process.Up? {
        CycleExact(o, sys);
      }
    }
  }

  /** The project passed at v, in the cycle that ended with publication j, and nothing took it back up to k. */
  predicate ServedBy(log: seq<Event>, v: nat, j: nat, k: nat, q: Id)
    requires k <= |log|
  {
    && v + 1 < j < k && Passed(log, v, q) && Quiet(log, v, j) && log[j].Published?
    && forall i | j < i < k :: !log[i].Published? && !log[i].Booted? && log[i] != Withdrawn(q)
  }

  /** Which projects are served: take any run, cut its log anywhere, and let a request come in there. A project is
      in the answer exactly if the policy read for the request has the binding and allows it, the cycle that last
      published accepted the K8 identity for it and saved the ledger right after, and nothing withdrew it since. */
  lemma ServedIff(o: Oracle, steps: seq<Step>, k: nat, latest: Reply<Policy, Error>, binding: Policy, q: Id)
    requires k <= |Run(o, steps).env.log|
    ensures q in Answer(latest, binding, Eligible(Run(o, steps).env.log[..k])) <==>
              && latest.Ok? && SameBinding(latest.value, binding) && latest.value.Allows(q)
              && exists v: nat, j: nat :: ServedBy(Run(o, steps).env.log, v, j, k, q)
  {
    RunExact(o, steps);
    LastIsServed(Run(o, steps).env.log, k, q);
    EligibleIff(Run(o, steps).env.log, k, q);
  }

  lemma LastIsServed(log: seq<Event>, k: nat, q: Id)
    requires k <= |log| && forall i | 0 <= i < |log| :: PublishedExactly(log, i)
    ensures (exists j: nat :: LastPublished(log, j, k, q)) <==> exists v: nat, j: nat :: ServedBy(log, v, j, k, q)
  {
    if j: nat :| LastPublished(log, j, k, q) {
      assert PublishedExactly(log, j);
      var v: nat :| v + 1 < j && Passed(log, v, q) && Quiet(log, v, j);
      assert ServedBy(log, v, j, k, q);
    }
    if v: nat, j: nat :| ServedBy(log, v, j, k, q) {
      assert PublishedExactly(log, j);
      assert PassedFor(log, j, q);
      assert LastPublished(log, j, k, q);
    }
  }

  // ---------------------------------------------------------------- which projects a run works on

  /** A project is withdrawn, and then worked on, right after a policy of this binding that allows it was read. */
  predicate TakenUp(log: seq<Event>, i: nat, initial: Policy)
    requires i < |log|
  {
    log[i].Withdrawn? ==>
      && i > 0 && log[i - 1].PolicyRead? && log[i - 1].policyReply.Ok?
      && log[i - 1].policyReply.value.Valid() && SameBinding(log[i - 1].policyReply.value, initial)
      && log[i - 1].policyReply.value.Allows(log[i].project)
  }

  ghost predicate AllTakenUp(log: seq<Event>, n: nat, initial: Policy) {
    n <= |log| && forall i | n <= i < |log| :: TakenUp(log, i, initial)
  }

  lemma TakenUpLater(log: seq<Event>, log': seq<Event>, n: nat, initial: Policy)
    requires AllTakenUp(log, n, initial) && NoWithdrawal(log, log')
    ensures AllTakenUp(log', n, initial)
  {
    forall i | n <= i < |log'| ensures TakenUp(log', i, initial) {
      if i < |log| {
        assert TakenUp(log, i, initial);
        assert log'[i] == log[i] && (i > 0 ==> log'[i - 1] == log[i - 1]);
      }
    }
  }

  lemma SweepTakesUp(o: Oracle, s: State, p: Policy, initial: Policy, k8: Id, projects: seq<Project>, i: nat,
                     verified: set<Id>, report: Report, n: nat)
    requires i <= |projects| && AllTakenUp(s.env.log, n, initial) && SameBinding(p, initial)
    ensures var log := Sweep(o, s, p, k8, projects, i, verified, report).state.env.log;
            s.env.log <= log && AllTakenUp(log, n, initial)
    decreases |projects| - i
  {
    if i == |projects| || (o.contextDone(s.env.now) && p.Allows(projects[i].id)) {
    } else if !p.Allows(projects[i].id) {
      SweepTakesUp(o, s, p, initial, k8, projects, i + 1, verified, report, n);
    } else {
      var l := LoadPolicy(o, s.env);
      var s1 := s.(env := l.env);
      TakenUpLater(s.env.log, s1.env.log, n, initial);
      if l.reply.Ok? && SameBinding(l.reply.value, p) {
        if l.reply.value.Allows(projects[i].id) {
          VisitTakesUp(o, s1, l.reply.value, initial, k8, projects, i, verified, report, n);
        } else {
          SweepTakesUp(o, s1, l.reply.value, initial, k8, projects, i + 1, verified, report, n);
        }
      }
    }
  }

  lemma VisitTakesUp(o: Oracle, s: State, p: Policy, initial: Policy, k8: Id, projects: seq<Project>, i: nat,
                     verified: set<Id>, report: Report, n: nat)
    requires i < |projects| && AllTakenUp(s.env.log, n, initial) && SameBinding(p, initial)
    requires n < |s.env.log| && s.env.log[|s.env.log| - 1] == PolicyRead(Ok(p)) && p.Valid() && p.Allows(projects[i].id)
    ensures var log := Visit(o, s, p, k8, projects, i, verified, report).state.env.log;
            s.env.log <= log && AllTakenUp(log, n, initial)
    decreases |projects| - i, 0
  {
    var id := projects[i].id;
    var s1 := s.(env := s.env.Note(Withdrawn(id)));
    var r := Reconcile(o, s1, p, id, k8);
    assert AllTakenUp(s1.env.log, n, initial) by {
      forall j | n <= j < |s1.env.log| ensures TakenUp(s1.env.log, j, initial) {
        if j < |s.env.log| {
          assert TakenUp(s.env.log, j, initial);
        }
      }
    }
    ReadyIff(o, s1, p, id, k8);
    TakenUpLater(s1.env.log, r.state.env.log, n, initial);
    if !r.verdict.Died? {
      var ready := r.verdict.Done? && r.verdict.status == Ready;
      SweepTakesUp(o, r.state, p, initial, k8, projects, i + 1, if ready then verified + {id} else verified,
                   Combine(report, id, r.verdict), n);
    }
  }

  /** Every project a cycle works on was allowed, under the binding the process started with, by the policy that the
      cycle read right before. */
  lemma CycleTakesUp(o: Oracle, s: State, initial: Policy)
    ensures AllTakenUp(Cycle(o, s, initial).state.env.log, |s.env.log|, initial)
  {
    var n := |s.env.log|;
    var l := LoadPolicy(o, s.env);
    var s1 := s.(env := l.env);
    var ps := ReadProjects(o, s1.env);
    var s2 := s1.(env := ps.env);
    var ids := ReadIdentities(o, s2.env);
    var s3 := s2.(env := ids.env);
    var c := Survey(o, s, initial);
    if l.reply.Ok? && SameBinding(l.reply.value, initial) && ps.reply.Ok? && ids.reply.Ok? {
      IdentifyUnvetted(o, s3, l.reply.value, ids.reply.value);
      var k := Identify(o, s3, l.reply.value, ids.reply.value);
      TakenUpLater(s.env.log, s3.env.log, n, initial);
      TakenUpLater(s3.env.log, k.state.env.log, n, initial);
      if k.Known? {
        SweepTakesUp(o, k.state, l.reply.value, initial, k.k8, ps.reply.value, 0, {}, FRESH, n);
      }
    } else {
      TakenUpLater(s.env.log, c.state.env.log, n, initial);
    }
    TakenUpLater(c.state.env.log, Cycle(o, s, initial).state.env.log, n, initial);
  }
}
