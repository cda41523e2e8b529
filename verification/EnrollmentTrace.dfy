/** What the reconciliation of one project may do, under any policy: which events it adds to the log,
    in which order, and which part of the ledger it may change. */
module EnrollmentTrace {
  import opened EnrollmentTypes
  import opened EnrollmentSpec

  /** The two events before a mutation: the ledger with the mark reached the disk,
      then the policy was read again and still authorizes the mutation. */
  predicate Journaled(log: seq<Event>, i: nat, p: Policy, project: Id, k8: Id, mark: Id)
    requires i <= |log|
  {
    && 2 <= i
    && log[i - 2].LedgerSaved? && log[i - 2].ok && log[i - 2].reached
    && log[i - 2].ledger.EntryOf(project).pending == mark && log[i - 2].ledger.k8 == k8
    && log[i - 1].PolicyRead? && log[i - 1].policyReply.Ok?
    && log[i - 1].policyReply.value.Valid() && Authorizes(log[i - 1].policyReply.value, p, project)
  }

  /** The events a project may add. A K8 membership is never written with human authority. */
  predicate EventOk(log: seq<Event>, i: nat, p: Policy, project: Id, k8: Id)
    requires i < |log|
  {
    match log[i]
    case Enrolled(q) => q == project && Journaled(log, i, p, project, k8, HUMAN)
    case Granted(q, id, role, _, human) =>
      && q == project && Journaled(log, i, p, project, k8, id)
      && ((id == p.host && role == "admin") || (id == k8 && role == "viewer" && !human))
    case MembersRead(q, _, _) => q == project
    case Vetted(q, id, _) => q == project && id == k8
    case PolicyRead(_) => true
    case LedgerSaved(_, _, _) => true
    case _ => false
  }

  /** The same ledger except for the entry of one project. */
  ghost predicate Beside(l: Ledger, m: Ledger, project: Id) {
    && l == m.(projects := l.projects)
    && forall q | q != project :: l.EntryOf(q) == m.EntryOf(q)
  }

  ghost predicate Confined(s: State, t: State, p: Policy, project: Id, k8: Id) {
    && s.env.log <= t.env.log
    && Beside(t.mem, s.mem, project)
    && (t.env.disk == s.env.disk || (t.env.disk.Some? && Beside(t.env.disk.value, s.mem, project)))
    && forall i | |s.env.log| <= i < |t.env.log| :: EventOk(t.env.log, i, p, project, k8)
  }

  lemma Compose(s: State, t: State, u: State, p: Policy, project: Id, k8: Id)
    requires Confined(s, t, p, project, k8) && Confined(t, u, p, project, k8)
    ensures Confined(s, u, p, project, k8)
  {
    forall i | |s.env.log| <= i < |u.env.log| ensures EventOk(u.env.log, i, p, project, k8) {
      if i < |t.env.log| {
        assert EventOk(t.env.log, i, p, project, k8);
        assert forall j | 0 <= j <= i :: u.env.log[j] == t.env.log[j];
      }
    }
  }

  lemma RecordConfined(o: Oracle, s: State, p: Policy, project: Id, k8: Id, entry: Entry)
    ensures var r := Record(o, s, project, entry);
            Confined(s, State(s.mem.With(project, entry), r.env), p, project, k8)
  {
  }

  lemma RereadConfined(o: Oracle, s: State, p: Policy, project: Id, k8: Id, entry: Entry)
    ensures Confined(s, Reread(o, s, project, entry).state, p, project, k8)
  {
  }

  lemma RevokeConfined(o: Oracle, s: State, p: Policy, project: Id, k8: Id, entry: Entry)
    ensures Confined(s, Revoke(o, s, project, entry).state, p, project, k8)
  {
    RecordConfined(o, s, p, project, k8, entry.(revoked := true));
  }

  lemma ConfirmConfined(o: Oracle, s: State, p: Policy, project: Id, entry: Entry, items: seq<Membership>,
                     human: bool, t: Target, k8: Id)
    ensures Confined(s, Confirm(o, s, p, project, entry, items, human, t, k8).state, p, project, k8)
  {
    var e := t.MarkSeen(if entry.pending == t.IdOf(p.host, k8) then entry.(pending := "") else entry);
    RecordConfined(o, s, p, project, k8, e);
    var s1 := State(s.mem.With(project, e), Record(o, s, project, e).env);
    RereadConfined(o, s1, p, project, k8, e);
    Compose(s, s1, Reread(o, s1, project, e).state, p, project, k8);
  }

  lemma AnnounceConfined(o: Oracle, s: State, p: Policy, project: Id, k8: Id, entry: Entry)
    requires s.mem.k8 == k8
    ensures var mem := s.mem.With(project, entry);
            var a := Announce(o, s, mem, p, project);
            && Confined(s, a.state, p, project, k8) && a.state.mem == mem
            && (a.reply.Ok? ==> Journaled(a.state.env.log, |a.state.env.log|, p, project, k8, entry.pending))
  {
    var mem := s.mem.With(project, entry);
    var r := Save(o, mem, s.env);
    var a := Announce(o, s, mem, p, project);
    if a.reply.Ok? {
      var n := |a.state.env.log|;
      assert a.state.env.log[n - 1] == PolicyRead(LoadPolicy(o, r.env).reply);
      assert a.state.env.log[n - 2] == LedgerSaved(mem, true, true);
    }
  }

  /** A mutation right after its announcement. */
  lemma MutationConfined(s: State, t: State, p: Policy, project: Id, k8: Id, e: Event)
    requires Confined(s, t, p, project, k8)
    requires e.Enrolled? || e.Granted?
    requires e.project == project
    requires Journaled(t.env.log, |t.env.log|, p, project, k8, if e.Enrolled? then HUMAN else e.identity)
    requires e.Granted? ==>
               (e.identity == p.host && e.role == "admin") || (e.identity == k8 && e.role == "viewer" && !e.human)
    ensures Confined(s, t.(env := t.env.Note(e)), p, project, k8)
  {
    var u := t.(env := t.env.Note(e));
    assert EventOk(u.env.log, |t.env.log|, p, project, k8);
    Compose(s, t, u, p, project, k8);
  }

  lemma IssueConfined(o: Oracle, s: State, p: Policy, project: Id, entry: Entry, existing: bool,
                   human: bool, t: Target, k8: Id)
    requires s.mem.k8 == k8
    requires t.Reader? ==> !human
    ensures Confined(s, Issue(o, s, p, project, entry, existing, human, t, k8).state, p, project, k8)
  {
    var id := t.IdOf(p.host, k8);
    var f := entry.(pending := id);
    AnnounceConfined(o, s, p, project, k8, f);
    var a := Announce(o, s, s.mem.With(project, f), p, project);
    if a.reply.Ok? {
      MutationConfined(s, a.state, p, project, k8, Granted(project, id, t.Role(), existing, human));
    }
  }

  lemma ReadBackConfined(o: Oracle, s: State, p: Policy, project: Id, entry: Entry, human: bool, t: Target, k8: Id)
    ensures Confined(s, ReadBack(o, s, p, project, entry, human, t, k8).state, p, project, k8)
  {
    var b := ReadMembers(o, s.env, project, human);
    var s1 := s.(env := b.env);
    assert Confined(s, s1, p, project, k8);
    var e := t.MarkSeen(entry).(pending := "");
    RecordConfined(o, s1, p, project, k8, e);
    var s2 := State(s1.mem.With(project, e), Record(o, s1, project, e).env);
    Compose(s, s1, s2, p, project, k8);
    RereadConfined(o, s2, p, project, k8, e);
    Compose(s, s2, Reread(o, s2, project, e).state, p, project, k8);
  }

  lemma WriteConfined(o: Oracle, s: State, p: Policy, project: Id, entry: Entry, existing: bool,
                      human: bool, t: Target, k8: Id)
    requires s.mem.k8 == k8
    requires t.Reader? ==> !human
    ensures var g := Write(o, s, p, project, entry, existing, human, t, k8);
            Confined(s, g.state, p, project, k8) && (g.Next? ==> !g.human)
  {
    IssueConfined(o, s, p, project, entry, existing, human, t, k8);
    var i := Issue(o, s, p, project, entry, existing, human, t, k8);
    if i.Next? {
      ReadBackConfined(o, i.state, p, project, i.entry, human, t, k8);
      var b := ReadBack(o, i.state, p, project, i.entry, human, t, k8);
      Compose(s, i.state, b.state, p, project, k8);
      assert b.Next? ==> !b.human;
    }
  }

  lemma GrantConfined(o: Oracle, s: State, p: Policy, project: Id, entry: Entry, items: seq<Membership>,
                      human: bool, t: Target, k8: Id)
    requires s.mem.k8 == k8
    requires t.Reader? ==> !human
    ensures var g := Grant(o, s, p, project, entry, items, human, t, k8);
            Confined(s, g.state, p, project, k8) && (g.Next? ==> !g.human)
  {
    var m := Find(items, t.IdOf(p.host, k8));
    if m.Some? && m.value.Exact(t.Role()) {
      ConfirmConfined(o, s, p, project, entry, items, human, t, k8);
    } else if (t.Seen(entry) || m.Some?) && !p.repair {
      RevokeConfined(o, s, p, project, k8, entry);
    } else {
      WriteConfined(o, s, p, project, entry, m.Some?, human, t, k8);
    }
  }

  lemma FinalizeConfined(o: Oracle, s: State, p: Policy, project: Id, k8: Id, entry: Entry)
    ensures Confined(s, Finalize(o, s, project, k8, entry).state, p, project, k8)
  {
    var v := Vet(o, s.env, project, k8);
    var s1 := s.(env := v.env);
    assert Confined(s, s1, p, project, k8);
    var e := entry.(pending := "", revoked := false);
    RecordConfined(o, s1, p, project, k8, e);
    Compose(s, s1, State(s1.mem.With(project, e), Record(o, s1, project, e).env), p, project, k8);
  }

  lemma EnrollConfined(o: Oracle, s: State, p: Policy, project: Id, k8: Id, entry: Entry)
    requires s.mem.k8 == k8
    ensures Confined(s, Enroll(o, s, p, project, entry).state, p, project, k8)
  {
    var f := entry.(pending := HUMAN);
    AnnounceConfined(o, s, p, project, k8, f);
    var a := Announce(o, s, s.mem.With(project, f), p, project);
    if a.reply.Ok? {
      MutationConfined(s, a.state, p, project, k8, Enrolled(project));
      var t := a.state.(env := EnrollHuman(o, a.state.env, project).env);
      var u := t.(env := ReadMembers(o, t.env, project, true).env);
      assert Confined(t, u, p, project, k8);
      Compose(s, t, u, p, project, k8);
    }
  }

  lemma RecoverConfined(o: Oracle, s: State, p: Policy, project: Id, k8: Id, entry: Entry)
    requires s.mem.k8 == k8
    ensures Confined(s, Recover(o, s, p, project, entry).state, p, project, k8)
  {
    RevokeConfined(o, s, p, project, k8, entry);
    var s1 := s.(env := ReadMembers(o, s.env, project, true).env);
    assert Confined(s, s1, p, project, k8);
    EnrollConfined(o, s1, p, project, k8, entry);
    Compose(s, s1, Enroll(o, s1, p, project, entry).state, p, project, k8);
  }

  lemma DiscoverConfined(o: Oracle, s: State, p: Policy, project: Id, k8: Id)
    requires s.mem.k8 == k8
    ensures Confined(s, Discover(o, s, p, project).state, p, project, k8)
  {
    var entry := s.mem.EntryOf(project);
    var s1 := s.(env := ReadMembers(o, s.env, project, false).env);
    assert Confined(s, s1, p, project, k8);
    RecoverConfined(o, s1, p, project, k8, entry);
    Compose(s, s1, Recover(o, s1, p, project, entry).state, p, project, k8);
  }

  lemma GrantsConfined(o: Oracle, s: State, p: Policy, project: Id, k8: Id, entry: Entry,
                    items: seq<Membership>, human: bool)
    requires s.mem.k8 == k8
    ensures Confined(s, Grants(o, s, p, project, k8, entry, items, human).state, p, project, k8)
  {
    GrantConfined(o, s, p, project, entry, items, human, Host, k8);
    var h := Grant(o, s, p, project, entry, items, human, Host, k8);
    if h.Next? {
      GrantConfined(o, h.state, p, project, h.entry, h.items, h.human, Reader, k8);
      var r := Grant(o, h.state, p, project, h.entry, h.items, h.human, Reader, k8);
      Compose(s, h.state, r.state, p, project, k8);
      if r.Next? {
        FinalizeConfined(o, r.state, p, project, k8, r.entry);
        Compose(s, r.state, Finalize(o, r.state, project, k8, r.entry).state, p, project, k8);
      }
    }
  }

  /** Under any policy, reconciling a project issues only journaled and authorized mutations of that project,
      and leaves the rest of the ledger, in memory and on disk, as it was. */
  lemma ReconcileConfined(o: Oracle, s: State, p: Policy, project: Id, k8: Id)
    requires s.mem.k8 == k8
    ensures Confined(s, Reconcile(o, s, p, project, k8).state, p, project, k8)
  {
    DiscoverConfined(o, s, p, project, k8);
    var d := Discover(o, s, p, project);
    if d.Next? {
      GrantsConfined(o, d.state, p, project, k8, d.entry, d.items, d.human);
      Compose(s, d.state, Grants(o, d.state, p, project, k8, d.entry, d.items, d.human).state, p, project, k8);
    }
  }
}
