/** What every run keeps when no policy read asks for the repair of revocations: the write-ahead ledger,
    in memory and on disk, covers every mutation ever issued, and no mutation is issued twice. */
module EnrollmentSafety {
  import opened Replies
  import opened EnrollmentTypes
  import opened EnrollmentSpec

  ghost predicate NoRepair(o: Oracle) {
    forall n: nat :: o.policy(n).Ok? ==> !o.policy(n).value.repair
  }

  /** Two events that issue the same mutation. An identity whose id is the human marker is not told apart
      from a human enrollment, so it is left out here: see `GrantedAtMostOnceIff`. */
  predicate SameMutation(e: Event, f: Event) {
    || (e.Created? && f.Created?)
    || (e.Enrolled? && f.Enrolled? && e.project == f.project)
    || (e.Granted? && f.Granted? && e.project == f.project && e.identity == f.identity && e.identity != HUMAN)
  }

  ghost predicate Once(log: seq<Event>) {
    forall i, j | 0 <= i < j < |log| :: !SameMutation(log[i], log[j])
  }

  /** No grant ever overwrites an existing membership. */
  ghost predicate OnlyNew(log: seq<Event>) {
    forall i | 0 <= i < |log| && log[i].Granted? :: !log[i].existing
  }

  predicate Marked(l: Ledger, project: Id, id: Id) {
    var e := l.EntryOf(project);
    || (id == l.host && (e.pending == id || e.hostSeen))
    || (id == l.k8 && (e.pending == id || e.k8Seen))
  }

  /** The ledger still knows of the mutation. */
  predicate Covered(l: Ledger, e: Event) {
    match e
    case Created(_) => l.identityPending || l.k8 != ""
    case Enrolled(p) => l.EntryOf(p).pending != "" || l.EntryOf(p).hostSeen
    case Granted(p, id, _, _, _) => id != "" && (id != HUMAN ==> Marked(l, p, id))
    case _ => true
  }

  ghost predicate Covers(l: Ledger, log: seq<Event>) {
    forall i | 0 <= i < |log| :: Covered(l, log[i])
  }

  ghost predicate Untouched(log: seq<Event>) {
    forall i | 0 <= i < |log| :: !log[i].Mutation()
  }

  predicate LedgerOk(l: Ledger) {
    IsIdentifier(l.host) && l.k8 != l.host && (l.k8 != "" ==> IsIdentifier(l.k8))
  }

  /** `m` is a later content of the ledger `d`: same scope, same K8 identity once known, revocations kept. */
  ghost predicate Continues(d: Ledger, m: Ledger) {
    && d.organization == m.organization && d.host == m.host
    && (d.k8 != "" ==> m.k8 == d.k8)
    && forall p | d.EntryOf(p).revoked :: m.EntryOf(p).revoked
  }

  ghost predicate DiskOk(env: Env) {
    && Once(env.log) && OnlyNew(env.log)
    && (env.disk.None? ==> Untouched(env.log))
    && (env.disk.Some? ==> LedgerOk(env.disk.value) && Covers(env.disk.value, env.log))
  }

  ghost predicate Inv(s: State) {
    && DiskOk(s.env)
    && LedgerOk(s.mem) && Covers(s.mem, s.env.log)
    && (s.env.disk.Some? ==> Continues(s.env.disk.value, s.mem))
  }

  // ---------------------------------------------------------------- single calls

  lemma NoteKeeps(s: State, e: Event)
    requires Inv(s) && !e.Mutation()
    ensures Inv(s.(env := s.env.Note(e)))
  {
    var log' := s.env.log + [e];
    assert forall i | 0 <= i < |log'| && log'[i].Mutation() :: i < |s.env.log| && log'[i] == s.env.log[i];
  }

  lemma SaveKeeps(o: Oracle, s: State, mem: Ledger)
    requires Inv(s) && LedgerOk(mem) && Covers(mem, s.env.log) && Continues(s.mem, mem)
    ensures var r := Save(o, mem, s.env);
            Inv(State(mem, r.env)) && (r.reply.Ok? ==> r.env.disk == Some(mem))
  {
    var a := o.save(s.env.now);
    NoteKeeps(s, LedgerSaved(mem, a.Reached(), a.Saved?));
    var env := s.env.Note(LedgerSaved(mem, a.Reached(), a.Saved?));
    assert Covers(mem, env.log);
    var r := Save(o, mem, s.env);
    assert r.env.log == env.log;
    if r.env.disk.Some? {
      assert Continues(r.env.disk.value, mem);
    }
  }

  /** A mutation may be issued when the disk already marks it and it was not issued before. */
  lemma IssueKeeps(s: State, e: Event)
    requires Inv(s) && e.Mutation() && Covered(s.mem, e)
    requires s.env.disk == Some(s.mem)
    requires forall i | 0 <= i < |s.env.log| :: !SameMutation(s.env.log[i], e)
    requires e.Granted? ==> !e.existing
    ensures Inv(s.(env := s.env.Note(e)))
  {
    var log' := s.env.log + [e];
    assert forall i | 0 <= i < |log'| :: Covered(s.mem, log'[i]);
  }

  lemma PolicyKeeps(o: Oracle, s: State)
    requires Inv(s) && NoRepair(o)
    ensures var r := LoadPolicy(o, s.env);
            Inv(s.(env := r.env)) && r.env.disk == s.env.disk
            && (r.reply.Ok? ==> r.reply.value.Valid() && !r.reply.value.repair)
  {
    NoteKeeps(s, PolicyRead(LoadPolicy(o, s.env).reply));
  }

  lemma AuthorizeKeeps(o: Oracle, s: State, p: Policy, project: Id)
    requires Inv(s) && NoRepair(o)
    ensures var r := Authorize(o, s.env, p, project); Inv(s.(env := r.env)) && r.env.disk == s.env.disk
  {
    PolicyKeeps(o, s);
  }

  lemma ReadKeeps(o: Oracle, s: State, project: Id, human: bool)
    requires Inv(s)
    ensures Inv(s.(env := ReadMembers(o, s.env, project, human).env))
  {
    NoteKeeps(s, MembersRead(project, human, o.members(s.env.now)));
  }

  /** Journal and policy read issue nothing; if both succeed, the disk holds the ledger in memory. */
  lemma AnnounceKeeps(o: Oracle, s: State, mem: Ledger, p: Policy, project: Id)
    requires NoRepair(o) && Inv(s) && LedgerOk(mem) && Covers(mem, s.env.log) && Continues(s.mem, mem)
    ensures var a := Announce(o, s, mem, p, project);
            && Inv(a.state) && a.state.mem == mem && (a.reply.Ok? ==> a.state.env.disk == Some(mem))
            && s.env.log <= a.state.env.log
            && forall i | |s.env.log| <= i < |a.state.env.log| :: !a.state.env.log[i].Mutation()
  {
    SaveKeeps(o, s, mem);
    AuthorizeKeeps(o, State(mem, Save(o, mem, s.env).env), p, project);
  }

  /** After an announcement that succeeded, a mutation that is marked and not yet issued may be issued. */
  lemma AnnouncedKeeps(s: State, t: State, e: Event)
    requires Inv(t) && t.env.disk == Some(t.mem) && s.env.log <= t.env.log
    requires e.Mutation() && Covered(t.mem, e) && (e.Granted? ==> !e.existing)
    requires forall i | 0 <= i < |s.env.log| :: !SameMutation(s.env.log[i], e)
    requires forall i | |s.env.log| <= i < |t.env.log| :: !t.env.log[i].Mutation()
    ensures Inv(t.(env := t.env.Note(e)))
  {
    forall i | 0 <= i < |t.env.log| ensures !SameMutation(t.env.log[i], e) {
      if i < |s.env.log| {
        assert t.env.log[i] == s.env.log[i];
      }
    }
    IssueKeeps(t, e);
  }

  // ---------------------------------------------------------------- one project

  /** An entry may only gain knowledge: what was seen stays seen, and a pending write stays pending until seen. */
  predicate Grows(host: Id, k8: Id, e: Entry, f: Entry) {
    && (e.hostSeen ==> f.hostSeen) && (e.k8Seen ==> f.k8Seen) && (e.revoked ==> f.revoked)
    && (e.pending != "" ==> f.pending != "" || f.hostSeen)
    && (e.pending == host && host != HUMAN ==> f.pending == host || f.hostSeen)
    && (e.pending == k8 && k8 != "" && k8 != HUMAN ==> f.pending == k8 || f.k8Seen)
  }

  /** The ledger in memory holds exactly the entry the project code works on, and it is not revoked. */
  ghost predicate Working(s: State, p: Policy, project: Id, k8: Id, entry: Entry) {
    && Inv(s) && !p.repair && IsIdentifier(p.host) && IsIdentifier(k8) && k8 != p.host
    && s.mem.host == p.host && s.mem.k8 == k8
    && s.mem.EntryOf(project) == entry && !entry.revoked
  }

  lemma WithKeeps(s: State, project: Id, entry: Entry)
    requires Inv(s) && Grows(s.mem.host, s.mem.k8, s.mem.EntryOf(project), entry)
    ensures var mem := s.mem.With(project, entry);
            LedgerOk(mem) && Covers(mem, s.env.log) && Continues(s.mem, mem)
  {
    var mem := s.mem.With(project, entry);
    forall i | 0 <= i < |s.env.log| ensures Covered(mem, s.env.log[i]) {
      assert Covered(s.mem, s.env.log[i]);
    }
  }

  lemma RecordKeeps(o: Oracle, s: State, p: Policy, project: Id, k8: Id, e: Entry, f: Entry)
    requires Working(s, p, project, k8, e) && Grows(p.host, k8, e, f)
    ensures var r := Record(o, s, project, f);
            var s' := State(s.mem.With(project, f), r.env);
            && Inv(s')
            && (!f.revoked ==> Working(s', p, project, k8, f))
            && (r.reply.Ok? ==> s'.env.disk == Some(s'.mem))
  {
    WithKeeps(s, project, f);
    SaveKeeps(o, s, s.mem.With(project, f));
  }

  ghost predicate StageOk(g: Stage, p: Policy, project: Id, k8: Id) {
    if g.Stop? then Inv(g.state) && g.state.mem.host == p.host && g.state.mem.k8 == k8
    else Working(g.state, p, project, k8, g.entry)
  }

  lemma RereadKeeps(o: Oracle, s: State, p: Policy, project: Id, k8: Id, entry: Entry)
    requires Working(s, p, project, k8, entry)
    ensures StageOk(Reread(o, s, project, entry), p, project, k8)
  {
    ReadKeeps(o, s, project, false);
  }

  lemma ConfirmKeeps(o: Oracle, s: State, p: Policy, project: Id, entry: Entry, items: seq<Membership>,
                     human: bool, t: Target, k8: Id)
    requires Working(s, p, project, k8, entry) && (t.Reader? ==> entry.hostSeen)
    ensures var g := Confirm(o, s, p, project, entry, items, human, t, k8);
            StageOk(g, p, project, k8) && (g.Next? ==> g.entry.hostSeen && t.Seen(g.entry))
  {
    var id := t.IdOf(p.host, k8);
    var f := t.MarkSeen(if entry.pending == id then entry.(pending := "") else entry);
    RecordKeeps(o, s, p, project, k8, entry, f);
    RereadKeeps(o, State(s.mem.With(project, f), Record(o, s, project, f).env), p, project, k8, f);
  }

  lemma RevokeKeeps(o: Oracle, s: State, p: Policy, project: Id, k8: Id, entry: Entry)
    requires Working(s, p, project, k8, entry)
    ensures var r := Revoke(o, s, project, entry);
            Inv(r.state) && r.state.mem.host == p.host && r.state.mem.k8 == k8
  {
    RecordKeeps(o, s, p, project, k8, entry, entry.(revoked := true));
  }

  /** The heart of the protocol: what is neither seen nor pending was never issued. */
  lemma NotIssuedYet(s: State, p: Policy, project: Id, k8: Id, entry: Entry, t: Target, log: seq<Event>, e: Event)
    requires Working(s, p, project, k8, entry) && !t.Seen(entry)
    requires entry.pending == "" || entry.pending == HUMAN
    requires e.Granted? && e.project == project && e.identity == t.IdOf(p.host, k8)
    requires log == s.env.log
    ensures forall i | 0 <= i < |log| :: !SameMutation(log[i], e)
  {
    forall i | 0 <= i < |log| ensures !SameMutation(log[i], e) {
      assert Covered(s.mem, log[i]);
    }
  }

  lemma IssueStageKeeps(o: Oracle, s: State, p: Policy, project: Id, entry: Entry, human: bool, t: Target, k8: Id)
    requires Working(s, p, project, k8, entry) && NoRepair(o) && !t.Seen(entry)
    requires entry.pending == "" || entry.pending == HUMAN
    ensures var g := Issue(o, s, p, project, entry, false, human, t, k8);
            StageOk(g, p, project, k8) && (g.Next? ==> g.entry == entry.(pending := t.IdOf(p.host, k8)))
  {
    var id := t.IdOf(p.host, k8);
    var f := entry.(pending := id);
    WithKeeps(s, project, f);
    AnnounceKeeps(o, s, s.mem.With(project, f), p, project);
    var a := Announce(o, s, s.mem.With(project, f), p, project);
    if a.reply.Ok? {
      GrantedKeeps(s, p, project, entry, t, k8, a.state, Granted(project, id, t.Role(), false, human));
    }
  }

  /** The grant itself, after its mark reached the disk. */
  lemma GrantedKeeps(s: State, p: Policy, project: Id, entry: Entry, t: Target, k8: Id, a: State, e: Event)
    requires Working(s, p, project, k8, entry) && !t.Seen(entry) && (entry.pending == "" || entry.pending == HUMAN)
    requires e.Granted? && e.project == project && e.identity == t.IdOf(p.host, k8) && !e.existing
    requires Inv(a) && a.mem == s.mem.With(project, entry.(pending := e.identity)) && a.env.disk == Some(a.mem)
    requires s.env.log <= a.env.log && forall i | |s.env.log| <= i < |a.env.log| :: !a.env.log[i].Mutation()
    ensures Inv(a.(env := a.env.Note(e)))
  {
    NotIssuedYet(s, p, project, k8, entry, t, s.env.log, e);
    AnnouncedKeeps(s, a, e);
  }

  lemma ReadBackKeeps(o: Oracle, s: State, p: Policy, project: Id, entry: Entry, human: bool, t: Target, k8: Id)
    requires Working(s, p, project, k8, entry) && (t.Reader? ==> entry.hostSeen)
    requires entry.pending == t.IdOf(p.host, k8)
    ensures var g := ReadBack(o, s, p, project, entry, human, t, k8);
            StageOk(g, p, project, k8) && (g.Next? ==> g.entry.hostSeen && t.Seen(g.entry))
  {
    ReadKeeps(o, s, project, human);
    var b := ReadMembers(o, s.env, project, human);
    var s1 := s.(env := b.env);
    var f := t.MarkSeen(entry).(pending := "");
    RecordKeeps(o, s1, p, project, k8, entry, f);
    RereadKeeps(o, State(s1.mem.With(project, f), Record(o, s1, project, f).env), p, project, k8, f);
  }

  lemma GrantKeeps(o: Oracle, s: State, p: Policy, project: Id, entry: Entry, items: seq<Membership>,
                   human: bool, t: Target, k8: Id)
    requires Working(s, p, project, k8, entry) && NoRepair(o) && (t.Reader? ==> entry.hostSeen)
    ensures var g := Grant(o, s, p, project, entry, items, human, t, k8);
            StageOk(g, p, project, k8) && (g.Next? ==> g.entry.hostSeen && t.Seen(g.entry))
  {
    var id := t.IdOf(p.host, k8);
    var m := Find(items, id);
    if m.Some? && m.value.Exact(t.Role()) {
      ConfirmKeeps(o, s, p, project, entry, items, human, t, k8);
    } else if t.Seen(entry) || m.Some? {
      RevokeKeeps(o, s, p, project, k8, entry);
    } else if entry.pending == "" || entry.pending == HUMAN {
      if p.apply {
        IssueStageKeeps(o, s, p, project, entry, human, t, k8);
        var i := Issue(o, s, p, project, entry, false, human, t, k8);
        if i.Next? {
          ReadBackKeeps(o, i.state, p, project, i.entry, human, t, k8);
        }
      }
    }
  }

  lemma FinalizeKeeps(o: Oracle, s: State, p: Policy, project: Id, k8: Id, entry: Entry)
    requires Working(s, p, project, k8, entry) && entry.hostSeen && entry.k8Seen
    ensures var r := Finalize(o, s, project, k8, entry);
            Inv(r.state) && r.state.mem.host == p.host && r.state.mem.k8 == k8
  {
    NoteKeeps(s, Vetted(project, k8, o.vet(s.env.now).Ok?));
    RecordKeeps(o, s.(env := Vet(o, s.env, project, k8).env), p, project, k8, entry,
                entry.(pending := "", revoked := false));
  }

  lemma EnrollKeeps(o: Oracle, s: State, p: Policy, project: Id, k8: Id, entry: Entry)
    requires Working(s, p, project, k8, entry) && NoRepair(o) && entry.pending == "" && !entry.hostSeen
    ensures StageOk(Enroll(o, s, p, project, entry), p, project, k8)
  {
    var f := entry.(pending := HUMAN);
    WithKeeps(s, project, f);
    AnnounceKeeps(o, s, s.mem.With(project, f), p, project);
    var a := Announce(o, s, s.mem.With(project, f), p, project);
    if a.reply.Ok? {
      var e := Enrolled(project);
      forall i | 0 <= i < |s.env.log| ensures !SameMutation(s.env.log[i], e) {
        assert Covered(s.mem, s.env.log[i]);
      }
      AnnouncedKeeps(s, a.state, e);
      ReadKeeps(o, a.state.(env := EnrollHuman(o, a.state.env, project).env), project, true);
    }
  }

  lemma RecoverKeeps(o: Oracle, s: State, p: Policy, project: Id, k8: Id, entry: Entry)
    requires Working(s, p, project, k8, entry) && NoRepair(o)
    ensures StageOk(Recover(o, s, p, project, entry), p, project, k8)
  {
    if entry.hostSeen {
      RevokeKeeps(o, s, p, project, k8, entry);
    } else if p.apply {
      ReadKeeps(o, s, project, true);
      if entry.pending == "" {
        EnrollKeeps(o, s.(env := ReadMembers(o, s.env, project, true).env), p, project, k8, entry);
      }
    }
  }

  lemma DiscoverKeeps(o: Oracle, s: State, p: Policy, project: Id, k8: Id)
    requires Inv(s) && NoRepair(o) && !p.repair && IsIdentifier(k8) && k8 != p.host
    requires s.mem.host == p.host && s.mem.k8 == k8
    ensures StageOk(Discover(o, s, p, project), p, project, k8)
  {
    var entry := s.mem.EntryOf(project);
    if !entry.revoked {
      ReadKeeps(o, s, project, false);
      RecoverKeeps(o, s.(env := ReadMembers(o, s.env, project, false).env), p, project, k8, entry);
    }
  }

  lemma ReconcileKeeps(o: Oracle, s: State, p: Policy, project: Id, k8: Id)
    requires Inv(s) && NoRepair(o) && !p.repair && IsIdentifier(k8) && k8 != p.host
    requires s.mem.host == p.host && s.mem.k8 == k8
    ensures var r := Reconcile(o, s, p, project, k8);
            Inv(r.state) && r.state.mem.host == p.host && r.state.mem.k8 == k8
  {
    DiscoverKeeps(o, s, p, project, k8);
    var d := Discover(o, s, p, project);
    if d.Next? {
      GrantKeeps(o, d.state, p, project, d.entry, d.items, d.human, Host, k8);
      var h := Grant(o, d.state, p, project, d.entry, d.items, d.human, Host, k8);
      if h.Next? {
        GrantKeeps(o, h.state, p, project, h.entry, h.items, h.human, Reader, k8);
        var r := Grant(o, h.state, p, project, h.entry, h.items, h.human, Reader, k8);
        if r.Next? {
          FinalizeKeeps(o, r.state, p, project, k8, r.entry);
        }
      }
    }
  }
}
