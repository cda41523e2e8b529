/** When a grant that vanished is revoked: told from the lists that were read, in both directions, and joined to the
    theorem that a revocation is final. */
module EnrollmentRevocation {
  import opened Replies
  import opened EnrollmentTypes
  import opened EnrollmentSpec
  import opened EnrollmentTrace
  import opened EnrollmentSafety
  import opened EnrollmentLimits

  // ---------------------------------------------------------------- the reasons for a revocation

  /** The identity lacks the exact role although it once had it or is a member with another role. */
  predicate Vanished(items: seq<Membership>, id: Id, role: string, seen: bool) {
    !HasExact(items, id, role) && (seen || Find(items, id).Some?)
  }

  /** The list read at i is the first of the reconciliation that began at n: it follows neither a save nor a grant. */
  predicate FirstList(log: seq<Event>, n: nat, i: int) {
    n <= i < |log| && (i == n || !(log[i - 1].LedgerSaved? || log[i - 1].Granted?))
  }

  predicate SavedAt(log: seq<Event>, i: nat) {
    i < |log| && log[i].LedgerSaved? && log[i].ok
  }

  /** What was read at i is a reason to revoke, given the entry the reconciliation began with at n: the machine may
      no longer read a project the host was seen in; the first list shows that the host's grant vanished; or a list
      that is read once the host's role is recorded shows that the K8 identity's grant vanished. */
  predicate Reason(log: seq<Event>, n: nat, i: nat, entry: Entry, p: Policy, k8: Id) {
    && n <= i < |log| && log[i].MembersRead?
    && match log[i].members
       case Err(x) => i == n && Forbidden(x) && entry.hostSeen
       case Crashed => false
       case Ok(items) =>
         if !FirstList(log, n, i) then
           log[i - 1].LedgerSaved? && Vanished(items, k8, "viewer", entry.k8Seen)
         else if !HasExact(items, p.host, "admin") then
           Vanished(items, p.host, "admin", entry.hostSeen)
         else
           i == n && SavedAt(log, n + 1) && Vanished(items, k8, "viewer", entry.k8Seen)
  }

  ghost predicate HasReason(log: seq<Event>, n: nat, entry: Entry, p: Policy, k8: Id) {
    exists i: nat :: Reason(log, n, i, entry, p, k8)
  }

  // ---------------------------------------------------------------- what later events change

  /** No list at the end of the log still waits for the save that follows it. */
  predicate Settled(log: seq<Event>, n: nat) {
    n < |log| && (log[|log| - 1].MembersRead? ==> !FirstList(log, n, |log| - 1))
  }

  /** Later events without a list, except the one that is read back after a grant. */
  ghost predicate Inert(log: seq<Event>, log': seq<Event>) {
    log <= log' && forall i | |log| <= i < |log'| :: log'[i].MembersRead? ==> i > |log| && log'[i - 1].Granted?
  }

  lemma ReasonKept(log: seq<Event>, log': seq<Event>, n: nat, i: nat, entry: Entry, p: Policy, k8: Id)
    requires log <= log' && i < |log| && (i + 1 < |log| || !FirstList(log, n, i))
    ensures Reason(log', n, i, entry, p, k8) <==> Reason(log, n, i, entry, p, k8)
  {
  }

  lemma InertKeeps(log: seq<Event>, log': seq<Event>, n: nat, entry: Entry, p: Policy, k8: Id)
    requires Settled(log, n) && Inert(log, log')
    ensures HasReason(log', n, entry, p, k8) <==> HasReason(log, n, entry, p, k8)
  {
    forall i: nat ensures Reason(log', n, i, entry, p, k8) <==> Reason(log, n, i, entry, p, k8) {
      if i < |log| {
        if i + 1 < |log| || !FirstList(log, n, i) {
          ReasonKept(log, log', n, i, entry, p, k8);
        }
      }
    }
  }

  // ---------------------------------------------------------------- the reads up to the first list

  ghost predicate Revoked(s: State, project: Id) {
    s.mem.EntryOf(project).revoked
  }

  /** The first list has just been read. */
  ghost predicate AtFirstList(d: Stage, n: nat, project: Id, entry: Entry) {
    && d.Next? && var log, i := d.state.env.log, |d.state.env.log| - 1;
       && FirstList(log, n, i) && log[i] == MembersRead(project, d.human, Ok(d.items)) && (d.human <==> i > n)
       && !d.entry.revoked && !d.state.mem.EntryOf(project).revoked
       && d.entry.hostSeen == entry.hostSeen && d.entry.k8Seen == entry.k8Seen
  }

  /** Every reason in the log is at its last event. */
  ghost predicate NoneBefore(log: seq<Event>, n: nat, entry: Entry, p: Policy, k8: Id) {
    forall i: nat | i + 1 < |log| :: !Reason(log, n, i, entry, p, k8)
  }

  /** The stage stopped, and it revoked exactly if there was a reason. */
  ghost predicate Decided(g: Stage, n: nat, project: Id, entry: Entry, p: Policy, k8: Id) {
    g.Stop? && (Revoked(g.state, project) <==> HasReason(g.state.env.log, n, entry, p, k8))
  }

  lemma EnrollReads(o: Oracle, s: State, p: Policy, project: Id, entry: Entry)
    ensures var d, n := Enroll(o, s, p, project, entry), |s.env.log|;
            && s.env.log <= d.state.env.log
            && (forall i | n <= i < |d.state.env.log| - 1 :: !d.state.env.log[i].MembersRead?)
            && (d.Stop? ==> forall i | n <= i < |d.state.env.log| ::
                  d.state.env.log[i].MembersRead? ==> !d.state.env.log[i].members.Ok?)
            && (d.Next? ==>
                  && |d.state.env.log| >= n + 2 && d.human && d.entry == entry.(pending := HUMAN)
                  && d.state.env.log[|d.state.env.log| - 1] == MembersRead(project, true, Ok(d.items))
                  && d.state.env.log[|d.state.env.log| - 2] == Enrolled(project))
            && d.state.mem.EntryOf(project) == entry.(pending := HUMAN)
  {
  }

  /** The host was never seen in a project the machine may not read: only a list read with human authority decides. */
  lemma UnseenDecides(d: Stage, log: seq<Event>, project: Id, entry: Entry, p: Policy, k8: Id, n: nat)
    requires |log| == n + 1 && log[n].MembersRead? && log[n].members.Err? && !entry.hostSeen
    requires log <= d.state.env.log && !d.state.mem.EntryOf(project).revoked
    requires forall i | n < i < |d.state.env.log| - 1 ::
               d.state.env.log[i].MembersRead? ==> !d.state.env.log[i].members.Ok?
    requires var log' := d.state.env.log;
             if d.Next? then
               && |log'| > n + 1 && log'[|log'| - 1] == MembersRead(project, true, Ok(d.items)) && d.human
               && !(log'[|log'| - 2].LedgerSaved? || log'[|log'| - 2].Granted?)
               && !d.entry.revoked && !d.entry.hostSeen && d.entry.k8Seen == entry.k8Seen
             else
               log'[|log'| - 1].MembersRead? ==> !log'[|log'| - 1].members.Ok?
    ensures || Decided(d, n, project, entry, p, k8)
            || (AtFirstList(d, n, project, entry) && NoneBefore(d.state.env.log, n, entry, p, k8))
  {
    var log' := d.state.env.log;
    assert log'[n] == log[n];
    forall i: nat | i < |log'| - 1 ensures !Reason(log', n, i, entry, p, k8) {
    }
    if d.Stop? {
      assert !Reason(log', n, |log'| - 1, entry, p, k8);
      assert !HasReason(log', n, entry, p, k8);
    }
  }

  /** The machine may not read the project: the first event of the reconciliation. */
  lemma RecoverDecides(o: Oracle, s: State, p: Policy, project: Id, entry: Entry, k8: Id, log: seq<Event>, x: Error)
    requires s.env.log == log + [MembersRead(project, false, Err(x))] && Forbidden(x)
    requires entry == s.mem.EntryOf(project) && !entry.revoked && !p.repair
    ensures var d, n := Recover(o, s, p, project, entry), |log|;
            || Decided(d, n, project, entry, p, k8)
            || (AtFirstList(d, n, project, entry) && NoneBefore(d.state.env.log, n, entry, p, k8))
  {
    var d, n := Recover(o, s, p, project, entry), |log|;
    if entry.hostSeen {
      assert Reason(d.state.env.log, n, n, entry, p, k8);
    } else {
      var s1 := s.(env := ReadMembers(o, s.env, project, true).env);
      EnrollReads(o, s1, p, project, entry);
      UnseenDecides(d, s.env.log, project, entry, p, k8, n);
    }
  }

  lemma DiscoverDecides(o: Oracle, s: State, p: Policy, project: Id, k8: Id)
    requires !s.mem.EntryOf(project).revoked && !p.repair
    ensures var d, n, entry := Discover(o, s, p, project), |s.env.log|, s.mem.EntryOf(project);
            || Decided(d, n, project, entry, p, k8)
            || (AtFirstList(d, n, project, entry) && NoneBefore(d.state.env.log, n, entry, p, k8))
  {
    var r := ReadMembers(o, s.env, project, false);
    var entry := s.mem.EntryOf(project);
    if r.reply.Err? && Forbidden(r.reply.error) {
      RecoverDecides(o, s.(env := r.env), p, project, entry, k8, s.env.log, r.reply.error);
    } else {
      var d := Discover(o, s, p, project);
      assert !r.reply.Ok? ==> !HasReason(d.state.env.log, |s.env.log|, entry, p, k8);
    }
  }

  // ---------------------------------------------------------------- the host

  /** The host's role is recorded, and the list in hand decides about the K8 identity. */
  ghost predicate AtReader(g: Stage, n: nat, project: Id, entry: Entry, p: Policy, k8: Id) {
    && g.Next? && !g.human && Settled(g.state.env.log, n)
    && !g.entry.revoked && !Revoked(g.state, project) && g.entry.k8Seen == entry.k8Seen
    && (HasReason(g.state.env.log, n, entry, p, k8) <==> Vanished(g.items, k8, "viewer", entry.k8Seen))
  }

  ghost predicate HostDone(g: Stage, n: nat, project: Id, entry: Entry, p: Policy, k8: Id) {
    Decided(g, n, project, entry, p, k8) || AtReader(g, n, project, entry, p, k8)
  }

  lemma FirstListKept(log: seq<Event>, log': seq<Event>, n: nat, entry: Entry, p: Policy, k8: Id)
    requires NoneBefore(log, n, entry, p, k8) && log <= log'
    ensures forall i: nat | i + 1 < |log| :: !Reason(log', n, i, entry, p, k8)
  {
    forall i: nat | i + 1 < |log| ensures !Reason(log', n, i, entry, p, k8) {
      ReasonKept(log, log', n, i, entry, p, k8);
    }
  }

  lemma HostRevoked(o: Oracle, d: Stage, p: Policy, project: Id, k8: Id, n: nat, entry: Entry)
    requires AtFirstList(d, n, project, entry) && NoneBefore(d.state.env.log, n, entry, p, k8)
    requires Vanished(d.items, p.host, "admin", entry.hostSeen)
    ensures var r := Revoke(o, d.state, project, d.entry);
            Revoked(r.state, project) && HasReason(r.state.env.log, n, entry, p, k8)
  {
    var r := Revoke(o, d.state, project, d.entry);
    var i := |d.state.env.log| - 1;
    assert r.state.env.log[i] == d.state.env.log[i];
    assert Reason(r.state.env.log, n, i, entry, p, k8);
  }

  lemma HostConfirmed(o: Oracle, d: Stage, p: Policy, project: Id, k8: Id, n: nat, entry: Entry)
    requires AtFirstList(d, n, project, entry) && NoneBefore(d.state.env.log, n, entry, p, k8)
    requires HasExact(d.items, p.host, "admin")
    ensures HostDone(Confirm(o, d.state, p, project, d.entry, d.items, d.human, Host, k8), n, project, entry, p, k8)
  {
    var g := Confirm(o, d.state, p, project, d.entry, d.items, d.human, Host, k8);
    var log, log' := d.state.env.log, g.state.env.log;
    var m := |log|;
    FirstListKept(log, log', n, entry, p, k8);
    assert log'[m - 1] == log[m - 1] && log'[m].LedgerSaved?;
    assert SavedAt(log', m) <==> o.save(d.state.env.now).Saved?;
    if d.human {
      assert !Reason(log', n, m - 1, entry, p, k8);
      if |log'| > m + 1 {
        assert Reason(log', n, m + 1, entry, p, k8) <==>
          (g.Next? && Vanished(g.items, k8, "viewer", entry.k8Seen));
      }
    } else {
      assert m - 1 == n;
      assert Reason(log', n, n, entry, p, k8) <==> (SavedAt(log', m) && Vanished(d.items, k8, "viewer", entry.k8Seen));
    }
  }

  lemma AnnounceReads(o: Oracle, s: State, mem: Ledger, p: Policy, project: Id)
    ensures var a := Announce(o, s, mem, p, project);
            && s.env.log < a.state.env.log && a.state.mem == mem
            && forall i | |s.env.log| <= i < |a.state.env.log| :: !a.state.env.log[i].MembersRead?
  {
  }

  /** Up to the request nothing is read. */
  lemma IssueReads(o: Oracle, s: State, p: Policy, project: Id, entry: Entry, existing: bool,
                   human: bool, t: Target, k8: Id)
    ensures var g := Issue(o, s, p, project, entry, existing, human, t, k8);
            && s.env.log < g.state.env.log
            && (forall i | |s.env.log| <= i < |g.state.env.log| :: !g.state.env.log[i].MembersRead?)
            && (g.Next? ==>
                  && g.state.env.log[|g.state.env.log| - 1].Granted?
                  && g.entry == entry.(pending := g.entry.pending))
            && (!entry.revoked ==> !Revoked(g.state, project))
  {
    AnnounceReads(o, s, s.mem.With(project, entry.(pending := t.IdOf(p.host, k8))), p, project);
  }

  /** What is read back after the request, and for the host once more. */
  lemma ReadBackReads(o: Oracle, s: State, p: Policy, project: Id, entry: Entry, human: bool, t: Target, k8: Id)
    requires !entry.revoked && !Revoked(s, project) && (t.Reader? ==> !human)
    ensures var g := ReadBack(o, s, p, project, entry, human, t, k8);
            && s.env.log < g.state.env.log && |g.state.env.log| <= |s.env.log| + 3
            && (|g.state.env.log| > |s.env.log| + 1 ==> g.state.env.log[|s.env.log| + 1].LedgerSaved?)
            && (t.Reader? ==> |g.state.env.log| <= |s.env.log| + 2)
            && (g.Next? && t.Host? ==>
                  && |g.state.env.log| == |s.env.log| + 3
                  && g.state.env.log[|s.env.log| + 2] == MembersRead(project, false, Ok(g.items)))
            && (g.Stop? && |g.state.env.log| == |s.env.log| + 3 ==>
                  && g.state.env.log[|s.env.log| + 2].MembersRead? && !g.state.env.log[|s.env.log| + 2].members.Ok?)
            && (g.Next? ==> !g.human && !g.entry.revoked && (t.Host? ==> g.entry.k8Seen == entry.k8Seen))
            && !Revoked(g.state, project)
  {
  }

  lemma NoReasonYet(d: Stage, mid: seq<Event>, p: Policy, project: Id, k8: Id, n: nat, entry: Entry)
    requires AtFirstList(d, n, project, entry) && NoneBefore(d.state.env.log, n, entry, p, k8)
    requires !HasExact(d.items, p.host, "admin") && !Vanished(d.items, p.host, "admin", entry.hostSeen)
    requires d.state.env.log <= mid && forall i | |d.state.env.log| <= i < |mid| :: !mid[i].MembersRead?
    ensures forall j: nat | j < |mid| :: !Reason(mid, n, j, entry, p, k8)
  {
    var log := d.state.env.log;
    assert mid[|log| - 1] == log[|log| - 1];
    FirstListKept(log, mid, n, entry, p, k8);
  }

  lemma HostWritten(o: Oracle, d: Stage, p: Policy, project: Id, k8: Id, n: nat, entry: Entry, existing: bool)
    requires AtFirstList(d, n, project, entry) && NoneBefore(d.state.env.log, n, entry, p, k8)
    requires !HasExact(d.items, p.host, "admin") && !Vanished(d.items, p.host, "admin", entry.hostSeen)
    ensures HostDone(Write(o, d.state, p, project, d.entry, existing, d.human, Host, k8), n, project, entry, p, k8)
  {
    var i := Issue(o, d.state, p, project, d.entry, existing, d.human, Host, k8);
    IssueReads(o, d.state, p, project, d.entry, existing, d.human, Host, k8);
    var mid := i.state.env.log;
    NoReasonYet(d, mid, p, project, k8, n, entry);
    if i.Next? {
      HostReadBack(o, i, p, project, k8, n, entry, d.human);
    }
  }

  /** The request was made: what is read back is no reason, the list read after it decides. */
  lemma HostReadBack(o: Oracle, i: Stage, p: Policy, project: Id, k8: Id, n: nat, entry: Entry, human: bool)
    requires i.Next? && n < |i.state.env.log| && i.state.env.log[|i.state.env.log| - 1].Granted?
    requires forall j: nat | j < |i.state.env.log| :: !Reason(i.state.env.log, n, j, entry, p, k8)
    requires !i.entry.revoked && !Revoked(i.state, project) && i.entry.k8Seen == entry.k8Seen
    ensures HostDone(ReadBack(o, i.state, p, project, i.entry, human, Host, k8), n, project, entry, p, k8)
  {
    ReadBackReads(o, i.state, p, project, i.entry, human, Host, k8);
    ReadBackDecides(i.state.env.log, ReadBack(o, i.state, p, project, i.entry, human, Host, k8), n, project, entry, p,
                    k8);
  }

  lemma ReadBackDecides(mid: seq<Event>, g: Stage, n: nat, project: Id, entry: Entry, p: Policy, k8: Id)
    requires forall j: nat | j < |mid| :: !Reason(mid, n, j, entry, p, k8)
    requires n < |mid| && mid[|mid| - 1].Granted? && mid < g.state.env.log && |g.state.env.log| <= |mid| + 3
    requires |g.state.env.log| > |mid| + 1 ==> g.state.env.log[|mid| + 1].LedgerSaved?
    requires var log := g.state.env.log;
             if g.Next? then |log| == |mid| + 3 && log[|mid| + 2] == MembersRead(project, false, Ok(g.items))
             else |log| == |mid| + 3 ==> log[|mid| + 2].MembersRead? && !log[|mid| + 2].members.Ok?
    requires g.Next? ==> !g.human && !g.entry.revoked && g.entry.k8Seen == entry.k8Seen
    requires !Revoked(g.state, project)
    ensures HostDone(g, n, project, entry, p, k8)
  {
    var log, m := g.state.env.log, |mid|;
    forall j: nat | j < m + 2 ensures !Reason(log, n, j, entry, p, k8) {
      if j + 1 < m {
        ReasonKept(mid, log, n, j, entry, p, k8);
      } else if j < m {
        assert log[m - 1] == mid[m - 1];
      } else if j == m && m < |log| {
        assert log[m - 1] == mid[m - 1];
        assert !FirstList(log, n, m) && !log[m - 1].LedgerSaved?;
      }
    }
    if |log| == m + 3 {
      assert !FirstList(log, n, m + 2);
      assert Reason(log, n, m + 2, entry, p, k8) <==> (g.Next? && Vanished(g.items, k8, "viewer", entry.k8Seen));
    }
    assert forall j: nat | m + 3 <= j :: !Reason(log, n, j, entry, p, k8);
  }

  lemma HostDecides(o: Oracle, d: Stage, p: Policy, project: Id, k8: Id, n: nat, entry: Entry)
    requires AtFirstList(d, n, project, entry) && NoneBefore(d.state.env.log, n, entry, p, k8) && !p.repair
    ensures HostDone(Grant(o, d.state, p, project, d.entry, d.items, d.human, Host, k8), n, project, entry, p, k8)
  {
    var m := Find(d.items, p.host);
    if m.Some? && m.value.Exact("admin") {
      HostConfirmed(o, d, p, project, k8, n, entry);
    } else if d.entry.hostSeen || m.Some? {
      HostRevoked(o, d, p, project, k8, n, entry);
    } else {
      HostWritten(o, d, p, project, k8, n, entry, false);
      var log := d.state.env.log;
      assert log[|log| - 1] == MembersRead(project, d.human, Ok(d.items));
      assert !HasReason(log, n, entry, p, k8);
    }
  }

  // ---------------------------------------------------------------- the K8 identity

  lemma ReaderRevoked(o: Oracle, s: State, p: Policy, project: Id, entry: Entry)
    ensures var r := Revoke(o, s, project, entry);
            Revoked(r.state, project) && Inert(s.env.log, r.state.env.log)
  {
  }

  lemma ReaderConfirmed(o: Oracle, s: State, p: Policy, project: Id, entry: Entry, items: seq<Membership>, k8: Id)
    requires !entry.revoked
    ensures var g := Confirm(o, s, p, project, entry, items, false, Reader, k8);
            !Revoked(g.state, project) && Inert(s.env.log, g.state.env.log)
  {
  }

  lemma ReaderWritten(o: Oracle, s: State, p: Policy, project: Id, entry: Entry, existing: bool, k8: Id)
    requires !entry.revoked
    ensures var g := Write(o, s, p, project, entry, existing, false, Reader, k8);
            !Revoked(g.state, project) && Inert(s.env.log, g.state.env.log)
  {
    var i := Issue(o, s, p, project, entry, existing, false, Reader, k8);
    IssueReads(o, s, p, project, entry, existing, false, Reader, k8);
    if i.Next? {
      ReadBackReads(o, i.state, p, project, i.entry, false, Reader, k8);
      var mid, log := i.state.env.log, ReadBack(o, i.state, p, project, i.entry, false, Reader, k8).state.env.log;
      forall j | |s.env.log| <= j < |log| ensures log[j].MembersRead? ==> j > |s.env.log| && log[j - 1].Granted? {
        assert j < |mid| ==> log[j] == mid[j];
        assert log[|mid| - 1] == mid[|mid| - 1];
      }
    }
  }

  /** The second membership: revoked exactly if its grant vanished. */
  lemma ReaderDecides(o: Oracle, h: Stage, p: Policy, project: Id, k8: Id, n: nat, entry: Entry)
    requires AtReader(h, n, project, entry, p, k8) && !p.repair
    ensures var g := Grant(o, h.state, p, project, h.entry, h.items, h.human, Reader, k8);
            && Inert(h.state.env.log, g.state.env.log)
            && (Revoked(g.state, project) <==> Vanished(h.items, k8, "viewer", entry.k8Seen))
            && (Revoked(g.state, project) ==> g.Stop?)
  {
    var m := Find(h.items, k8);
    if m.Some? && m.value.Exact("viewer") {
      ReaderConfirmed(o, h.state, p, project, h.entry, h.items, k8);
    } else if h.entry.k8Seen || m.Some? {
      ReaderRevoked(o, h.state, p, project, h.entry);
    } else {
      ReaderWritten(o, h.state, p, project, h.entry, false, k8);
    }
  }

  lemma FinalizeInert(o: Oracle, s: State, project: Id, k8: Id, entry: Entry)
    requires !Revoked(s, project)
    ensures var r := Finalize(o, s, project, k8, entry);
            !Revoked(r.state, project) && Inert(s.env.log, r.state.env.log)
  {
  }

  lemma InertCompose(a: seq<Event>, b: seq<Event>, c: seq<Event>)
    requires Inert(a, b) && Inert(b, c)
    ensures Inert(a, c)
  {
    forall i | |a| <= i < |c| ensures c[i].MembersRead? ==> i > |a| && c[i - 1].Granted? {
      if i < |b| {
        assert c[i] == b[i] && (i > |a| ==> c[i - 1] == b[i - 1]);
      }
    }
  }

  /** When a project becomes revoked: without repair, exactly if something that was read is a reason. */
  lemma RevokedIff(o: Oracle, s: State, p: Policy, project: Id, k8: Id)
    requires !s.mem.EntryOf(project).revoked && !p.repair
    ensures var r := Reconcile(o, s, p, project, k8);
            r.state.mem.EntryOf(project).revoked <==>
              HasReason(r.state.env.log, |s.env.log|, s.mem.EntryOf(project), p, k8)
  {
    var n, entry := |s.env.log|, s.mem.EntryOf(project);
    DiscoverDecides(o, s, p, project, k8);
    var d := Discover(o, s, p, project);
    if d.Next? {
      HostDecides(o, d, p, project, k8, n, entry);
      var h := Grant(o, d.state, p, project, d.entry, d.items, d.human, Host, k8);
      if h.Next? {
        ReaderDecides(o, h, p, project, k8, n, entry);
        var g := Grant(o, h.state, p, project, h.entry, h.items, h.human, Reader, k8);
        if g.Next? {
          var f := Finalize(o, g.state, project, k8, g.entry);
          FinalizeInert(o, g.state, project, k8, g.entry);
          InertCompose(h.state.env.log, g.state.env.log, f.state.env.log);
          InertKeeps(h.state.env.log, f.state.env.log, n, entry, p, k8);
        } else {
          InertKeeps(h.state.env.log, g.state.env.log, n, entry, p, k8);
        }
      }
    }
  }

  // ---------------------------------------------------------------- the verdict

  predicate SaysRevoked(v: Verdict) {
    v.Done? && v.status == RevokedPreserved
  }

  ghost predicate RevokedOnDisk(env: Env, project: Id) {
    env.disk.Some? && env.disk.value.EntryOf(project).revoked
  }

  /** The verdict of a stage that revoked tells whether the revocation was saved. */
  ghost predicate Recorded(s: State, v: Verdict, project: Id) {
    && (SaysRevoked(v) ==> Revoked(s, project) && RevokedOnDisk(s.env, project))
    && (Revoked(s, project) ==> s.env.log != [] && (SaysRevoked(v) <==> SavedAt(s.env.log, |s.env.log| - 1)))
  }

  lemma RevokeRecords(o: Oracle, s: State, project: Id, entry: Entry)
    ensures var r := Revoke(o, s, project, entry); Recorded(r.state, r.verdict, project)
  {
  }

  lemma WriteRecords(o: Oracle, s: State, p: Policy, project: Id, entry: Entry, existing: bool,
                     human: bool, t: Target, k8: Id)
    requires !entry.revoked && !Revoked(s, project) && (t.Reader? ==> !human)
    ensures var g := Write(o, s, p, project, entry, existing, human, t, k8);
            && !Revoked(g.state, project) && (g.Next? ==> !g.entry.revoked && !g.human)
            && (g.Stop? ==> !SaysRevoked(g.verdict))
  {
    var i := Issue(o, s, p, project, entry, existing, human, t, k8);
    IssueReads(o, s, p, project, entry, existing, human, t, k8);
    assert i.Stop? ==> !SaysRevoked(i.verdict);
    if i.Next? {
      ReadBackReads(o, i.state, p, project, i.entry, human, t, k8);
      ReadBackSays(o, i.state, p, project, i.entry, human, t, k8);
    }
  }

  lemma ReadBackSays(o: Oracle, s: State, p: Policy, project: Id, entry: Entry, human: bool, t: Target, k8: Id)
    ensures var g := ReadBack(o, s, p, project, entry, human, t, k8); g.Stop? ==> !SaysRevoked(g.verdict)
  {
  }

  lemma ConfirmRecords(o: Oracle, s: State, p: Policy, project: Id, entry: Entry, items: seq<Membership>,
                       human: bool, t: Target, k8: Id)
    requires !entry.revoked && (t.Reader? ==> !human)
    ensures var g := Confirm(o, s, p, project, entry, items, human, t, k8);
            && !Revoked(g.state, project) && (g.Next? ==> !g.entry.revoked && !g.human)
            && (g.Stop? ==> !SaysRevoked(g.verdict))
  {
  }

  lemma GrantRecords(o: Oracle, s: State, p: Policy, project: Id, entry: Entry, items: seq<Membership>,
                     human: bool, t: Target, k8: Id)
    requires !entry.revoked && !Revoked(s, project) && (t.Reader? ==> !human)
    ensures var g := Grant(o, s, p, project, entry, items, human, t, k8);
            if g.Next? then !g.entry.revoked && !Revoked(g.state, project) && !g.human
            else Recorded(g.state, g.verdict, project)
    ensures p.repair ==> !Revoked(Grant(o, s, p, project, entry, items, human, t, k8).state, project)
  {
    var m := Find(items, t.IdOf(p.host, k8));
    ConfirmRecords(o, s, p, project, entry, items, human, t, k8);
    RevokeRecords(o, s, project, entry);
    WriteRecords(o, s, p, project, entry, m.Some?, human, t, k8);
  }

  lemma DiscoverRecords(o: Oracle, s: State, p: Policy, project: Id)
    requires !s.mem.EntryOf(project).revoked
    ensures var g := Discover(o, s, p, project);
            if g.Next? then !g.entry.revoked && !Revoked(g.state, project)
            else Recorded(g.state, g.verdict, project)
    ensures p.repair ==> !Revoked(Discover(o, s, p, project).state, project)
  {
    var entry := s.mem.EntryOf(project);
    var s1 := s.(env := ReadMembers(o, s.env, project, false).env);
    var s2 := s1.(env := ReadMembers(o, s1.env, project, true).env);
    RevokeRecords(o, s1, project, entry);
    EnrollReads(o, s2, p, project, entry);
    assert Enroll(o, s2, p, project, entry).Stop? ==> !SaysRevoked(Enroll(o, s2, p, project, entry).verdict);
  }

  /** A reconciliation that revokes says so exactly if the revocation was saved, and then it is on disk. With repair
      nothing is revoked. */
  lemma RevocationIsRecorded(o: Oracle, s: State, p: Policy, project: Id, k8: Id)
    requires !s.mem.EntryOf(project).revoked
    ensures var r := Reconcile(o, s, p, project, k8);
            Recorded(r.state, r.verdict, project) && (p.repair ==> !Revoked(r.state, project))
  {
    DiscoverRecords(o, s, p, project);
    var d := Discover(o, s, p, project);
    if d.Next? {
      GrantRecords(o, d.state, p, project, d.entry, d.items, d.human, Host, k8);
      var h := Grant(o, d.state, p, project, d.entry, d.items, d.human, Host, k8);
      if h.Next? {
        GrantRecords(o, h.state, p, project, h.entry, h.items, h.human, Reader, k8);
        var g := Grant(o, h.state, p, project, h.entry, h.items, h.human, Reader, k8);
        if g.Next? {
          var f := Finalize(o, g.state, project, k8, g.entry);
          assert !Revoked(f.state, project) && !SaysRevoked(f.verdict);
        }
      }
    }
  }

  /** The plainest case: the first read finds the host's grant gone. */
  lemma VanishedHostIsRevoked(o: Oracle, s: State, p: Policy, project: Id, k8: Id)
    requires !s.mem.EntryOf(project).revoked && !p.repair
    requires var m, seen := o.members(s.env.now), s.mem.EntryOf(project).hostSeen;
             (m.Err? && Forbidden(m.error) && seen) || (m.Ok? && Vanished(m.value, p.host, "admin", seen))
    ensures var r := Reconcile(o, s, p, project, k8);
            && Revoked(r.state, project)
            && (SaysRevoked(r.verdict) <==> o.save(s.env.now + 1).Saved?)
            && (SaysRevoked(r.verdict) ==> RevokedOnDisk(r.state.env, project))
  {
    var d := Discover(o, s, p, project);
    if d.Next? {
      var h := Grant(o, d.state, p, project, d.entry, d.items, d.human, Host, k8);
      assert h == Stop(Revoke(o, d.state, project, d.entry).state, Revoke(o, d.state, project, d.entry).verdict);
    }
  }

  /** The first read finds the host's grant as it should be and the K8 identity's gone. */
  lemma VanishedReaderIsRevoked(o: Oracle, s: State, p: Policy, project: Id, k8: Id)
    requires !s.mem.EntryOf(project).revoked && !p.repair && o.save(s.env.now + 1).Saved?
    requires var m := o.members(s.env.now);
             && m.Ok? && HasExact(m.value, p.host, "admin")
             && Vanished(m.value, k8, "viewer", s.mem.EntryOf(project).k8Seen)
    ensures var r := Reconcile(o, s, p, project, k8);
            && Revoked(r.state, project)
            && (SaysRevoked(r.verdict) <==> o.save(s.env.now + 2).Saved?)
            && (SaysRevoked(r.verdict) ==> RevokedOnDisk(r.state.env, project))
  {
    var d := Discover(o, s, p, project);
    var h := Grant(o, d.state, p, project, d.entry, d.items, d.human, Host, k8);
    assert h == Confirm(o, d.state, p, project, d.entry, d.items, false, Host, k8);
    assert h.Next? && h.items == d.items;
    var g := Grant(o, h.state, p, project, h.entry, h.items, h.human, Reader, k8);
    assert g == Stop(Revoke(o, h.state, project, h.entry).state, Revoke(o, h.state, project, h.entry).verdict);
  }

  // ---------------------------------------------------------------- a cycle

  /** Among the first i projects of the list. */
  ghost predicate Among(projects: seq<Project>, i: nat, q: Id)
    requires i <= |projects|
  {
    exists j :: 0 <= j < i && projects[j].id == q
  }

  /** Before project i: what is revoked in memory and still to be visited is revoked on disk; what the report calls
      revoked was visited, is revoked in both, and is not about to be published. */
  ghost predicate Keeping(s: State, projects: seq<Project>, i: nat, verified: set<Id>, results: seq<Outcome>)
    requires i <= |projects|
  {
    && (forall q | Revoked(s, q) && !Among(projects, i, q) :: RevokedOnDisk(s.env, q))
    && (forall q | q in verified :: Among(projects, i, q))
    && (forall j | 0 <= j < |results| && results[j].status == RevokedPreserved ::
          Kept(s, results[j].project, verified) && Among(projects, i, results[j].project))
  }

  ghost predicate Kept(s: State, q: Id, verified: set<Id>) {
    Revoked(s, q) && RevokedOnDisk(s.env, q) && q !in verified
  }

  /** What the report of a cycle calls revoked is revoked in memory and on disk and not published. */
  ghost predicate AllKept(c: CycleResult) {
    c.Reported? ==>
      forall j | 0 <= j < |c.report.results| && c.report.results[j].status == RevokedPreserved ::
        Kept(c.state, c.report.results[j].project, c.verified)
  }

  lemma AmongNext(projects: seq<Project>, i: nat, q: Id)
    requires i < |projects|
    ensures Among(projects, i + 1, q) <==> Among(projects, i, q) || projects[i].id == q
  {
    if Among(projects, i, q) {
      var j :| 0 <= j < i && projects[j].id == q;
      assert 0 <= j < i + 1 && projects[j].id == q;
    }
    if projects[i].id == q {
      assert 0 <= i < i + 1 && projects[i].id == q;
    }
  }

  /** Only the log differs. */
  lemma KeepingLater(s: State, t: State, projects: seq<Project>, i: nat, verified: set<Id>, results: seq<Outcome>)
    requires i <= |projects| && Keeping(s, projects, i, verified, results)
    requires t.mem == s.mem && t.env.disk == s.env.disk
    ensures Keeping(t, projects, i, verified, results)
  {
  }

  lemma KeepingSkips(s: State, projects: seq<Project>, i: nat, verified: set<Id>, results: seq<Outcome>)
    requires i < |projects| && Keeping(s, projects, i, verified, results)
    ensures Keeping(s, projects, i + 1, verified, results)
  {
    forall q {
      AmongNext(projects, i, q);
    }
  }

  /** The reconciliation of one project leaves the others as they were. */
  lemma OthersKept(s: State, t: State, p: Policy, project: Id, k8: Id, q: Id)
    requires Confined(s, t, p, project, k8) && q != project
    ensures Revoked(t, q) <==> Revoked(s, q)
    ensures RevokedOnDisk(s.env, q) && Revoked(s, q) ==> RevokedOnDisk(t.env, q)
  {
  }

  /** The verdict on the project itself. */
  lemma VerdictKept(o: Oracle, s: State, p: Policy, project: Id, k8: Id)
    requires !p.repair && (Revoked(s, project) ==> RevokedOnDisk(s.env, project))
    ensures var r := Reconcile(o, s, p, project, k8);
            SaysRevoked(r.verdict) ==> Revoked(r.state, project) && RevokedOnDisk(r.state.env, project)
  {
    if !Revoked(s, project) {
      RevocationIsRecorded(o, s, p, project, k8);
    }
  }

  lemma StatusOf(project: Id, v: Verdict)
    requires !v.Died?
    ensures v.OutcomeFor(project).status == RevokedPreserved <==> SaysRevoked(v)
  {
  }

  lemma VisitKeeping(s: State, t: State, p: Policy, k8: Id, projects: seq<Project>, i: nat, verified: set<Id>,
                     results: seq<Outcome>, v: Verdict)
    requires i < |projects| && ValidProjects(projects) && Keeping(s, projects, i, verified, results)
    requires Confined(s, t, p, projects[i].id, k8) && !v.Died?
    requires SaysRevoked(v) ==> Revoked(t, projects[i].id) && RevokedOnDisk(t.env, projects[i].id)
    ensures var id := projects[i].id;
            Keeping(t, projects, i + 1, if v.Done? && v.status == Ready then verified + {id} else verified,
                    results + [v.OutcomeFor(id)])
  {
    var id := projects[i].id;
    var more := v.OutcomeFor(id);
    StatusOf(id, v);
    assert !Among(projects, i, id);
    forall q {
      AmongNext(projects, i, q);
    }
    forall q | q != id {
      OthersKept(s, t, p, id, k8, q);
    }
    var all := results + [more];
    forall j | 0 <= j < |all| && all[j].status == RevokedPreserved
      ensures Revoked(t, all[j].project) && RevokedOnDisk(t.env, all[j].project)
      ensures Among(projects, i + 1, all[j].project)
      ensures all[j].project !in verified && (v.Done? && v.status == Ready ==> all[j].project != id)
    {
      if j < |results| {
        assert all[j] == results[j];
        assert Kept(s, results[j].project, verified);
      }
    }
  }

  lemma KeepingEnds(s: State, projects: seq<Project>, i: nat, verified: set<Id>, report: Report)
    requires i <= |projects| && Keeping(s, projects, i, verified, report.results)
    ensures AllKept(Reported(s, report, verified))
  {
  }

  lemma SweepKeepsRevoked(o: Oracle, s: State, p: Policy, k8: Id, projects: seq<Project>, i: nat,
                          verified: set<Id>, report: Report)
    requires NoRepair(o) && i <= |projects| && ValidProjects(projects) && s.mem.k8 == k8
    requires Keeping(s, projects, i, verified, report.results)
    ensures AllKept(Sweep(o, s, p, k8, projects, i, verified, report))
    decreases |projects| - i
  {
    if i == |projects| || (o.contextDone(s.env.now) && p.Allows(projects[i].id)) {
      KeepingEnds(s, projects, i, verified, report);
    } else if !p.Allows(projects[i].id) {
      KeepingSkips(s, projects, i, verified, report.results);
      SweepKeepsRevoked(o, s, p, k8, projects, i + 1, verified, report);
    } else {
      var l := LoadPolicy(o, s.env);
      var s1 := s.(env := l.env);
      KeepingLater(s, s1, projects, i, verified, report.results);
      KeepingEnds(s1, projects, i, verified, report);
      if l.reply.Ok? && SameBinding(l.reply.value, p) {
        if l.reply.value.Allows(projects[i].id) {
          VisitKeepsRevoked(o, s1, l.reply.value, k8, projects, i, verified, report);
        } else {
          KeepingSkips(s1, projects, i, verified, report.results);
          SweepKeepsRevoked(o, s1, l.reply.value, k8, projects, i + 1, verified, report);
        }
      }
    }
  }

  lemma VisitKeepsRevoked(o: Oracle, s: State, p: Policy, k8: Id, projects: seq<Project>, i: nat,
                          verified: set<Id>, report: Report)
    requires NoRepair(o) && !p.repair && i < |projects| && ValidProjects(projects) && s.mem.k8 == k8
    requires Keeping(s, projects, i, verified, report.results)
    ensures AllKept(Visit(o, s, p, k8, projects, i, verified, report))
    decreases |projects| - i, 0
  {
    var id := projects[i].id;
    var s1 := s.(env := s.env.Note(Withdrawn(id)));
    KeepingLater(s, s1, projects, i, verified, report.results);
    var r := Reconcile(o, s1, p, id, k8);
    ReconcileConfined(o, s1, p, id, k8);
    if !r.verdict.Died? {
      assert !Among(projects, i, id);
      VerdictKept(o, s1, p, id, k8);
      VisitKeeping(s1, r.state, p, k8, projects, i, verified, report.results, r.verdict);
      var report' := Combine(report, id, r.verdict);
      var ready := r.verdict.Done? && r.verdict.status == Ready;
      KeepingEnds(r.state, projects, i + 1, if ready then verified + {id} else verified, report');
      SweepKeepsRevoked(o, r.state, p, k8, projects, i + 1, if ready then verified + {id} else verified, report');
    }
  }

  lemma IdentifySaves(o: Oracle, s: State, p: Policy, identities: seq<Identity>)
    ensures var l := Identify(o, s, p, identities);
            l.Known? ==> l.state.env.disk == Some(l.state.mem) && l.state.mem.k8 == l.k8
  {
  }

  /** What a cycle's report calls revoked_preserved is revoked in memory and on disk when the cycle ends, and the cycle
      does not publish it. */
  lemma CycleKeepsRevoked(o: Oracle, s: State, initial: Policy)
    requires NoRepair(o)
    ensures AllKept(Cycle(o, s, initial))
  {
    var l := LoadPolicy(o, s.env);
    var s1 := s.(env := l.env);
    var ps := ReadProjects(o, s1.env);
    var s2 := s1.(env := ps.env);
    var ids := ReadIdentities(o, s2.env);
    var s3 := s2.(env := ids.env);
    if l.reply.Ok? && SameBinding(l.reply.value, initial) && ps.reply.Ok? && ids.reply.Ok? {
      IdentifySaves(o, s3, l.reply.value, ids.reply.value);
      var k := Identify(o, s3, l.reply.value, ids.reply.value);
      if k.Known? {
        assert Keeping(k.state, ps.reply.value, 0, {}, []);
        SweepKeepsRevoked(o, k.state, l.reply.value, k.k8, ps.reply.value, 0, {}, FRESH);
      }
    }
  }

  // ---------------------------------------------------------------- runs

  ghost predicate ListsRevoked(results: seq<Outcome>, q: Id) {
    exists j :: 0 <= j < |results| && results[j].project == q && results[j].status == RevokedPreserved
  }

  /** The report of the cycle that the running process does next calls the project revoked. */
  ghost predicate ReportsRevoked(o: Oracle, sys: System, q: Id) {
    && sys.process.Up?
    && var c := Cycle(o, State(sys.process.mem, sys.env), sys.process.initial);
       c.Reported? && ListsRevoked(c.report.results, q)
  }

  /** A vanished grant is never served again: from the end of the cycle that reports the project as revoked, no
      continuation of the run changes the project at the remote or publishes it. */
  lemma VanishedForGood(o: Oracle, steps: seq<Step>, more: seq<Step>, q: Id)
    requires NoRepair(o) && ReportsRevoked(o, Run(o, steps), q)
    ensures var before := steps + [DoCycle];
            SystemSealed(Run(o, before + more), q, |Run(o, before).env.log|)
  {
    var before := steps + [DoCycle];
    var sys := Run(o, steps);
    assert before[..|before| - 1] == steps;
    assert Run(o, before) == Advance(o, sys, DoCycle);
    CycleKeepsRevoked(o, State(sys.process.mem, sys.env), sys.process.initial);
    RevocationIsFinal(o, before, more, q);
  }
}
