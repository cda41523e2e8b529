/** "ready" is backed by observations: what the log of one reconciliation holds when it ends ready. */
module EnrollmentEvidence {
  import opened Replies
  import opened EnrollmentTypes
  import opened EnrollmentSpec
  import opened EnrollmentTrace

  /** Between n and m, the memberships of the project were read and showed exactly this role. */
  ghost predicate Confirmed(log: seq<Event>, n: nat, m: nat, project: Id, id: Id, role: string, machine: bool)
    requires m <= |log|
  {
    exists r :: n <= r < m && ShowsRole(log[r], project, id, role, machine)
  }

  predicate ShowsRole(e: Event, project: Id, id: Id, role: string, machine: bool) {
    && e.MembersRead? && e.project == project && (machine ==> !e.human)
    && e.members.Ok? && HasExact(e.members.value, id, role)
  }

  /** Between n and m: the host was seen as exactly admin, the K8 identity as exactly viewer by a
      machine-authenticated read, and after both the K8 identity was accepted as read-only. */
  ghost predicate Evidence(log: seq<Event>, n: nat, m: nat, project: Id, host: Id, k8: Id)
    requires m <= |log|
  {
    exists v :: n <= v < m && log[v] == Vetted(project, k8, true)
      && Confirmed(log, n, v, project, host, "admin", false)
      && Confirmed(log, n, v, project, k8, "viewer", true)
  }

  /** The items in hand were read since n, with this authority. */
  ghost predicate Observed(log: seq<Event>, n: nat, project: Id, human: bool, items: seq<Membership>) {
    exists r :: n <= r < |log| && log[r] == MembersRead(project, human, Ok(items))
  }

  lemma ObservedGrows(log: seq<Event>, log': seq<Event>, n: nat, project: Id, human: bool, items: seq<Membership>)
    requires log <= log' && Observed(log, n, project, human, items)
    ensures Observed(log', n, project, human, items)
  {
    var r :| n <= r < |log| && log[r] == MembersRead(project, human, Ok(items));
    assert log'[r] == log[r];
  }

  lemma ConfirmedGrows(log: seq<Event>, log': seq<Event>, n: nat, m: nat, m': nat, project: Id, id: Id, role: string,
                       machine: bool)
    requires log <= log' && m <= |log| && m <= m' <= |log'| && Confirmed(log, n, m, project, id, role, machine)
    ensures Confirmed(log', n, m', project, id, role, machine)
  {
    var r :| n <= r < m && ShowsRole(log[r], project, id, role, machine);
    assert ShowsRole(log'[r], project, id, role, machine);
  }

  lemma ObservedConfirms(log: seq<Event>, n: nat, project: Id, human: bool, items: seq<Membership>,
                         id: Id, role: string, machine: bool)
    requires Observed(log, n, project, human, items) && HasExact(items, id, role) && (machine ==> !human)
    ensures Confirmed(log, n, |log|, project, id, role, machine)
  {
    var r :| n <= r < |log| && log[r] == MembersRead(project, human, Ok(items));
    assert ShowsRole(log[r], project, id, role, machine);
  }

  lemma RereadSees(o: Oracle, s: State, project: Id, entry: Entry, n: nat)
    requires n <= |s.env.log|
    ensures var g := Reread(o, s, project, entry);
            g.Next? ==> !g.human && Observed(g.state.env.log, n, project, false, g.items)
  {
    var r := ReadMembers(o, s.env, project, false);
    assert r.env.log[|s.env.log|] == MembersRead(project, false, r.reply);
  }

  lemma ConfirmSees(o: Oracle, s: State, p: Policy, project: Id, entry: Entry, items: seq<Membership>,
                    human: bool, t: Target, k8: Id, n: nat)
    requires Observed(s.env.log, n, project, human, items) && n <= |s.env.log|
    ensures var g := Confirm(o, s, p, project, entry, items, human, t, k8);
            g.Next? ==> Observed(g.state.env.log, n, project, g.human, g.items)
  {
    var e := t.MarkSeen(if entry.pending == t.IdOf(p.host, k8) then entry.(pending := "") else entry);
    var s1 := State(s.mem.With(project, e), Record(o, s, project, e).env);
    ObservedGrows(s.env.log, s1.env.log, n, project, human, items);
    RereadSees(o, s1, project, e, n);
  }

  lemma ReadBackSees(o: Oracle, s: State, p: Policy, project: Id, entry: Entry, human: bool, t: Target, k8: Id, n: nat)
    requires n <= |s.env.log| && (t.Reader? ==> !human)
    ensures var g := ReadBack(o, s, p, project, entry, human, t, k8);
            g.Next? ==>
              && Observed(g.state.env.log, n, project, g.human, g.items)
              && Confirmed(g.state.env.log, n, |g.state.env.log|, project, t.IdOf(p.host, k8), t.Role(), t.Reader?)
  {
    var b := ReadMembers(o, s.env, project, human);
    var s1 := s.(env := b.env);
    var g := ReadBack(o, s, p, project, entry, human, t, k8);
    if g.Next? {
      assert s1.env.log[|s.env.log|] == MembersRead(project, human, b.reply);
      assert Observed(s1.env.log, n, project, human, b.reply.value);
      ObservedConfirms(s1.env.log, n, project, human, b.reply.value, t.IdOf(p.host, k8), t.Role(), t.Reader?);
      ConfirmedGrows(s1.env.log, g.state.env.log, n, |s1.env.log|, |g.state.env.log|, project, t.IdOf(p.host, k8),
                     t.Role(), t.Reader?);
      ObservedGrows(s1.env.log, g.state.env.log, n, project, human, b.reply.value);
      var e := t.MarkSeen(entry).(pending := "");
      RereadSees(o, State(s1.mem.With(project, e), Record(o, s1, project, e).env), project, e, n);
    }
  }

  lemma GrantSees(o: Oracle, s: State, p: Policy, project: Id, entry: Entry, items: seq<Membership>,
                  human: bool, t: Target, k8: Id, n: nat)
    requires n <= |s.env.log| && Observed(s.env.log, n, project, human, items) && (t.Reader? ==> !human)
    requires s.mem.k8 == k8
    ensures var g := Grant(o, s, p, project, entry, items, human, t, k8);
            g.Next? ==>
              && Observed(g.state.env.log, n, project, g.human, g.items)
              && Confirmed(g.state.env.log, n, |g.state.env.log|, project, t.IdOf(p.host, k8), t.Role(), t.Reader?)
  {
    var g := Grant(o, s, p, project, entry, items, human, t, k8);
    GrantConfined(o, s, p, project, entry, items, human, t, k8);
    var id := t.IdOf(p.host, k8);
    var m := Find(items, id);
    if g.Next? {
      if m.Some? && m.value.Exact(t.Role()) {
        ConfirmSees(o, s, p, project, entry, items, human, t, k8, n);
        ObservedConfirms(s.env.log, n, project, human, items, id, t.Role(), t.Reader?);
        ConfirmedGrows(s.env.log, g.state.env.log, n, |s.env.log|, |g.state.env.log|, project, id, t.Role(), t.Reader?);
      } else {
        var i := Issue(o, s, p, project, entry, m.Some?, human, t, k8);
        IssueConfined(o, s, p, project, entry, m.Some?, human, t, k8);
        ReadBackSees(o, i.state, p, project, i.entry, human, t, k8, n);
      }
    }
  }

  lemma FinalizeSees(o: Oracle, s: State, p: Policy, project: Id, k8: Id, entry: Entry, n: nat)
    requires n <= |s.env.log|
    requires Confirmed(s.env.log, n, |s.env.log|, project, p.host, "admin", false)
    requires Confirmed(s.env.log, n, |s.env.log|, project, k8, "viewer", true)
    ensures var r := Finalize(o, s, project, k8, entry);
            r.verdict == Done(Ready, "") ==> Evidence(r.state.env.log, n, |r.state.env.log|, project, p.host, k8)
  {
    var r := Finalize(o, s, project, k8, entry);
    if r.verdict == Done(Ready, "") {
      var v := |s.env.log|;
      assert r.state.env.log[v] == Vetted(project, k8, true);
      ConfirmedGrows(s.env.log, r.state.env.log, n, v, v, project, p.host, "admin", false);
      ConfirmedGrows(s.env.log, r.state.env.log, n, v, v, project, k8, "viewer", true);
    }
  }

  lemma DiscoverSees(o: Oracle, s: State, p: Policy, project: Id, n: nat)
    requires n <= |s.env.log|
    ensures var d := Discover(o, s, p, project);
            d.Next? ==> n <= |d.state.env.log| && Observed(d.state.env.log, n, project, d.human, d.items)
  {
    var d := Discover(o, s, p, project);
    if d.Next? {
      var last := |d.state.env.log| - 1;
      assert d.state.env.log[last] == MembersRead(project, d.human, Ok(d.items));
      assert n <= last;
    }
  }

  predicate Unready(v: Verdict) {
    !(v.Done? && v.status == Ready)
  }

  lemma ConfirmStopsUnready(o: Oracle, s: State, p: Policy, project: Id, entry: Entry, items: seq<Membership>,
                            human: bool, t: Target, k8: Id)
    ensures var g := Confirm(o, s, p, project, entry, items, human, t, k8); g.Stop? ==> Unready(g.verdict)
  {
  }

  lemma WriteStopsUnready(o: Oracle, s: State, p: Policy, project: Id, entry: Entry, existing: bool,
                          human: bool, t: Target, k8: Id)
    ensures var g := Write(o, s, p, project, entry, existing, human, t, k8); g.Stop? ==> Unready(g.verdict)
  {
    var i := Issue(o, s, p, project, entry, existing, human, t, k8);
    assert i.Stop? ==> Unready(i.verdict);
    if i.Next? {
      var b := ReadBack(o, i.state, p, project, i.entry, human, t, k8);
      assert b.Stop? ==> Unready(b.verdict);
    }
  }

  lemma GrantStopsUnready(o: Oracle, s: State, p: Policy, project: Id, entry: Entry, items: seq<Membership>,
                          human: bool, t: Target, k8: Id)
    ensures var g := Grant(o, s, p, project, entry, items, human, t, k8); g.Stop? ==> Unready(g.verdict)
  {
    var m := Find(items, t.IdOf(p.host, k8));
    if m.Some? && m.value.Exact(t.Role()) {
      ConfirmStopsUnready(o, s, p, project, entry, items, human, t, k8);
    } else if (t.Seen(entry) || m.Some?) && !p.repair {
      assert Unready(Revoke(o, s, project, entry).verdict);
    } else {
      WriteStopsUnready(o, s, p, project, entry, m.Some?, human, t, k8);
    }
  }

  lemma ReaderSees(o: Oracle, s: State, p: Policy, project: Id, k8: Id, entry: Entry,
                   items: seq<Membership>, n: nat)
    requires n <= |s.env.log| && s.mem.k8 == k8 && Observed(s.env.log, n, project, false, items)
    requires Confirmed(s.env.log, n, |s.env.log|, project, p.host, "admin", false)
    ensures var r := Grant(o, s, p, project, entry, items, false, Reader, k8);
            r.Next? ==>
              var f := Finalize(o, r.state, project, k8, r.entry);
              f.verdict == Done(Ready, "") ==> Evidence(f.state.env.log, n, |f.state.env.log|, project, p.host, k8)
  {
    GrantSees(o, s, p, project, entry, items, false, Reader, k8, n);
    GrantConfined(o, s, p, project, entry, items, false, Reader, k8);
    var r := Grant(o, s, p, project, entry, items, false, Reader, k8);
    if r.Next? {
      ConfirmedGrows(s.env.log, r.state.env.log, n, |s.env.log|, |r.state.env.log|, project, p.host, "admin", false);
      FinalizeSees(o, r.state, p, project, k8, r.entry, n);
    }
  }

  lemma GrantsSee(o: Oracle, s: State, p: Policy, project: Id, k8: Id, entry: Entry,
                  items: seq<Membership>, human: bool, n: nat)
    requires n <= |s.env.log| && s.mem.k8 == k8 && Observed(s.env.log, n, project, human, items)
    ensures var r := Grants(o, s, p, project, k8, entry, items, human);
            Unready(r.verdict) || Evidence(r.state.env.log, n, |r.state.env.log|, project, p.host, k8)
  {
    GrantSees(o, s, p, project, entry, items, human, Host, k8, n);
    GrantConfined(o, s, p, project, entry, items, human, Host, k8);
    GrantStopsUnready(o, s, p, project, entry, items, human, Host, k8);
    var h := Grant(o, s, p, project, entry, items, human, Host, k8);
    if h.Next? {
      ReaderDecides(o, h.state, p, project, k8, h.entry, h.items, n);
    }
  }

  /** The second membership and the last check. */
  lemma ReaderDecides(o: Oracle, s: State, p: Policy, project: Id, k8: Id, entry: Entry,
                      items: seq<Membership>, n: nat)
    requires n <= |s.env.log| && s.mem.k8 == k8 && Observed(s.env.log, n, project, false, items)
    requires Confirmed(s.env.log, n, |s.env.log|, project, p.host, "admin", false)
    ensures var r := Grant(o, s, p, project, entry, items, false, Reader, k8);
            var f := if r.Stop? then Result(r.state, r.verdict) else Finalize(o, r.state, project, k8, r.entry);
            Unready(f.verdict) || Evidence(f.state.env.log, n, |f.state.env.log|, project, p.host, k8)
  {
    GrantStopsUnready(o, s, p, project, entry, items, false, Reader, k8);
    ReaderSees(o, s, p, project, k8, entry, items, n);
  }

  /** A reconciliation that ends ready gathered its evidence within this very call. */
  lemma ReadyHasEvidence(o: Oracle, s: State, p: Policy, project: Id, k8: Id)
    requires s.mem.k8 == k8
    ensures var r := Reconcile(o, s, p, project, k8);
            r.verdict.Done? && r.verdict.status == Ready ==>
              Evidence(r.state.env.log, |s.env.log|, |r.state.env.log|, project, p.host, k8)
  {
    var n := |s.env.log|;
    DiscoverSees(o, s, p, project, n);
    DiscoverConfined(o, s, p, project, k8);
    var d := Discover(o, s, p, project);
    if d.Next? {
      GrantsSee(o, d.state, p, project, k8, d.entry, d.items, d.human, n);
    }
  }
}
