/** The invariant of `EnrollmentSafety` over cycles, restarts and crashes, and the at-most-once theorems. */
module EnrollmentRuns {
  import opened EnrollmentTypes
  import opened EnrollmentSpec
  import opened EnrollmentTrace
  import opened EnrollmentSafety

  /** The state of a controller that was started with the policy `initial`. */
  ghost predicate Sound(s: State, initial: Policy) {
    Inv(s) && initial.Valid() && InScope(s.mem, initial)
  }

  ghost predicate SystemOk(sys: System) {
    && DiskOk(sys.env)
    && (sys.process.Up? ==> Sound(State(sys.process.mem, sys.env), sys.process.initial))
  }

  lemma {:induction false} MatchingSound(identities: seq<Identity>, p: Policy, k8: Id)
    ensures forall i | i in Matching(identities, p, k8) :: i in identities && Matches(i, p, k8)
  {
    if identities != [] {
      MatchingSound(identities[1..], p, k8);
    }
  }

  lemma CreateKeeps(o: Oracle, s: State, p: Policy)
    requires Inv(s) && NoRepair(o) && s.mem.k8 == "" && !s.mem.identityPending
    ensures var l := CreateK8(o, s, p);
            Inv(l.state) && l.state.mem == s.mem.(identityPending := true)
  {
    var mem := s.mem.(identityPending := true);
    forall i | 0 <= i < |s.env.log| ensures Covered(mem, s.env.log[i]) {
      assert Covered(s.mem, s.env.log[i]);
    }
    AnnounceKeeps(o, s, mem, p, "");
    var a := Announce(o, s, mem, p, "");
    if a.reply.Ok? {
      var e := Created(p.k8Name);
      forall i | 0 <= i < |s.env.log| ensures !SameMutation(s.env.log[i], e) {
        assert Covered(s.mem, s.env.log[i]);
      }
      AnnouncedKeeps(s, a.state, e);
    }
  }

  lemma LocateKeeps(o: Oracle, s: State, p: Policy, identities: seq<Identity>)
    requires Inv(s) && NoRepair(o) && InScope(s.mem, p)
    ensures var l := Locate(o, s, p, identities);
            && Inv(l.state)
            && l.state.mem == s.mem.(identityPending := l.state.mem.identityPending)
            && (l.Known? && p.k8 != "" ==> l.k8 == p.k8)
            && (l.Known? && s.mem.k8 != "" ==> l.k8 == s.mem.k8)
  {
    var wanted := Wanted(p, s.mem);
    MatchingSound(identities, p, wanted);
    var matches := Matching(identities, p, wanted);
    if |matches| == 1 {
      assert matches[0] in matches;
    }
    if wanted == "" && !s.mem.identityPending {
      CreateKeeps(o, s, p);
    }
  }

  lemma IdentifyKeeps(o: Oracle, s: State, p: Policy, identities: seq<Identity>)
    requires Inv(s) && NoRepair(o) && p.Valid() && InScope(s.mem, p)
    ensures var l := Identify(o, s, p, identities);
            && Sound(l.state, p)
            && (l.Known? ==> l.state.mem.k8 == l.k8 && IsIdentifier(l.k8) && l.k8 != p.host)
  {
    LocateKeeps(o, s, p, identities);
    var l := Locate(o, s, p, identities);
    if l.Known? && l.k8 != p.host && IsIdentifier(l.k8) {
      var mem := l.state.mem.(k8 := l.k8, identityPending := false);
      forall i | 0 <= i < |l.state.env.log| ensures Covered(mem, l.state.env.log[i]) {
        assert Covered(l.state.mem, l.state.env.log[i]);
      }
      SaveKeeps(o, l.state, mem);
    }
  }

  /** What holds between two projects of a cycle. */
  ghost predicate Sweeping(s: State, p: Policy, k8: Id) {
    Sound(s, p) && !p.repair && s.mem.k8 == k8 && IsIdentifier(k8) && k8 != p.host
  }

  ghost predicate ResultOk(c: CycleResult, p: Policy) {
    if c.Perished? then DiskOk(c.state.env) else Sound(c.state, p)
  }

  lemma SweepKeeps(o: Oracle, s: State, p: Policy, k8: Id, projects: seq<Project>, i: nat,
                   verified: set<Id>, report: Report)
    requires NoRepair(o) && i <= |projects| && Sweeping(s, p, k8)
    ensures ResultOk(Sweep(o, s, p, k8, projects, i, verified, report), p)
    decreases |projects| - i
  {
    if i == |projects| || (o.contextDone(s.env.now) && p.Allows(projects[i].id)) {
    } else if !p.Allows(projects[i].id) {
      SweepKeeps(o, s, p, k8, projects, i + 1, verified, report);
    } else {
      PolicyKeeps(o, s);
      var l := LoadPolicy(o, s.env);
      var s1 := s.(env := l.env);
      if l.reply.Ok? && SameBinding(l.reply.value, p) {
        if l.reply.value.Allows(projects[i].id) {
          VisitKeeps(o, s1, l.reply.value, k8, projects, i, verified, report);
        } else {
          SweepKeeps(o, s1, l.reply.value, k8, projects, i + 1, verified, report);
        }
      }
    }
  }

  lemma VisitKeeps(o: Oracle, s: State, p: Policy, k8: Id, projects: seq<Project>, i: nat,
                   verified: set<Id>, report: Report)
    requires NoRepair(o) && i < |projects| && Sweeping(s, p, k8)
    ensures ResultOk(Visit(o, s, p, k8, projects, i, verified, report), p)
    decreases |projects| - i, 0
  {
    var id := projects[i].id;
    NoteKeeps(s, Withdrawn(id));
    var s1 := s.(env := s.env.Note(Withdrawn(id)));
    ReconcileKeeps(o, s1, p, id, k8);
    var r := Reconcile(o, s1, p, id, k8);
    if !r.verdict.Died? {
      assert InScope(r.state.mem, p) by { ReconcileConfined(o, s1, p, id, k8); }
      var ready := r.verdict.Done? && r.verdict.status == Ready;
      SweepKeeps(o, r.state, p, k8, projects, i + 1, if ready then verified + {id} else verified,
                 Combine(report, id, r.verdict));
    }
  }

  lemma SurveyKeeps(o: Oracle, s: State, initial: Policy)
    requires NoRepair(o) && Sound(s, initial)
    ensures ResultOk(Survey(o, s, initial), initial)
  {
    PolicyKeeps(o, s);
    var l := LoadPolicy(o, s.env);
    var s1 := s.(env := l.env);
    if l.reply.Ok? && SameBinding(l.reply.value, initial) {
      var p := l.reply.value;
      NoteKeeps(s1, ProjectsRead);
      var ps := ReadProjects(o, s1.env);
      var s2 := s1.(env := ps.env);
      NoteKeeps(s2, IdentitiesRead);
      var is_ := ReadIdentities(o, s2.env);
      var s3 := s2.(env := is_.env);
      if ps.reply.Ok? && is_.reply.Ok? {
        IdentifyKeeps(o, s3, p, is_.reply.value);
        var k := Identify(o, s3, p, is_.reply.value);
        if k.Known? {
          SweepKeeps(o, k.state, p, k.k8, ps.reply.value, 0, {}, FRESH);
        }
      }
    }
  }

  lemma CycleKeeps(o: Oracle, s: State, initial: Policy)
    requires NoRepair(o) && Sound(s, initial)
    ensures ResultOk(Cycle(o, s, initial), initial)
  {
    SurveyKeeps(o, s, initial);
    var c := Survey(o, s, initial);
    if c.Reported? {
      NoteKeeps(c.state, Published(c.verified));
    }
  }

  lemma DiskNote(env: Env, e: Event)
    requires DiskOk(env) && !e.Mutation()
    ensures DiskOk(env.Note(e))
  {
    if env.disk.Some? {
      NoteKeeps(State(env.disk.value, env), e);
    }
  }

  lemma BootKeeps(o: Oracle, env: Env)
    requires NoRepair(o) && DiskOk(env)
    ensures SystemOk(Boot(o, env))
  {
    var l := LoadPolicy(o, env);
    DiskNote(env, PolicyRead(l.reply));
    if Boot(o, env).process.Up? {
      DiskNote(l.env, Booted(l.reply.value));
    }
  }

  lemma {:induction false} RunKeeps(o: Oracle, steps: seq<Step>)
    requires NoRepair(o)
    ensures SystemOk(Run(o, steps))
    decreases |steps|
  {
    if steps != [] {
      RunKeeps(o, steps[..|steps| - 1]);
      AdvanceKeeps(o, Run(o, steps[..|steps| - 1]), steps[|steps| - 1]);
    }
  }

  lemma AdvanceKeeps(o: Oracle, sys: System, step: Step)
    requires NoRepair(o) && SystemOk(sys)
    ensures SystemOk(Advance(o, sys, step))
  {
    if step.Restart? {
      BootKeeps(o, sys.env);
    } else if sys.process.Up? {
      CycleKeeps(o, State(sys.process.mem, sys.env), sys.process.initial);
    }
  }

  // ---------------------------------------------------------------- theorems

  /** Over every run a human is enrolled in a project at most once. */
  lemma EnrolledAtMostOnce(o: Oracle, steps: seq<Step>, i: nat, j: nat)
    requires NoRepair(o)
    requires var log := Run(o, steps).env.log;
             i < |log| && j < |log| && log[i].Enrolled? && log[j].Enrolled? && log[i].project == log[j].project
    ensures i == j
  {
    RunKeeps(o, steps);
    var log := Run(o, steps).env.log;
    assert SameMutation(log[i], log[j]) && SameMutation(log[j], log[i]);
  }

  predicate GrantOf(e: Event, project: Id, id: Id) {
    e.Granted? && e.project == project && e.identity == id
  }

  /** Two grants of the same membership in one log. */
  ghost predicate GrantedTwice(log: seq<Event>, project: Id, id: Id) {
    exists i, j :: 0 <= i < j < |log| && GrantOf(log[i], project, id) && GrantOf(log[j], project, id)
  }

  /** Over every run a membership is granted at most once, and never over an existing one. */
  lemma GrantedAtMostOnce(o: Oracle, steps: seq<Step>, project: Id, id: Id)
    requires NoRepair(o) && id != HUMAN
    ensures !GrantedTwice(Run(o, steps).env.log, project, id)
    ensures forall e | e in Run(o, steps).env.log && e.Granted? :: !e.existing
  {
    RunKeeps(o, steps);
    var log := Run(o, steps).env.log;
    forall i, j | 0 <= i < j < |log|
      ensures !(GrantOf(log[i], project, id) && GrantOf(log[j], project, id))
    {
      assert !SameMutation(log[i], log[j]);
    }
  }

  /** Whatever was issued is on disk: a restart from the disk alone, at any moment, still knows it. */
  lemma DiskKnowsEveryMutation(o: Oracle, steps: seq<Step>, e: Event)
    requires NoRepair(o) && e in Run(o, steps).env.log && e.Mutation()
    ensures var env := Run(o, steps).env; env.disk.Some? && Covered(env.disk.value, e)
  {
    RunKeeps(o, steps);
    var env := Run(o, steps).env;
    var i :| 0 <= i < |env.log| && env.log[i] == e;
  }
}
