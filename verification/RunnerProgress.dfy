/** The runner cannot deadlock, every job ends if tasks return (open or closed), Close returns, and records live
    as documented. */
module RunnerProgress {
  import opened Replies
  import opened RunnerSpec
  import opened RunnerSafety
  import opened RunnerSteps
  import opened RunnerRuns

  // ---------------------------------------------------------------- progress

  /** An upper bound on the steps a goroutine still takes. */
  function Rank(pc: Pc): nat {
    match pc
    case Waiting => 14
    case Looking => 13
    case Gated(_) => 12
    case Checking(_) => 11
    case Admitted(_) => 10
    case Starting(_) => 9
    case Executing(_) => 8
    case Backing(_) => 8
    case Returned(_, _) => 7
    case Dropping(_) => 7
    case Refunding(_) => 7
    case Finishing(_, _) => 6
    case Unlocking(_, _) => 5
    case Returning(_, _) => 4
    case Leaving(_) => 3
    case Recovering => 2
    case Exiting => 1
    case Exited => 0
  }

  function Ranks(): Proc -> int {
    (p: Proc) => Rank(p.pc)
  }

  function Measure(s: State): int {
    Sum(s.procs, Ranks())
  }

  lemma EarlyRank(s: State, id: nat, c: Choice)
    requires CanMove(s, id, c) && Early(s.procs[id].pc)
    ensures Rank(After(s, id, c)) < Rank(s.procs[id].pc)
  {
  }

  lemma LateRank(s: State, id: nat, c: Choice)
    requires CanMove(s, id, c) && !Early(s.procs[id].pc)
    ensures Rank(After(s, id, c)) < Rank(s.procs[id].pc)
  {
  }

  /** Every step of every goroutine lowers the measure. */
  lemma MoveFalls(s: State, id: nat, c: Choice)
    requires CanMove(s, id, c)
    ensures Measure(Move(s, id, c)) < Measure(s)
  {
    if Early(s.procs[id].pc) {
      EarlyRank(s, id, c);
    } else {
      LateRank(s, id, c);
    }
    SumUpdate(s.procs, Ranks(), id, s.procs[id].(pc := After(s, id, c)));
  }

  predicate MayBlock(pc: Pc) {
    pc.Waiting? || pc.Gated? || pc.Exited?
  }

  /** The choice that is always open at a step that never blocks. */
  function Ahead(pc: Pc): Choice {
    if pc.Executing? then Return(NoError) else Go
  }

  /** Only the two selects can block: everywhere else the goroutine can go on. In particular a token
      always finds its gate empty, and a record is present whenever it is written. */
  lemma Unblocked(s: State, id: nat)
    requires Inv(s) && id < |s.procs| && !MayBlock(s.procs[id].pc)
    ensures CanMove(s, id, Ahead(s.procs[id].pc))
  {
    var pc := s.procs[id].pc;
    assert ProcOk(s, s.procs[id]) && RecordOk(s, id);
    if Counts(pc) {
      OwnSlotInTable(s, id, Refers(pc).value);
    } else if pc.Refunding? || pc.Returning? {
      SumAtLeast(s.procs, Tokens(pc.slot), id);
      assert Counted(s, pc.slot);
    } else if pc.Leaving? {
      SumAtLeast(s.procs, Places(), id);
    }
  }

  /** Whoever holds the token of a slot can go on. */
  lemma GateOpens(s: State, sl: nat) returns (j: nat)
    requires Inv(s) && sl < |s.slots| && !s.slots[sl].gate
    ensures j < |s.procs| && CanMove(s, j, Ahead(s.procs[j].pc))
  {
    assert Counted(s, sl);
    j := SumPositive(s.procs, Tokens(sl));
    assert Holds(s.procs[j].pc) == Some(sl);
    Unblocked(s, j);
  }

  /** No deadlock: while a goroutine has not exited, some goroutine can take a step. Holding a place in
      `active` while waiting for a key is harmless. */
  lemma Progress(s: State, id: nat) returns (j: nat, c: Choice)
    requires Inv(s) && id < |s.procs| && !s.procs[id].pc.Exited?
    ensures CanMove(s, j, c)
  {
    j, c := id, Ahead(s.procs[id].pc);
    if !MayBlock(s.procs[id].pc) {
      Unblocked(s, id);
    } else {
      if s.procs[id].pc.Waiting? && s.active == s.maxActive {
        j := SumPositive(s.procs, Places());
      }
      c := Ahead(s.procs[j].pc);
      assert ProcOk(s, s.procs[j]);
      if s.procs[j].pc.Gated? {
        var sl := s.procs[j].pc.slot;
        assert Refers(s.procs[j].pc) == Some(sl);
        if !s.slots[sl].gate {
          j := GateOpens(s, sl);
          c := Ahead(s.procs[j].pc);
        }
      } else if !s.procs[j].pc.Waiting? {
        Unblocked(s, j);
      }
    }
  }

  // ---------------------------------------------------------------- the end of a run

  /** How many goroutine steps a run takes. */
  function Moves(s: State, actions: seq<Action>): nat
    decreases |actions|
  {
    if actions == [] then 0
    else
      var front := actions[..|actions| - 1];
      var a := actions[|actions| - 1];
      Moves(s, front) + (if a.Step? && CanMove(Run(s, front), a.id, a.choice) then 1 else 0)
  }

  /** How many submissions a run accepts. */
  function Accepts(s: State, actions: seq<Action>): nat
    decreases |actions|
  {
    if actions == [] then 0
    else
      var front := actions[..|actions| - 1];
      var a := actions[|actions| - 1];
      Accepts(s, front) + (if a.Submit? && SubmitAnswer(Run(s, front)).Accepted? then 1 else 0)
  }

  /** The steps one accepted job can take. */
  const STEPS := 14

  /** One action on an open or closed runner: an accepted job adds its steps, a step uses one up. */
  lemma NextMeasure(s: State, a: Action)
    ensures var t := Next(s, a);
            if a.Submit? && SubmitAnswer(s).Accepted? then
              Measure(t) == Measure(s) + STEPS && |t.procs| == |s.procs| + 1
            else if a.Step? && CanMove(s, a.id, a.choice) then Measure(t) < Measure(s) && |t.procs| == |s.procs|
            else Measure(t) == Measure(s) && |t.procs| == |s.procs|
  {
    match a
    case Submit(lock) =>
      if SubmitAnswer(s).Accepted? {
        SumAppend(s.procs, Ranks(), Proc(lock, Waiting, None));
      }
    case End(id, cause) =>
      if id < |s.procs| {
        SumSame(s.procs, Next(s, a).procs, Ranks());
      }
    case Shutdown(_) => SumSame(s.procs, EndAll(s.procs), Ranks());
    case Step(id, c) =>
      if CanMove(s, id, c) {
        MoveFalls(s, id, c);
      }
  }

  /** From any state, open or closed, and whatever the interleaving: the goroutines take at most the steps they
      had left and fourteen for every job accepted meanwhile, and every goroutine beyond the first ones is an
      accepted job. */
  lemma {:induction false} StepsPerJob(s: State, actions: seq<Action>)
    ensures Moves(s, actions) + Measure(Run(s, actions)) <= Measure(s) + STEPS * Accepts(s, actions)
    ensures |Run(s, actions).procs| == |s.procs| + Accepts(s, actions)
    decreases |actions|
  {
    if actions != [] {
      var front := actions[..|actions| - 1];
      StepsPerJob(s, front);
      NextMeasure(Run(s, front), actions[|actions| - 1]);
    }
  }

  /** Where nothing can move, everything has ended. */
  lemma AllEnded(t: State)
    requires Inv(t) && forall j, c :: !CanMove(t, j, c)
    ensures forall i | 0 <= i < |t.procs| :: t.procs[i].pc.Exited?
    ensures forall id | id in t.jobs :: !t.jobs[id].Live()
  {
    forall i | 0 <= i < |t.procs| ensures t.procs[i].pc.Exited? {
      if !t.procs[i].pc.Exited? {
        var j, c := Progress(t, i);
        assert false;
      }
    }
    forall id | id in t.jobs ensures !t.jobs[id].Live() {
      assert RecordOk(t, id);
    }
  }

  /** Every submitted job ends: a run of a new runner takes at most fourteen steps per accepted job, and once no
      goroutine can move, every one has exited and every record is terminal. Since a goroutine that has not
      exited leaves some step open (`Progress`), this holds without Close or any timeout. */
  lemma EveryJobEnds(maxActive: nat, maxRecords: nat, actions: seq<Action>)
    requires 1 <= maxActive <= maxRecords
    ensures var t := Run(New(maxActive, maxRecords), actions);
            && |t.procs| == Accepts(New(maxActive, maxRecords), actions)
            && Moves(New(maxActive, maxRecords), actions) <= STEPS * |t.procs|
            && ((forall j, c :: !CanMove(t, j, c)) ==>
                  && (forall i | 0 <= i < |t.procs| :: t.procs[i].pc.Exited?)
                  && forall id | id in t.jobs :: !t.jobs[id].Live())
  {
    var s := New(maxActive, maxRecords);
    var t := Run(s, actions);
    RunKeeps(maxActive, maxRecords, actions);
    StepsPerJob(s, actions);
    SumNatural(t.procs, Ranks());
    if forall j, c :: !CanMove(t, j, c) {
      AllEnded(t);
    }
  }

  lemma NextStopped(s: State, a: Action)
    requires s.stopped
    ensures var t := Next(s, a);
            && t.stopped && (s.closed ==> t.closed) && |t.procs| == |s.procs|
            && (if a.Step? && CanMove(s, a.id, a.choice) then Measure(t) < Measure(s) else Measure(t) == Measure(s))
  {
    NextMeasure(s, a);
    if a.Step? && CanMove(s, a.id, a.choice) {
      assert Effect(s, a.id, a.choice).stopped == s.stopped && Effect(s, a.id, a.choice).closed == s.closed;
    }
  }

  /** After Close (or the end of the parent context) no goroutine is added, and whatever the interleaving,
      the goroutines together take at most `Measure` more steps. */
  lemma {:induction false} StepsAreBounded(s: State, actions: seq<Action>)
    requires s.stopped
    ensures var t := Run(s, actions);
            && t.stopped && (s.closed ==> t.closed) && |t.procs| == |s.procs|
            && Moves(s, actions) + Measure(t) <= Measure(s)
    decreases |actions|
  {
    if actions != [] {
      var front := actions[..|actions| - 1];
      StepsAreBounded(s, front);
      NextStopped(Run(s, front), actions[|actions| - 1]);
    }
  }

  /** Records are not added or dropped once the runner is stopped. */
  lemma {:induction false} RecordsAreFixed(s: State, actions: seq<Action>)
    requires Inv(s) && s.stopped
    ensures Run(s, actions).jobs.Keys == s.jobs.Keys && Inv(Run(s, actions)) && Run(s, actions).stopped
    decreases |actions|
  {
    if actions != [] {
      var front := actions[..|actions| - 1];
      var a := actions[|actions| - 1];
      RecordsAreFixed(s, front);
      NextKeeps(Run(s, front), a);
      NextStopped(Run(s, front), a);
      if a.Step? && CanMove(Run(s, front), a.id, a.choice) {
        assert RecordOk(Run(s, front), a.id);
        MoveRecord(Run(s, front), a.id, a.choice);
      }
    }
  }

  /** Close returns: from a closed runner, any run that can no longer go on has ended every goroutine (so
      the wait group is done) and given every record its terminal state; it took at most `Measure` steps
      and added nothing. */
  lemma CloseReturns(s: State, actions: seq<Action>)
    requires Inv(s) && s.closed
    requires forall j, c :: !CanMove(Run(s, actions), j, c)
    ensures var t := Run(s, actions);
            && (forall i | 0 <= i < |t.procs| :: t.procs[i].pc.Exited?)
            && (forall id | id in t.jobs :: !t.jobs[id].Live())
            && t.jobs.Keys == s.jobs.Keys && |t.procs| == |s.procs| && Moves(s, actions) <= Measure(s)
  {
    var t := Run(s, actions);
    RecordsAreFixed(s, actions);
    StepsAreBounded(s, actions);
    AllEnded(t);
    SumNatural(t.procs, Ranks());
  }

  // ---------------------------------------------------------------- records

  /** One action and one record: a live record stays, a terminal state never changes, and it is written only
      by the record's own goroutine at its last use of the record. */
  lemma RecordLife(s: State, a: Action, id: nat)
    requires Inv(s) && id in s.jobs
    ensures var t := Next(s, a);
            && (s.jobs[id].Live() ==> id in t.jobs)
            && (!s.jobs[id].Live() && id in t.jobs ==> t.jobs[id] == s.jobs[id])
            && (s.jobs[id].Live() && !t.jobs[id].Live() ==>
                  a.Step? && a.id == id && Unfinished(s.procs[id].pc) && !Unfinished(t.procs[id].pc))
            && (id !in t.jobs ==>
                  a.Submit? && |s.jobs| == s.maxRecords && forall j | j in s.jobs && j < id :: s.jobs[j].Live())
  {
    var t := Next(s, a);
    match a
    case Submit(lock) => RoomMade(s);
    case End(_, _) =>
    case Shutdown(_) =>
    case Step(i, c) =>
      if CanMove(s, i, c) {
        assert RecordOk(s, i) && RecordOk(s, id);
        MoveRecord(s, i, c);
        if i == id && !Unfinished(s.procs[i].pc) {
          FinishedIsQuiet(s, i, c);
        }
      }
  }

  /** After its terminal state is written, a goroutine does not use its record again. */
  lemma FinishedIsQuiet(s: State, id: nat, c: Choice)
    requires CanMove(s, id, c) && !Unfinished(s.procs[id].pc)
    ensures Move(s, id, c).jobs == s.jobs
  {
  }

  /** A terminal state is final over any continuation: the record keeps it for as long as it exists, and a
      dropped record does not come back. */
  lemma {:induction false} TerminalIsFinal(s: State, actions: seq<Action>, id: nat)
    requires Inv(s) && id < |s.procs| && (id in s.jobs ==> !s.jobs[id].Live())
    ensures var t := Run(s, actions);
            Inv(t) && id < |t.procs| && (id in t.jobs ==> id in s.jobs && t.jobs[id] == s.jobs[id])
    decreases |actions|
  {
    if actions != [] {
      var front := actions[..|actions| - 1];
      var a := actions[|actions| - 1];
      TerminalIsFinal(s, front, id);
      var t := Run(s, front);
      NextKeeps(t, a);
      if id in t.jobs {
        RecordLife(t, a, id);
      } else {
        GoneStaysGone(t, a, id);
      }
      NextGrows(t, a);
    }
  }

  lemma NextGrows(s: State, a: Action)
    ensures |Next(s, a).procs| >= |s.procs|
  {
    if a.Step? && CanMove(s, a.id, a.choice) {
      assert |Move(s, a.id, a.choice).procs| == |s.procs|;
    }
  }

  lemma GoneStaysGone(s: State, a: Action, id: nat)
    requires Inv(s) && id < |s.procs| && id !in s.jobs
    ensures id !in Next(s, a).jobs
  {
    match a
    case Submit(_) => RoomMade(s);
    case End(_, _) =>
    case Shutdown(_) =>
    case Step(i, c) =>
      if CanMove(s, i, c) {
        assert RecordOk(s, i);
        MoveRecord(s, i, c);
      }
  }
}
