/** What a job's record says at its end, told by the calls and steps of the run: how the task ended, and whether the
    job's context had ended when its goroutine looked. */
module RunnerVerdicts {
  import opened Replies
  import opened RunnerSpec
  import opened RunnerSafety
  import opened RunnerSteps
  import opened RunnerRuns
  import opened RunnerProgress

  // ---------------------------------------------------------------- what happened to a job

  /** The action is a step that the goroutine of the job takes. */
  predicate Takes(s: State, a: Action, id: nat) {
    a.Step? && a.id == id && CanMove(s, id, a.choice)
  }

  /** Why the context of the job ended: the first timeout, cancellation or shutdown after its submission. */
  function Context(s: State, actions: seq<Action>, id: nat): Option<Cause>
    decreases |actions|
  {
    if actions == [] then None
    else
      var front, a := actions[..|actions| - 1], actions[|actions| - 1];
      var before := Context(s, front, id);
      if before.Some? || id >= |Run(s, front).procs| then before
      else if a.End? && a.id == id then Some(a.cause)
      else if a.Shutdown? then Some(Cancellation)
      else None
  }

  /** How the task of the job ended: what it returned, or that it panicked. */
  function Ending(s: State, actions: seq<Action>, id: nat): Option<Choice>
    decreases |actions|
  {
    if actions == [] then None
    else
      var front, a := actions[..|actions| - 1], actions[|actions| - 1];
      var before := Ending(s, front, id);
      if before.None? && Takes(Run(s, front), a, id) && (a.choice.Return? || a.choice.Panic?) then Some(a.choice)
      else before
  }

  /** What the goroutine saw of the context in its first step after the task ended. */
  function Look(s: State, actions: seq<Action>, id: nat): Option<Option<Cause>>
    decreases |actions|
  {
    if actions == [] then None
    else
      var front, a := actions[..|actions| - 1], actions[|actions| - 1];
      var before := Look(s, front, id);
      if before.None? && Ending(s, front, id).Some? && Takes(Run(s, front), a, id) then Some(Context(s, front, id))
      else before
  }

  // ---------------------------------------------------------------- what the record then says

  /** The task returned this, and the context was still alive when the goroutine looked. */
  predicate Undisturbed(ending: Option<Choice>, look: Option<Option<Cause>>, result: Failure) {
    ending == Some(Return(result)) && look == Some(None)
  }

  /** The context ended with this cause before the task began, or before the goroutine looked after it returned. */
  predicate CutOff(ending: Option<Choice>, look: Option<Option<Cause>>, context: Option<Cause>, cause: Cause) {
    if ending.None? then context == Some(cause) else ending.value.Return? && look == Some(Some(cause))
  }

  predicate Justified(st: JobState, ending: Option<Choice>, look: Option<Option<Cause>>, context: Option<Cause>) {
    && !st.Live()
    && (st == Succeeded <==> Undisturbed(ending, look, NoError))
    && (st == TimedOut <==> CutOff(ending, look, context, Timeout) || Undisturbed(ending, look, DeadlineExceeded))
    && (st == Canceled <==> CutOff(ending, look, context, Cancellation) || Undisturbed(ending, look, WasCanceled))
    && (st == Failed <==> ending == Some(Panic) || Undisturbed(ending, look, OtherError))
  }

  // ---------------------------------------------------------------- the invariant

  predicate Decided(ending: Option<Choice>, look: Option<Option<Cause>>, context: Option<Cause>) {
    if ending.None? then look.None? && context.Some?
    else ending.value.Panic? || (ending.value.Return? && look.Some?)
  }

  /** Where the goroutine is says how far its job's history is. */
  predicate Told(s: State, id: nat, ending: Option<Choice>, look: Option<Option<Cause>>, context: Option<Cause>) {
    if id >= |s.procs| then ending.None? && look.None? && context.None?
    else
      && s.procs[id].done == context
      && match s.procs[id].pc
         case Returned(_, f) => ending == Some(Return(f)) && look.None?
         case Finishing(_, f) => Justified(Verdict(f), ending, look, context) && Decided(ending, look, context)
         case Unlocking(_, b) => Over(s, id, b, ending, look, context)
         case Returning(_, b) => Over(s, id, b, ending, look, context)
         case Leaving(b) => Over(s, id, b, ending, look, context)
         case Recovering => ending == Some(Panic)
         case Exiting => Over(s, id, false, ending, look, context)
         case Exited => Over(s, id, false, ending, look, context)
         case _ => ending.None? && look.None?
  }

  predicate Over(s: State, id: nat, panicked: bool, ending: Option<Choice>, look: Option<Option<Cause>>,
                 context: Option<Cause>) {
    && (panicked ==> ending == Some(Panic))
    && Decided(ending, look, context)
    && (!panicked && id in s.jobs ==> Justified(s.jobs[id], ending, look, context))
  }

  // ---------------------------------------------------------------- one action

  function NextEnding(ch: Choice, ending: Option<Choice>): Option<Choice> {
    if ending.None? && (ch.Return? || ch.Panic?) then Some(ch) else ending
  }

  function NextLook(ending: Option<Choice>, look: Option<Option<Cause>>, context: Option<Cause>)
      : Option<Option<Cause>>
  {
    if look.None? && ending.Some? then Some(context) else look
  }

  /** The goroutine's claim after its step. */
  ghost predicate NextTold(s: State, id: nat, ch: Choice, ending: Option<Choice>, look: Option<Option<Cause>>,
                           context: Option<Cause>)
    requires CanMove(s, id, ch)
  {
    Told(Move(s, id, ch), id, NextEnding(ch, ending), NextLook(ending, look, context), context)
  }

  predicate BeforeTask(pc: Pc) {
    pc.Waiting? || pc.Looking? || pc.Gated? || pc.Checking? || pc.Dropping? || pc.Backing? || pc.Refunding?
  }

  /** Up to the task: who gives up does so because the context ended. */
  lemma EarlyTold(s: State, id: nat, ch: Choice, context: Option<Cause>)
    requires CanMove(s, id, ch) && Told(s, id, None, None, context) && ProcOk(s, s.procs[id])
    requires BeforeTask(s.procs[id].pc)
    ensures NextTold(s, id, ch, None, None, context)
  {
    assert !ch.Return? && !ch.Panic?;
  }

  lemma TaskTold(s: State, id: nat, ch: Choice, context: Option<Cause>)
    requires CanMove(s, id, ch) && Told(s, id, None, None, context)
    requires var pc := s.procs[id].pc; pc.Admitted? || pc.Starting? || pc.Executing?
    ensures NextTold(s, id, ch, None, None, context)
  {
  }

  lemma ReturnedTold(s: State, id: nat, ch: Choice, ending: Option<Choice>, look: Option<Option<Cause>>,
                     context: Option<Cause>)
    requires CanMove(s, id, ch) && Told(s, id, ending, look, context) && s.procs[id].pc.Returned?
    ensures NextTold(s, id, ch, ending, look, context)
  {
  }

  /** The record is written. */
  lemma FinishingTold(s: State, id: nat, ch: Choice, ending: Option<Choice>, look: Option<Option<Cause>>,
                      context: Option<Cause>)
    requires CanMove(s, id, ch) && Told(s, id, ending, look, context)
    requires s.procs[id].pc.Finishing? || s.procs[id].pc.Recovering?
    ensures NextTold(s, id, ch, ending, look, context)
  {
  }

  predicate Unwinding(pc: Pc) {
    pc.Unlocking? || pc.Returning? || pc.Leaving? || pc.Exiting?
  }

  /** What is left is released. */
  lemma UnwindingTold(s: State, id: nat, ch: Choice, ending: Option<Choice>, look: Option<Option<Cause>>,
                      context: Option<Cause>)
    requires CanMove(s, id, ch) && Told(s, id, ending, look, context) && Unwinding(s.procs[id].pc)
    ensures NextTold(s, id, ch, ending, look, context)
  {
    assert Move(s, id, ch).jobs == s.jobs;
  }

  /** The goroutine's own step. */
  lemma StepTold(s: State, id: nat, ch: Choice, ending: Option<Choice>, look: Option<Option<Cause>>,
                 context: Option<Cause>)
    requires CanMove(s, id, ch) && Told(s, id, ending, look, context) && ProcOk(s, s.procs[id])
    ensures NextTold(s, id, ch, ending, look, context)
  {
    var pc := s.procs[id].pc;
    if BeforeTask(pc) {
      EarlyTold(s, id, ch, context);
    } else if pc.Admitted? || pc.Starting? || pc.Executing? {
      TaskTold(s, id, ch, context);
    } else if pc.Returned? {
      ReturnedTold(s, id, ch, ending, look, context);
    } else if pc.Finishing? || pc.Recovering? {
      FinishingTold(s, id, ch, ending, look, context);
    } else {
      UnwindingTold(s, id, ch, ending, look, context);
    }
  }

  // ---------------------------------------------------------------- any action

  function NextContext(s: State, a: Action, id: nat, context: Option<Cause>): Option<Cause> {
    if context.Some? || id >= |s.procs| then context
    else if a.End? && a.id == id then Some(a.cause)
    else if a.Shutdown? then Some(Cancellation)
    else None
  }

  /** The same goroutine, and its record kept or dropped. */
  lemma SameTold(s: State, t: State, id: nat, ending: Option<Choice>, look: Option<Option<Cause>>,
                 context: Option<Cause>)
    requires Told(s, id, ending, look, context) && id < |s.procs| <= |t.procs| && t.procs[id] == s.procs[id]
    requires id in t.jobs ==> id in s.jobs && t.jobs[id] == s.jobs[id]
    ensures Told(t, id, ending, look, context)
  {
  }

  lemma SubmitTold(s: State, lock: Option<Key>, id: nat, ending: Option<Choice>, look: Option<Option<Cause>>,
                   context: Option<Cause>)
    requires Inv(s) && Told(s, id, ending, look, context)
    ensures Told(SubmitState(s, lock), id, ending, look, context)
  {
    var t := SubmitState(s, lock);
    RoomMade(s);
    if id < |s.procs| {
      assert t.procs[id] == s.procs[id];
      SameTold(s, t, id, ending, look, context);
    }
  }

  /** Contexts end; nothing else changes. */
  lemma ContextTold(s: State, t: State, id: nat, ending: Option<Choice>, look: Option<Option<Cause>>,
                    context: Option<Cause>, context': Option<Cause>)
    requires Told(s, id, ending, look, context) && id < |s.procs| == |t.procs| && t.jobs == s.jobs
    requires t.procs[id] == s.procs[id].(done := context') && (context.Some? ==> context' == context)
    ensures Told(t, id, ending, look, context')
  {
  }

  /** The step of another goroutine. */
  lemma OtherTold(s: State, i: nat, c: Choice, id: nat, ending: Option<Choice>, look: Option<Option<Cause>>,
                  context: Option<Cause>)
    requires Inv(s) && CanMove(s, i, c) && id < |s.procs| && i != id && Told(s, id, ending, look, context)
    ensures Told(Move(s, i, c), id, ending, look, context)
  {
    assert RecordOk(s, i);
    MoveRecord(s, i, c);
    SameTold(s, Move(s, i, c), id, ending, look, context);
  }

  lemma EndTold(s: State, a: Action, id: nat, ending: Option<Choice>, look: Option<Option<Cause>>,
                context: Option<Cause>)
    requires (a.End? || a.Shutdown?) && Told(s, id, ending, look, context)
    ensures Told(Next(s, a), id, ending, look, NextContext(s, a, id, context))
  {
    if id < |s.procs| {
      ContextTold(s, Next(s, a), id, ending, look, context, NextContext(s, a, id, context));
    }
  }

  lemma ActionTold(s: State, a: Action, id: nat, ending: Option<Choice>, look: Option<Option<Cause>>,
                   context: Option<Cause>)
    requires Inv(s) && Told(s, id, ending, look, context)
    ensures var takes := Takes(s, a, id);
            Told(Next(s, a), id, if takes then NextEnding(a.choice, ending) else ending,
                 if takes then NextLook(ending, look, context) else look, NextContext(s, a, id, context))
  {
    match a
    case Submit(lock) => SubmitTold(s, lock, id, ending, look, context);
    case End(_, _) => EndTold(s, a, id, ending, look, context);
    case Shutdown(_) => EndTold(s, a, id, ending, look, context);
    case Step(i, c) =>
      if CanMove(s, i, c) && id < |s.procs| {
        if i == id {
          assert ProcOk(s, s.procs[id]);
          StepTold(s, id, c, ending, look, context);
        } else {
          OtherTold(s, i, c, id, ending, look, context);
        }
      }
  }

  lemma {:induction false} RunTold(maxActive: nat, maxRecords: nat, actions: seq<Action>, id: nat)
    requires 1 <= maxActive <= maxRecords
    ensures var s := New(maxActive, maxRecords);
            Told(Run(s, actions), id, Ending(s, actions, id), Look(s, actions, id), Context(s, actions, id))
    decreases |actions|
  {
    if actions != [] {
      var s := New(maxActive, maxRecords);
      var front := actions[..|actions| - 1];
      RunTold(maxActive, maxRecords, front, id);
      RunKeeps(maxActive, maxRecords, front);
      ActionTold(Run(s, front), actions[|actions| - 1], id, Ending(s, front, id), Look(s, front, id),
                 Context(s, front, id));
    }
  }

  /** What a finished record says, over every run of a new runner: succeeded exactly if the task returned without an
      error and the context was alive when the goroutine looked next; timed out or canceled exactly if the context
      had ended so before the task began or by that look, or the task itself returned that error; failed exactly if
      the task panicked or returned another error with the context alive. */
  lemma RecordTells(maxActive: nat, maxRecords: nat, actions: seq<Action>, id: nat)
    requires 1 <= maxActive <= maxRecords
    requires var s := Run(New(maxActive, maxRecords), actions); id in s.jobs && !s.jobs[id].Live()
    ensures var s := New(maxActive, maxRecords);
            Justified(Run(s, actions).jobs[id], Ending(s, actions, id), Look(s, actions, id), Context(s, actions, id))
  {
    RunTold(maxActive, maxRecords, actions, id);
    RunKeeps(maxActive, maxRecords, actions);
    var s := Run(New(maxActive, maxRecords), actions);
    assert RecordOk(s, id);
  }

  // ---------------------------------------------------------------- the keys that were asked for

  lemma LockStays(s: State, a: Action, id: nat)
    requires id < |s.procs|
    ensures id < |Next(s, a).procs| && Next(s, a).procs[id].lock == s.procs[id].lock
  {
    if a.Step? && CanMove(s, a.id, a.choice) {
      assert Move(s, a.id, a.choice).procs == s.procs[a.id := s.procs[a.id].(pc := After(s, a.id, a.choice))];
    } else if a.Submit? {
      assert SubmitState(s, a.lock).procs[..|s.procs|] == s.procs;
    }
  }

  lemma {:induction false} LockKept(s: State, actions: seq<Action>, n: nat, id: nat)
    requires n <= |actions| && id < |Run(s, actions[..n]).procs|
    ensures id < |Run(s, actions).procs|
    ensures Run(s, actions).procs[id].lock == Run(s, actions[..n]).procs[id].lock
    decreases |actions|
  {
    if n == |actions| {
      assert actions[..n] == actions;
    } else {
      var front := actions[..|actions| - 1];
      assert front[..n] == actions[..n];
      LockKept(s, front, n, id);
      LockStays(Run(s, front), actions[|actions| - 1], id);
    }
  }

  /** The n-th action asks for a job with this key and is given this id. */
  predicate Asked(s: State, actions: seq<Action>, n: nat, key: Key, lockAll: bool, id: nat) {
    && n < |actions| && actions[n] == Submit(LockOf(key, lockAll))
    && SubmitAnswer(Run(s, actions[..n])) == Accepted(id)
  }

  lemma AskedLock(s: State, actions: seq<Action>, n: nat, key: Key, lockAll: bool, id: nat)
    requires Asked(s, actions, n, key, lockAll, id) && (lockAll || key != "")
    ensures id < |Run(s, actions).procs| && Run(s, actions).procs[id].lock == Some(key)
    ensures id == |Run(s, actions[..n]).procs| < |Run(s, actions[..n + 1]).procs|
  {
    assert actions[..n + 1][..n] == actions[..n];
    LockKept(s, actions, n + 1, id);
  }

  /** Two jobs that were asked for with the same key are never at work together; only the host agent's empty key asks
      for no such protection. */
  lemma AskedKeysAreExclusive(maxActive: nat, maxRecords: nat, actions: seq<Action>, m: nat, n: nat, key: Key,
                              lockAll: bool, i: nat, j: nat)
    requires 1 <= maxActive <= maxRecords && m < n && (lockAll || key != "")
    requires var s := New(maxActive, maxRecords);
             Asked(s, actions, m, key, lockAll, i) && Asked(s, actions, n, key, lockAll, j)
    ensures var s := Run(New(maxActive, maxRecords), actions);
            && i < |s.procs| && j < |s.procs| && i != j
            && !(s.procs[i].pc.Executing? && s.procs[j].pc.Executing?)
  {
    var s := New(maxActive, maxRecords);
    AskedLock(s, actions, m, key, lockAll, i);
    AskedLock(s, actions, n, key, lockAll, j);
    var front := actions[..n];
    assert front[..m + 1] == actions[..m + 1];
    LockKept(s, front, m + 1, i);
    var t := Run(s, actions);
    if t.procs[i].pc.Executing? && t.procs[j].pc.Executing? {
      KeysAreExclusive(maxActive, maxRecords, actions, i, j);
    }
  }
}
