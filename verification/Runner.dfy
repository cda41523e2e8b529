/** The runner in the program's own form: the mutex-protected sections and channel operations as methods over
    maps, a compacted order list and slot objects. Each method takes the step of `RunnerSpec` it names and
    says where the goroutine goes next; `RunRunner` drives a whole run. */
module Runner {
  import opened Replies
  import opened RunnerSpec
  import opened RunnerSafety
  import RunnerProgress
  import RunnerRuns
  import RunnerSteps

  /** A gate of capacity one and the number of goroutines that refer to it. */
  class KeySlot {
    const key: Key
    var gate: bool
    var refs: int
    const id: nat

    constructor (key: Key, id: nat)
      ensures this.key == key && this.id == id && gate && refs == 0
    {
      this.key, this.id, gate, refs := key, id, true, 0;
    }
  }

  class AsyncRunner {
    const maxActive: nat
    const maxRecords: nat
    const lockAll: bool  // management jobs lock every key, the host agent's only nonempty ones
    var active: int
    var jobs: map<nat, JobState>
    const order: array<nat>
    var count: nat
    var keys: map<Key, KeySlot>
    var stopped: bool
    var closed: bool
    var submitted: nat  // source of fresh job ids
    var slots: seq<KeySlot>  // the slots goroutines may refer to, by number, in the table or not
    var procs: seq<Proc>     // where each goroutine is

    /** The slot objects ever created are numbered; the table holds some of them. */
    ghost predicate Valid()
      reads this, slots
    {
      && order.Length == maxRecords && count <= order.Length && submitted == |procs|
      && (forall i | 0 <= i < |slots| :: slots[i].id == i)
      && (forall k | k in keys :: keys[k].id < |slots| && slots[keys[k].id] == keys[k])
    }

    ghost function SlotView(): (v: seq<Slot>)
      reads this, slots
      ensures |v| == |slots|
    {
      seq(|slots|, i requires 0 <= i < |slots| reads this, slots => Slot(slots[i].key, slots[i].gate, slots[i].refs))
    }

    ghost function View(): State
      requires Valid()
      reads this, slots, order
    {
      State(maxActive, maxRecords, active, jobs, order[..count], map k | k in keys :: keys[k].id,
            SlotView(), procs, stopped, closed)
    }

    constructor (maxActive: nat, maxRecords: nat, lockAll: bool)
      requires 1 <= maxActive <= maxRecords
      ensures this.lockAll == lockAll
      ensures Valid() && View() == New(maxActive, maxRecords) && fresh(order) && slots == []
    {
      this.maxActive, this.maxRecords, this.lockAll := maxActive, maxRecords, lockAll;
      order := new nat[maxRecords];
      active, jobs, count, keys, stopped, closed := 0, map[], 0, map[], false, false;
      submitted, slots, procs := 0, [], [];
    }

    /** Compacts the order list in place, dropping finished records while the table is full. */
    method PruneCompleted()
      requires Valid() && OrderOk(View())
      modifies this`jobs, this`count, order
      ensures Valid()
      ensures Pruning(View().order, jobs) == Prune(old(View()).order, old(jobs), maxRecords)
      ensures View() == old(View()).(order := View().order, jobs := jobs)
    {
      OrderLists(View());
      count, jobs := Compact(order, count, jobs, maxRecords);
    }

    /** Adds a queued record and its goroutine. */
    method Enlist(lock: Option<Key>) returns (id: nat)
      requires Valid() && count < order.Length
      modifies this`jobs, this`count, this`submitted, this`procs, order
      ensures Valid() && View() == Enqueue(old(View()), lock) && id == |old(procs)|
    {
      id := submitted;
      ghost var listed := order[..count];
      order[count] := id;
      count := count + 1;
      assert order[..count] == listed + [id];
      jobs := jobs[id := Queued];
      procs := procs + [Proc(lock, Waiting, None)];
      submitted := submitted + 1;
    }

    /** Accepts a job unless the runner is stopped or full of live records. */
    method Submit(key: Key) returns (r: SubmitReply)
      requires Valid() && Inv(View())
      modifies this`jobs, this`count, this`submitted, this`procs, order
      ensures Valid()
      ensures View() == SubmitState(old(View()), LockOf(key, lockAll)) && r == SubmitAnswer(old(View()))
    {
      if closed || stopped {
        return Refused;
      }
      RoomForOrder(View());
      if |jobs| >= maxRecords {
        PruneCompleted();
      }
      assert View() == MakeRoom(old(View()));
      if |jobs| >= maxRecords {
        return AtCapacity;
      }
      var id := Enlist(LockOf(key, lockAll));
      r := Accepted(id);
    }

    /** Every record has a goroutine. */
    static predicate InRange(s: State) {
      forall id | id in s.jobs :: id < |s.procs|
    }

    // -------------------------------------------------------------- the steps of a goroutine

    /** The goroutine is at this step and may take it. */
    ghost predicate Ready(id: nat, c: Choice)
      requires Valid()
      reads this, slots, order
    {
      CanMove(View(), id, c)
    }

    /** Moves the program counter of a goroutine. */
    method MoveTo(id: nat, pc: Pc)
      requires id < |procs|
      modifies this`procs
      ensures procs == old(procs)[id := old(procs[id]).(pc := pc)]
    {
      procs := procs[id := procs[id].(pc := pc)];
    }

    /** The send on `active`. */
    method TakePlace(id: nat)
      requires Valid() && Ready(id, Go) && procs[id].pc.Waiting?
      modifies this`active, this`procs
      ensures Valid() && View() == Move(old(View()), id, Go)
    {
      active := active + 1;
      MoveTo(id, if procs[id].lock.Some? then Looking else Admitted(None));
    }

    /** The receive on `active`. */
    method LeavePlace(id: nat)
      requires Valid() && Ready(id, Go) && procs[id].pc.Leaving?
      modifies this`active, this`procs
      ensures Valid() && View() == Move(old(View()), id, Go)
    {
      active := active - 1;
      MoveTo(id, if procs[id].pc.panicked then Recovering else Exiting);
    }

    /** The key's slot; a new one, with its token in the gate, if there is none. */
    method FindSlot(key: Key) returns (slot: KeySlot)
      requires Valid()
      modifies this`keys, this`slots
      ensures Valid() && slot in slots && key in keys && keys[key] == slot
      ensures forall x | x in slots :: x in old(slots) || fresh(x)
      ensures key in old(keys) ==> View() == old(View())
      ensures key !in old(keys) ==>
        View() == old(View()).(keys := old(View()).keys[key := |old(slots)|],
                               slots := old(View()).slots + [Slot(key, true, 0)])
    {
      if key in keys {
        slot := keys[key];
      } else {
        slot := new KeySlot(key, |slots|);
        keys := keys[key := slot];
        slots := slots + [slot];
      }
    }

    /** Changes the reference count of a slot. */
    method SetRefs(slot: KeySlot, refs: int)
      requires Valid() && slot in slots
      modifies slot`refs
      ensures Valid() && slot.refs == refs
      ensures View() == old(View()).(slots := old(View()).slots[slot.id := old(View()).slots[slot.id].(refs := refs)])
    {
      slot.refs := refs;
      assert SlotView() == old(View()).slots[slot.id := old(View()).slots[slot.id].(refs := refs)];
    }

    /** Finds or creates the key's slot and refers to it. */
    method RefKey(key: Key) returns (slot: KeySlot)
      requires Valid()
      modifies this`keys, this`slots, slots`refs
      ensures Valid() && View() == Ref(old(View()), key)
      ensures slot in slots && key in keys && keys[key] == slot
      ensures forall x | x in slots :: x in old(slots) || fresh(x)
    {
      slot := FindSlot(key);
      ghost var found := View();
      assert found.slots[slot.id].refs == slot.refs && found.keys[key] == slot.id;
      SetRefs(slot, slot.refs + 1);
      RefAfterFind(old(View()), found, key);
    }

    /** Drops a reference to the key's slot; the last one drops the slot from the table. */
    method UnrefKey(key: Key) returns (slot: KeySlot)
      requires Valid() && key in keys
      modifies this`keys, slots`refs
      ensures Valid() && View() == Unref(old(View()), key)
      ensures slot in slots && slot.id == old(View()).keys[key]
    {
      slot := keys[key];
      assert View().slots[slot.id].refs == slot.refs;
      SetRefs(slot, slot.refs - 1);
      if slot.refs == 0 {
        ghost var before := View();
        keys := keys - {key};
        assert View().keys == before.keys - {key};
      }
    }

    /** The critical section of acquireKey. */
    method LookUp(id: nat, key: Key) returns (slot: KeySlot)
      requires Valid() && Ready(id, Go) && procs[id].pc.Looking? && procs[id].lock == Some(key)
      modifies this`keys, this`slots, this`procs, slots`refs
      ensures Valid() && View() == Move(old(View()), id, Go)
      ensures slot in slots && procs[id].pc == Gated(slot.id)
      ensures forall x | x in slots :: x in old(slots) || fresh(x)
    {
      slot := RefKey(key);
      MoveTo(id, Gated(slot.id));
    }

    /** The receive on a slot's gate. */
    method TakeToken(id: nat, slot: KeySlot)
      requires Valid() && Ready(id, Go) && slot in slots && procs[id].pc == Gated(slot.id)
      modifies slot`gate, this`procs
      ensures Valid() && View() == Move(old(View()), id, Go)
    {
      ghost var s := View();
      slot.gate := false;
      MoveTo(id, Checking(slot.id));
      assert View().slots == Effect(s, id, Go).slots;
    }

    /** The send on a slot's gate: it never blocks, because the gate is empty. */
    method PutToken(id: nat, slot: KeySlot)
      requires Valid() && Ready(id, Go) && slot in slots
      requires procs[id].pc == Refunding(slot.id) || (procs[id].pc.Returning? && procs[id].pc.slot == slot.id)
      modifies slot`gate, this`procs
      ensures Valid() && View() == Move(old(View()), id, Go)
      ensures !old(slot.gate) && slot.gate
    {
      ghost var s := View();
      slot.gate := true;
      var pc := procs[id].pc;
      MoveTo(id, if pc.Refunding? then Finishing(OnlyActive, FailureOf(procs[id].done)) else Leaving(pc.panicked));
      assert View().slots == Effect(s, id, Go).slots;
    }

    /** The critical section of releaseKey and of releaseKeyReference: the last reference drops the slot. */
    method ReleaseReference(id: nat, key: Key) returns (slot: KeySlot)
      requires Valid() && Ready(id, Go) && RunnerSteps.Counts(procs[id].pc) && procs[id].lock == Some(key)
      modifies this`keys, this`procs, slots`refs
      ensures Valid() && View() == Move(old(View()), id, Go)
      ensures slot in slots && slot.id == old(View()).keys[key]
    {
      slot := UnrefKey(key);
      match procs[id].pc {
        case Dropping(_) => MoveTo(id, Finishing(OnlyActive, FailureOf(procs[id].done)));
        case Backing(sl) => MoveTo(id, Refunding(sl));
        case Unlocking(_, panicked) => MoveTo(id, Returning(slot.id, panicked));
      }
    }

    method MarkRunning(id: nat)
      requires Valid() && Ready(id, Go) && procs[id].pc.Starting?
      modifies this`jobs, this`procs
      ensures Valid() && View() == Move(old(View()), id, Go)
    {
      jobs := jobs[id := Running];
      MoveTo(id, Executing(procs[id].pc.key));
    }

    /** Writes the terminal state of a live record. */
    method Finish(id: nat, failure: Failure)
      requires Valid() && Ready(id, Go)
      requires (procs[id].pc.Finishing? && failure == procs[id].pc.failure)
            || (procs[id].pc.Recovering? && failure.OtherError?)
      modifies this`jobs, this`procs
      ensures Valid() && View() == Move(old(View()), id, Go)
      ensures id in old(jobs) && id in jobs && !jobs[id].Live()
    {
      var state: JobState;
      match failure {
        case DeadlineExceeded => state := TimedOut;
        case WasCanceled => state := Canceled;
        case OtherError => state := Failed;
        case NoError => state := Succeeded;
      }
      assert state == Verdict(failure);
      jobs := jobs[id := state];
      MoveTo(id, Unwinding(procs[id].pc));
    }

    /** The deferred calls that are left once the record is written. */
    static function Unwinding(pc: Pc): Pc {
      if !pc.Finishing? then Exiting
      else
        match pc.held
        case Nothing => Exiting
        case OnlyActive => Leaving(false)
        case WithKey(sl) => Unlocking(sl, false)
    }

    /** The steps a goroutine takes without a critical section or a channel: giving up a select, looking at its
        context, running the task, being done. */
    method StepAlone(id: nat, c: Choice)
      requires Valid() && Ready(id, c) && Alone(procs[id].pc, c)
      modifies this`procs
      ensures Valid() && View() == Move(old(View()), id, c)
    {
      var p := procs[id];
      match p.pc {
        case Waiting => MoveTo(id, Finishing(Nothing, FailureOf(p.done)));
        case Gated(sl) => MoveTo(id, Dropping(sl));
        case Checking(sl) => MoveTo(id, if p.done.Some? then Backing(sl) else Admitted(Some(sl)));
        case Admitted(k) => MoveTo(id, if p.done.Some? then Finishing(HeldOf(k), FailureOf(p.done)) else Starting(k));
        case Executing(k) =>
          MoveTo(id, if c.Return? then Returned(k, c.result)
                     else if k.Some? then Unlocking(k.value, true)
                     else Leaving(true));
        case Returned(k, f) => MoveTo(id, Finishing(HeldOf(k), if p.done.Some? then FailureOf(p.done) else f));
        case Exiting => MoveTo(id, Exited);
      }
    }

    static predicate Alone(pc: Pc, c: Choice) {
      match pc
      case Waiting => c.GiveUp?
      case Gated(_) => c.GiveUp?
      case Checking(_) => true
      case Admitted(_) => true
      case Executing(_) => true
      case Returned(_, _) => true
      case Exiting => true
      case _ => false
    }

    /** Whether a goroutine is able to take a step: only the selects can block. */
    predicate Able(id: nat, c: Choice)
      requires Valid() && Inv(View())
      reads this, slots, order
    {
      && id < |procs|
      && match procs[id].pc
         case Waiting => (c.Go? && active < maxActive) || (c.GiveUp? && procs[id].done.Some?)
         case Gated(sl) => sl < |slots| && ((c.Go? && slots[sl].gate) || (c.GiveUp? && procs[id].done.Some?))
         case Executing(_) => c.Return? || c.Panic?
         case Exited => false
         case _ => c.Go?
    }

    /** The next step of a goroutine up to its work: the place, the key. */
    method Enter(id: nat, c: Choice)
      requires Valid() && Ready(id, c) && RunnerSteps.Early(procs[id].pc) && !Alone(procs[id].pc, c)
      modifies this`active, this`keys, this`slots, this`procs, slots
      ensures Valid() && View() == Move(old(View()), id, c)
      ensures forall x | x in slots :: x in old(slots) || fresh(x)
    {
      var p := procs[id];
      match p.pc {
        case Waiting => TakePlace(id);
        case Looking => var slot := LookUp(id, p.lock.value);
        case Gated(sl) => TakeToken(id, slots[sl]);
        case Dropping(_) => var slot := ReleaseReference(id, p.lock.value);
        case Backing(_) => var slot := ReleaseReference(id, p.lock.value);
        case Refunding(sl) => PutToken(id, slots[sl]);
      }
    }

    /** The next step from the start of its work on: the record, the deferred releases. */
    method Unwind(id: nat, c: Choice)
      requires Valid() && Ready(id, c) && !RunnerSteps.Early(procs[id].pc) && !Alone(procs[id].pc, c)
      modifies this`active, this`jobs, this`keys, this`procs, slots
      ensures Valid() && View() == Move(old(View()), id, c) && slots == old(slots)
    {
      var p := procs[id];
      match p.pc {
        case Starting(_) => MarkRunning(id);
        case Finishing(_, f) => Finish(id, f);
        case Unlocking(_, _) => var slot := ReleaseReference(id, p.lock.value);
        case Returning(sl, _) => PutToken(id, slots[sl]);
        case Leaving(_) => LeavePlace(id);
        case Recovering => Finish(id, OtherError);
      }
    }

    /** The next step of a goroutine, whatever it is. */
    method Advance(id: nat, c: Choice)
      requires Valid() && Ready(id, c)
      modifies this`active, this`jobs, this`keys, this`slots, this`procs, slots
      ensures Valid() && View() == Move(old(View()), id, c)
      ensures forall x | x in slots :: x in old(slots) || fresh(x)
    {
      if Alone(procs[id].pc, c) {
        StepAlone(id, c);
      } else if RunnerSteps.Early(procs[id].pc) {
        Enter(id, c);
      } else {
        Unwind(id, c);
      }
    }

    // -------------------------------------------------------------- calls from outside

    method Status(id: nat) returns (r: Option<JobState>)
      ensures r == if id in jobs then Some(jobs[id]) else None
    {
      r := if id in jobs then Some(jobs[id]) else None;
    }

    /** Ends the context of a live job; the reply is the state before. */
    method Cancel(id: nat) returns (r: Option<JobState>)
      requires Valid() && InRange(View())
      modifies this`procs
      ensures Valid()
      ensures r == if id in jobs then Some(jobs[id]) else None
      ensures View() == if r.Some? && r.value.Live() then Next(old(View()), End(id, Cancellation)) else old(View())
    {
      r := if id in jobs then Some(jobs[id]) else None;
      if r.Some? && r.value.Live() {
        procs := procs[id := EndContext(procs[id], Cancellation)];
      }
    }

    /** The part of Close before it waits for the goroutines. */
    method Close()
      requires Valid()
      modifies this`closed, this`stopped, this`procs
      ensures Valid() && View() == Next(old(View()), Shutdown(true))
    {
      closed := true;
      stopped := true;
      procs := EndAll(procs);
    }

    /** The end of the parent context. */
    method Stop()
      requires Valid()
      modifies this`stopped, this`procs
      ensures Valid() && View() == Next(old(View()), Shutdown(false))
    {
      stopped := true;
      procs := EndAll(procs);
    }

    /** The timeout of a job, or its cancellation. */
    method EndJob(id: nat, cause: Cause)
      requires Valid()
      modifies this`procs
      ensures Valid() && View() == Next(old(View()), End(id, cause))
    {
      if id < |procs| {
        procs := procs[id := EndContext(procs[id], cause)];
      }
    }

    /** One call from outside or one step of a goroutine. */
    method Perform(call: Call, ghost s: State)
      requires Valid() && View() == s && Inv(s)
      modifies this, slots, order
      ensures Valid() && View() == Next(s, ActionOf(call, lockAll))
      ensures forall x | x in slots :: x in old(slots) || fresh(x)
    {
      match call {
        case Ask(key) => var r := Submit(key);
        case EndOf(id, cause) => EndJob(id, cause);
        case StopAll(close) =>
          if close {
            Close();
          } else {
            Stop();
          }
        case StepOf(id, c) =>
          AbleIff(this, id, c);
          if Able(id, c) {
            Advance(id, c);
          }
      }
    }

    method PerformAll(calls: seq<Call>)
      requires Valid() && Inv(View())
      modifies this, slots, order
      ensures Valid() && View() == Run(old(View()), Actions(calls, lockAll))
    {
      ghost var start, actions := View(), Actions(calls, lockAll);
      ghost var s := start;
      for i := 0 to |calls|
        invariant forall x | x in slots :: x in old(slots) || fresh(x)
        invariant Valid() && View() == s && Inv(s) && s == Run(start, actions[..i])
      {
        RunNext(start, actions, i);
        RunnerRuns.NextKeeps(s, actions[i]);
        forall n | 0 <= n < |slots| ensures slots[n] in old(slots) || fresh(slots[n]) {
          assert slots[n] in slots;
        }
        Perform(calls[i], s);
        s := Next(s, actions[i]);
      }
      assert actions[..|calls|] == actions;
    }
  }

  /** A step that is able to be taken is one of the state machine, and the other way round. */
  lemma AbleIff(r: AsyncRunner, id: nat, c: Choice)
    requires r.Valid() && Inv(r.View())
    ensures r.Able(id, c) <==> CanMove(r.View(), id, c)
  {
    if id < |r.procs| && !RunnerProgress.MayBlock(r.procs[id].pc) {
      RunnerProgress.Unblocked(r.View(), id);
    }
  }

  /** What can happen to a runner next. */
  datatype Call = Ask(key: Key) | EndOf(id: nat, cause: Cause) | StopAll(close: bool) | StepOf(id: nat, choice: Choice)

  function ActionOf(call: Call, lockAll: bool): Action {
    match call
    case Ask(key) => RunnerSpec.Submit(LockOf(key, lockAll))
    case EndOf(id, cause) => End(id, cause)
    case StopAll(close) => Shutdown(close)
    case StepOf(id, c) => Step(id, c)
  }

  function Actions(calls: seq<Call>, lockAll: bool): (actions: seq<Action>)
    ensures |actions| == |calls| && forall i | 0 <= i < |calls| :: actions[i] == ActionOf(calls[i], lockAll)
  {
    seq(|calls|, i requires 0 <= i < |calls| => ActionOf(calls[i], lockAll))
  }

  lemma RunNext(s: State, actions: seq<Action>, i: nat)
    requires i < |actions|
    ensures Run(s, actions[..i + 1]) == Next(Run(s, actions[..i]), actions[i])
  {
    assert actions[..i + 1][..i] == actions[..i];
  }

  /** A whole run: a new runner, with submissions, endings and steps in any order, ends in the state that `Run`
      describes, so the theorems about every run are about it. */
  method RunRunner(maxActive: nat, maxRecords: nat, lockAll: bool, calls: seq<Call>) returns (r: AsyncRunner)
    requires 1 <= maxActive <= maxRecords
    ensures fresh(r) && r.Valid() && r.View() == Run(New(maxActive, maxRecords), Actions(calls, lockAll))
  {
    r := new AsyncRunner(maxActive, maxRecords, lockAll);
    RunnerRuns.RunKeeps(maxActive, maxRecords, []);
    r.PerformAll(calls);
  }

  lemma RefAfterFind(s: State, found: State, key: Key)
    requires key in found.keys && found.keys[key] < |found.slots|
    requires key in s.keys ==> found == s
    requires key !in s.keys ==>
      found == s.(keys := s.keys[key := |s.slots|], slots := s.slots + [Slot(key, true, 0)])
    ensures var sl := found.keys[key];
            Ref(s, key) == found.(slots := found.slots[sl := found.slots[sl].(refs := found.slots[sl].refs + 1)])
  {
  }

  lemma OrderLists(s: State)
    requires OrderOk(s)
    ensures Increasing(s.order) && forall i | 0 <= i < |s.order| :: s.order[i] in s.jobs
  {
  }

  lemma RoomForOrder(s: State)
    requires Inv(s)
    ensures OrderOk(s) && OrderOk(MakeRoom(s))
  {
    RunnerRuns.RoomMade(s);
  }

  lemma KeepOne(head: seq<nat>, id: nat, r: Pruning)
    ensures head + ([id] + r.order) == (head + [id]) + r.order
  {
  }

  /** The in-place compaction: what is kept moves to the front of the array. */
  method Compact(order: array<nat>, count: nat, jobs: map<nat, JobState>, max: nat)
    returns (kept: nat, left: map<nat, JobState>)
    requires count <= order.Length && Increasing(order[..count])
    requires forall i | 0 <= i < count :: order[i] in jobs
    modifies order
    ensures kept <= count
    ensures Pruning(order[..kept], left) == Prune(old(order[..count]), jobs, max)
  {
    ghost var was := order[..count];
    left, kept := jobs, 0;
    for i := 0 to count
      invariant kept <= i && |was| == count
      invariant order[i..count] == was[i..]
      invariant forall j | i <= j < count :: was[j] in left
      invariant var r := Prune(was[i..], left, max); Pruning(order[..kept] + r.order, r.jobs) == Prune(was, jobs, max)
    {
      var id := order[i];
      assert id == order[i..count][0] == was[i];
      assert was[i..][1..] == was[i + 1..] && order[i..count][1..] == order[i + 1..count];
      if |left| >= max && !left[id].Live() {
        left := left - {id};
      } else {
        ghost var head := order[..kept];
        order[kept] := id;
        kept := kept + 1;
        assert order[..kept] == head + [id];
        assert order[i + 1..count] == was[i + 1..];
        KeepOne(head, id, Prune(was[i + 1..], left, max));
      }
    }
    assert order[..kept] + [] == order[..kept];
  }
}
