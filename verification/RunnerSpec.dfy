/** The bounded keyed runner as a state machine: every goroutine is a program counter over the atomic steps
    of `run`, `acquireKey` and `releaseKey`; the mutex-protected state is shared. Job ids are handed out in
    submission order, so the id of a job is its index in `procs`. */
module RunnerSpec {
  import opened Replies

  type Key = string

  /** Why a job's context ended. */
  datatype Cause = Timeout | Cancellation

  /** An error as `finish` tells them apart. */
  datatype Failure = NoError | DeadlineExceeded | WasCanceled | OtherError

  datatype JobState = Queued | Running | Succeeded | Failed | Canceled | TimedOut {
    predicate Live() {
      Queued? || Running?
    }
  }

  function FailureOf(done: Option<Cause>): Failure {
    match done
    case None => NoError
    case Some(Timeout) => DeadlineExceeded
    case Some(Cancellation) => WasCanceled
  }

  function Verdict(f: Failure): JobState {
    match f
    case NoError => Succeeded
    case DeadlineExceeded => TimedOut
    case WasCanceled => Canceled
    case OtherError => Failed
  }

  /** What the deferred calls of a goroutine still have to release. */
  datatype Held = Nothing | OnlyActive | WithKey(slot: nat)

  /** Where a goroutine is: the name says what it does next. */
  datatype Pc =
    | Waiting                                  // select: a place in `active`, or the end of the context
    | Looking                                  // critical section of acquireKey: find or create the slot
    | Gated(slot: nat)                         // select: the slot's token, or the end of the context
    | Checking(slot: nat)                      // holds the token: is the context still alive?
    | Dropping(slot: nat)                      // gave up waiting: releaseKeyReference
    | Backing(slot: nat)                       // gave up with the token: releaseKeyReference
    | Refunding(slot: nat)                     // puts the token back
    | Admitted(key: Option<nat>)               // is the context still alive?
    | Starting(key: Option<nat>)               // marks the record running
    | Executing(key: Option<nat>)              // the job does its work
    | Returned(key: Option<nat>, result: Failure)
    | Finishing(held: Held, failure: Failure)  // writes the terminal state
    | Unlocking(slot: nat, panicked: bool)     // critical section of releaseKey
    | Returning(slot: nat, panicked: bool)     // puts the token back
    | Leaving(panicked: bool)                  // gives the place in `active` back
    | Recovering                               // recovered a panic: writes the terminal state
    | Exiting                                  // wg.Done
    | Exited

  datatype Proc = Proc(lock: Option<Key>, pc: Pc, done: Option<Cause>)

  /** A key slot: whether its one token is in the gate, and how many goroutines refer to it. */
  datatype Slot = Slot(key: Key, gate: bool, refs: int)

  datatype State = State(
    maxActive: nat,
    maxRecords: nat,
    active: int,
    jobs: map<nat, JobState>,
    order: seq<nat>,
    keys: map<Key, nat>,
    slots: seq<Slot>,
    procs: seq<Proc>,
    stopped: bool,
    closed: bool
  )

  /** A new runner; the source panics unless 1 <= maxActive <= maxRecords. */
  function New(maxActive: nat, maxRecords: nat): State {
    State(maxActive, maxRecords, 0, map[], [], map[], [], [], false, false)
  }

  // ---------------------------------------------------------------- the steps of one goroutine

  /** A branch of a select, or how a task ends. */
  datatype Choice = Go | GiveUp | Return(result: Failure) | Panic

  function HeldOf(key: Option<nat>): Held {
    if key.Some? then WithKey(key.value) else OnlyActive
  }

  /** Whether the goroutine can take this step now. A channel operation blocks: `active` when it is full,
      the gate's receive when it is empty and its send when it is full. */
  predicate CanMove(s: State, id: nat, c: Choice) {
    && id < |s.procs|
    && var p := s.procs[id];
       match p.pc
       case Waiting => (c.Go? && s.active < s.maxActive) || (c.GiveUp? && p.done.Some?)
       case Looking => c.Go? && p.lock.Some?
       case Gated(sl) => sl < |s.slots| && ((c.Go? && s.slots[sl].gate) || (c.GiveUp? && p.done.Some?))
       case Dropping(sl) => c.Go? && HasSlot(s, p.lock)
       case Backing(sl) => c.Go? && HasSlot(s, p.lock)
       case Refunding(sl) => c.Go? && sl < |s.slots| && !s.slots[sl].gate
       case Starting(_) => c.Go? && id in s.jobs
       case Executing(_) => c.Return? || c.Panic?
       case Finishing(_, _) => c.Go? && id in s.jobs
       case Unlocking(_, _) => c.Go? && HasSlot(s, p.lock)
       case Returning(sl, _) => c.Go? && sl < |s.slots| && !s.slots[sl].gate
       case Leaving(_) => c.Go? && s.active > 0
       case Recovering => c.Go? && id in s.jobs
       case Exited => false
       case _ => c.Go?
  }

  predicate HasSlot(s: State, lock: Option<Key>) {
    lock.Some? && lock.value in s.keys && s.keys[lock.value] < |s.slots|
  }

  function Gate(s: State, sl: nat, full: bool): State
    requires sl < |s.slots|
  {
    s.(slots := s.slots[sl := s.slots[sl].(gate := full)])
  }

  /** Adds a reference to the key's slot, creating the slot with its token in the gate if there is none. */
  function Ref(s: State, key: Key): State {
    if key in s.keys && s.keys[key] < |s.slots| then
      var sl := s.keys[key];
      s.(slots := s.slots[sl := s.slots[sl].(refs := s.slots[sl].refs + 1)])
    else
      s.(keys := s.keys[key := |s.slots|], slots := s.slots + [Slot(key, true, 1)])
  }

  /** Drops a reference to the key's slot; the last one removes the slot from the table. */
  function Unref(s: State, key: Key): State
    requires key in s.keys && s.keys[key] < |s.slots|
  {
    var sl := s.keys[key];
    var refs := s.slots[sl].refs - 1;
    s.(slots := s.slots[sl := s.slots[sl].(refs := refs)],
       keys := if refs == 0 then s.keys - {key} else s.keys)
  }

  /** What the step does to the shared state. */
  function Effect(s: State, id: nat, c: Choice): (t: State)
    requires CanMove(s, id, c)
  {
    var p := s.procs[id];
    match p.pc
    case Waiting => if c.Go? then s.(active := s.active + 1) else s
    case Looking => Ref(s, p.lock.value)
    case Gated(sl) => if c.Go? then Gate(s, sl, false) else s
    case Dropping(_) => Unref(s, p.lock.value)
    case Backing(_) => Unref(s, p.lock.value)
    case Refunding(sl) => Gate(s, sl, true)
    case Starting(_) => s.(jobs := s.jobs[id := Running])
    case Finishing(_, f) => s.(jobs := s.jobs[id := Verdict(f)])
    case Unlocking(_, _) => Unref(s, p.lock.value)
    case Returning(sl, _) => Gate(s, sl, true)
    case Leaving(_) => s.(active := s.active - 1)
    case Recovering => s.(jobs := s.jobs[id := Verdict(OtherError)])
    case _ => s
  }

  /** Where the goroutine is after the step. */
  function After(s: State, id: nat, c: Choice): Pc
    requires CanMove(s, id, c)
  {
    var p := s.procs[id];
    match p.pc
    case Waiting =>
      if c.GiveUp? then Finishing(Nothing, FailureOf(p.done))
      else if p.lock.Some? then Looking
      else Admitted(None)
    case Looking => Gated(Ref(s, p.lock.value).keys[p.lock.value])
    case Gated(sl) => if c.Go? then Checking(sl) else Dropping(sl)
    case Checking(sl) => if p.done.Some? then Backing(sl) else Admitted(Some(sl))
    case Dropping(_) => Finishing(OnlyActive, FailureOf(p.done))
    case Backing(sl) => Refunding(sl)
    case Refunding(_) => Finishing(OnlyActive, FailureOf(p.done))
    case Admitted(k) => if p.done.Some? then Finishing(HeldOf(k), FailureOf(p.done)) else Starting(k)
    case Starting(k) => Executing(k)
    case Executing(k) =>
      if c.Return? then Returned(k, c.result)
      else if k.Some? then Unlocking(k.value, true)
      else Leaving(true)
    case Returned(k, f) => Finishing(HeldOf(k), if p.done.Some? then FailureOf(p.done) else f)
    case Finishing(h, _) =>
      (match h case Nothing => Exiting case OnlyActive => Leaving(false) case WithKey(sl) => Unlocking(sl, false))
    case Unlocking(_, b) => Returning(s.keys[p.lock.value], b)
    case Returning(_, b) => Leaving(b)
    case Leaving(b) => if b then Recovering else Exiting
    case Recovering => Exiting
    case Exiting => Exited
  }

  function Move(s: State, id: nat, c: Choice): State
    requires CanMove(s, id, c)
  {
    var p := s.procs[id];
    Effect(s, id, c).(procs := s.procs[id := p.(pc := After(s, id, c))])
  }

  // ---------------------------------------------------------------- calls from outside

  datatype Pruning = Pruning(order: seq<nat>, jobs: map<nat, JobState>)

  /** Walks over the records, oldest first, and drops a finished one while there are too many. */
  function Prune(order: seq<nat>, jobs: map<nat, JobState>, max: nat): Pruning {
    if order == [] then Pruning([], jobs)
    else if |jobs| >= max && order[0] in jobs && !jobs[order[0]].Live() then
      Prune(order[1..], jobs - {order[0]}, max)
    else
      var r := Prune(order[1..], jobs, max);
      r.(order := [order[0]] + r.order)
  }

  datatype SubmitReply = Accepted(id: nat) | Refused | AtCapacity

  function MakeRoom(s: State): State {
    if |s.jobs| >= s.maxRecords then
      var r := Prune(s.order, s.jobs, s.maxRecords);
      s.(order := r.order, jobs := r.jobs)
    else s
  }

  function SubmitState(s: State, lock: Option<Key>): State {
    if s.closed || s.stopped then s
    else
      var t := MakeRoom(s);
      if |t.jobs| >= t.maxRecords then t
      else Enqueue(t, lock)
  }

  /** A queued record and its goroutine. */
  function Enqueue(s: State, lock: Option<Key>): State {
    var id := |s.procs|;
    s.(jobs := s.jobs[id := Queued], order := s.order + [id], procs := s.procs + [Proc(lock, Waiting, None)])
  }

  function SubmitAnswer(s: State): SubmitReply {
    if s.closed || s.stopped then Refused
    else if |MakeRoom(s).jobs| >= s.maxRecords then AtCapacity
    else Accepted(|s.procs|)
  }

  function EndContext(p: Proc, cause: Cause): Proc {
    if p.done.Some? then p else p.(done := Some(cause))
  }

  function EndAll(procs: seq<Proc>): seq<Proc> {
    seq(|procs|, i requires 0 <= i < |procs| => EndContext(procs[i], Cancellation))
  }

  datatype Action =
    | Submit(lock: Option<Key>)
    | End(id: nat, cause: Cause)   // the timeout of a job, or its cancellation
    | Shutdown(close: bool)        // Close, or the end of the parent context
    | Step(id: nat, choice: Choice)

  /** Any action, in any order; an action that is not possible now changes nothing. */
  function Next(s: State, a: Action): State {
    match a
    case Submit(lock) => SubmitState(s, lock)
    case End(id, cause) =>
      if id < |s.procs| then s.(procs := s.procs[id := EndContext(s.procs[id], cause)]) else s
    case Shutdown(close) => s.(stopped := true, closed := s.closed || close, procs := EndAll(s.procs))
    case Step(id, c) => if CanMove(s, id, c) then Move(s, id, c) else s
  }

  function Run(s: State, actions: seq<Action>): State
    decreases |actions|
  {
    if actions == [] then s else Next(Run(s, actions[..|actions| - 1]), actions[|actions| - 1])
  }

  /** The lock of a job: the host agent locks nonempty keys only, the management jobs lock every key. */
  function LockOf(key: Key, always: bool): Option<Key> {
    if always || key != "" then Some(key) else None
  }
}
