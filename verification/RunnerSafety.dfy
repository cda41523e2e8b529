/** The runner's invariant: places, tokens and references are conserved, records and goroutines agree;
    from it mutual exclusion per key and the bound on running tasks. */
module RunnerSafety {
  import opened Replies
  import opened RunnerSpec

  // ---------------------------------------------------------------- weights

  function Sum(procs: seq<Proc>, f: Proc -> int): int {
    if procs == [] then 0 else Sum(procs[..|procs| - 1], f) + f(procs[|procs| - 1])
  }

  lemma {:induction false} SumUpdate(procs: seq<Proc>, f: Proc -> int, i: nat, p: Proc)
    requires i < |procs|
    ensures Sum(procs[i := p], f) == Sum(procs, f) - f(procs[i]) + f(p)
  {
    var n := |procs| - 1;
    if i < n {
      assert procs[i := p][..n] == procs[..n][i := p];
      SumUpdate(procs[..n], f, i, p);
    } else {
      assert procs[i := p][..n] == procs[..n];
    }
  }

  lemma SumAppend(procs: seq<Proc>, f: Proc -> int, p: Proc)
    ensures Sum(procs + [p], f) == Sum(procs, f) + f(p)
  {
    assert (procs + [p])[..|procs|] == procs;
  }

  lemma {:induction false} SumAtLeast(procs: seq<Proc>, f: Proc -> int, i: nat)
    requires i < |procs| && forall p :: f(p) >= 0
    ensures Sum(procs, f) >= f(procs[i])
  {
    var n := |procs| - 1;
    SumNatural(procs[..n], f);
    if i < n {
      SumAtLeast(procs[..n], f, i);
    }
  }

  lemma {:induction false} SumNatural(procs: seq<Proc>, f: Proc -> int)
    requires forall p :: f(p) >= 0
    ensures Sum(procs, f) >= 0
  {
    if procs != [] {
      SumNatural(procs[..|procs| - 1], f);
    }
  }

  lemma {:induction false} SumOfTwo(procs: seq<Proc>, f: Proc -> int, i: nat, j: nat)
    requires i < j < |procs| && forall p :: f(p) >= 0
    ensures Sum(procs, f) >= f(procs[i]) + f(procs[j])
  {
    var n := |procs| - 1;
    if j < n {
      SumOfTwo(procs[..n], f, i, j);
    } else {
      SumAtLeast(procs[..n], f, i);
    }
  }

  lemma {:induction false} SumPositive(procs: seq<Proc>, f: Proc -> int) returns (i: nat)
    requires Sum(procs, f) > 0
    ensures i < |procs| && f(procs[i]) > 0
  {
    var n := |procs| - 1;
    if f(procs[n]) > 0 {
      i := n;
    } else {
      i := SumPositive(procs[..n], f);
    }
  }

  lemma {:induction false} SumMonotone(procs: seq<Proc>, f: Proc -> int, g: Proc -> int)
    requires forall i | 0 <= i < |procs| :: f(procs[i]) <= g(procs[i])
    ensures Sum(procs, f) <= Sum(procs, g)
  {
    if procs != [] {
      SumMonotone(procs[..|procs| - 1], f, g);
    }
  }

  lemma {:induction false} SumSame(procs: seq<Proc>, procs': seq<Proc>, f: Proc -> int)
    requires |procs| == |procs'| && forall i | 0 <= i < |procs| :: f(procs[i]) == f(procs'[i])
    ensures Sum(procs, f) == Sum(procs', f)
  {
    if procs != [] {
      SumSame(procs[..|procs| - 1], procs'[..|procs| - 1], f);
    }
  }

  /** The slot whose reference the goroutine holds. */
  function Refers(pc: Pc): Option<nat> {
    match pc
    case Gated(sl) => Some(sl)
    case Checking(sl) => Some(sl)
    case Dropping(sl) => Some(sl)
    case Backing(sl) => Some(sl)
    case Admitted(k) => k
    case Starting(k) => k
    case Executing(k) => k
    case Returned(k, _) => k
    case Finishing(h, _) => if h.WithKey? then Some(h.slot) else None
    case Unlocking(sl, _) => Some(sl)
    case _ => None
  }

  /** The slot whose token the goroutine has, or is putting back. */
  function Holds(pc: Pc): Option<nat> {
    match pc
    case Gated(_) => None
    case Dropping(_) => None
    case Refunding(sl) => Some(sl)
    case Returning(sl, _) => Some(sl)
    case _ => Refers(pc)
  }

  predicate InActive(pc: Pc) {
    match pc
    case Waiting => false
    case Finishing(h, _) => !h.Nothing?
    case Recovering => false
    case Exiting => false
    case Exited => false
    case _ => true
  }

  /** Between a successful acquireKey and the critical section of its releaseKey. */
  predicate InCriticalSection(pc: Pc, sl: nat) {
    match pc
    case Admitted(k) => k == Some(sl)
    case Starting(k) => k == Some(sl)
    case Executing(k) => k == Some(sl)
    case Returned(k, _) => k == Some(sl)
    case Finishing(h, _) => h == WithKey(sl)
    case Unlocking(s, _) => s == sl
    case _ => false
  }

  function One(b: bool): int {
    if b then 1 else 0
  }

  function Places(): Proc -> int {
    (p: Proc) => One(InActive(p.pc))
  }

  function References(sl: nat): Proc -> int {
    (p: Proc) => One(Refers(p.pc) == Some(sl))
  }

  function Tokens(sl: nat): Proc -> int {
    (p: Proc) => One(Holds(p.pc) == Some(sl))
  }

  function Tasks(): Proc -> int {
    (p: Proc) => One(p.pc.Executing?)
  }

  // ---------------------------------------------------------------- the invariant

  /** Every place in `active` is held by one goroutine. */
  ghost predicate PlacesOk(s: State) {
    s.active == Sum(s.procs, Places()) && s.active <= s.maxActive
  }

  /** A slot's count is its references, and its one token is in the gate or with one goroutine. */
  ghost predicate Counted(s: State, sl: nat)
    requires sl < |s.slots|
  {
    && s.slots[sl].refs == Sum(s.procs, References(sl))
    && One(s.slots[sl].gate) + Sum(s.procs, Tokens(sl)) == 1
  }

  /** A slot with references is the one the table has for its key. */
  predicate InTable(s: State, sl: nat)
    requires sl < |s.slots|
  {
    s.slots[sl].refs > 0 ==> s.slots[sl].key in s.keys && s.keys[s.slots[sl].key] == sl
  }

  /** The table's slot for a key is one of that key, with references. */
  predicate Listed(s: State, k: Key)
    requires k in s.keys
  {
    s.keys[k] < |s.slots| && s.slots[s.keys[k]].key == k && s.slots[s.keys[k]].refs > 0
  }

  ghost predicate TableOk(s: State) {
    && (forall sl | 0 <= sl < |s.slots| :: InTable(s, sl))
    && (forall k | k in s.keys :: Listed(s, k))
  }

  ghost predicate SlotsOk(s: State) {
    TableOk(s) && forall sl | 0 <= sl < |s.slots| :: Counted(s, sl)
  }

  /** A goroutine's slot exists and is one of its own key; who gave up has an ended context. */
  predicate ProcOk(s: State, p: Proc) {
    && (Holds(p.pc).Some? ==> OwnSlot(s, p.lock, Holds(p.pc).value))
    && (Refers(p.pc).Some? ==> OwnSlot(s, p.lock, Refers(p.pc).value))
    && (p.pc.Looking? ==> p.lock.Some?)
    && (AroundTask(p.pc) ==> (p.lock.Some? <==> p.pc.key.Some?))
    && (p.pc.Dropping? || p.pc.Backing? || p.pc.Refunding? ==> p.done.Some?)
    && (s.stopped ==> p.done.Some?)
  }

  predicate AroundTask(pc: Pc) {
    pc.Admitted? || pc.Starting? || pc.Executing? || pc.Returned?
  }

  predicate OwnSlot(s: State, lock: Option<Key>, sl: nat) {
    sl < |s.slots| && lock == Some(s.slots[sl].key)
  }

  /** The state of a goroutine's record while it still has to write the terminal one; None afterwards. */
  function Expected(pc: Pc): Option<JobState> {
    match pc
    case Executing(_) => Some(Running)
    case Returned(_, _) => Some(Running)
    case Finishing(_, _) => None
    case Unlocking(_, b) => if b then Some(Running) else None
    case Returning(_, b) => if b then Some(Running) else None
    case Leaving(b) => if b then Some(Running) else None
    case Recovering => Some(Running)
    case Exiting => None
    case Exited => None
    case _ => Some(Queued)
  }

  /** Whether the goroutine still has to write its terminal state. */
  predicate Unfinished(pc: Pc) {
    pc.Finishing? || Expected(pc).Some?
  }

  predicate RecordOk(s: State, id: nat)
    requires id < |s.procs|
  {
    var pc := s.procs[id].pc;
    if Unfinished(pc) then
      id in s.jobs && s.jobs[id].Live() && (Expected(pc).Some? ==> s.jobs[id] == Expected(pc).value)
    else
      id in s.jobs ==> !s.jobs[id].Live()
  }

  predicate Increasing(order: seq<nat>) {
    forall i, j | 0 <= i < j < |order| :: order[i] < order[j]
  }

  /** The list holds exactly the keys. */
  ghost predicate ListsKeys(order: seq<nat>, keys: set<nat>) {
    (forall i | 0 <= i < |order| :: order[i] in keys) && forall id | id in keys :: id in order
  }

  /** The order lists exactly the records, in the order of submission. */
  ghost predicate OrderOk(s: State) {
    && Increasing(s.order) && ListsKeys(s.order, s.jobs.Keys)
    && (forall id | id in s.jobs :: id < |s.procs|)
    && |s.order| == |s.jobs| <= s.maxRecords
  }

  ghost predicate Inv(s: State) {
    && PlacesOk(s) && SlotsOk(s) && OrderOk(s) && 1 <= s.maxActive <= s.maxRecords
    && (forall i | 0 <= i < |s.procs| :: ProcOk(s, s.procs[i]) && RecordOk(s, i))
    && (s.closed ==> s.stopped)
  }

  // ---------------------------------------------------------------- what the invariant says

  /** At most one goroutine per key is between acquireKey and releaseKey, whatever slots were deleted and
      recreated for the key meanwhile. */
  lemma MutualExclusion(s: State, i: nat, j: nat, a: nat, b: nat)
    requires Inv(s) && i < |s.procs| && j < |s.procs|
    requires InCriticalSection(s.procs[i].pc, a) && InCriticalSection(s.procs[j].pc, b)
    requires s.procs[i].lock == s.procs[j].lock
    ensures i == j && a == b
  {
    assert Refers(s.procs[i].pc) == Some(a) && Refers(s.procs[j].pc) == Some(b);
    assert Holds(s.procs[i].pc) == Some(a) && Holds(s.procs[j].pc) == Some(b);
    assert ProcOk(s, s.procs[i]) && ProcOk(s, s.procs[j]);
    SumAtLeast(s.procs, References(a), i);
    SumAtLeast(s.procs, References(b), j);
    assert Counted(s, a) && Counted(s, b) && InTable(s, a) && InTable(s, b);
    assert a == b;
    if i < j {
      SumOfTwo(s.procs, Tokens(a), i, j);
    } else if j < i {
      SumOfTwo(s.procs, Tokens(a), j, i);
    }
  }

  /** A slot that is no longer in the table has neither a holder in its critical section nor a waiter. */
  lemma OrphansAreIdle(s: State, sl: nat, i: nat)
    requires Inv(s) && sl < |s.slots| && i < |s.procs|
    requires s.slots[sl].key !in s.keys || s.keys[s.slots[sl].key] != sl
    ensures Refers(s.procs[i].pc) != Some(sl) && !InCriticalSection(s.procs[i].pc, sl) && s.procs[i].pc != Gated(sl)
  {
    assert Counted(s, sl) && InTable(s, sl);
    SumAtLeast(s.procs, References(sl), i);
  }

  /** Running tasks never exceed the size of the semaphore. */
  lemma TasksBounded(s: State)
    requires Inv(s)
    ensures Sum(s.procs, Tasks()) <= s.maxActive
  {
    SumMonotone(s.procs, Tasks(), Places());
  }
}
