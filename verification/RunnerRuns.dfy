/** The invariant over every run of the runner, what a submission may drop, and the life of a record. */
module RunnerRuns {
  import opened Replies
  import opened RunnerSpec
  import opened RunnerSafety
  import opened RunnerSteps

  // ---------------------------------------------------------------- pruning

  /** The index of the oldest finished record, or the number of records. */
  function FirstDone(order: seq<nat>, jobs: map<nat, JobState>): (i: nat)
    ensures i <= |order|
    ensures forall j | 0 <= j < i :: order[j] in jobs ==> jobs[order[j]].Live()
    ensures i < |order| ==> order[i] in jobs && !jobs[order[i]].Live()
  {
    if order == [] then 0
    else if order[0] in jobs && !jobs[order[0]].Live() then 0
    else 1 + FirstDone(order[1..], jobs)
  }

  lemma {:induction false} PruneNothing(order: seq<nat>, jobs: map<nat, JobState>, max: nat)
    requires |jobs| < max
    ensures Prune(order, jobs, max) == Pruning(order, jobs)
  {
    if order != [] {
      PruneNothing(order[1..], jobs, max);
    }
  }

  lemma OneLess(jobs: map<nat, JobState>, id: nat)
    requires id in jobs
    ensures (jobs - {id}).Keys == jobs.Keys - {id} && |jobs - {id}| == |jobs| - 1
  {
    var rest := jobs - {id};
    assert rest.Keys == jobs.Keys - {id};
    assert |rest| == |rest.Keys| && |jobs| == |jobs.Keys|;
  }

  /** The list without its i-th element. */
  function Without(order: seq<nat>, i: nat): seq<nat>
    requires i < |order|
  {
    order[..i] + order[i + 1..]
  }

  lemma WithoutCons(order: seq<nat>, i: nat)
    requires i + 1 < |order|
    ensures [order[0]] + Without(order[1..], i) == Without(order, i + 1)
  {
    assert [order[0]] + order[1..][..i] == order[..i + 1];
    assert order[1..][i + 1..] == order[i + 2..];
  }

  /** Pruning a full table removes the oldest finished record, nothing else, and nothing if all are live. */
  lemma {:induction false} PruneOldest(order: seq<nat>, jobs: map<nat, JobState>, max: nat)
    requires |jobs| == max
    ensures var i := FirstDone(order, jobs);
            Prune(order, jobs, max) ==
              if i == |order| then Pruning(order, jobs) else Pruning(Without(order, i), jobs - {order[i]})
  {
    if order == [] {
    } else if order[0] in jobs && !jobs[order[0]].Live() {
      PruneFirst(order, jobs, max);
    } else {
      PruneOldest(order[1..], jobs, max);
      PruneLater(order, jobs, max, FirstDone(order[1..], jobs));
    }
  }

  lemma PruneFirst(order: seq<nat>, jobs: map<nat, JobState>, max: nat)
    requires |jobs| == max && order != [] && order[0] in jobs && !jobs[order[0]].Live()
    ensures Prune(order, jobs, max) == Pruning(Without(order, 0), jobs - {order[0]})
  {
    OneLess(jobs, order[0]);
    PruneNothing(order[1..], jobs - {order[0]}, max);
    assert Without(order, 0) == order[1..];
  }

  lemma PruneLater(order: seq<nat>, jobs: map<nat, JobState>, max: nat, i: nat)
    requires order != [] && !(order[0] in jobs && !jobs[order[0]].Live()) && i <= |order[1..]|
    requires Prune(order[1..], jobs, max) ==
               if i == |order[1..]| then Pruning(order[1..], jobs)
               else Pruning(Without(order[1..], i), jobs - {order[1..][i]})
    ensures Prune(order, jobs, max) ==
              if i + 1 == |order| then Pruning(order, jobs)
              else Pruning(Without(order, i + 1), jobs - {order[i + 1]})
  {
    if i + 1 < |order| {
      WithoutCons(order, i);
    } else {
      assert [order[0]] + order[1..] == order;
    }
  }

  /** What a submission makes of the records before it adds its own. */
  lemma RoomMade(s: State)
    requires Inv(s)
    ensures var t := MakeRoom(s);
            && t == s.(order := t.order, jobs := t.jobs) && OrderOk(t)
            && (forall id | id in t.jobs :: id in s.jobs && t.jobs[id] == s.jobs[id])
            && (forall id | id in s.jobs && id !in t.jobs :: !s.jobs[id].Live()
                  && |s.jobs| == s.maxRecords && forall j | j in s.jobs && j < id :: s.jobs[j].Live())
            && (|t.jobs| >= s.maxRecords <==> |s.jobs| == s.maxRecords && forall id | id in s.jobs :: s.jobs[id].Live())
  {
    if |s.jobs| >= s.maxRecords {
      PruneOldest(s.order, s.jobs, s.maxRecords);
      var i := FirstDone(s.order, s.jobs);
      if i < |s.order| {
        OneDropped(s, i);
        OlderAreLive(s.order, s.jobs, i);
      } else {
        forall id | id in s.jobs ensures s.jobs[id].Live() {
          var n :| 0 <= n < |s.order| && s.order[n] == id;
        }
      }
    }
  }

  /** Dropping one record and its place in the order. */
  lemma OneDropped(s: State, i: nat)
    requires OrderOk(s) && i < |s.order|
    ensures OrderOk(s.(order := Without(s.order, i), jobs := s.jobs - {s.order[i]}))
    ensures |s.jobs - {s.order[i]}| == |s.jobs| - 1
  {
    OneLess(s.jobs, s.order[i]);
    WithoutLists(s.order, s.jobs.Keys, i);
  }

  /** The place of a record in an increasing order. */
  lemma PlaceBefore(order: seq<nat>, keys: set<nat>, i: nat, id: nat) returns (n: nat)
    requires Increasing(order) && ListsKeys(order, keys) && i < |order| && id in keys && id < order[i]
    ensures n < i && order[n] == id
  {
    n :| n < |order| && order[n] == id;
  }

  /** Whatever is older than the oldest finished record is live. */
  lemma OlderAreLive(order: seq<nat>, jobs: map<nat, JobState>, i: nat)
    requires Increasing(order) && ListsKeys(order, jobs.Keys) && i < |order| && i == FirstDone(order, jobs)
    ensures forall id | id in jobs && id < order[i] :: jobs[id].Live()
  {
    forall id | id in jobs && id < order[i] ensures jobs[id].Live() {
      var n := PlaceBefore(order, jobs.Keys, i, id);
    }
  }

  lemma WithoutAt(order: seq<nat>, i: nat, j: nat)
    requires i < |order| && j < |order| && j != i
    ensures var n := if j < i then j else j - 1; n < |Without(order, i)| && Without(order, i)[n] == order[j]
  {
  }

  lemma WithoutIncreases(order: seq<nat>, i: nat)
    requires i < |order| && Increasing(order)
    ensures Increasing(Without(order, i))
  {
    var rest := Without(order, i);
    assert forall j | 0 <= j < |rest| :: rest[j] == if j < i then order[j] else order[j + 1];
  }

  lemma WithoutLists(order: seq<nat>, keys: set<nat>, i: nat)
    requires i < |order| && Increasing(order) && ListsKeys(order, keys)
    ensures Increasing(Without(order, i)) && ListsKeys(Without(order, i), keys - {order[i]})
  {
    WithoutIncreases(order, i);
    var rest := Without(order, i);
    forall k | k in keys - {order[i]} ensures k in rest {
      var j :| 0 <= j < |order| && order[j] == k;
      WithoutAt(order, i, j);
    }
    forall k | k in rest ensures k in keys - {order[i]} {
      var j :| 0 <= j < |rest| && rest[j] == k;
      assert k == order[if j < i then j else j + 1];
    }
  }

  lemma MakeRoomKeeps(s: State)
    requires Inv(s)
    ensures Inv(MakeRoom(s))
  {
    RoomMade(s);
    var t := MakeRoom(s);
    SameTable(s, t);
    forall sl | 0 <= sl < |t.slots| ensures Counted(t, sl) {
      assert Counted(s, sl);
    }
    forall i | 0 <= i < |t.procs| ensures ProcOk(t, t.procs[i]) && RecordOk(t, i) {
      assert ProcOk(s, s.procs[i]) && RecordOk(s, i);
    }
  }

  lemma EnqueueKeeps(t: State, lock: Option<Key>)
    requires Inv(t) && |t.jobs| < t.maxRecords && !t.stopped
    ensures Inv(Enqueue(t, lock))
  {
    var id := |t.procs|;
    var u := Enqueue(t, lock);
    var p := Proc(lock, Waiting, None);
    SumAppend(t.procs, Places(), p);
    SameTable(t, u);
    forall sl | 0 <= sl < |u.slots| ensures Counted(u, sl) {
      assert Counted(t, sl);
      SumAppend(t.procs, References(sl), p);
      SumAppend(t.procs, Tokens(sl), p);
    }
    EnqueueProcs(t, lock);
    EnqueueOrder(t, lock);
  }

  lemma EnqueueProcs(t: State, lock: Option<Key>)
    requires Inv(t) && !t.stopped
    ensures var u := Enqueue(t, lock); forall i | 0 <= i < |u.procs| :: ProcOk(u, u.procs[i]) && RecordOk(u, i)
  {
    var u := Enqueue(t, lock);
    forall i | 0 <= i < |u.procs| ensures ProcOk(u, u.procs[i]) && RecordOk(u, i) {
      if i < |t.procs| {
        assert ProcOk(t, t.procs[i]) && RecordOk(t, i);
      }
    }
  }

  lemma ListsOneMore(order: seq<nat>, keys: set<nat>, id: nat)
    requires Increasing(order) && ListsKeys(order, keys) && forall k | k in keys :: k < id
    ensures Increasing(order + [id]) && ListsKeys(order + [id], keys + {id})
  {
    var more := order + [id];
    assert more[|order|] == id;
    forall k | k in keys ensures k in more {
      var j :| 0 <= j < |order| && order[j] == k;
      assert more[j] == k;
    }
    forall j | 0 <= j < |order| ensures order[j] < id {
      assert order[j] in order;
    }
  }

  lemma EnqueueOrder(t: State, lock: Option<Key>)
    requires OrderOk(t) && |t.jobs| < t.maxRecords
    ensures OrderOk(Enqueue(t, lock))
  {
    var id := |t.procs|;
    var u := Enqueue(t, lock);
    assert u.jobs.Keys == t.jobs.Keys + {id} && |u.jobs| == |u.jobs.Keys| && |t.jobs| == |t.jobs.Keys|;
    ListsOneMore(t.order, t.jobs.Keys, id);
  }

  lemma SubmitKeeps(s: State, lock: Option<Key>)
    requires Inv(s)
    ensures Inv(SubmitState(s, lock))
  {
    if !s.closed && !s.stopped {
      MakeRoomKeeps(s);
      var t := MakeRoom(s);
      RoomMade(s);
      if |t.jobs| < t.maxRecords {
        EnqueueKeeps(t, lock);
      }
    }
  }

  /** Submit reports capacity exactly when the table is full of live records. */
  lemma CapacityIff(s: State)
    requires Inv(s) && !s.closed && !s.stopped
    ensures SubmitAnswer(s) == AtCapacity <==>
              |s.jobs| == s.maxRecords && forall id | id in s.jobs :: s.jobs[id].Live()
  {
    RoomMade(s);
  }

  // ---------------------------------------------------------------- contexts

  /** Ending contexts moves nothing: only `done` fields change. */
  lemma ContextsKeep(s: State, t: State)
    requires Inv(s) && t == s.(procs := t.procs, stopped := t.stopped, closed := t.closed)
    requires |t.procs| == |s.procs| && (t.closed ==> t.stopped)
    requires forall i | 0 <= i < |s.procs| ::
               t.procs[i].pc == s.procs[i].pc && t.procs[i].lock == s.procs[i].lock
               && (s.procs[i].done.Some? ==> t.procs[i].done.Some?) && (t.stopped ==> t.procs[i].done.Some?)
    ensures Inv(t)
  {
    SumSame(s.procs, t.procs, Places());
    SameTable(s, t);
    forall sl | 0 <= sl < |t.slots| ensures Counted(t, sl) {
      assert Counted(s, sl);
      SumSame(s.procs, t.procs, References(sl));
      SumSame(s.procs, t.procs, Tokens(sl));
    }
    forall i | 0 <= i < |t.procs| ensures ProcOk(t, t.procs[i]) && RecordOk(t, i) {
      assert ProcOk(s, s.procs[i]) && RecordOk(s, i);
    }
  }

  // ---------------------------------------------------------------- runs

  lemma NextKeeps(s: State, a: Action)
    requires Inv(s)
    ensures Inv(Next(s, a))
  {
    match a
    case Submit(lock) => SubmitKeeps(s, lock);
    case End(id, cause) =>
      if id < |s.procs| {
        assert ProcOk(s, s.procs[id]);
        forall i | 0 <= i < |s.procs| ensures ProcOk(s, s.procs[i]) {
        }
        ContextsKeep(s, Next(s, a));
      }
    case Shutdown(close) => ContextsKeep(s, Next(s, a));
    case Step(id, c) =>
      if CanMove(s, id, c) {
        MoveKeeps(s, id, c);
      }
  }

  /** Every run of a new runner keeps the invariant, whatever the interleaving. */
  lemma {:induction false} RunKeeps(maxActive: nat, maxRecords: nat, actions: seq<Action>)
    requires 1 <= maxActive <= maxRecords
    ensures Inv(Run(New(maxActive, maxRecords), actions))
    decreases |actions|
  {
    if actions == [] {
      var s := New(maxActive, maxRecords);
      assert |s.jobs| == 0;
    } else {
      RunKeeps(maxActive, maxRecords, actions[..|actions| - 1]);
      NextKeeps(Run(New(maxActive, maxRecords), actions[..|actions| - 1]), actions[|actions| - 1]);
    }
  }

  lemma {:induction false} RunConfig(s: State, actions: seq<Action>)
    ensures Run(s, actions).maxActive == s.maxActive && Run(s, actions).maxRecords == s.maxRecords
    decreases |actions|
  {
    if actions != [] {
      RunConfig(s, actions[..|actions| - 1]);
      NextConfig(Run(s, actions[..|actions| - 1]), actions[|actions| - 1]);
    }
  }

  lemma NextConfig(s: State, a: Action)
    ensures Next(s, a).maxActive == s.maxActive && Next(s, a).maxRecords == s.maxRecords
  {
    if a.Step? && CanMove(s, a.id, a.choice) {
      assert Effect(s, a.id, a.choice).maxActive == s.maxActive;
    }
  }

  /** In every reachable state, at most one job per key executes its task. */
  lemma KeysAreExclusive(maxActive: nat, maxRecords: nat, actions: seq<Action>, i: nat, j: nat)
    requires 1 <= maxActive <= maxRecords
    requires var s := Run(New(maxActive, maxRecords), actions);
             && i < |s.procs| && j < |s.procs| && s.procs[i].lock == s.procs[j].lock && s.procs[i].lock.Some?
             && s.procs[i].pc.Executing? && s.procs[j].pc.Executing?
    ensures i == j
  {
    RunKeeps(maxActive, maxRecords, actions);
    var s := Run(New(maxActive, maxRecords), actions);
    assert ProcOk(s, s.procs[i]) && ProcOk(s, s.procs[j]);
    MutualExclusion(s, i, j, s.procs[i].pc.key.value, s.procs[j].pc.key.value);
  }

  /** In every reachable state at most `maxActive` tasks execute. */
  lemma TasksAreBounded(maxActive: nat, maxRecords: nat, actions: seq<Action>)
    requires 1 <= maxActive <= maxRecords
    ensures Sum(Run(New(maxActive, maxRecords), actions).procs, Tasks()) <= maxActive
  {
    RunKeeps(maxActive, maxRecords, actions);
    RunConfig(New(maxActive, maxRecords), actions);
    TasksBounded(Run(New(maxActive, maxRecords), actions));
  }
}
