/** Every step of every goroutine, every submission, cancellation and shutdown keeps the runner's invariant. */
module RunnerSteps {
  import opened Replies
  import opened RunnerSpec
  import opened RunnerSafety

  /** One goroutine moves, and the shared counters change by the difference of its weights. */
  predicate PlaceDelta(s: State, t: State, id: nat, q: Proc) {
    && id < |s.procs| && t.procs == s.procs[id := q] && t.maxActive == s.maxActive
    && t.active - s.active == One(InActive(q.pc)) - One(InActive(s.procs[id].pc))
    && (t.active > s.active ==> s.active < s.maxActive)
  }

  predicate SlotDelta(s: State, t: State, id: nat, q: Proc, sl: nat) {
    && id < |s.procs| && t.procs == s.procs[id := q] && sl < |s.slots| && sl < |t.slots|
    && t.slots[sl].refs - s.slots[sl].refs == One(Refers(q.pc) == Some(sl)) - One(Refers(s.procs[id].pc) == Some(sl))
    && One(t.slots[sl].gate) - One(s.slots[sl].gate)
       == One(Holds(s.procs[id].pc) == Some(sl)) - One(Holds(q.pc) == Some(sl))
    && t.slots[sl].key == s.slots[sl].key
  }

  lemma PlacesByDelta(s: State, t: State, id: nat, q: Proc)
    requires PlacesOk(s) && PlaceDelta(s, t, id, q)
    ensures PlacesOk(t)
  {
    SumUpdate(s.procs, Places(), id, q);
  }

  lemma CountsByDelta(s: State, t: State, id: nat, q: Proc, sl: nat)
    requires SlotDelta(s, t, id, q, sl) && Counted(s, sl)
    ensures Counted(t, sl)
  {
    SumUpdate(s.procs, References(sl), id, q);
    SumUpdate(s.procs, Tokens(sl), id, q);
  }

  /** The first half of a goroutine's life: up to and including its work. */
  predicate Early(pc: Pc) {
    pc.Waiting? || pc.Looking? || pc.Gated? || pc.Checking? || pc.Dropping? || pc.Backing?
    || pc.Refunding? || pc.Admitted?
  }

  lemma EarlyPlaces(s: State, id: nat, c: Choice)
    requires CanMove(s, id, c) && Early(s.procs[id].pc)
    ensures var t := Move(s, id, c); PlaceDelta(s, t, id, t.procs[id])
  {
  }

  lemma LatePlaces(s: State, id: nat, c: Choice)
    requires CanMove(s, id, c) && !Early(s.procs[id].pc)
    ensures var t := Move(s, id, c); PlaceDelta(s, t, id, t.procs[id])
  {
  }

  lemma {:induction false} SumOfNone(procs: seq<Proc>, f: Proc -> int)
    requires forall i | 0 <= i < |procs| :: f(procs[i]) == 0
    ensures Sum(procs, f) == 0
  {
    if procs != [] {
      SumOfNone(procs[..|procs| - 1], f);
    }
  }

  lemma NewSlot(s: State)
    requires Inv(s)
    ensures Sum(s.procs, References(|s.slots|)) == 0 && Sum(s.procs, Tokens(|s.slots|)) == 0
  {
    forall i | 0 <= i < |s.procs|
      ensures References(|s.slots|)(s.procs[i]) == 0 && Tokens(|s.slots|)(s.procs[i]) == 0
    {
      assert ProcOk(s, s.procs[i]);
    }
    SumOfNone(s.procs, References(|s.slots|));
    SumOfNone(s.procs, Tokens(|s.slots|));
  }

  /** The goroutine's own slot is the one the table holds for its key. */
  lemma OwnSlotInTable(s: State, id: nat, sl: nat)
    requires Inv(s) && id < |s.procs| && Refers(s.procs[id].pc) == Some(sl)
    ensures HasSlot(s, s.procs[id].lock) && s.keys[s.procs[id].lock.value] == sl
  {
    assert ProcOk(s, s.procs[id]);
    SumAtLeast(s.procs, References(sl), id);
    assert Counted(s, sl) && InTable(s, sl);
  }

  /** The table points a goroutine that refers to a slot at that slot. */
  predicate Pointed(s: State, id: nat)
    requires id < |s.procs|
  {
    Refers(s.procs[id].pc).Some? ==>
      HasSlot(s, s.procs[id].lock) && s.keys[s.procs[id].lock.value] == Refers(s.procs[id].pc).value
  }

  /** The steps that put, take or count at a slot; the others leave the slots and their own claims alone. */
  predicate AtSlot(pc: Pc) {
    pc.Looking? || Counts(pc) || pc.Gated? || pc.Refunding? || pc.Returning?
  }

  predicate Counts(pc: Pc) {
    pc.Dropping? || pc.Backing? || pc.Unlocking?
  }

  lemma AwayFromSlots(s: State, id: nat, c: Choice)
    requires CanMove(s, id, c) && !AtSlot(s.procs[id].pc)
    ensures var t := Move(s, id, c);
            && t.slots == s.slots && t.keys == s.keys
            && Refers(t.procs[id].pc) == Refers(s.procs[id].pc) && Holds(t.procs[id].pc) == Holds(s.procs[id].pc)
  {
  }

  lemma LookingCounts(s: State, id: nat, c: Choice, sl: nat)
    requires CanMove(s, id, c) && sl < |s.slots| && s.procs[id].pc.Looking?
    ensures var t := Move(s, id, c); SlotDelta(s, t, id, t.procs[id], sl)
  {
  }

  lemma UnrefCounts(s: State, id: nat, c: Choice, sl: nat)
    requires CanMove(s, id, c) && sl < |s.slots| && Pointed(s, id) && Counts(s.procs[id].pc)
    ensures var t := Move(s, id, c); SlotDelta(s, t, id, t.procs[id], sl)
  {
  }

  lemma GateCounts(s: State, id: nat, c: Choice, sl: nat)
    requires CanMove(s, id, c) && sl < |s.slots|
    requires s.procs[id].pc.Gated? || s.procs[id].pc.Refunding? || s.procs[id].pc.Returning?
    ensures var t := Move(s, id, c); SlotDelta(s, t, id, t.procs[id], sl)
  {
  }

  lemma MoveCounts(s: State, id: nat, c: Choice, sl: nat)
    requires CanMove(s, id, c) && sl < |s.slots| && Pointed(s, id)
    ensures var t := Move(s, id, c); SlotDelta(s, t, id, t.procs[id], sl)
  {
    var pc := s.procs[id].pc;
    if pc.Looking? {
      LookingCounts(s, id, c, sl);
    } else if Counts(pc) {
      UnrefCounts(s, id, c, sl);
    } else if AtSlot(pc) {
      GateCounts(s, id, c, sl);
    } else {
      AwayFromSlots(s, id, c);
    }
  }

  // ---------------------------------------------------------------- the key table

  /** Slots are only added, and keep their key. */
  predicate Grown(s: State, t: State) {
    |s.slots| <= |t.slots| && forall sl | 0 <= sl < |s.slots| :: t.slots[sl].key == s.slots[sl].key
  }

  lemma RefTable(s: State, key: Key)
    requires TableOk(s)
    ensures var t := Ref(s, key);
            && TableOk(t) && Grown(s, t) && key in t.keys && Listed(t, key)
            && |t.slots| == (if key in s.keys then |s.slots| else |s.slots| + 1)
            && (key !in s.keys ==> t.keys[key] == |s.slots| && t.slots[|s.slots|] == Slot(key, true, 1))
  {
    var t := Ref(s, key);
    assert key in s.keys ==> Listed(s, key);
    forall sl | 0 <= sl < |t.slots| ensures InTable(t, sl) {
      if sl < |s.slots| {
        assert InTable(s, sl);
      }
    }
    forall k | k in t.keys ensures Listed(t, k) {
      if k != key {
        assert Listed(s, k);
      }
    }
  }

  lemma UnrefTable(s: State, key: Key)
    requires TableOk(s) && key in s.keys && s.keys[key] < |s.slots|
    ensures TableOk(Unref(s, key)) && Grown(s, Unref(s, key))
  {
    var t := Unref(s, key);
    assert Listed(s, key);
    forall sl | 0 <= sl < |t.slots| ensures InTable(t, sl) {
      assert InTable(s, sl);
    }
    forall k | k in t.keys ensures Listed(t, k) {
      assert Listed(s, k);
    }
  }

  lemma GateTable(s: State, id: nat, c: Choice)
    requires TableOk(s) && CanMove(s, id, c)
    requires s.procs[id].pc.Gated? || s.procs[id].pc.Refunding? || s.procs[id].pc.Returning?
    ensures TableOk(Move(s, id, c)) && Grown(s, Move(s, id, c))
  {
    var t := Move(s, id, c);
    assert t.keys == s.keys && |t.slots| == |s.slots|;
    assert forall sl | 0 <= sl < |s.slots| ::
        t.slots[sl].refs == s.slots[sl].refs && t.slots[sl].key == s.slots[sl].key;
    forall sl | 0 <= sl < |t.slots| ensures InTable(t, sl) {
      assert InTable(s, sl);
    }
    forall k | k in t.keys ensures Listed(t, k) {
      assert Listed(s, k);
    }
  }

  /** Only the slots and the table matter for the table's part of the invariant. */
  lemma SameTable(s: State, t: State)
    requires TableOk(s) && t.slots == s.slots && t.keys == s.keys
    ensures TableOk(t) && Grown(s, t)
  {
    assert forall sl | 0 <= sl < |s.slots| :: InTable(s, sl) ==> InTable(t, sl);
    assert forall k | k in s.keys :: Listed(s, k) ==> Listed(t, k);
  }

  lemma MoveTable(s: State, id: nat, c: Choice)
    requires TableOk(s) && CanMove(s, id, c)
    ensures TableOk(Move(s, id, c)) && Grown(s, Move(s, id, c))
  {
    var p := s.procs[id];
    if p.pc.Looking? {
      RefTable(s, p.lock.value);
      SameTable(Ref(s, p.lock.value), Move(s, id, c));
    } else if Counts(p.pc) {
      UnrefTable(s, p.lock.value);
      SameTable(Unref(s, p.lock.value), Move(s, id, c));
    } else if AtSlot(p.pc) {
      GateTable(s, id, c);
    } else {
      AwayFromSlots(s, id, c);
      SameTable(s, Move(s, id, c));
    }
  }

  /** Only looking for a slot can add one. */
  lemma SlotAdded(s: State, id: nat, c: Choice)
    requires CanMove(s, id, c)
    ensures |Move(s, id, c).slots| > |s.slots| ==> s.procs[id].pc.Looking?
  {
    if !AtSlot(s.procs[id].pc) {
      AwayFromSlots(s, id, c);
    }
  }

  lemma MoveCounted(s: State, id: nat, c: Choice, sl: nat)
    requires Inv(s) && CanMove(s, id, c) && sl < |Move(s, id, c).slots|
    ensures Counted(Move(s, id, c), sl)
  {
    var t := Move(s, id, c);
    if sl < |s.slots| {
      assert Counted(s, sl);
      if Refers(s.procs[id].pc).Some? {
        OwnSlotInTable(s, id, Refers(s.procs[id].pc).value);
      }
      MoveCounts(s, id, c, sl);
      CountsByDelta(s, t, id, t.procs[id], sl);
    } else {
      SlotAdded(s, id, c);
      NewSlotCounted(s, id, c);
    }
  }

  lemma NewSlotCounted(s: State, id: nat, c: Choice)
    requires Inv(s) && CanMove(s, id, c) && s.procs[id].pc.Looking? && |Move(s, id, c).slots| > |s.slots|
    ensures |Move(s, id, c).slots| == |s.slots| + 1 && Counted(Move(s, id, c), |s.slots|)
  {
    var t := Move(s, id, c);
    RefTable(s, s.procs[id].lock.value);
    NewSlot(s);
    SumUpdate(s.procs, References(|s.slots|), id, t.procs[id]);
    SumUpdate(s.procs, Tokens(|s.slots|), id, t.procs[id]);
  }

  // ---------------------------------------------------------------- goroutines and records

  /** The goroutine's claims after the step are on slots that were or are its own. */
  lemma MoveProc(s: State, id: nat, c: Choice)
    requires Inv(s) && CanMove(s, id, c)
    ensures ProcOk(Move(s, id, c), Move(s, id, c).procs[id])
  {
    var p := s.procs[id];
    assert ProcOk(s, p);
    if p.pc.Looking? {
      RefTable(s, p.lock.value);
      MoveProcLooks(s, id, c);
    } else if Counts(p.pc) {
      OwnSlotInTable(s, id, Refers(p.pc).value);
      MoveProcCounts(s, id, c);
    } else if AtSlot(p.pc) {
      MoveProcGate(s, id, c);
    } else {
      AwayFromSlots(s, id, c);
      MoveProcAway(s, id, c);
    }
  }

  lemma MoveProcLooks(s: State, id: nat, c: Choice)
    requires CanMove(s, id, c) && s.procs[id].pc.Looking? && ProcOk(s, s.procs[id])
    requires var key := s.procs[id].lock.value; key in Ref(s, key).keys && Listed(Ref(s, key), key)
    ensures ProcOk(Move(s, id, c), Move(s, id, c).procs[id])
  {
  }

  lemma MoveProcCounts(s: State, id: nat, c: Choice)
    requires CanMove(s, id, c) && Counts(s.procs[id].pc) && Pointed(s, id) && ProcOk(s, s.procs[id])
    ensures ProcOk(Move(s, id, c), Move(s, id, c).procs[id])
  {
  }

  lemma MoveProcGate(s: State, id: nat, c: Choice)
    requires CanMove(s, id, c) && ProcOk(s, s.procs[id])
    requires s.procs[id].pc.Gated? || s.procs[id].pc.Refunding? || s.procs[id].pc.Returning?
    ensures ProcOk(Move(s, id, c), Move(s, id, c).procs[id])
  {
  }

  lemma MoveProcAway(s: State, id: nat, c: Choice)
    requires CanMove(s, id, c) && !AtSlot(s.procs[id].pc) && ProcOk(s, s.procs[id])
    requires var q := Move(s, id, c).procs[id];
             Refers(q.pc) == Refers(s.procs[id].pc) && Holds(q.pc) == Holds(s.procs[id].pc)
    requires Move(s, id, c).slots == s.slots
    ensures ProcOk(Move(s, id, c), Move(s, id, c).procs[id])
  {
    var q := Move(s, id, c).procs[id];
    assert q.lock == s.procs[id].lock && q.done == s.procs[id].done;
  }

  lemma EarlyRecord(s: State, id: nat, c: Choice)
    requires CanMove(s, id, c) && RecordOk(s, id) && Early(s.procs[id].pc)
    ensures RecordOk(Move(s, id, c), id) && Move(s, id, c).jobs == s.jobs
  {
  }

  /** The record of the goroutine that moves is the only one that may change. */
  predicate SameRecords(s: State, t: State, id: nat) {
    && t.jobs.Keys == s.jobs.Keys && t.order == s.order
    && forall j | j in s.jobs && j != id :: t.jobs[j] == s.jobs[j]
  }

  lemma WritesRecord(s: State, id: nat, c: Choice)
    requires CanMove(s, id, c) && RecordOk(s, id)
    requires s.procs[id].pc.Starting? || s.procs[id].pc.Finishing? || s.procs[id].pc.Recovering?
    ensures RecordOk(Move(s, id, c), id) && SameRecords(s, Move(s, id, c), id)
  {
  }

  lemma LateRecord(s: State, id: nat, c: Choice)
    requires CanMove(s, id, c) && RecordOk(s, id) && !Early(s.procs[id].pc)
    ensures RecordOk(Move(s, id, c), id) && SameRecords(s, Move(s, id, c), id)
  {
    var p := s.procs[id];
    if p.pc.Starting? || p.pc.Finishing? || p.pc.Recovering? {
      WritesRecord(s, id, c);
    } else {
      assert Effect(s, id, c).jobs == s.jobs;
    }
  }

  lemma MoveOthers(s: State, id: nat, c: Choice)
    requires Inv(s) && CanMove(s, id, c) && Grown(s, Move(s, id, c)) && SameRecords(s, Move(s, id, c), id)
    ensures var t := Move(s, id, c);
            && |t.procs| == |s.procs| && t.stopped == s.stopped && t.closed == s.closed && t.maxRecords == s.maxRecords
            && t.maxActive == s.maxActive
            && forall i | 0 <= i < |t.procs| && i != id :: ProcOk(t, t.procs[i]) && RecordOk(t, i)
  {
    var t := Move(s, id, c);
    MoveShared(s, id, c);
    forall i | 0 <= i < |t.procs| && i != id ensures ProcOk(t, t.procs[i]) && RecordOk(t, i) {
      OtherKept(s, t, id, i);
    }
  }

  lemma MoveShared(s: State, id: nat, c: Choice)
    requires CanMove(s, id, c)
    ensures var t := Move(s, id, c);
            && t.stopped == s.stopped && t.closed == s.closed
            && t.maxRecords == s.maxRecords && t.maxActive == s.maxActive
  {
    if Early(s.procs[id].pc) {
      EarlyShared(s, id, c);
    } else {
      LateShared(s, id, c);
    }
  }

  lemma EarlyShared(s: State, id: nat, c: Choice)
    requires CanMove(s, id, c) && Early(s.procs[id].pc)
    ensures var t := Effect(s, id, c);
            && t.stopped == s.stopped && t.closed == s.closed
            && t.maxRecords == s.maxRecords && t.maxActive == s.maxActive
  {
  }

  lemma LateShared(s: State, id: nat, c: Choice)
    requires CanMove(s, id, c) && !Early(s.procs[id].pc)
    ensures var t := Effect(s, id, c);
            && t.stopped == s.stopped && t.closed == s.closed
            && t.maxRecords == s.maxRecords && t.maxActive == s.maxActive
  {
  }

  /** A goroutine that does not move keeps its claims and its record. */
  lemma OtherKept(s: State, t: State, id: nat, i: nat)
    requires Grown(s, t) && SameRecords(s, t, id) && t.stopped == s.stopped && i != id
    requires i < |s.procs| && |t.procs| == |s.procs| && t.procs[i] == s.procs[i]
    requires ProcOk(s, s.procs[i]) && RecordOk(s, i)
    ensures ProcOk(t, t.procs[i]) && RecordOk(t, i)
  {
  }

  lemma MovePlacesOk(s: State, id: nat, c: Choice)
    requires PlacesOk(s) && CanMove(s, id, c)
    ensures PlacesOk(Move(s, id, c))
  {
    if Early(s.procs[id].pc) {
      EarlyPlaces(s, id, c);
    } else {
      LatePlaces(s, id, c);
    }
    PlacesByDelta(s, Move(s, id, c), id, Move(s, id, c).procs[id]);
  }

  lemma MoveRecord(s: State, id: nat, c: Choice)
    requires CanMove(s, id, c) && RecordOk(s, id)
    ensures RecordOk(Move(s, id, c), id) && SameRecords(s, Move(s, id, c), id)
  {
    if Early(s.procs[id].pc) {
      EarlyRecord(s, id, c);
    } else {
      LateRecord(s, id, c);
    }
  }

  lemma MoveKeeps(s: State, id: nat, c: Choice)
    requires Inv(s) && CanMove(s, id, c)
    ensures Inv(Move(s, id, c))
  {
    var t := Move(s, id, c);
    MovePlacesOk(s, id, c);
    MoveTable(s, id, c);
    forall sl | 0 <= sl < |t.slots| ensures Counted(t, sl) {
      MoveCounted(s, id, c, sl);
    }
    MoveProc(s, id, c);
    assert RecordOk(s, id);
    MoveRecord(s, id, c);
    MoveOthers(s, id, c);
    OrderKept(s, t, id);
  }

  lemma OrderKept(s: State, t: State, id: nat)
    requires OrderOk(s) && SameRecords(s, t, id) && |t.procs| == |s.procs| && t.maxRecords == s.maxRecords
    ensures OrderOk(t)
  {
    assert |t.jobs| == |t.jobs.Keys| && |s.jobs| == |s.jobs.Keys|;
  }
}
