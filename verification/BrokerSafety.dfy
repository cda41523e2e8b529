/** Bounded history and bounded queues refine an unbounded log with one cursor per connection. */
module BrokerSafety {
  import opened Replies
  import opened BrokerSpec

  // ---------------------------------------------------------------- the ideal stream

  /** How many frames precede the events: the one snapshot, or none. */
  function Lead(k: Connection): nat {
    if NeedsSnapshot(k.afterID, k.sub) then 1 else 0
  }

  /** The log position of the first event the connection is owed. */
  function Start(k: Connection): nat {
    if NeedsSnapshot(k.afterID, k.sub) then k.sub.latest else k.afterID as nat
  }

  /** Frame m of the ideal stream over the log: a snapshot labelled with the latest id, or nothing, then
      every later event once and in order. */
  predicate IsFrame(f: Frame, log: seq<Event>, k: Connection, m: nat) {
    if m < Lead(k) then f.SnapshotFrame? && f.id == k.sub.latest
    else Start(k) + m - Lead(k) < |log| && f == EventFrame(log[Start(k) + m - Lead(k)])
  }

  /** What the connection wrote is a prefix of the ideal stream. */
  predicate Exact(s: State, c: nat)
    requires c < |s.connections|
  {
    var k := s.connections[c];
    forall m | 0 <= m < |k.out| :: IsFrame(k.out[m], s.log, k, m)
  }

  // ---------------------------------------------------------------- the invariant

  ghost predicate LogOk(s: State) {
    && |s.log| == s.broker.nextID
    && (forall i | 0 <= i < |s.log| :: s.log[i].id == i + 1)
    && s.broker.history == Last(s.log, s.broker.historySize)
  }

  predicate IsPlanned(p: Planned, log: seq<Event>, k: Connection, m: nat) {
    if m < Lead(k) then p.WriteSnapshot?
    else Start(k) + m - Lead(k) < |log| && p == WriteEvent(log[Start(k) + m - Lead(k)])
  }

  predicate IsQueued(e: Event, log: seq<Event>, k: Connection, m: nat) {
    Lead(k) <= m && Start(k) + m - Lead(k) < |log| && e == log[Start(k) + m - Lead(k)]
  }

  /** Written, planned and queued frames are consecutive frames of the ideal stream; while the channel is
      open nothing of the log is missing. */
  ghost predicate ConnectionOk(log: seq<Event>, k: Connection, ch: Channel) {
    var w, p, q := |k.out|, |k.plan|, |ch.queue|;
    && k.sub.latest <= |log|
    && (NeedsSnapshot(k.afterID, k.sub) || k.afterID as nat <= k.sub.latest)
    && (forall m | 0 <= m < w :: IsFrame(k.out[m], log, k, m))
    && (forall m | 0 <= m < p :: IsPlanned(k.plan[m], log, k, w + m))
    && (forall m | 0 <= m < q :: IsQueued(ch.queue[m], log, k, w + p + m))
    && w + p >= Lead(k) + k.sub.latest - Start(k)
    && w + p + q <= Lead(k) + |log| - Start(k)
    && (ch.open ==> w + p + q == Lead(k) + |log| - Start(k))
    && q <= QUEUE
  }

  ghost predicate ConnectionsOk(s: State) {
    && |s.connections| == |s.broker.channels|
    && (forall c | 0 <= c < |s.connections| ::
          s.connections[c].sub.channel == c && ConnectionOk(s.log, s.connections[c], s.broker.channels[c]))
    && TableOk(s.broker)
  }

  /** The table of subscribers holds exactly the open channels. */
  ghost predicate TableOk(b: Broker) {
    && (forall c | 0 <= c < |b.channels| :: b.channels[c].open <==> c in b.subscribers)
    && (forall c | c in b.subscribers :: c < |b.channels|)
  }

  ghost predicate Inv(s: State) {
    s.broker.historySize >= 1 && LogOk(s) && ConnectionsOk(s)
  }

  // ---------------------------------------------------------------- single actions

  lemma LastOfLast(log: seq<Event>, n: nat, e: Event)
    ensures Last(Last(log, n) + [e], n) == Last(log + [e], n)
  {
  }

  lemma {:induction false} AboveSuffix(s: seq<Event>, base: nat, id: nat)
    requires forall i | 0 <= i < |s| :: s[i].id == base + i + 1
    ensures Above(s, id) == (if id <= base then s else if id - base <= |s| then s[id - base..] else [])
  {
    if s != [] {
      AboveSuffix(s[1..], base + 1, id);
    }
  }

  /** The replay of a resumable connection is exactly the part of the log after its resume id. */
  lemma ReplayIsExact(s: State, afterID: EventId)
    requires s.broker.historySize >= 1 && LogOk(s)
    requires !NeedsSnapshot(afterID, Subscribed(s.broker, afterID))
    ensures afterID as nat <= |s.log| && Subscribed(s.broker, afterID).replay == s.log[afterID as nat..]
  {
    var h := |s.log| - |s.broker.history|;
    assert s.broker.history == s.log[h..];
    AboveSuffix(s.broker.history, h, afterID as nat);
  }

  /** A snapshot is sent exactly when the resume id is absent or unknown, or events after it left the history. */
  lemma SnapshotIff(s: State, afterID: EventId)
    requires s.broker.historySize >= 1 && LogOk(s) && |s.log| + 1 < U64
    ensures NeedsSnapshot(afterID, Subscribed(s.broker, afterID)) <==>
              afterID == 0 || afterID as int > |s.log| || |s.log| - afterID as int > s.broker.historySize
  {
    var h := |s.log| - |s.broker.history|;
    assert s.broker.history == s.log[h..];
    if afterID as int <= |s.log| {
      assert (afterID as int + 1) % U64 == afterID as int + 1;
    }
  }

  lemma ConnectKeeps(s: State, afterID: EventId)
    requires Inv(s)
    ensures Inv(Next(s, Connect(afterID)))
  {
    var t := Next(s, Connect(afterID));
    var n := |s.connections|;
    var k := t.connections[n];
    if !NeedsSnapshot(afterID, k.sub) {
      ReplayIsExact(s, afterID);
    }
    assert ConnectionOk(t.log, k, t.broker.channels[n]);
    forall c | 0 <= c < |t.connections|
      ensures t.connections[c].sub.channel == c && ConnectionOk(t.log, t.connections[c], t.broker.channels[c])
    {
      if c < n {
        assert ConnectionOk(s.log, s.connections[c], s.broker.channels[c]);
      }
    }
  }

  /** A longer log extends the ideal stream. */
  lemma LogGrows(log: seq<Event>, k: Connection, ch: Channel, e: Event, ch': Channel)
    requires ConnectionOk(log, k, ch)
    requires ch' == Offered(ch, e)
    ensures ConnectionOk(log + [e], k, ch')
  {
    var log' := log + [e];
    var w, p, q := |k.out|, |k.plan|, |ch.queue|;
    forall m | 0 <= m < w ensures IsFrame(k.out[m], log', k, m) {
      assert IsFrame(k.out[m], log, k, m);
    }
    forall m | 0 <= m < p ensures IsPlanned(k.plan[m], log', k, w + m) {
      assert IsPlanned(k.plan[m], log, k, w + m);
    }
    forall m | 0 <= m < |ch'.queue| ensures IsQueued(ch'.queue[m], log', k, w + p + m) {
      if m < q {
        assert IsQueued(ch.queue[m], log, k, w + p + m);
      }
    }
  }

  /** A channel after a publication. */
  function Offered(c: Channel, e: Event): Channel {
    if c.open then Offer(c, e) else c
  }

  /** Open channels are offered the event, the others stay; the table keeps the open ones. */
  lemma PublishChannels(b: Broker, name: string, payload: Payload)
    requires TableOk(b)
    ensures var t := Publish(b, name, payload);
            && TableOk(t) && |t.channels| == |b.channels|
            && forall c | 0 <= c < |b.channels| ::
                 t.channels[c] == Offered(b.channels[c], Event(b.nextID + 1, name, payload))
  {
  }

  lemma EmitLog(s: State, name: string, payload: Payload)
    requires LogOk(s)
    ensures LogOk(Emit(s, name, payload))
  {
    LastOfLast(s.log, s.broker.historySize, Event(s.broker.nextID + 1, name, payload));
  }

  lemma ConnectionsExtended(s: State, t: State, e: Event)
    requires ConnectionsOk(s) && t.log == s.log + [e] && t.connections == s.connections
    requires TableOk(t.broker) && |t.broker.channels| == |s.broker.channels|
    requires forall c | 0 <= c < |s.broker.channels| :: t.broker.channels[c] == Offered(s.broker.channels[c], e)
    ensures ConnectionsOk(t)
  {
    forall c | 0 <= c < |t.connections|
      ensures t.connections[c].sub.channel == c && ConnectionOk(t.log, t.connections[c], t.broker.channels[c])
    {
      LogGrows(s.log, s.connections[c], s.broker.channels[c], e, t.broker.channels[c]);
    }
  }

  lemma EmitConnections(s: State, name: string, payload: Payload)
    requires ConnectionsOk(s)
    ensures ConnectionsOk(Emit(s, name, payload))
  {
    PublishChannels(s.broker, name, payload);
    ConnectionsExtended(s, Emit(s, name, payload), Event(s.broker.nextID + 1, name, payload));
  }

  lemma EmitKeeps(s: State, name: string, payload: Payload)
    requires Inv(s)
    ensures Inv(Emit(s, name, payload))
  {
    EmitLog(s, name, payload);
    EmitConnections(s, name, payload);
  }

  lemma WriteKeeps(s: State, c: nat)
    requires Inv(s)
    ensures Inv(Next(s, WritePlanned(c)))
  {
    if c < |s.connections| && !s.connections[c].done && s.connections[c].plan != [] {
      var k := s.connections[c];
      var k' := Next(s, WritePlanned(c)).connections[c];
      WriteOk(s.log, k, k', s.broker.channels[c]);
      OthersKept(s, Next(s, WritePlanned(c)), c);
    }
  }

  /** The next planned frame moves to the written ones. */
  lemma WriteOk(log: seq<Event>, k: Connection, k': Connection, ch: Channel)
    requires ConnectionOk(log, k, ch) && k.plan != []
    requires k' == k.(plan := k.plan[1..], out := k'.out) && |k'.out| == |k.out| + 1 && k'.out[..|k.out|] == k.out
    requires var f := k'.out[|k.out|];
             if k.plan[0].WriteSnapshot? then f.SnapshotFrame? && f.id == k.sub.latest
             else f == EventFrame(k.plan[0].event)
    ensures ConnectionOk(log, k', ch)
  {
    var w, p := |k.out|, |k.plan|;
    assert IsPlanned(k.plan[0], log, k, w + 0);
    forall m | 0 <= m < |k'.out| ensures IsFrame(k'.out[m], log, k', m) {
      if m < w {
        assert k'.out[m] == k.out[m];
        assert IsFrame(k.out[m], log, k, m);
      }
    }
    forall m | 0 <= m < p - 1 ensures IsPlanned(k'.plan[m], log, k', w + 1 + m) {
      assert IsPlanned(k.plan[m + 1], log, k, w + (m + 1));
    }
    forall m | 0 <= m < |ch.queue| ensures IsQueued(ch.queue[m], log, k', w + p + m) {
      assert IsQueued(ch.queue[m], log, k, w + p + m);
    }
  }

  /** An action that touches one connection and its channel leaves the others as they are. */
  lemma OthersKept(s: State, t: State, c: nat)
    requires Inv(s) && c < |s.connections|
    requires t.log == s.log && |t.connections| == |s.connections| && |t.broker.channels| == |s.broker.channels|
    requires t.broker == s.broker.(channels := t.broker.channels, subscribers := t.broker.subscribers)
    requires forall d | 0 <= d < |s.connections| && d != c ::
               t.connections[d] == s.connections[d] && t.broker.channels[d] == s.broker.channels[d]
               && (d in t.broker.subscribers <==> d in s.broker.subscribers)
    requires t.broker.subscribers <= s.broker.subscribers
    requires t.connections[c].sub == s.connections[c].sub && ConnectionOk(t.log, t.connections[c], t.broker.channels[c])
    requires t.broker.channels[c].open <==> c in t.broker.subscribers
    ensures Inv(t)
  {
    forall d | 0 <= d < |t.connections|
      ensures t.connections[d].sub.channel == d && ConnectionOk(t.log, t.connections[d], t.broker.channels[d])
    {
      assert ConnectionOk(s.log, s.connections[d], s.broker.channels[d]);
    }
  }

  lemma ReceiveOk(log: seq<Event>, k: Connection, ch: Channel)
    requires ConnectionOk(log, k, ch) && k.plan == [] && ch.queue != []
    ensures ConnectionOk(log, k.(out := k.out + [EventFrame(ch.queue[0])]), ch.(queue := ch.queue[1..]))
  {
    var k' := k.(out := k.out + [EventFrame(ch.queue[0])]);
    var w := |k.out|;
    assert IsQueued(ch.queue[0], log, k, w + 0 + 0);
    forall m | 0 <= m < |k'.out| ensures IsFrame(k'.out[m], log, k', m) {
      if m < w {
        assert IsFrame(k.out[m], log, k, m);
      }
    }
    forall m | 0 <= m < |ch.queue| - 1 ensures IsQueued(ch.queue[1..][m], log, k', w + 1 + 0 + m) {
      assert IsQueued(ch.queue[m + 1], log, k, w + 0 + (m + 1));
    }
  }

  lemma ReceiveKeeps(s: State, c: nat)
    requires Inv(s)
    ensures Inv(Next(s, Receive(c)))
  {
    if c < |s.connections| && !s.connections[c].done && s.connections[c].plan == [] {
      var k := s.connections[c];
      var ch := s.broker.channels[c];
      assert k.sub.channel == c;
      if ch.queue != [] {
        ReceiveOk(s.log, k, ch);
        OthersKept(s, Next(s, Receive(c)), c);
      } else if !ch.open {
        DrainedKeeps(s, c);
      }
    }
  }

  /** The end of a channel that was closed and is drained. */
  lemma DrainedKeeps(s: State, c: nat)
    requires Inv(s) && c < |s.connections| && !s.connections[c].done && s.connections[c].plan == []
    requires !s.broker.channels[c].open && s.broker.channels[c].queue == []
    ensures Inv(Next(s, Receive(c)))
  {
    LeaveKeeps(s, c);
    assert s.connections[c].sub.channel == c;
    assert Next(s, Receive(c)) == Next(s, Leave(c));
  }

  lemma LeaveKeeps(s: State, c: nat)
    requires Inv(s)
    ensures Inv(Next(s, Leave(c)))
  {
    if c < |s.connections| {
      assert s.connections[c].sub.channel == c;
      var t := Next(s, Leave(c));
      var k, ch := s.connections[c], s.broker.channels[c];
      assert ConnectionOk(s.log, k, ch);
      assert ConnectionOk(s.log, k.(done := true), ch.(open := false)) by {
        LeaveOk(s.log, k, ch);
      }
      OthersKept(s, t, c);
    }
  }

  lemma LeaveOk(log: seq<Event>, k: Connection, ch: Channel)
    requires ConnectionOk(log, k, ch)
    ensures ConnectionOk(log, k.(done := true), ch.(open := false))
  {
    var k' := k.(done := true);
    var w, p := |k.out|, |k.plan|;
    forall m | 0 <= m < w ensures IsFrame(k'.out[m], log, k', m) {
      assert IsFrame(k.out[m], log, k, m);
    }
    forall m | 0 <= m < p ensures IsPlanned(k'.plan[m], log, k', w + m) {
      assert IsPlanned(k.plan[m], log, k, w + m);
    }
    forall m | 0 <= m < |ch.queue| ensures IsQueued(ch.queue[m], log, k', w + p + m) {
      assert IsQueued(ch.queue[m], log, k, w + p + m);
    }
  }

  // ---------------------------------------------------------------- runs

  lemma NextKeeps(s: State, a: Action)
    requires Inv(s)
    ensures Inv(Next(s, a)) && Next(s, a).broker.historySize == s.broker.historySize
  {
    match a
    case Announce(name, data) => EmitKeeps(s, name, Other(data));
    case Store =>
    case PublishStored(ok) =>
      if s.unpublished.Some? {
        EmitKeeps(s, "snapshot", Snapshot(s.unpublished.value));
      }
    case Connect(afterID) => ConnectKeeps(s, afterID);
    case WritePlanned(c) => WriteKeeps(s, c);
    case Receive(c) => ReceiveKeeps(s, c);
    case Leave(c) => LeaveKeeps(s, c);
  }

  lemma {:induction false} RunKeeps(historySize: nat, actions: seq<Action>)
    requires historySize >= 1
    ensures Inv(Run(New(historySize), actions))
    decreases |actions|
  {
    if actions != [] {
      RunKeeps(historySize, actions[..|actions| - 1]);
      NextKeeps(Run(New(historySize), actions[..|actions| - 1]), actions[|actions| - 1]);
    }
  }

  /** Exact resume: whatever the interleaving, a connection's frames are a prefix of the ideal stream, and an
      open connection with nothing left to write has written all of it. */
  lemma ResumeIsExact(historySize: nat, actions: seq<Action>, c: nat)
    requires historySize >= 1 && c < |Run(New(historySize), actions).connections|
    ensures var s := Run(New(historySize), actions);
            var k := s.connections[c];
            && Exact(s, c) && c < |s.broker.channels|
            && (s.broker.channels[c].open && k.plan == [] && s.broker.channels[c].queue == [] ==>
                  |k.out| == Lead(k) + |s.log| - Start(k))
  {
    RunKeeps(historySize, actions);
    var s := Run(New(historySize), actions);
    assert ConnectionOk(s.log, s.connections[c], s.broker.channels[c]);
  }

  // ---------------------------------------------------------------- the one history size that breaks resuming

  ghost predicate AlwaysExact(historySize: nat, actions: seq<Action>) {
    var s := Run(New(historySize), actions);
    forall c | 0 <= c < |s.connections| :: Exact(s, c)
  }

  /** Two events, a client that has seen the first, a third event: the client misses the second. */
  lemma EmptyHistorySkips()
    ensures var e := Announce("n", "d");
            !AlwaysExact(0, [e, e, Connect(1), e, Receive(0)])
  {
    var e := Announce("n", "d");
    var a := [e, e, Connect(1), e, Receive(0)];
    var two := [Event(1, "n", Other("d")), Event(2, "n", Other("d"))];
    var three := two + [Event(3, "n", Other("d"))];
    var k := Connection(1, Subscription([], 0, false, 2), [], [], false);
    var s2 := State(Broker(0, 2, [], [], {}), two, [], 0, None);
    var s3 := State(Broker(0, 2, [], [Channel([], true)], {0}), two, [k], 0, None);
    var s4 := State(Broker(0, 3, [], [Channel([three[2]], true)], {0}), three, [k], 0, None);
    TwoEvents(e);
    ConnectWithoutHistory(s2, s3, k);
    ThirdEvent(s3, s4, e);
    var s5 := Next(s4, Receive(0));
    SecondIsMissed(s4, k);
    assert a[..4] == [e, e, Connect(1), e] && a[..4][..3] == [e, e, Connect(1)] && a[..4][..3][..2] == [e, e];
    assert Run(New(0), a[..4][..3]) == s3;
    assert Run(New(0), a[..4]) == s4;
    assert Run(New(0), a) == s5;
  }

  lemma SecondIsMissed(s4: State, k: Connection)
    requires k == Connection(1, Subscription([], 0, false, 2), [], [], false)
    requires s4.connections == [k] && |s4.log| == 3
    requires s4.log[1].id == 2 && s4.log[2].id == 3 && s4.broker.channels == [Channel([s4.log[2]], true)]
    ensures var s5 := Next(s4, Receive(0)); |s5.connections| == 1 && !Exact(s5, 0)
  {
    var s5 := Next(s4, Receive(0));
    assert s5.connections[0].out == [EventFrame(s4.log[2])];
    assert Lead(s5.connections[0]) == 0 && Start(s5.connections[0]) == 1;
    assert !IsFrame(s5.connections[0].out[0], s5.log, s5.connections[0], 0);
  }

  lemma ConnectWithoutHistory(s2: State, s3: State, k: Connection)
    requires s2.broker == Broker(0, 2, [], [], {}) && s2.connections == []
    requires k == Connection(1, Subscription([], 0, false, 2), [], [], false)
    requires s3 == s2.(broker := Broker(0, 2, [], [Channel([], true)], {0}), connections := [k])
    ensures Next(s2, Connect(1)) == s3
  {
    var sub := Subscribed(s2.broker, 1);
    assert sub == k.sub;
    assert PlanFor(1, sub) == [];
    assert s2.connections + [k] == s3.connections;
    assert Subscribe(s2.broker) == s3.broker;
  }

  lemma TwoEvents(e: Action)
    requires e == Announce("n", "d")
    ensures Run(New(0), [e, e]) ==
            State(Broker(0, 2, [], [], {}), [Event(1, "n", Other("d")), Event(2, "n", Other("d"))], [], 0, None)
  {
    var s1 := Next(New(0), e);
    assert s1 == State(Broker(0, 1, [], [], {}), [Event(1, "n", Other("d"))], [], 0, None);
    assert [e, e][..1] == [e] && [e][..0] == [];
    assert Run(New(0), [e]) == s1;
    assert Run(New(0), [e, e]) == Next(s1, e);
    assert Next(s1, e).broker == Broker(0, 2, [], [], {});
  }

  lemma ThirdEvent(s3: State, s4: State, e: Action)
    requires e == Announce("n", "d")
    requires |s3.connections| == 1 && s3.broker == Broker(0, 2, [], [Channel([], true)], {0})
    requires s4 == s3.(log := s3.log + [Event(3, "n", Other("d"))],
                       broker := Broker(0, 3, [], [Channel([Event(3, "n", Other("d"))], true)], {0}))
    ensures Next(s3, e) == s4
  {
    var b := Publish(s3.broker, "n", Other("d"));
    assert b.channels[0] == Channel([Event(3, "n", Other("d"))], true);
    assert b.channels == s4.broker.channels;
    assert b.subscribers == {0};
  }

  /** Resuming is exact over all runs if and only if the broker keeps some history. */
  lemma ExactIffHistory(historySize: nat)
    ensures (forall actions: seq<Action> :: AlwaysExact(historySize, actions)) <==> historySize >= 1
  {
    if historySize == 0 {
      EmptyHistorySkips();
    } else {
      forall actions: seq<Action> ensures AlwaysExact(historySize, actions) {
        var s := Run(New(historySize), actions);
        forall c | 0 <= c < |s.connections| ensures Exact(s, c) {
          ResumeIsExact(historySize, actions, c);
        }
      }
    }
  }

  // ---------------------------------------------------------------- snapshot freshness

  predicate NoNewer(log: seq<Event>, n: nat, version: nat)
    requires n <= |log|
  {
    forall i | 0 <= i < n && log[i].payload.Snapshot? :: log[i].payload.version <= version
  }

  ghost predicate FreshFrames(s: State) {
    forall c | 0 <= c < |s.connections| :: FramesFresh(s.log, s.connections[c])
  }

  predicate FramesFresh(log: seq<Event>, k: Connection) {
    && k.sub.latest <= |log|
    && forall m | 0 <= m < |k.out| && k.out[m].SnapshotFrame? ::
         k.out[m].id <= |log| && NoNewer(log, k.out[m].id, k.out[m].version)
  }

  ghost predicate FreshInv(s: State) {
    && |s.log| == s.broker.nextID && NoNewer(s.log, |s.log|, s.current) && FreshFrames(s)
    && (s.unpublished.Some? ==> s.unpublished.value <= s.current)
  }

  lemma FreshEmit(s: State, name: string, payload: Payload)
    requires FreshInv(s) && (payload.Snapshot? ==> payload.version <= s.current)
    ensures FreshInv(Emit(s, name, payload))
  {
    var t := Emit(s, name, payload);
    forall c | 0 <= c < |t.connections| ensures FramesFresh(t.log, t.connections[c]) {
      assert FramesFresh(s.log, s.connections[c]);
    }
  }

  lemma FreshNext(s: State, a: Action)
    requires FreshInv(s)
    ensures FreshInv(Next(s, a))
  {
    var t := Next(s, a);
    match a
    case Announce(name, data) => FreshEmit(s, name, Other(data));
    case PublishStored(ok) =>
      if s.unpublished.Some? {
        FreshEmit(s, "snapshot", Snapshot(s.unpublished.value));
        var u := Emit(s, "snapshot", Snapshot(s.unpublished.value));
        assert forall c | 0 <= c < |u.connections| :: FramesFresh(u.log, u.connections[c]);
        assert forall c | 0 <= c < |s.connections| :: FramesFresh(s.log, s.connections[c]);
      }
    case _ =>
      forall c | 0 <= c < |t.connections| ensures FramesFresh(t.log, t.connections[c]) {
        if c < |s.connections| {
          assert FramesFresh(s.log, s.connections[c]);
        }
      }
  }

  /** A snapshot frame labelled with an id carries a state at least as new as every snapshot event up to
      that id: the refresher stores before it publishes. */
  lemma {:induction false} SnapshotsAreFresh(historySize: nat, actions: seq<Action>)
    ensures FreshInv(Run(New(historySize), actions))
    decreases |actions|
  {
    if actions != [] {
      SnapshotsAreFresh(historySize, actions[..|actions| - 1]);
      FreshNext(Run(New(historySize), actions[..|actions| - 1]), actions[|actions| - 1]);
    }
  }

  // ---------------------------------------------------------------- who is evicted

  /** An announced event reaches every subscriber that has room, which stays subscribed; a subscriber that is
      `QUEUE` events behind gets nothing more than what it has and is closed; the other channels stay the same. */
  lemma RoomDecides(s: State, name: string, data: string, c: nat)
    requires c < |s.broker.channels|
    ensures var t := Next(s, Announce(name, data));
            var was, is_ := s.broker.channels[c], t.broker.channels[c];
            && |t.broker.channels| == |s.broker.channels|
            && (c in t.broker.subscribers <==> c in s.broker.subscribers && |was.queue| < QUEUE)
            && is_.open == (was.open && (c in s.broker.subscribers ==> |was.queue| < QUEUE))
            && is_.queue == if c in t.broker.subscribers
                            then was.queue + [Event(s.broker.nextID + 1, name, Other(data))] else was.queue
  {
  }

  /** A channel that is open and subscribed stays so over any action of others as long as it has room. */
  lemma StaysSubscribed(s: State, a: Action, c: nat)
    requires c in s.broker.subscribers && c < |s.broker.channels| && s.broker.channels[c].open
    requires |s.broker.channels[c].queue| < QUEUE
    requires a.Leave? && a.c < |s.connections| ==> s.connections[a.c].sub.channel != c
    ensures var t := Next(s, a);
            c in t.broker.subscribers && c < |t.broker.channels| && t.broker.channels[c].open
  {
  }
}
