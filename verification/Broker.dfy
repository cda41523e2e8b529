/** The broker in the program's own form: history and subscriber table updated in place. Each method computes
    the function of `BrokerSpec` it names; `RunServer` drives a whole run. */
module BrokerClass {
  import opened Replies
  import opened BrokerSafety
  import Spec = BrokerSpec

  lemma AboveNext(history: seq<Spec.Event>, i: nat, id: nat, replay: seq<Spec.Event>)
    requires i < |history|
    ensures replay + Spec.Above(history[i..], id)
         == (if history[i].id > id then replay + [history[i]] else replay) + Spec.Above(history[i + 1..], id)
  {
    assert history[i..][1..] == history[i + 1..];
  }

  class EventBroker {
    const historySize: nat
    var nextID: nat
    var history: seq<Spec.Event>
    var channels: seq<Spec.Channel>
    var subscribers: set<nat>

    ghost function View(): Spec.Broker
      reads this
    {
      Spec.Broker(historySize, nextID, history, channels, subscribers)
    }

    constructor (historySize: nat)
      ensures View() == Spec.NewBroker(historySize)
    {
      this.historySize := historySize;
      nextID, history, channels, subscribers := 0, [], [], {};
    }

    /** Numbers the event, keeps the newest of the history, and offers the event to every subscriber; one
        whose queue is full is removed and its channel closed. */
    method Publish(name: string, payload: Spec.Payload) returns (e: Spec.Event)
      requires TableOk(View())
      modifies this
      ensures View() == Spec.Publish(old(View()), name, payload) && TableOk(View())
      ensures e == Spec.Event(old(nextID) + 1, name, payload)
    {
      nextID := nextID + 1;
      e := Spec.Event(nextID, name, payload);
      history := history + [e];
      if |history| > historySize {
        history := history[|history| - historySize..];
      }
      Deliver(e);
      PublishChannels(old(View()), name, payload);
    }

    /** The loop over the subscribers. */
    method Deliver(e: Spec.Event)
      requires TableOk(View())
      modifies this`channels, this`subscribers
      ensures |channels| == |old(channels)|
      ensures forall i | 0 <= i < |channels| ::
                channels[i] == if i in old(subscribers) then Spec.Offer(old(channels[i]), e) else old(channels[i])
      ensures forall i :: i in subscribers <==> i in old(subscribers) && |old(channels[i]).queue| < Spec.QUEUE
    {
      var rest := subscribers;
      while rest != {}
        invariant |channels| == |old(channels)| && rest <= subscribers <= old(subscribers)
        invariant forall i | 0 <= i < |channels| ::
                    channels[i]
                    == if i in old(subscribers) - rest then Spec.Offer(old(channels[i]), e) else old(channels[i])
        invariant forall i :: i in subscribers <==>
                    i in old(subscribers) && (i in rest || |old(channels[i]).queue| < Spec.QUEUE)
        decreases |rest|
      {
        var c :| c in rest;
        if |channels[c].queue| < Spec.QUEUE {
          channels := channels[c := channels[c].(queue := channels[c].queue + [e])];
        } else {
          subscribers := subscribers - {c};
          channels := channels[c := channels[c].(open := false)];
        }
        rest := rest - {c};
      }
    }

    /** Opens a channel and collects the history after the resume id, both under the same lock. */
    method Subscribe(afterID: Spec.EventId) returns (s: Spec.Subscription)
      modifies this
      ensures s == Spec.Subscribed(old(View()), afterID)
      ensures View() == Spec.Subscribe(old(View()))
      ensures old(TableOk(View())) ==> TableOk(View())
    {
      var replay, gap := [], false;
      if afterID > 0 && |history| > 0 {
        var events := history;
        gap := (afterID as int + 1) % Spec.U64 < events[0].id;
        for i := 0 to |events|
          invariant unchanged(this)
          invariant replay + Spec.Above(events[i..], afterID as nat) == Spec.Above(events, afterID as nat)
        {
          AboveNext(events, i, afterID as nat, replay);
          if events[i].id > afterID as nat {
            replay := replay + [events[i]];
          }
        }
        assert replay + [] == replay;
      }
      var c := |channels|;
      channels := channels + [Spec.Channel([], true)];
      subscribers := subscribers + {c};
      s := Spec.Subscription(replay, c, gap, nextID);
    }

    /** The receive on a channel that holds an event. */
    method Take(c: nat) returns (e: Spec.Event)
      requires TableOk(View()) && c < |channels| && channels[c].queue != []
      modifies this`channels
      ensures e == old(channels[c].queue[0]) && TableOk(View())
      ensures channels == old(channels)[c := old(channels[c]).(queue := old(channels[c].queue[1..]))]
    {
      e := channels[c].queue[0];
      channels := channels[c := channels[c].(queue := channels[c].queue[1..])];
    }

    method Cancel(c: nat)
      requires TableOk(View())
      modifies this
      ensures View() == Spec.Cancel(old(View()), c) && TableOk(View())
    {
      if c in subscribers {
        subscribers := subscribers - {c};
        channels := channels[c := channels[c].(open := false)];
      }
    }
  }

  /** The broker with its connections and the snapshot refresher. The connections are records of what each request
      goroutine still has to write and has written; the log is kept for the theorems. */
  class StreamServer {
    const broker: EventBroker
    var connections: seq<Spec.Connection>
    var current: nat
    var unpublished: Option<nat>
    ghost var log: seq<Spec.Event>

    ghost function View(): Spec.State
      reads this, broker
    {
      Spec.State(broker.View(), log, connections, current, unpublished)
    }

    ghost predicate Valid()
      reads this, broker
    {
      TableOk(broker.View())
    }

    constructor (historySize: nat)
      ensures Valid() && View() == Spec.New(historySize) && fresh(broker)
    {
      broker := new EventBroker(historySize);
      connections, current, unpublished, log := [], 0, None, [];
    }

    method Emit(name: string, payload: Spec.Payload)
      requires Valid()
      modifies this`log, broker
      ensures Valid() && View() == Spec.Emit(old(View()), name, payload)
    {
      var e := broker.Publish(name, payload);
      log := log + [e];
    }

    /** The first half of a refresh: the pointer. */
    method Store()
      requires Valid()
      modifies this`current, this`unpublished
      ensures Valid() && View() == Spec.Next(old(View()), Spec.Store)
    {
      if unpublished.None? {
        current := current + 1;
        unpublished := Some(current);
      }
    }

    /** The second half: the event, unless it cannot be encoded. */
    method PublishStored(ok: bool)
      requires Valid()
      modifies this`log, this`unpublished, broker
      ensures Valid() && View() == Spec.Next(old(View()), Spec.PublishStored(ok))
    {
      if unpublished.Some? {
        if ok {
          Emit("snapshot", Spec.Snapshot(unpublished.value));
        }
        unpublished := None;
      }
    }

    method Connect(afterID: Spec.EventId)
      requires Valid()
      modifies this`connections, broker
      ensures Valid() && View() == Spec.Next(old(View()), Spec.Connect(afterID))
    {
      var sub := broker.Subscribe(afterID);
      connections := connections + [Spec.Connection(afterID, sub, Spec.PlanFor(afterID, sub), [], false)];
    }

    /** The snapshot, read from the pointer when it is written, or the next replayed event. */
    method WritePlanned(c: nat)
      requires Valid()
      modifies this`connections
      ensures Valid() && View() == Spec.Next(old(View()), Spec.WritePlanned(c))
    {
      if c < |connections| && !connections[c].done && connections[c].plan != [] {
        var k := connections[c];
        var f := if k.plan[0].WriteSnapshot? then Spec.SnapshotFrame(k.sub.latest, current)
                 else Spec.EventFrame(k.plan[0].event);
        connections := connections[c := k.(plan := k.plan[1..], out := k.out + [f])];
      }
    }

    /** One turn of the live loop: an event, or the end of a channel that was closed and drained. */
    method Receive(c: nat)
      requires Valid()
      modifies this`connections, broker
      ensures Valid() && View() == Spec.Next(old(View()), Spec.Receive(c))
    {
      if c >= |connections| || connections[c].done || connections[c].plan != [] {
        return;
      }
      var k := connections[c];
      var ch := k.sub.channel;
      if ch >= |broker.channels| {
        return;
      }
      if broker.channels[ch].queue != [] {
        var e := broker.Take(ch);
        connections := connections[c := k.(out := k.out + [Spec.EventFrame(e)])];
      } else if !broker.channels[ch].open {
        broker.Cancel(ch);
        connections := connections[c := k.(done := true)];
      }
    }

    /** The client is gone or a write failed: the deferred unsubscription runs. */
    method Leave(c: nat)
      requires Valid()
      modifies this`connections, broker
      ensures Valid() && View() == Spec.Next(old(View()), Spec.Leave(c))
    {
      if c < |connections| {
        broker.Cancel(connections[c].sub.channel);
        connections := connections[c := connections[c].(done := true)];
      }
    }

    method Perform(a: Spec.Action)
      requires Valid()
      modifies this, broker
      ensures Valid() && View() == Spec.Next(old(View()), a)
    {
      match a {
        case Announce(name, data) => Emit(name, Spec.Other(data));
        case Store => Store();
        case PublishStored(ok) => PublishStored(ok);
        case Connect(afterID) => Connect(afterID);
        case WritePlanned(c) => WritePlanned(c);
        case Receive(c) => Receive(c);
        case Leave(c) => Leave(c);
      }
    }
  }

  /** A whole run: the server after any actions is in the state that `Run` describes, so the theorems about every
      run are about it. */
  method RunServer(historySize: nat, actions: seq<Spec.Action>) returns (server: StreamServer)
    ensures fresh(server) && server.View() == Spec.Run(Spec.New(historySize), actions)
  {
    server := new StreamServer(historySize);
    for i := 0 to |actions|
      invariant fresh(server) && fresh(server.broker) && server.Valid()
      invariant server.View() == Spec.Run(Spec.New(historySize), actions[..i])
    {
      server.Perform(actions[i]);
      assert actions[..i + 1][..i] == actions[..i];
    }
    assert actions[..|actions|] == actions;
  }

  /** The opening of a connection: subscribe, then write one snapshot or the replay. The frames are the whole
      ideal stream up to the latest id at the subscription; the live loop goes on from there. */
  method OpenStream(b: EventBroker, ghost log: seq<Spec.Event>, afterID: Spec.EventId, current: nat)
    returns (sub: Spec.Subscription, out: seq<Spec.Frame>)
    requires b.historySize >= 1 && LogOk(Spec.State(b.View(), log, [], current, None))
    modifies b
    ensures sub == Spec.Subscribed(old(b.View()), afterID) && b.View() == Spec.Subscribe(old(b.View()))
    ensures var k := Spec.Connection(afterID, sub, [], out, false);
            && sub.latest == |log| && Start(k) <= |log| && |out| == Lead(k) + |log| - Start(k)
            && forall m | 0 <= m < |out| :: IsFrame(out[m], log, k, m)
  {
    ghost var s := Spec.State(b.View(), log, [], current, None);
    sub := b.Subscribe(afterID);
    out := [];
    if afterID == 0 || sub.gap || afterID as nat > sub.latest {
      out := [Spec.SnapshotFrame(sub.latest, current)];
    }
    if afterID != 0 && !sub.gap && afterID as nat <= sub.latest {
      ReplayIsExact(s, afterID);
      for i := 0 to |sub.replay|
        invariant |out| == i && forall m | 0 <= m < i :: out[m] == Spec.EventFrame(sub.replay[m])
      {
        out := out + [Spec.EventFrame(sub.replay[i])];
      }
    }
  }
}
