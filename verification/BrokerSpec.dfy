/** The event broker, its resuming connections and the snapshot refresher as one state machine. The full log
    of events is part of the state for the theorems only: the broker itself keeps a bounded history. */
module BrokerSpec {
  import opened Replies

  const U64 := 0x1_0000_0000_0000_0000
  const QUEUE := 16

  /** A resume id as the request carries it. */
  newtype EventId = x: int | 0 <= x < 0x1_0000_0000_0000_0000

  /** A snapshot of the cluster is identified by its place in the sequence of refreshes. */
  datatype Payload = Snapshot(version: nat) | Other(data: string)

  datatype Event = Event(id: nat, name: string, payload: Payload)

  datatype Channel = Channel(queue: seq<Event>, open: bool)

  datatype Broker = Broker(
    historySize: nat,
    nextID: nat,
    history: seq<Event>,
    channels: seq<Channel>,
    subscribers: set<nat>
  )

  function NewBroker(historySize: nat): Broker {
    Broker(historySize, 0, [], [], {})
  }

  /** The last n elements, or all. */
  function Last(s: seq<Event>, n: nat): seq<Event> {
    if |s| > n then s[|s| - n..] else s
  }

  /** A subscriber takes the event if its queue has room, and is closed otherwise. */
  function Offer(c: Channel, e: Event): Channel {
    if |c.queue| < QUEUE then c.(queue := c.queue + [e]) else c.(open := false)
  }

  function Publish(b: Broker, name: string, payload: Payload): Broker {
    var e := Event(b.nextID + 1, name, payload);
    b.(nextID := b.nextID + 1,
       history := Last(b.history + [e], b.historySize),
       channels := seq(|b.channels|, i requires 0 <= i < |b.channels| =>
                         if i in b.subscribers then Offer(b.channels[i], e) else b.channels[i]),
       subscribers := set i | i in b.subscribers && i < |b.channels| && |b.channels[i].queue| < QUEUE)
  }

  /** The events of a list with an id above this one. */
  function Above(s: seq<Event>, id: nat): seq<Event> {
    if s == [] then [] else (if s[0].id > id then [s[0]] else []) + Above(s[1..], id)
  }

  datatype Subscription = Subscription(replay: seq<Event>, channel: nat, gap: bool, latest: nat)

  /** `afterID + 1` wraps around in the source. */
  function Subscribed(b: Broker, afterID: EventId): Subscription {
    if afterID > 0 && |b.history| > 0 then
      var gap := (afterID as int + 1) % U64 < b.history[0].id;
      Subscription(Above(b.history, afterID as nat), |b.channels|, gap, b.nextID)
    else
      Subscription([], |b.channels|, false, b.nextID)
  }

  function Subscribe(b: Broker): Broker {
    b.(channels := b.channels + [Channel([], true)], subscribers := b.subscribers + {|b.channels|})
  }

  /** Unsubscribing twice, or after an eviction, changes nothing. */
  function Cancel(b: Broker, c: nat): Broker {
    if c in b.subscribers && c < |b.channels| then
      b.(channels := b.channels[c := b.channels[c].(open := false)], subscribers := b.subscribers - {c})
    else b
  }

  // ---------------------------------------------------------------- connections

  datatype Frame = SnapshotFrame(id: nat, version: nat) | EventFrame(event: Event)

  datatype Planned = WriteSnapshot | WriteEvent(event: Event)

  /** A connection: what it subscribed to, what it still has to write before going live, what it wrote. */
  datatype Connection = Connection(afterID: EventId, sub: Subscription, plan: seq<Planned>, out: seq<Frame>, done: bool)

  predicate NeedsSnapshot(afterID: EventId, sub: Subscription) {
    afterID == 0 || sub.gap || afterID as nat > sub.latest
  }

  function PlanFor(afterID: EventId, sub: Subscription): seq<Planned> {
    if NeedsSnapshot(afterID, sub) then [WriteSnapshot]
    else seq(|sub.replay|, i requires 0 <= i < |sub.replay| => WriteEvent(sub.replay[i]))
  }

  /** The whole system. `current` is the stored snapshot; `unpublished` one stored but not yet published. */
  datatype State = State(
    broker: Broker,
    log: seq<Event>,
    connections: seq<Connection>,
    current: nat,
    unpublished: Option<nat>
  )

  function New(historySize: nat): State {
    State(NewBroker(historySize), [], [], 0, None)
  }

  datatype Action =
    | Announce(name: string, data: string)   // an event other than a snapshot
    | Store                                  // the refresher stores the next snapshot
    | PublishStored(ok: bool)                // and then publishes it, unless encoding fails
    | Connect(afterID: EventId)
    | WritePlanned(c: nat)                   // the snapshot or the next replayed event
    | Receive(c: nat)                        // the next live event, or the end of a closed channel
    | Leave(c: nat)                          // the client is gone or a write failed

  function Emit(s: State, name: string, payload: Payload): State {
    s.(broker := Publish(s.broker, name, payload), log := s.log + [Event(s.broker.nextID + 1, name, payload)])
  }

  function Update(s: State, c: nat, k: Connection): State
    requires c < |s.connections|
  {
    s.(connections := s.connections[c := k])
  }

  function Next(s: State, a: Action): State {
    match a
    case Announce(name, data) => Emit(s, name, Other(data))
    case Store => if s.unpublished.None? then s.(current := s.current + 1, unpublished := Some(s.current + 1)) else s
    case PublishStored(ok) =>
      if s.unpublished.None? then s
      else if ok then Emit(s, "snapshot", Snapshot(s.unpublished.value)).(unpublished := None)
      else s.(unpublished := None)
    case Connect(afterID) =>
      var sub := Subscribed(s.broker, afterID);
      s.(broker := Subscribe(s.broker),
         connections := s.connections + [Connection(afterID, sub, PlanFor(afterID, sub), [], false)])
    case WritePlanned(c) =>
      if c >= |s.connections| || s.connections[c].done || s.connections[c].plan == [] then s
      else
        var k := s.connections[c];
        var f := if k.plan[0].WriteSnapshot? then SnapshotFrame(k.sub.latest, s.current)
                 else EventFrame(k.plan[0].event);
        Update(s, c, k.(plan := k.plan[1..], out := k.out + [f]))
    case Receive(c) =>
      if c >= |s.connections| || s.connections[c].done || s.connections[c].plan != [] then s
      else
        var k := s.connections[c];
        var ch := k.sub.channel;
        if ch >= |s.broker.channels| then s
        else if s.broker.channels[ch].queue != [] then
          var q := s.broker.channels[ch].queue;
          Update(s, c, k.(out := k.out + [EventFrame(q[0])]))
            .(broker := s.broker.(channels := s.broker.channels[ch := s.broker.channels[ch].(queue := q[1..])]))
        else if !s.broker.channels[ch].open then
          Update(s, c, k.(done := true)).(broker := Cancel(s.broker, ch))
        else s
    case Leave(c) =>
      if c >= |s.connections| then s
      else Update(s, c, s.connections[c].(done := true)).(broker := Cancel(s.broker, s.connections[c].sub.channel))
  }

  function Run(s: State, actions: seq<Action>): State
    decreases |actions|
  {
    if actions == [] then s else Next(Run(s, actions[..|actions| - 1]), actions[|actions| - 1])
  }
}
