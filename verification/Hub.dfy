/**
 The notification hub of one relay replica. Subscribe, cancel, Revoke and the
 dropping of a subscriber run under the write lock; a publication sends under
 the read lock, so several may send at once, and drops the subscribers it
 could not reach afterwards. A publication is named by its place in the order
 in which publications began.
 */
module Hub {
  import opened Base

  const CAPACITY := 32

  /** An event channel: who it belongs to, what was sent to it, and how much of that its reader has taken. */
  datatype Channel = Channel(key: string, since: nat, handed: seq<nat>, taken: nat, closed: bool)

  /** The registry the locks protect. A send on a closed channel, or closing one twice, would panic. */
  datatype Registry = Registry(subscribers: map<string, set<nat>>, revoked: set<string>, channels: map<nat, Channel>,
      panicked: bool)

  /** A publication in flight: channels still to be tried, and those that were full. */
  datatype Flight = Flight(todo: set<nat>, overflowed: set<nat>, sending: bool)

  datatype Publication = Publication(key: string, event: string)

  /** `overlaps` remembers which publications began while which others were still sending. */
  datatype State = State(
    registry: Registry,
    published: seq<Publication>,
    flights: map<nat, Flight>,
    overlaps: set<(nat, nat)>,
    made: nat)

  function Subscribers(r: Registry, key: string): set<nat> {
    if key in r.subscribers then r.subscribers[key] else {}
  }

  // --- the sections under the write lock --------------------------------------------------------

  function Closed(r: Registry, channel: nat): Registry {
    if channel !in r.channels then r
    else r.(channels := r.channels[channel := r.channels[channel].(closed := true)], panicked := r.panicked
        || r.channels[channel].closed)
  }

  function Subscribed(r: Registry, key: string, channel: nat, since: nat): Registry {
    var added := Channel(key, since, [], 0, key in r.revoked);
    var listed := r.(channels := r.channels[channel := added]);
    if key in r.revoked then listed
    else listed.(subscribers := r.subscribers[key := Subscribers(r, key) + {channel}])
  }

  /** Cancelling and dropping are the same: a channel that is no longer registered is left alone. */
  function Detached(r: Registry, key: string, channel: nat): Registry {
    if channel !in Subscribers(r, key) then r
    else
      var rest := Subscribers(r, key) - {channel};
      Closed(r.(subscribers := if rest == {} then r.subscribers - {key} else r.subscribers[key := rest]), channel)
  }

  function ClosedAll(r: Registry, gone: set<nat>): Registry {
    r.(channels := map c | c in r.channels :: if c in gone then r.channels[c].(closed := true) else r.channels[c],
       panicked := r.panicked || exists c | c in gone :: c in r.channels && r.channels[c].closed)
  }

  function Revoked(r: Registry, key: string): Registry {
    ClosedAll(r, Subscribers(r, key)).(revoked := r.revoked + {key}, subscribers := r.subscribers - {key})
  }

  lemma ClosedNone(r: Registry)
    ensures ClosedAll(r, {}) == r
  {
  }

  lemma ClosedOneMore(r: Registry, gone: set<nat>, channel: nat)
    requires channel !in gone
    ensures ClosedAll(r, gone + {channel}) == Closed(ClosedAll(r, gone), channel)
  {
  }

  class Hub {
    var subscribers: map<string, set<nat>>
    var revoked: set<string>
    var channels: map<nat, Channel>
    var panicked: bool

    function State(): Registry
      reads this
    {
      Registry(subscribers, revoked, channels, panicked)
    }

    constructor ()
      ensures State() == Registry(map[], {}, map[], false)
    {
      subscribers, revoked, channels, panicked := map[], {}, map[], false;
    }

    method Close(channel: nat)
      modifies this`channels, this`panicked
      ensures State() == Closed(old(State()), channel)
    {
      if channel in channels {
        panicked := panicked || channels[channel].closed;
        channels := channels[channel := channels[channel].(closed := true)];
      }
    }

    method Subscribe(key: string, channel: nat, since: nat)
      modifies this
      ensures State() == Subscribed(old(State()), key, channel, since)
    {
      channels := channels[channel := Channel(key, since, [], 0, false)];
      if key in revoked {
        channels := channels[channel := channels[channel].(closed := true)];
        assert channels == old(channels)[channel := Channel(key, since, [], 0, true)];
        return;
      }
      if key !in subscribers {
        subscribers := subscribers[key := {}];
      }
      subscribers := subscribers[key := subscribers[key] + {channel}];
      assert subscribers == old(subscribers)[key := Subscribers(old(State()), key) + {channel}];
    }

    method DropSubscriber(key: string, channel: nat)
      modifies this
      ensures State() == Detached(old(State()), key, channel)
    {
      if key !in subscribers || channel !in subscribers[key] {
        return;
      }
      subscribers := subscribers[key := subscribers[key] - {channel}];
      if subscribers[key] == {} {
        subscribers := subscribers - {key};
        assert subscribers == old(subscribers) - {key};
      }
      Close(channel);
    }

    method Revoke(key: string)
      modifies this
      ensures State() == Revoked(old(State()), key)
    {
      revoked := revoked + {key};
      var gone := if key in subscribers then subscribers[key] else {};
      ghost var before := State();
      ClosedNone(before);
      var todo := gone;
      while todo != {}
        invariant todo <= gone
        invariant State() == ClosedAll(before, gone - todo)
        decreases |todo|
      {
        var channel :| channel in todo;
        ClosedOneMore(before, gone - todo, channel);
        assert gone - (todo - {channel}) == (gone - todo) + {channel};
        Close(channel);
        todo := todo - {channel};
      }
      assert gone - todo == gone;
      subscribers := subscribers - {key};
    }
  }

  // --- the system ------------------------------------------------------------------------------------

  datatype Step =
    | Subscribe(key: string)
    | Cancel(channel: nat)
    | Revoke(key: string)
    | BeginPublish(key: string, event: string)
    | Send(publication: nat, channel: nat)
    | EndSends(publication: nat)
    | Drop(publication: nat, channel: nat)
    | EndPublish(publication: nat)
    | Receive(channel: nat)

  /** The write lock is free only while nobody sends. */
  predicate Writable(s: State) {
    forall p | p in s.flights :: !s.flights[p].sending
  }

  function Sent(s: State, p: nat, channel: nat): State
    requires p in s.flights && channel in s.registry.channels
  {
    var flight, target := s.flights[p], s.registry.channels[channel];
    var tried := flight.(todo := flight.todo - {channel});
    if target.closed then s.(registry := s.registry.(panicked := true), flights := s.flights[p := tried])
    else if |target.handed| - target.taken < CAPACITY then
      s.(registry := s.registry.(channels := s.registry.channels[channel := target.(handed := target.handed + [p])]),
         flights := s.flights[p := tried])
    else s.(flights := s.flights[p := tried.(overflowed := flight.overflowed + {channel})])
  }

  function Next(s: State, step: Step): Option<State> {
    match step
    case Subscribe(key) =>
      if !Writable(s) then None
      else Some(s.(registry := Subscribed(s.registry, key, s.made, |s.published|), made := s.made + 1))
    case Cancel(channel) =>
      if !Writable(s) || channel !in s.registry.channels then None
      else Some(s.(registry := Detached(s.registry, s.registry.channels[channel].key, channel)))
    case Revoke(key) => if !Writable(s) then None else Some(s.(registry := Revoked(s.registry, key)))
    case BeginPublish(key, event) =>
      var p := |s.published|;
      Some(s.(published := s.published + [Publication(key, event)],
              flights := s.flights[p := Flight(Subscribers(s.registry, key), {}, true)],
              overlaps := s.overlaps + set q | q in s.flights && s.flights[q].sending :: (q, p)))
    case Send(p, channel) =>
      if p !in s.flights || channel !in s.flights[p].todo
          || channel !in s.registry.channels then None else Some(Sent(s, p, channel))
    case EndSends(p) =>
      if p !in s.flights || !s.flights[p].sending || s.flights[p].todo != {} then None
      else Some(s.(flights := s.flights[p := s.flights[p].(sending := false)]))
    case Drop(p, channel) =>
      if p !in s.flights || p >= |s.published| || s.flights[p].sending || channel !in s.flights[p].overflowed
          || !Writable(s) then None
      else Some(s.(registry := Detached(s.registry, s.published[p].key, channel),
                   flights := s.flights[p := s.flights[p].(overflowed := s.flights[p].overflowed - {channel})]))
    case EndPublish(p) =>
      if p !in s.flights || s.flights[p].sending
          || s.flights[p].overflowed != {} then None else Some(s.(flights := s.flights - {p}))
    case Receive(channel) =>
      if channel !in s.registry.channels || s.registry.channels[channel].taken >= |s.registry.channels[channel].handed| then None
      else
        var c := s.registry.channels[channel];
        Some(s.(registry := s.registry.(channels := s.registry.channels[channel := c.(taken := c.taken + 1)])))
  }

  const Empty := State(Registry(map[], {}, map[], false), [], map[], {}, 0)

  // --- the invariant -----------------------------------------------------------------------------------

  predicate Registered(r: Registry, channel: nat) {
    channel in r.channels && channel in Subscribers(r, r.channels[channel].key)
  }

  /** A channel is open exactly while it is registered, under its own key, and a revoked key has none. */
  predicate RegistryOk(r: Registry) {
    && !r.panicked
    && (forall c | c in r.channels :: !r.channels[c].closed <==> Registered(r, c))
    && (forall key | key in r.subscribers :: r.subscribers[key] != {} && key !in r.revoked)
    && (forall key, c | key in r.subscribers && c in r.subscribers[key] :: c in r.channels && r.channels[c].key == key)
  }

  predicate Missing(s: State, p: nat, channel: nat) {
    p in s.flights && (channel in s.flights[p].todo || channel in s.flights[p].overflowed)
  }

  /** Everything published to a registered channel since it subscribed was handed to it once, or is still in flight to it. */
  predicate DeliveryOk(s: State, channel: nat) {
    channel in s.registry.channels ==>
      var c := s.registry.channels[channel];
      && c.since <= |s.published| && c.taken <= |c.handed| <= c.taken + CAPACITY
      && (forall k | 0 <= k < |c.handed| ::
            c.since <= c.handed[k] < |s.published| && s.published[c.handed[k]].key == c.key && !Missing(s, c.handed[k], channel))
      && (forall j, k | 0 <= j < k < |c.handed| :: c.handed[j] != c.handed[k])
      && (forall j, k | 0 <= j < k < |c.handed| && c.handed[k] < c.handed[j] :: (c.handed[k], c.handed[j]) in s.overlaps)
      && (Registered(s.registry, channel) ==>
            forall p | c.since <= p < |s.published| && s.published[p].key == c.key :: p in c.handed || Missing(s, p, channel))
  }

  predicate FlightsOk(s: State) {
    && (forall p | p in s.flights :: p < |s.published|)
    && (forall p, c | p in s.flights && c in s.flights[p].todo ::
          s.flights[p].sending && c in Subscribers(s.registry, s.published[p].key))
    && (forall p, c | p in s.flights && c in s.flights[p].overflowed ::
          c in s.registry.channels && s.registry.channels[c].key == s.published[p].key && s.registry.channels[c].since <= p)
    && (forall p, c | p in s.flights && c in s.flights[p].todo :: c in s.registry.channels && s.registry.channels[c].since <= p)
    && (forall p, c | p in s.flights && c in s.flights[p].todo :: c !in s.flights[p].overflowed)
    && (forall p, q | p in s.flights && s.flights[p].sending && p < q < |s.published| :: (p, q) in s.overlaps)
  }

  ghost predicate Inv(s: State) {
    && RegistryOk(s.registry)
    && FlightsOk(s)
    && (forall c | c in s.registry.channels :: c < s.made)
    && (forall c :: DeliveryOk(s, c))
  }

  // --- every step keeps it -------------------------------------------------------------------------------

  lemma SubscribedOk(r: Registry, key: string, channel: nat, since: nat)
    requires RegistryOk(r) && channel !in r.channels
    ensures RegistryOk(Subscribed(r, key, channel, since))
    ensures forall c | c != channel :: Registered(Subscribed(r, key, channel, since), c) == Registered(r, c)
  {
  }

  lemma DetachedOk(r: Registry, key: string, channel: nat)
    requires RegistryOk(r)
    ensures var t := Detached(r, key, channel);
            && RegistryOk(t)
            && (forall c :: Registered(t, c) <==> Registered(r, c) && !(c == channel && r.channels[c].key == key))
            && t.channels.Keys == r.channels.Keys
            && (forall c | c in r.channels :: t.channels[c] == r.channels[c].(closed := t.channels[c].closed))
  {
  }

  lemma RevokedOk(r: Registry, key: string)
    requires RegistryOk(r)
    ensures var t := Revoked(r, key);
            && RegistryOk(t)
            && (forall c :: Registered(t, c) <==> Registered(r, c) && r.channels[c].key != key)
            && t.channels.Keys == r.channels.Keys
            && (forall c | c in r.channels :: t.channels[c] == r.channels[c].(closed := t.channels[c].closed))
  {
  }

  /** Nobody is sending, so a change under the write lock only has to leave the other channels registered. */
  lemma WriteKeeps(s: State, r: Registry)
    requires Inv(s) && Writable(s) && RegistryOk(r) && r.channels.Keys == s.registry.channels.Keys
    requires forall c | c in r.channels :: r.channels[c] == s.registry.channels[c].(closed := r.channels[c].closed)
    requires forall c | Registered(r, c) :: Registered(s.registry, c)
    ensures Inv(s.(registry := r))
  {
    var t := s.(registry := r);
    hide RegistryOk, Registered;
    assert forall c | c in r.channels :: c in r.channels.Keys;
    forall c ensures DeliveryOk(t, c) {
      assert DeliveryOk(s, c);
    }
  }

  /** What DeliveryOk of one channel depends on. */
  lemma DeliveryFrame(s: State, t: State, c: nat)
    requires DeliveryOk(s, c) && t.published == s.published && s.overlaps <= t.overlaps
    requires c in t.registry.channels ==> c in s.registry.channels && t.registry.channels[c] == s.registry.channels[c]
    requires Registered(t.registry, c) ==> Registered(s.registry, c)
    requires forall p :: Missing(t, p, c) <==> Missing(s, p, c)
    ensures DeliveryOk(t, c)
  {
  }

  lemma SubscribeKeeps(s: State, key: string)
    requires Inv(s) && Writable(s)
    ensures Inv(Next(s, Subscribe(key)).value)
  {
    var t := Next(s, Subscribe(key)).value;
    SubscribedOk(s.registry, key, s.made, |s.published|);
    forall c ensures DeliveryOk(t, c) {
      if c != s.made {
        DeliveryFrame(s, t, c);
      }
    }
    hide RegistryOk, Registered, DeliveryOk;
  }

  lemma BeginKeeps(s: State, key: string, event: string)
    requires Inv(s)
    ensures Inv(Next(s, BeginPublish(key, event)).value)
  {
    var t := Next(s, BeginPublish(key, event)).value;
    var p := |s.published|;
    assert p !in s.flights;
    forall c ensures DeliveryOk(t, c) {
      BeginKeepsDelivery(s, key, event, c);
    }
    assert FlightsOk(t) by { hide DeliveryOk; assert forall c | c in Subscribers(s.registry, key) ::
        DeliveryOk(s, c); BeginKeepsFlights(s, key, event); }
  }

  lemma BeginKeepsFlights(s: State, key: string, event: string)
    requires Inv(s)
    ensures FlightsOk(Next(s, BeginPublish(key, event)).value)
  {
    var t := Next(s, BeginPublish(key, event)).value;
    assert forall c | c in Subscribers(s.registry, key) :: DeliveryOk(s, c);
  }

  lemma BeginKeepsDelivery(s: State, key: string, event: string, c: nat)
    requires Inv(s)
    ensures DeliveryOk(Next(s, BeginPublish(key, event)).value, c)
  {
    assert DeliveryOk(s, c);
  }

  lemma SendKeeps(s: State, p: nat, channel: nat)
    requires Inv(s) && Next(s, Send(p, channel)).Some?
    ensures Inv(Next(s, Send(p, channel)).value)
  {
    var t := Next(s, Send(p, channel)).value;
    assert RegistryOk(t.registry) by { hide DeliveryOk; assert Registered(s.registry, channel); }
    assert FlightsOk(t) by { hide DeliveryOk, RegistryOk; }
    forall c ensures DeliveryOk(t, c) {
      SendKeepsDelivery(s, p, channel, c);
    }
    hide DeliveryOk, RegistryOk, FlightsOk;
  }

  lemma SendKeepsDelivery(s: State, p: nat, channel: nat, c: nat)
    requires Inv(s) && Next(s, Send(p, channel)).Some?
    ensures DeliveryOk(Next(s, Send(p, channel)).value, c)
  {
    hide DeliveryOk;
    var t := Next(s, Send(p, channel)).value;
    assert DeliveryOk(s, c);
    assert Registered(s.registry, channel);
    assert forall q :: q != p || c != channel ==> (Missing(t, q, c) <==> Missing(s, q, c));
    var target := s.registry.channels[channel];
    if c == channel && |target.handed| - target.taken < CAPACITY {
      HandedOk(s, t, p, channel);
    } else {
      DeliveryFrame(s, t, c);
    }
  }

  /** One more publication handed over: it was still owed, and those after it began while it was sending. */
  lemma HandedOk(s: State, t: State, p: nat, channel: nat)
    requires DeliveryOk(s, channel) && channel in s.registry.channels && p < |s.published| && Missing(s, p, channel)
        && !Missing(t, p, channel)
    requires var target := s.registry.channels[channel];
             && target.since <= p && s.published[p].key == target.key && |target.handed| - target.taken < CAPACITY
             && channel in t.registry.channels && t.registry.channels[channel] == target.(handed := target.handed + [p])
    requires forall q | p < q < |s.published| :: (p, q) in s.overlaps
    requires t.published == s.published && t.overlaps == s.overlaps
        && (Registered(t.registry, channel) <==> Registered(s.registry, channel))
    requires forall q | q != p :: Missing(t, q, channel) <==> Missing(s, q, channel)
    ensures DeliveryOk(t, channel)
  {
  }

  /** Flights may only stop missing a channel that is no longer registered. */
  lemma ShrinkKeepsDelivery(s: State, t: State, c: nat)
    requires DeliveryOk(s, c) && t == s.(flights := t.flights)
    requires forall p :: Missing(t, p, c) ==> Missing(s, p, c)
    requires Registered(s.registry, c) ==> forall p :: Missing(s, p, c) ==> Missing(t, p, c)
    ensures DeliveryOk(t, c)
  {
  }

  lemma ShrinkKeeps(s: State, t: State)
    requires Inv(s) && FlightsOk(t) && t == s.(flights := t.flights)
    requires forall p, c :: Missing(t, p, c) ==> Missing(s, p, c)
    requires forall p, c :: Registered(s.registry, c) && Missing(s, p, c) ==> Missing(t, p, c)
    ensures Inv(t)
  {
    hide RegistryOk, FlightsOk, Registered, Missing, DeliveryOk;
    forall c ensures DeliveryOk(t, c) {
      ShrinkKeepsDelivery(s, t, c);
    }
  }

  lemma EndingKeeps(s: State, step: Step)
    requires Inv(s) && Next(s, step).Some? && (step.EndSends? || step.EndPublish?)
    ensures Inv(Next(s, step).value)
  {
    hide RegistryOk, DeliveryOk, Registered;
    ShrinkKeeps(s, Next(s, step).value);
  }

  lemma ReceiveKeeps(s: State, channel: nat)
    requires Inv(s) && Next(s, Receive(channel)).Some?
    ensures Inv(Next(s, Receive(channel)).value)
  {
    hide DeliveryOk, Missing;
    var t := Next(s, Receive(channel)).value;
    assert forall c :: Registered(t.registry, c) <==> Registered(s.registry, c);
    forall c ensures DeliveryOk(t, c) {
      if c != channel {
        DeliveryFrame(s, t, c) by { SameFlights(s, t); }
      } else {
        TakenOk(s, t, c);
      }
    }
  }

  lemma SameFlights(s: State, t: State)
    requires s.flights == t.flights
    ensures forall p, c :: Missing(t, p, c) <==> Missing(s, p, c)
  {
  }

  lemma TakenOk(s: State, t: State, c: nat)
    requires DeliveryOk(s, c) && Next(s, Receive(c)) == Some(t) && (Registered(t.registry, c) <==> Registered(s.registry, c))
    ensures DeliveryOk(t, c)
  {
  }

  lemma DropKeeps(s: State, p: nat, channel: nat)
    requires Inv(s) && Next(s, Drop(p, channel)).Some?
    ensures Inv(Next(s, Drop(p, channel)).value)
  {
    hide DeliveryOk, Registered, Detached, RegistryOk;
    var r := Detached(s.registry, s.published[p].key, channel);
    InvRegistry(s);
    DetachedOk(s.registry, s.published[p].key, channel);
    WriteKeeps(s, r);
    assert !Registered(r, channel);
    ShrinkKeeps(s.(registry := r), Next(s, Drop(p, channel)).value);
  }

  lemma StepKeepsInv(s: State, step: Step)
    requires Inv(s) && Next(s, step).Some?
    ensures Inv(Next(s, step).value)
  {
    hide Inv, RegistryOk, Registered, Detached, Revoked, Subscribed, Sent;
    InvRegistry(s);
    match step
    case Subscribe(key) => SubscribeKeeps(s, key);
    case Cancel(channel) =>
      DetachedOk(s.registry, s.registry.channels[channel].key, channel);
      WriteKeeps(s, Detached(s.registry, s.registry.channels[channel].key, channel));
    case Revoke(key) =>
      RevokedOk(s.registry, key);
      WriteKeeps(s, Revoked(s.registry, key));
    case BeginPublish(key, event) => BeginKeeps(s, key, event);
    case Send(p, channel) => SendKeeps(s, p, channel);
    case EndSends(p) => EndingKeeps(s, step);
    case Drop(p, channel) => DropKeeps(s, p, channel);
    case EndPublish(p) => EndingKeeps(s, step);
    case Receive(channel) => ReceiveKeeps(s, channel);
  }

  lemma InvRegistry(s: State)
    requires Inv(s)
    ensures RegistryOk(s.registry)
  {
  }

  // --- the guarantees ----------------------------------------------------------------------------------------

  ghost predicate Run(states: seq<State>, steps: seq<Step>) {
    && |states| == |steps| + 1 && states[0] == Empty
    && (forall i | 0 <= i < |steps| :: Next(states[i], steps[i]) == Some(states[i + 1]))
  }

  lemma RunStep(states: seq<State>, steps: seq<Step>, i: nat)
    requires Run(states, steps) && i < |steps| && Inv(states[i])
    ensures Inv(states[i + 1])
  {
    hide Inv, Next;
    assert Next(states[i], steps[i]) == Some(states[i + 1]);
    StepKeepsInv(states[i], steps[i]);
  }

  lemma {:induction false} RunsKeepInv(states: seq<State>, steps: seq<Step>, i: nat)
    requires Run(states, steps) && i < |states|
    ensures Inv(states[i])
  {
    if i > 0 {
      hide Inv, Next;
      RunsKeepInv(states, steps, i - 1);
      RunStep(states, steps, i - 1);
    }
  }

  /**
   In every interleaving a channel is open exactly while it is registered, a
   revoked key has no subscriber, no channel is sent to after it was closed
   and none is closed twice.
   */
  lemma ChannelsCloseOnce(states: seq<State>, steps: seq<Step>, i: nat)
    requires Run(states, steps) && i < |states|
    ensures var r := states[i].registry;
            && !r.panicked
            && (forall c | c in r.channels :: !r.channels[c].closed <==> Registered(r, c))
            && (forall key | key in r.revoked :: Subscribers(r, key) == {})
  {
    RunsKeepInv(states, steps, i);
    hide Run, Next;
  }

  /** The publications to this channel's key since it subscribed. */
  function Due(s: State, channel: Channel): set<nat> {
    set p | channel.since <= p < |s.published| && s.published[p].key == channel.key
  }

  /**
   Completeness and order. Whenever no publication is in flight, a registered
   subscriber has been handed every publication to its key since it
   subscribed, each exactly once; and two of them out of their order of
   publication only if the later one began while the earlier was still sending.
   */
  lemma SubscribersAreHandedEverything(states: seq<State>, steps: seq<Step>, i: nat, channel: nat)
    requires Run(states, steps) && i < |states| && Registered(states[i].registry, channel) && states[i].flights == map[]
    ensures var s := states[i];
            var c := s.registry.channels[channel];
            && (forall p :: p in c.handed <==> p in Due(s, c))
            && (forall j, k | 0 <= j < k < |c.handed| ::
                  c.handed[j] != c.handed[k] && (c.handed[k] < c.handed[j] ==> (c.handed[k], c.handed[j]) in s.overlaps))
  {
    RunsKeepInv(states, steps, i);
    hide Run, Next;
    assert DeliveryOk(states[i], channel);
  }

  /** Two publications to one key, the second begun while the first was sending. */
  predicate OverlapsUnder(s: State, key: string, pair: (nat, nat)) {
    && pair in s.overlaps
    && pair.0 < |s.published| && s.published[pair.0].key == key
    && pair.1 < |s.published| && s.published[pair.1].key == key
  }

  /** So when no two publications to its key overlap, a subscriber sees them in exactly the order of publication. */
  lemma WithoutOverlapOrderIsKept(states: seq<State>, steps: seq<Step>, i: nat, channel: nat)
    requires Run(states, steps) && i < |states| && Registered(states[i].registry, channel)
    requires forall pair | pair in states[i].overlaps :: !OverlapsUnder(states[i], states[i].registry.channels[channel].key, pair)
    ensures var handed := states[i].registry.channels[channel].handed;
            forall j, k | 0 <= j < k < |handed| :: handed[j] < handed[k]
  {
    RunsKeepInv(states, steps, i);
    hide Run, Next, RegistryOk, FlightsOk;
    var s := states[i];
    var handed := s.registry.channels[channel].handed;
    assert DeliveryOk(s, channel);
    forall j, k | 0 <= j < k < |handed| ensures handed[j] < handed[k] {
      assert handed[j] != handed[k] && s.published[handed[j]].key == s.published[handed[k]].key == s.registry.channels[channel].key;
      assert !OverlapsUnder(s, s.registry.channels[channel].key, (handed[k], handed[j]));
    }
  }

  /** Channel `c` was handed publication `q` before the earlier publication `p`. */
  predicate Inverted(s: State, c: nat, p: nat, q: nat) {
    && p < q && c in s.registry.channels
    && exists j, k :: 0 <= j < k < |s.registry.channels[c].handed|
                      && s.registry.channels[c].handed[j] == q && s.registry.channels[c].handed[k] == p
  }

  /**
   And the condition is tight. In any reachable state in which two publications
   both still owe a channel that has room for two, the second may be sent
   first, and then the subscriber has them in the wrong order.
   */
  lemma OverlapCanInvert(states: seq<State>, steps: seq<Step>, i: nat, p: nat, q: nat, c: nat)
    requires Run(states, steps) && i < |states|
    requires var s := states[i];
             && p < q && p in s.flights && q in s.flights && c in s.flights[p].todo && c in s.flights[q].todo
             && c in s.registry.channels && |s.registry.channels[c].handed| + 2 <= s.registry.channels[c].taken + CAPACITY
    ensures var first := Next(states[i], Send(q, c));
            && first.Some?
            && Next(first.value, Send(p, c)).Some?
            && Inverted(Next(first.value, Send(p, c)).value, c, p, q)
  {
    RunsKeepInv(states, steps, i);
    hide Run, DeliveryOk;
    var s := states[i];
    assert Registered(s.registry, c);
    var target := s.registry.channels[c];
    var t := Next(s, Send(q, c)).value;
    assert t.registry.channels[c] == target.(handed := target.handed + [q]);
    var u := Next(t, Send(p, c)).value;
    assert u.registry.channels[c].handed == target.handed + [q] + [p];
    var n := |target.handed|;
    assert u.registry.channels[c].handed[n] == q && u.registry.channels[c].handed[n + 1] == p;
  }

  ghost predicate Reached(s: State) {
    exists states: seq<State>, steps: seq<Step> :: Run(states, steps) && states[|steps|] == s
  }

  /** Two states with equal parts. */
  predicate SameState(s: State, t: State) {
    && s.registry.subscribers == t.registry.subscribers && s.registry.revoked == t.registry.revoked
    && s.registry.channels == t.registry.channels && s.registry.panicked == t.registry.panicked
    && s.published == t.published && s.flights == t.flights && s.overlaps == t.overlaps && s.made == t.made
  }

  lemma ReachedNext(s: State, step: Step, t: State)
    requires Reached(s) && Next(s, step).Some? && SameState(Next(s, step).value, t)
    ensures Reached(t)
  {
    hide Next;
    assert Next(s, step).value == t;
    var states: seq<State>, steps: seq<Step> :| Run(states, steps) && states[|steps|] == s;
    var longer, taken := states + [t], steps + [step];
    forall i | 0 <= i < |taken| ensures Next(longer[i], taken[i]) == Some(longer[i + 1]) {
      if i < |steps| {
        assert Next(states[i], steps[i]) == Some(states[i + 1]);
      }
    }
    assert Run(longer, taken) && longer[|taken|] == t;
  }

  /** One subscriber that was handed these publications, and what is left of the two flights. */
  function TwoFlights(key: string, first: string, second: string, handed: seq<nat>, flights: map<nat, Flight>): State {
    State(Registry(map[key := {0}], {}, map[0 := Channel(key, 0, handed, 0, false)], false),
          [Publication(key, first), Publication(key, second)], flights, {(0, 1)}, 1)
  }

  lemma BothInFlight(key: string, first: string, second: string)
    ensures Reached(TwoFlights(key, first, second, [], map[0 := Flight({0}, {}, true), 1 := Flight({0}, {}, true)]))
  {
    var none: seq<Step> := [];
    assert Run([Empty], none) && [Empty][|none|] == Empty;
    var one := State(Registry(map[key := {0}], {}, map[0 := Channel(key, 0, [], 0, false)], false), [], map[], {}, 1);
    assert Subscribers(Empty.registry, key) + {0} == {0};
    ReachedNext(Empty, Subscribe(key), one);
    var two := one.(published := [Publication(key, first)], flights := map[0 := Flight({0}, {}, true)]);
    assert [] + [Publication(key, first)] == two.published;
    ReachedNext(one, BeginPublish(key, first), two);
    var three := TwoFlights(key, first, second, [], map[0 := Flight({0}, {}, true), 1 := Flight({0}, {}, true)]);
    assert two.published + [Publication(key, second)] == three.published;
    assert two.overlaps + (set q | q in two.flights && two.flights[q].sending :: (q, 1)) == {(0, 1)};
    ReachedNext(two, BeginPublish(key, second), three);
  }

  lemma BothSent(key: string, first: string, second: string)
    ensures Reached(TwoFlights(key, first, second, [1, 0], map[0 := Flight({}, {}, true), 1 := Flight({}, {}, true)]))
  {
    hide Reached;
    BothInFlight(key, first, second);
    var three := TwoFlights(key, first, second, [], map[0 := Flight({0}, {}, true), 1 := Flight({0}, {}, true)]);
    var four := TwoFlights(key, first, second, [1], map[0 := Flight({0}, {}, true), 1 := Flight({}, {}, true)]);
    assert {0} - {0} == {} && [] + [1] == [1] && [1] + [0] == [1, 0];
    ReachedNext(three, Send(1, 0), four);
    var five := TwoFlights(key, first, second, [1, 0], map[0 := Flight({}, {}, true), 1 := Flight({}, {}, true)]);
    ReachedNext(four, Send(0, 0), five);
  }

  /** It happens: one subscriber, two publications that overlap, both done, and the second was handed over first. */
  lemma InversionHappens(key: string, first: string, second: string)
    ensures exists s: State :: Reached(s) && s.flights == map[] && Registered(s.registry, 0) && Inverted(s, 0, 0, 1)
  {
    hide Reached;
    BothSent(key, first, second);
    var five := TwoFlights(key, first, second, [1, 0], map[0 := Flight({}, {}, true), 1 := Flight({}, {}, true)]);
    var six := TwoFlights(key, first, second, [1, 0], map[0 := Flight({}, {}, false), 1 := Flight({}, {}, true)]);
    ReachedNext(five, EndSends(0), six);
    var seven := TwoFlights(key, first, second, [1, 0], map[0 := Flight({}, {}, false), 1 := Flight({}, {}, false)]);
    ReachedNext(six, EndSends(1), seven);
    var eight := TwoFlights(key, first, second, [1, 0], map[1 := Flight({}, {}, false)]);
    ReachedNext(seven, EndPublish(0), eight);
    var nine := TwoFlights(key, first, second, [1, 0], map[]);
    ReachedNext(eight, EndPublish(1), nine);
    assert nine.registry.channels[0].handed[0] == 1 && nine.registry.channels[0].handed[1] == 0;
  }
}
