/** The publish/subscribe registry of backend/internal/drill/hub.go. Subscribing,
    unsubscribing and closing hold the lock exclusively and are atomic; publishing holds it
    shared, so the sends of concurrent publications interleave one channel at a time. */
module EventHub {
  import opened Prelude

  const CAPACITY := 32

  /** One attempt to send: `fill` is the length of the buffer it met. */
  datatype Offer = Offer(ticket: nat, fill: nat)

  /** A subscriber's channel. `received` and `offers` are history; so are `born` and `died`,
      the numbers of publications begun before it was opened and closed. */
  datatype Channel = Channel(
    drill: string, buffer: seq<nat>, closed: bool,
    received: seq<nat>, offers: seq<Offer>, born: nat, died: nat)

  datatype Event = Event(drill: string, payload: string)

  /** Publications are numbered in the order they take the lock. `active` maps those that
      hold it to the channels they have yet to visit, `ended` the others to the number of
      publications begun by the time they released it. */
  datatype Hub = Hub(
    subscribers: map<string, set<nat>>, channels: map<nat, Channel>,
    events: seq<Event>, active: map<nat, set<nat>>, ended: map<nat, nat>, panicked: bool)

  const EMPTY := Hub(map[], map[], [], map[], map[], false)

  datatype Action =
    | Subscribe(drill: string, ch: nat)
    | Unsubscribe(ch: nat)
    | Begin(event: Event)
    | Send(ticket: nat, ch: nat)
    | End(ticket: nat)
    | Close
    | Receive(ch: nat)

  function Registered(h: Hub, drill: string): set<nat> {
    if drill in h.subscribers then h.subscribers[drill] else {}
  }

  /** Closing a closed channel panics. */
  function CloseChannel(h: Hub, ch: nat): Hub
    requires ch in h.channels
  {
    var c := h.channels[ch];
    h.(channels := h.channels[ch := c.(closed := true, died := |h.events|)], panicked := h.panicked || c.closed)
  }

  function ApplySubscribe(h: Hub, drill: string, ch: nat): Hub {
    if h.active != map[] || ch in h.channels then h
    else
      h.(subscribers := h.subscribers[drill := Registered(h, drill) + {ch}],
         channels := h.channels[ch := Channel(drill, [], false, [], [], |h.events|, 0)])
  }

  function ApplyUnsubscribe(h: Hub, ch: nat): Hub {
    if h.active != map[] || ch !in h.channels then h
    else
      var drill := h.channels[ch].drill;
      if ch !in Registered(h, drill) then h
      else CloseChannel(h.(subscribers := h.subscribers[drill := h.subscribers[drill] - {ch}]), ch)
  }

  function ApplyBegin(h: Hub, e: Event): Hub {
    h.(events := h.events + [e], active := h.active[|h.events| := Registered(h, e.drill)])
  }

  /** A send that never blocks: a full buffer drops the event, a closed channel panics. */
  function Sent(c: Channel, ticket: nat): Channel {
    var fill := |c.buffer|;
    c.(buffer := if fill < CAPACITY then c.buffer + [ticket] else c.buffer, offers := c.offers + [Offer(ticket, fill)])
  }

  function ApplySend(h: Hub, ticket: nat, ch: nat): Hub {
    if ticket !in h.active || ch !in h.active[ticket] || ch !in h.channels then h
    else
      h.(active := h.active[ticket := h.active[ticket] - {ch}],
         channels := h.channels[ch := Sent(h.channels[ch], ticket)],
         panicked := h.panicked || h.channels[ch].closed)
  }

  function ApplyEnd(h: Hub, ticket: nat): Hub {
    if ticket !in h.active || h.active[ticket] != {} then h
    else h.(active := h.active - {ticket}, ended := h.ended[ticket := |h.events|])
  }

  /** All channels that are registered anywhere. */
  function AllRegistered(h: Hub): set<nat> {
    set d, ch | d in h.subscribers && ch in h.subscribers[d] :: ch
  }

  function ApplyClose(h: Hub): Hub {
    if h.active != map[] then h
    else
      var open := AllRegistered(h);
      h.(subscribers := map[],
         channels := map ch | ch in h.channels ::
           if ch in open then h.channels[ch].(closed := true, died := |h.events|) else h.channels[ch],
         panicked := h.panicked || exists ch | ch in open :: ch in h.channels && h.channels[ch].closed)
  }

  function ApplyReceive(h: Hub, ch: nat): Hub {
    if ch !in h.channels || h.channels[ch].buffer == [] then h
    else
      var c := h.channels[ch];
      h.(channels := h.channels[ch := c.(buffer := c.buffer[1..], received := c.received + [c.buffer[0]])])
  }

  function Apply(h: Hub, a: Action): Hub {
    match a
    case Subscribe(drill, ch) => ApplySubscribe(h, drill, ch)
    case Unsubscribe(ch) => ApplyUnsubscribe(h, ch)
    case Begin(event) => ApplyBegin(h, event)
    case Send(ticket, ch) => ApplySend(h, ticket, ch)
    case End(ticket) => ApplyEnd(h, ticket)
    case Close => ApplyClose(h)
    case Receive(ch) => ApplyReceive(h, ch)
  }

  function Replay(h: Hub, actions: seq<Action>): Hub
    decreases |actions|
  {
    if actions == [] then h else Replay(Apply(h, actions[0]), actions[1..])
  }

  // ----------------------------------------------------------------------- invariant

  /** The tickets that found room, in order. */
  function Delivered(offers: seq<Offer>): seq<nat> {
    if offers == [] then []
    else
      var last := offers[|offers| - 1];
      Delivered(offers[..|offers| - 1]) + (if last.fill < CAPACITY then [last.ticket] else [])
  }

  predicate Offered(c: Channel, ticket: nat) {
    exists i | 0 <= i < |c.offers| :: c.offers[i].ticket == ticket
  }

  /** The stream of one channel: what was read plus what is waiting is exactly what was
      offered while there was room; each publication of its own drill is offered once, and
      never after one that began when it was already over. */
  ghost predicate StreamOk(h: Hub, c: Channel) {
    && |c.buffer| <= CAPACITY
    && c.received + c.buffer == Delivered(c.offers)
    && c.born <= |h.events|
    && (forall i :: 0 <= i < |c.offers| ==>
          && c.offers[i].fill <= CAPACITY
          && c.born <= c.offers[i].ticket < |h.events| && h.events[c.offers[i].ticket].drill == c.drill)
    && (forall i, j :: 0 <= i < j < |c.offers| ==> c.offers[i].ticket != c.offers[j].ticket)
    && (forall i, j :: 0 <= i < j < |c.offers| && c.offers[j].ticket in h.ended ==>
          c.offers[i].ticket < h.ended[c.offers[j].ticket])
  }

  /** Every publication of the drill during the channel's life is offered to it, or is about
      to be. */
  ghost predicate Served(h: Hub, ch: nat, c: Channel) {
    forall t: nat :: t < |h.events| && h.events[t].drill == c.drill && c.born <= t && (c.closed ==> t < c.died)
      ==> Offered(c, t) || (t in h.active && ch in h.active[t])
  }

  ghost predicate ChannelOk(h: Hub, ch: nat)
    requires ch in h.channels
  {
    var c := h.channels[ch];
    && (!c.closed <==> ch in Registered(h, c.drill))
    && c.died <= |h.events|
    && (c.closed ==> forall i :: 0 <= i < |c.offers| ==> c.offers[i].ticket < c.died)
    && StreamOk(h, c) && Served(h, ch, c)
  }

  ghost predicate PublicationOk(h: Hub, t: nat)
    requires t in h.active
  {
    && t < |h.events| && t !in h.ended
    && h.active[t] <= Registered(h, h.events[t].drill)
    && (forall ch :: ch in h.active[t] && ch in h.channels ==>
          h.channels[ch].born <= t && !Offered(h.channels[ch], t))
  }

  /** Whatever is registered is a channel of that drill. */
  ghost predicate WellRegistered(h: Hub) {
    forall d, ch :: d in h.subscribers && ch in h.subscribers[d] ==> ch in h.channels && h.channels[ch].drill == d
  }

  ghost predicate Valid(h: Hub) {
    && !h.panicked
    && WellRegistered(h)
    && (forall ch :: ch in h.channels ==> ChannelOk(h, ch))
    && (forall t :: t in h.active ==> PublicationOk(h, t))
    && (forall t :: t in h.ended ==> t < |h.events| && h.ended[t] <= |h.events|)
    && (forall t: nat :: t < |h.events| ==> t in h.active || t in h.ended)
  }

  lemma DeliveredSnoc(offers: seq<Offer>, o: Offer)
    ensures Delivered(offers + [o]) == Delivered(offers) + (if o.fill < CAPACITY then [o.ticket] else [])
  {
    assert (offers + [o])[..|offers|] == offers;
  }

  // ------------------------------------------------------------------- every step keeps it

  lemma SubscribedChannel(h: Hub, drill: string, ch: nat, x: nat)
    requires h.active == map[] && ch !in h.channels && x in h.channels && ChannelOk(h, x)
    ensures ChannelOk(ApplySubscribe(h, drill, ch), x)
  {
    assert StreamOk(ApplySubscribe(h, drill, ch), h.channels[x]);
  }

  lemma NewChannel(h: Hub, drill: string, ch: nat)
    requires h.active == map[] && ch !in h.channels
    ensures ChannelOk(ApplySubscribe(h, drill, ch), ch)
  {}

  lemma SubscribedRegistered(h: Hub, drill: string, ch: nat)
    requires WellRegistered(h) && h.active == map[] && ch !in h.channels
    ensures WellRegistered(ApplySubscribe(h, drill, ch))
  {
    var t := ApplySubscribe(h, drill, ch);
    forall d, x | d in t.subscribers && x in t.subscribers[d] ensures x in t.channels && t.channels[x].drill == d {
      assert x != ch ==> d in h.subscribers && x in h.subscribers[d];
    }
  }

  lemma KeepSubscribe(h: Hub, drill: string, ch: nat)
    requires Valid(h)
    ensures Valid(ApplySubscribe(h, drill, ch))
  {
    var t := ApplySubscribe(h, drill, ch);
    if h.active == map[] && ch !in h.channels {
      SubscribedRegistered(h, drill, ch);
      forall x | x in t.channels ensures ChannelOk(t, x) {
        if x == ch { NewChannel(h, drill, ch); } else { SubscribedChannel(h, drill, ch, x); }
      }
    }
  }

  lemma UnsubscribedChannel(h: Hub, ch: nat, x: nat)
    requires h.active == map[] && ch in h.channels && ch in Registered(h, h.channels[ch].drill)
    requires x in h.channels && ChannelOk(h, x)
    ensures ChannelOk(ApplyUnsubscribe(h, ch), x)
  {
    var t := ApplyUnsubscribe(h, ch);
    assert StreamOk(t, t.channels[x]);
  }

  lemma UnsubscribedRegistered(h: Hub, ch: nat)
    requires WellRegistered(h)
    ensures WellRegistered(ApplyUnsubscribe(h, ch))
  {}

  lemma KeepUnsubscribe(h: Hub, ch: nat)
    requires Valid(h)
    ensures Valid(ApplyUnsubscribe(h, ch))
  {
    var t := ApplyUnsubscribe(h, ch);
    if h.active == map[] && ch in h.channels && ch in Registered(h, h.channels[ch].drill) {
      UnsubscribedRegistered(h, ch);
      assert ChannelOk(h, ch);
      forall x | x in t.channels ensures ChannelOk(t, x) { UnsubscribedChannel(h, ch, x); }
    }
  }

  lemma KeepClose(h: Hub)
    requires Valid(h)
    ensures Valid(ApplyClose(h))
  {
    var t := ApplyClose(h);
    if h.active == map[] {
      hide ChannelOk;
      forall x | x in t.channels ensures ChannelOk(t, x) && (x in AllRegistered(h) ==> !h.channels[x].closed) {
        ClosedChannel(h, x);
      }
    }
  }

  lemma ClosedChannel(h: Hub, x: nat)
    requires WellRegistered(h) && h.active == map[] && x in h.channels && ChannelOk(h, x)
    ensures ChannelOk(ApplyClose(h), x) && (x in AllRegistered(h) ==> !h.channels[x].closed)
  {}

  lemma TicketFresh(h: Hub)
    requires forall t :: t in h.active ==> PublicationOk(h, t)
    ensures |h.events| !in h.active
  {
    forall t | t in h.active ensures t != |h.events| { assert PublicationOk(h, t); }
  }

  lemma BegunChannel(h: Hub, e: Event, x: nat)
    requires x in h.channels && ChannelOk(h, x) && |h.events| !in h.active
    ensures ChannelOk(ApplyBegin(h, e), x)
  {
    assert StreamOk(ApplyBegin(h, e), h.channels[x]);
  }

  lemma BegunPublication(h: Hub, e: Event, k: nat)
    requires k in h.active && PublicationOk(h, k)
    ensures PublicationOk(ApplyBegin(h, e), k)
  {}

  lemma NewPublication(h: Hub, e: Event)
    requires Valid(h)
    ensures PublicationOk(ApplyBegin(h, e), |h.events|)
  {
    forall x | x in Registered(h, e.drill) && x in h.channels
      ensures h.channels[x].born <= |h.events| && !Offered(h.channels[x], |h.events|)
    {
      assert ChannelOk(h, x);
    }
  }

  lemma KeepBegin(h: Hub, e: Event)
    requires Valid(h)
    ensures Valid(ApplyBegin(h, e))
  {
    var t := ApplyBegin(h, e);
    TicketFresh(h);
    forall x | x in t.channels ensures ChannelOk(t, x) { BegunChannel(h, e, x); }
    forall k | k in t.active ensures PublicationOk(t, k) {
      if k == |h.events| { NewPublication(h, e); } else { BegunPublication(h, e, k); }
    }
  }

  lemma SentOffered(c: Channel, ticket: nat, k: nat)
    ensures Offered(Sent(c, ticket), k) <==> Offered(c, k) || k == ticket
  {
    var after := Sent(c, ticket).offers;
    assert after[|c.offers|].ticket == ticket;
    if Offered(c, k) {
      var i :| 0 <= i < |c.offers| && c.offers[i].ticket == k;
      assert after[i].ticket == k;
    }
  }

  lemma SentStream(h: Hub, c: Channel, ticket: nat)
    requires StreamOk(h, c) && !Offered(c, ticket) && ticket !in h.ended
    requires c.born <= ticket < |h.events| && h.events[ticket].drill == c.drill
    ensures StreamOk(h, Sent(c, ticket))
  {
    var d := Sent(c, ticket);
    DeliveredSnoc(c.offers, Offer(ticket, |c.buffer|));
    assert d.received + d.buffer == Delivered(d.offers);
  }

  predicate Sends(h: Hub, ticket: nat, ch: nat) {
    ticket in h.active && ch in h.active[ticket] && ch in h.channels
  }

  /** The channel a publication is about to visit is open and serves its drill. */
  lemma SendTarget(h: Hub, ticket: nat, ch: nat)
    requires Valid(h) && Sends(h, ticket, ch)
    ensures PublicationOk(h, ticket) && ChannelOk(h, ch)
    ensures !h.channels[ch].closed && h.channels[ch].drill == h.events[ticket].drill
  {
    assert PublicationOk(h, ticket);
    assert ChannelOk(h, ch);
  }

  lemma SentHere(h: Hub, ticket: nat, ch: nat)
    requires Sends(h, ticket, ch) && PublicationOk(h, ticket) && ChannelOk(h, ch)
    requires !h.channels[ch].closed && h.channels[ch].drill == h.events[ticket].drill
    ensures ChannelOk(ApplySend(h, ticket, ch), ch)
  {
    var t := ApplySend(h, ticket, ch);
    var c := h.channels[ch];
    SentStream(h, c, ticket);
    assert StreamOk(t, t.channels[ch]);
    forall k: nat | k < |t.events| && t.events[k].drill == c.drill && c.born <= k
      ensures Offered(t.channels[ch], k) || (k in t.active && ch in t.active[k])
    {
      SentOffered(c, ticket, k);
    }
  }

  lemma SentElsewhere(h: Hub, ticket: nat, ch: nat, x: nat)
    requires Sends(h, ticket, ch) && x in h.channels && x != ch && ChannelOk(h, x)
    ensures ChannelOk(ApplySend(h, ticket, ch), x)
  {
    var t := ApplySend(h, ticket, ch);
    var c := h.channels[x];
    assert StreamOk(t, c);
    forall k: nat | k < |t.events| && t.events[k].drill == c.drill && c.born <= k && (c.closed ==> k < c.died)
      ensures Offered(c, k) || (k in t.active && x in t.active[k])
    {}
  }

  lemma SentPublication(h: Hub, ticket: nat, ch: nat, k: nat)
    requires Valid(h) && Sends(h, ticket, ch) && k in h.active
    ensures PublicationOk(ApplySend(h, ticket, ch), k)
  {
    var t := ApplySend(h, ticket, ch);
    assert PublicationOk(h, k);
    forall x | x in t.active[k] && x in t.channels
      ensures t.channels[x].born <= k && !Offered(t.channels[x], k)
    {
      if x == ch { SentOffered(h.channels[ch], ticket, k); }
    }
  }

  lemma KeepSend(h: Hub, ticket: nat, ch: nat)
    requires Valid(h)
    ensures Valid(ApplySend(h, ticket, ch))
  {
    hide ChannelOk, PublicationOk;
    var t := ApplySend(h, ticket, ch);
    if Sends(h, ticket, ch) {
      SendTarget(h, ticket, ch);
      forall x | x in t.channels ensures ChannelOk(t, x) {
        if x == ch { SentHere(h, ticket, ch); } else { SentElsewhere(h, ticket, ch, x); }
      }
      forall k | k in t.active ensures PublicationOk(t, k) { SentPublication(h, ticket, ch, k); }
    }
  }

  lemma EndedChannel(h: Hub, ticket: nat, x: nat)
    requires ticket in h.active && h.active[ticket] == {} && x in h.channels && ChannelOk(h, x)
    ensures ChannelOk(ApplyEnd(h, ticket), x)
  {
    assert StreamOk(ApplyEnd(h, ticket), h.channels[x]);
  }

  lemma EndedPublication(h: Hub, ticket: nat, k: nat)
    requires ticket in h.active && h.active[ticket] == {} && k in h.active && k != ticket && PublicationOk(h, k)
    ensures PublicationOk(ApplyEnd(h, ticket), k)
  {}

  lemma KeepEnd(h: Hub, ticket: nat)
    requires Valid(h)
    ensures Valid(ApplyEnd(h, ticket))
  {
    var t := ApplyEnd(h, ticket);
    if ticket in h.active && h.active[ticket] == {} {
      assert PublicationOk(h, ticket);
      forall x | x in t.channels ensures ChannelOk(t, x) { EndedChannel(h, ticket, x); }
      forall k | k in t.active ensures PublicationOk(t, k) { EndedPublication(h, ticket, k); }
    }
  }

  lemma ReceivedChannel(h: Hub, ch: nat, x: nat)
    requires ch in h.channels && h.channels[ch].buffer != [] && x in h.channels && ChannelOk(h, x)
    ensures ChannelOk(ApplyReceive(h, ch), x)
  {
    var t := ApplyReceive(h, ch);
    var c, d := h.channels[x], t.channels[x];
    assert d.received + d.buffer == c.received + c.buffer;
    assert StreamOk(t, d);
  }

  lemma ReceivedPublication(h: Hub, ch: nat, k: nat)
    requires ch in h.channels && h.channels[ch].buffer != [] && k in h.active && PublicationOk(h, k)
    ensures PublicationOk(ApplyReceive(h, ch), k)
  {}

  lemma KeepReceive(h: Hub, ch: nat)
    requires Valid(h)
    ensures Valid(ApplyReceive(h, ch))
  {
    var t := ApplyReceive(h, ch);
    if ch in h.channels && h.channels[ch].buffer != [] {
      forall x | x in t.channels ensures ChannelOk(t, x) { ReceivedChannel(h, ch, x); }
      forall k | k in t.active ensures PublicationOk(t, k) { ReceivedPublication(h, ch, k); }
    }
  }

  lemma KeepStep(h: Hub, a: Action)
    requires Valid(h)
    ensures Valid(Apply(h, a))
  {
    match a
    case Subscribe(drill, ch) => KeepSubscribe(h, drill, ch);
    case Unsubscribe(ch) => KeepUnsubscribe(h, ch);
    case Begin(event) => KeepBegin(h, event);
    case Send(ticket, ch) => KeepSend(h, ticket, ch);
    case End(ticket) => KeepEnd(h, ticket);
    case Close => KeepClose(h);
    case Receive(ch) => KeepReceive(h, ch);
  }

  lemma {:induction false} KeepReplay(h: Hub, actions: seq<Action>)
    requires Valid(h)
    ensures Valid(Replay(h, actions))
    decreases |actions|
  {
    if actions != [] {
      KeepStep(h, actions[0]);
      KeepReplay(Apply(h, actions[0]), actions[1..]);
    }
  }

  ghost predicate Reachable(h: Hub) {
    exists actions :: h == Replay(EMPTY, actions)
  }

  lemma ReachableValid(h: Hub)
    requires Reachable(h)
    ensures Valid(h)
  {
    var actions :| h == Replay(EMPTY, actions);
    KeepReplay(EMPTY, actions);
  }

  // ------------------------------------------------------------------------- theorems

  /** Over every interleaving no channel is closed twice or sent to after closing, and a
      channel is registered under exactly its own drill exactly while it is open. */
  lemma NeverPanics(h: Hub)
    requires Reachable(h)
    ensures !h.panicked
    ensures forall drill, ch ::
      ch in Registered(h, drill) <==> ch in h.channels && !h.channels[ch].closed && h.channels[ch].drill == drill
  {
    ReachableValid(h);
    forall drill, ch
      ensures ch in Registered(h, drill) <==>
        ch in h.channels && !h.channels[ch].closed && h.channels[ch].drill == drill
    {
      if ch in h.channels { assert ChannelOk(h, ch); }
    }
  }

  /** Leaving is final and idempotent: a second call, or one after `Close`, changes nothing. */
  lemma UnsubscribeOnce(h: Hub, actions: seq<Action>, ch: nat)
    requires Reachable(h) && ch in h.channels && h.channels[ch].closed
    ensures Reachable(Replay(h, actions))
    ensures ch in Replay(h, actions).channels && Replay(h, actions).channels[ch].closed
    ensures Apply(Replay(h, actions), Unsubscribe(ch)) == Replay(h, actions)
    decreases |actions|
  {
    ReachableValid(h);
    if actions != [] {
      var before :| h == Replay(EMPTY, before);
      ReplaySnoc(EMPTY, before, actions[0]);
      StaysClosed(h, actions[0], ch);
      UnsubscribeOnce(Apply(h, actions[0]), actions[1..], ch);
    } else {
      assert ChannelOk(h, ch);
    }
  }

  lemma StaysClosed(h: Hub, a: Action, ch: nat)
    requires ch in h.channels && h.channels[ch].closed
    ensures ch in Apply(h, a).channels && Apply(h, a).channels[ch].closed
  {}

  lemma {:induction false} ReplaySnoc(h: Hub, actions: seq<Action>, a: Action)
    ensures Replay(h, actions + [a]) == Apply(Replay(h, actions), a)
    decreases |actions|
  {
    if actions == [] {
      assert Replay(Apply(h, a), []) == Apply(h, a);
      assert [] + [a] == [a];
    } else {
      assert (actions + [a])[1..] == actions[1..] + [a];
      ReplaySnoc(Apply(h, actions[0]), actions[1..], a);
    }
  }

  /** What a subscriber gets: read so far, then still waiting. */
  function Stream(c: Channel): seq<nat> { c.received + c.buffer }

  /** A publication of the channel's drill that began while the channel was open. */
  predicate InLife(h: Hub, c: Channel, t: nat) {
    t < |h.events| && h.events[t].drill == c.drill && c.born <= t && (c.closed ==> t < c.died)
  }

  predicate Overflowed(c: Channel, ticket: nat) {
    exists i | 0 <= i < |c.offers| :: c.offers[i] == Offer(ticket, 32)
  }

  predicate Increasing(s: seq<nat>) {
    forall i, j :: 0 <= i < j < |s| ==> s[i] < s[j]
  }

  /** The positions of the offers that found room. */
  function Picks(offers: seq<Offer>): (r: seq<nat>)
    ensures |r| == |Delivered(offers)| && Increasing(r)
    ensures forall k :: 0 <= k < |r| ==>
      r[k] < |offers| && offers[r[k]].fill < CAPACITY && offers[r[k]].ticket == Delivered(offers)[k]
    ensures forall i :: 0 <= i < |offers| && offers[i].fill < CAPACITY ==> i in r
  {
    if offers == [] then []
    else
      var n := |offers| - 1;
      Picks(offers[..n]) + (if offers[n].fill < CAPACITY then [n] else [])
  }

  lemma PickedInStream(c: Channel, ticket: nat, h: Hub)
    requires StreamOk(h, c)
    ensures ticket in Stream(c) <==> exists i :: 0 <= i < |c.offers| && c.offers[i].ticket == ticket && c.offers[i].fill < CAPACITY
  {
    var picks := Picks(c.offers);
    if ticket in Stream(c) {
      var k :| 0 <= k < |Stream(c)| && Stream(c)[k] == ticket;
      assert c.offers[picks[k]].ticket == ticket;
    }
    if i :| 0 <= i < |c.offers| && c.offers[i].ticket == ticket && c.offers[i].fill < CAPACITY {
      var k :| 0 <= k < |picks| && picks[k] == i;
      assert Stream(c)[k] == ticket;
    }
  }

  /** Exactly once or dropped on a full buffer: a finished publication of the channel's drill
      that began during its life is in its stream, or met 32 waiting events, and not both;
      and nothing else ever gets into the stream. */
  lemma StreamExact(h: Hub, ch: nat, ticket: nat)
    requires Reachable(h) && ch in h.channels
    ensures
      var c := h.channels[ch];
      && |c.buffer| <= 32
      && (ticket in Stream(c) ==> InLife(h, c, ticket) && !Overflowed(c, ticket))
      && (InLife(h, c, ticket) && ticket in h.ended ==> ticket in Stream(c) || Overflowed(c, ticket))
  {
    ReachableValid(h);
    assert ChannelOk(h, ch);
    assert ticket in h.active ==> PublicationOk(h, ticket);
    ChannelExact(h, ch, ticket);
  }

  lemma ChannelExact(h: Hub, ch: nat, ticket: nat)
    requires ch in h.channels && ChannelOk(h, ch)
    requires ticket in h.ended ==> ticket !in h.active
    ensures
      var c := h.channels[ch];
      && (ticket in Stream(c) ==> InLife(h, c, ticket) && !Overflowed(c, ticket))
      && (InLife(h, c, ticket) && ticket in h.ended ==> ticket in Stream(c) || Overflowed(c, ticket))
  {
    PickedInStream(h.channels[ch], ticket, h);
  }

  lemma StreamPair(h: Hub, c: Channel, i: nat, j: nat)
    requires StreamOk(h, c) && i < j < |Stream(c)|
    ensures Stream(c)[i] != Stream(c)[j]
    ensures Stream(c)[j] in h.ended ==> Stream(c)[i] < h.ended[Stream(c)[j]]
  {
    var picks := Picks(c.offers);
    assert picks[i] < picks[j];
    assert c.offers[picks[i]].ticket == Stream(c)[i] && c.offers[picks[j]].ticket == Stream(c)[j];
  }

  /** No publication is received twice, and never after one that began when it was over. */
  lemma StreamOrder(h: Hub, ch: nat)
    requires Reachable(h) && ch in h.channels
    ensures
      var s := Stream(h.channels[ch]);
      forall i, j :: 0 <= i < j < |s| ==> s[i] != s[j] && (s[j] in h.ended ==> s[i] < h.ended[s[j]])
  {
    ReachableValid(h);
    assert ChannelOk(h, ch);
    var c := h.channels[ch];
    var s := Stream(c);
    forall i, j | 0 <= i < j < |s| ensures s[i] != s[j] && (s[j] in h.ended ==> s[i] < h.ended[s[j]]) {
      StreamPair(h, c, i, j);
    }
  }

  /** The drill's events are published one after another, as one run does. */
  ghost predicate Serial(h: Hub, drill: string) {
    forall t, u :: 0 <= t < u < |h.events| && h.events[t].drill == drill && h.events[u].drill == drill ==>
      t in h.ended && h.ended[t] <= u
  }

  /** Then a subscriber's stream is an order-preserving subsequence of the drill's events. */
  lemma SerialOrder(h: Hub, ch: nat)
    requires Reachable(h) && ch in h.channels && Serial(h, h.channels[ch].drill)
    ensures Increasing(Stream(h.channels[ch]))
  {
    var s := Stream(h.channels[ch]);
    StreamOrder(h, ch);
    forall i, j | 0 <= i < j < |s| ensures s[i] < s[j] {
      StreamExact(h, ch, s[i]);
      StreamExact(h, ch, s[j]);
    }
  }

  // ------------------------------------------------------- when order can be lost

  function Overlap(): seq<Action> {
    [Subscribe("d", 0), Subscribe("d", 1), Begin(Event("d", "a")), Begin(Event("d", "b")),
     Send(0, 0), Send(1, 1), Send(1, 0), Send(0, 1)]
  }

  lemma {:induction false} ReplayEight(h: Hub, a: seq<Action>)
    requires |a| == 8
    ensures Replay(h, a) == Apply(Apply(Apply(Apply(Apply(Apply(Apply(Apply(h, a[0]), a[1]), a[2]), a[3]), a[4]), a[5]), a[6]), a[7])
  {
    var h4 := Apply(Apply(Apply(Apply(h, a[0]), a[1]), a[2]), a[3]);
    ReplayFour(h, a);
    ReplayFour(h4, a[4..]);
    assert Replay(Apply(Apply(Apply(Apply(h4, a[4]), a[5]), a[6]), a[7]), a[8..]) == Apply(Apply(Apply(Apply(h4, a[4]), a[5]), a[6]), a[7]);
  }

  lemma ReplayFour(h: Hub, a: seq<Action>)
    requires |a| >= 4
    ensures Replay(h, a) == Replay(Apply(Apply(Apply(Apply(h, a[0]), a[1]), a[2]), a[3]), a[4..])
  {
    assert a[1..][1..] == a[2..] && a[2..][1..] == a[3..] && a[3..][1..] == a[4..];
    assert Replay(Apply(h, a[0]), a[1..]) == Replay(Apply(Apply(h, a[0]), a[1]), a[2..]);
    assert Replay(Apply(Apply(h, a[0]), a[1]), a[2..]) == Replay(Apply(Apply(Apply(h, a[0]), a[1]), a[2]), a[3..]);
  }

  const FRESH := Channel("d", [], false, [], [], 0, 0)

  lemma TwoSubscribers()
    ensures Apply(Apply(EMPTY, Subscribe("d", 0)), Subscribe("d", 1))
         == Hub(map["d" := {0, 1}], map[0 := FRESH, 1 := FRESH], [], map[], map[], false)
  {
    var h := Apply(EMPTY, Subscribe("d", 0));
    assert Registered(EMPTY, "d") + {0} == {0};
    assert h == Hub(map["d" := {0}], map[0 := FRESH], [], map[], map[], false);
    assert Registered(h, "d") + {1} == {0, 1};
  }

  const LEFT := Sent(Sent(FRESH, 0), 1)
  const RIGHT := Sent(Sent(FRESH, 1), 0)

  lemma FirstSends(h: Hub) returns (t: Hub)
    requires h.channels == map[0 := FRESH, 1 := FRESH] && h.active == map[0 := {0, 1}, 1 := {0, 1}]
    ensures t == Apply(Apply(h, Send(0, 0)), Send(1, 1))
    ensures t.channels == map[0 := Sent(FRESH, 0), 1 := Sent(FRESH, 1)] && t.active == map[0 := {1}, 1 := {0}]
  {
    hide Sent, Apply;
    t := FirstSend(h);
    t := SecondSend(t);
  }

  lemma FirstSend(h: Hub) returns (t: Hub)
    requires h.channels == map[0 := FRESH, 1 := FRESH] && h.active == map[0 := {0, 1}, 1 := {0, 1}]
    ensures t == Apply(h, Send(0, 0))
    ensures t.channels == map[0 := Sent(FRESH, 0), 1 := FRESH] && t.active == map[0 := {1}, 1 := {0, 1}]
  {
    hide Sent;
    assert {0, 1} - {0} == {1};
    t := Apply(h, Send(0, 0));
  }

  lemma SecondSend(h: Hub) returns (t: Hub)
    requires h.channels == map[0 := Sent(FRESH, 0), 1 := FRESH] && h.active == map[0 := {1}, 1 := {0, 1}]
    ensures t == Apply(h, Send(1, 1))
    ensures t.channels == map[0 := Sent(FRESH, 0), 1 := Sent(FRESH, 1)] && t.active == map[0 := {1}, 1 := {0}]
  {
    hide Sent;
    assert {0, 1} - {1} == {0};
    t := Apply(h, Send(1, 1));
  }

  lemma LastSends(h: Hub) returns (t: Hub)
    requires h.channels == map[0 := Sent(FRESH, 0), 1 := Sent(FRESH, 1)] && h.active == map[0 := {1}, 1 := {0}]
    ensures t == Apply(Apply(h, Send(1, 0)), Send(0, 1)) && t.channels == map[0 := LEFT, 1 := RIGHT]
  {
    var h1 := Apply(h, Send(1, 0));
    assert h1.active[0] == {1} && h1.channels == map[0 := LEFT, 1 := Sent(FRESH, 1)];
    t := Apply(h1, Send(0, 1));
  }

  lemma CrossedStreams()
    ensures Stream(LEFT) == [0, 1] && Stream(RIGHT) == [1, 0] && LEFT.drill == RIGHT.drill == "d"
  {}

  /** Two overlapping publications of one drill can reach two subscribers in opposite orders. */
  lemma OppositeOrders()
    ensures
      var h := Replay(EMPTY, Overlap());
      && h.channels.Keys == {0, 1} && h.channels[0].drill == h.channels[1].drill == "d"
      && Stream(h.channels[0]) == [0, 1] && Stream(h.channels[1]) == [1, 0]
  {
    var a := Overlap();
    ReplayEight(EMPTY, a);
    TwoSubscribers();
    var h2 := Apply(Apply(EMPTY, a[0]), a[1]);
    var h4 := Apply(Apply(h2, a[2]), a[3]);
    hide ApplySend;
    assert h4.active == map[0 := {0, 1}, 1 := {0, 1}];
    var h6 := FirstSends(h4);
    var h8 := LastSends(h6);
    CrossedStreams();
  }

  lemma ReachableStep(h: Hub, a: Action)
    requires Reachable(h)
    ensures Reachable(Apply(h, a))
  {
    var before :| h == Replay(EMPTY, before);
    ReplaySnoc(EMPTY, before, a);
  }

  /** Nothing that has begun or ended is forgotten. */
  lemma Grows(h: Hub, a: Action)
    requires Valid(h)
    ensures var t := Apply(h, a);
      h.events <= t.events && forall k :: k in h.ended ==> k in t.ended && t.ended[k] == h.ended[k]
  {
    if a.End? && a.ticket in h.active { assert PublicationOk(h, a.ticket); }
  }

  /** One subscriber of the drill, which reads at once. */
  ghost predicate Solo(g: Hub, drill: string) {
    && g.subscribers == map[drill := {0}] && g.channels.Keys == {0}
    && g.channels[0].drill == drill && g.channels[0].buffer == [] && !g.channels[0].closed
  }

  lemma SendSolo(g: Hub, drill: string, k: nat)
    requires Solo(g, drill) && k in g.active && g.active[k] == {0}
    ensures var c := Sent(g.channels[0], k);
      && c.buffer == [k] && c.received == g.channels[0].received && c.drill == drill && !c.closed
      && Apply(g, Send(k, 0)) == g.(channels := g.channels[0 := c], active := g.active[k := {}])
  {
    assert g.active[k] - {0} == {};
  }

  lemma ReceiveSolo(g: Hub, k: nat)
    requires 0 in g.channels && g.channels[0].buffer == [k]
    ensures var c := g.channels[0];
      Apply(g, Receive(0)) == g.(channels := g.channels[0 := c.(buffer := [], received := c.received + [k])])
  {
    assert [k][1..] == [];
  }

  lemma Deliver(g: Hub, drill: string, k: nat) returns (t: Hub)
    requires Reachable(g) && Solo(g, drill) && k in g.active && g.active[k] == {0}
    ensures Reachable(t) && Solo(t, drill) && t.channels[0].received == g.channels[0].received + [k]
    ensures t.events == g.events && t.ended == g.ended && t.active == g.active[k := {}]
  {
    hide Reachable, Apply;
    var sent := Apply(g, Send(k, 0));
    ReachableStep(g, Send(k, 0));
    SendSolo(g, drill, k);
    t := Apply(sent, Receive(0));
    ReachableStep(sent, Receive(0));
    ReceiveSolo(sent, k);
  }

  /** The tickets `t` and `u` of a drill overlap, as far as the history goes. */
  predicate Overlapping(h: Hub, drill: string, t: nat, u: nat) {
    && t < u
    && (t < |h.events| ==> h.events[t].drill == drill) && (u < |h.events| ==> h.events[u].drill == drill)
    && (t in h.ended ==> u < h.ended[t])
  }

  /** `g` has the timing of `h`, and its subscriber gets `u` before `t`. */
  ghost predicate Shadow(h: Hub, g: Hub, drill: string, t: nat, u: nat) {
    && Reachable(g) && Solo(g, drill)
    && g.events == h.events && g.ended == h.ended && g.active.Keys == h.active.Keys
    && (forall k :: k in g.active ==> g.active[k] == if k == t && |h.events| <= u then {0} else {})
    && (t < |h.events| <= u ==> t in g.active)
    && (u < |h.events| ==> Swapped(g.channels[0].received, t, u))
  }

  ghost predicate Swapped(s: seq<nat>, t: nat, u: nat) {
    exists i, j :: 0 <= i < j < |s| && s[i] == u && s[j] == t
  }

  lemma SwappedMore(s: seq<nat>, more: seq<nat>, t: nat, u: nat)
    requires Swapped(s, t, u)
    ensures Swapped(s + more, t, u)
  {
    var i, j :| 0 <= i < j < |s| && s[i] == u && s[j] == t;
    assert (s + more)[i] == u && (s + more)[j] == t;
  }

  lemma BeginSolo(g: Hub, drill: string, e: Event) returns (f: Hub)
    requires Reachable(g) && Solo(g, drill)
    ensures Reachable(f) && Solo(f, drill) && f.channels == g.channels && 0 in f.channels
    ensures f.events == g.events + [e] && f.ended == g.ended
    ensures f.active == g.active[|g.events| := if e.drill == drill then {0} else {}]
  {
    f := Apply(g, Begin(e));
    ReachableStep(g, Begin(e));
  }

  lemma EndSolo(g: Hub, drill: string, k: nat) returns (f: Hub)
    requires Reachable(g) && Solo(g, drill) && k in g.active && g.active[k] == {}
    ensures Reachable(f) && Solo(f, drill) && f.channels == g.channels
    ensures f.events == g.events && f.ended == g.ended[k := |g.events|] && f.active == g.active - {k}
  {
    f := Apply(g, End(k));
    ReachableStep(g, End(k));
  }

  /** The ticket `u` begins: its subscriber gets it at once, and `t` after it. */
  lemma SwapNow(g: Hub, drill: string, t: nat, u: nat) returns (f: Hub)
    requires Reachable(g) && Solo(g, drill) && t != u && t in g.active && u in g.active && g.active[t] == g.active[u] == {0}
    ensures Reachable(f) && Solo(f, drill) && Swapped(f.channels[0].received, t, u)
    ensures f.events == g.events && f.ended == g.ended && f.active == g.active[u := {}][t := {}]
  {
    hide Reachable;
    var n := |g.channels[0].received|;
    f := Deliver(g, drill, u);
    f := Deliver(f, drill, t);
    assert f.channels[0].received[n] == u && f.channels[0].received[n + 1] == t;
  }

  lemma DeliverNext(g: Hub, drill: string, k: nat, t: nat, u: nat) returns (f: Hub)
    requires Reachable(g) && Solo(g, drill) && k in g.active && g.active[k] == {0}
    ensures Reachable(f) && Solo(f, drill) && f.events == g.events && f.ended == g.ended && f.active == g.active[k := {}]
    ensures 0 in g.channels && (Swapped(g.channels[0].received, t, u) ==> Swapped(f.channels[0].received, t, u))
  {
    f := Deliver(g, drill, k);
    if Swapped(g.channels[0].received, t, u) { SwappedMore(g.channels[0].received, [k], t, u); }
  }

  lemma ShadowBegin(h: Hub, g: Hub, drill: string, t: nat, u: nat, e: Event) returns (f: Hub)
    requires Shadow(h, g, drill, t, u) && Overlapping(ApplyBegin(h, e), drill, t, u)
    ensures Shadow(ApplyBegin(h, e), f, drill, t, u)
  {
    hide Reachable, Swapped, Solo, Registered;
    var n := |h.events|;
    f := BeginSolo(g, drill, e);
    if n == u {
      f := SwapNow(f, drill, t, u);
    } else if e.drill == drill && n != t {
      f := DeliverNext(f, drill, n, t, u);
    }
  }

  lemma ShadowEnd(h: Hub, g: Hub, drill: string, t: nat, u: nat, k: nat) returns (f: Hub)
    requires Shadow(h, g, drill, t, u) && Overlapping(ApplyEnd(h, k), drill, t, u)
    ensures Shadow(ApplyEnd(h, k), f, drill, t, u)
  {
    hide Reachable, Swapped, Solo;
    f := g;
    if k in h.active && h.active[k] == {} { f := EndSolo(g, drill, k); }
  }

  lemma ShadowOther(h: Hub, g: Hub, drill: string, t: nat, u: nat, a: Action)
    requires Shadow(h, g, drill, t, u) && !a.Begin? && !a.End?
    ensures Shadow(Apply(h, a), g, drill, t, u)
  {
    match a
    case Subscribe(d, ch) =>
    case Unsubscribe(ch) =>
    case Send(k, ch) =>
    case Close =>
    case Receive(ch) =>
  }

  lemma {:induction false} ShadowRun(actions: seq<Action>, drill: string, t: nat, u: nat) returns (g: Hub)
    requires Overlapping(Replay(EMPTY, actions), drill, t, u)
    ensures Shadow(Replay(EMPTY, actions), g, drill, t, u)
    decreases |actions|
  {
    if actions == [] {
      g := Apply(EMPTY, Subscribe(drill, 0));
      assert Replay(EMPTY, []) == EMPTY;
      ReachableStep(EMPTY, Subscribe(drill, 0));
      assert Registered(EMPTY, drill) + {0} == {0};
      assert g.subscribers == map[drill := {0}];
    } else {
      var n := |actions| - 1;
      var h, a := Replay(EMPTY, actions[..n]), actions[n];
      ReplaySnoc(EMPTY, actions[..n], a);
      assert actions[..n] + [a] == actions;
      ReachableValid(h);
      Grows(h, a);
      g := ShadowRun(actions[..n], drill, t, u);
      if a.Begin? { g := ShadowBegin(h, g, drill, t, u, a.event); }
      else if a.End? { g := ShadowEnd(h, g, drill, t, u, a.ticket); }
      else { ShadowOther(h, g, drill, t, u, a); }
    }
  }

  /** The publications began and ended at the same times. */
  predicate SameTiming(g: Hub, h: Hub) { g.events == h.events && g.ended == h.ended }

  /** A timing of publications keeps every stream of a drill in order, in all interleavings
      of the sends and for all subscribers, exactly when no two publications of the drill
      overlap. */
  lemma OrderExactly(h: Hub, drill: string)
    requires Reachable(h)
    ensures
      (forall g, ch :: Reachable(g) && SameTiming(g, h) && ch in g.channels && g.channels[ch].drill == drill ==>
         Increasing(Stream(g.channels[ch])))
      <==> Serial(h, drill)
  {
    if Serial(h, drill) {
      forall g, ch | Reachable(g) && SameTiming(g, h) && ch in g.channels && g.channels[ch].drill == drill
        ensures Increasing(Stream(g.channels[ch]))
      {
        SerialOrder(g, ch);
      }
    } else {
      var t, u :| 0 <= t < u < |h.events| && h.events[t].drill == drill && h.events[u].drill == drill
        && !(t in h.ended && h.ended[t] <= u);
      var actions :| h == Replay(EMPTY, actions);
      var g := ShadowRun(actions, drill, t, u);
      var i, j :| 0 <= i < j < |g.channels[0].received| && g.channels[0].received[i] == u && g.channels[0].received[j] == t;
      assert Stream(g.channels[0])[i] == u && Stream(g.channels[0])[j] == t;
      assert !Increasing(Stream(g.channels[0]));
    }
  }

  // --------------------------------------------------------------- the registry in memory

  /** A publication in progress: `rest` are the channels it has yet to visit. */
  function Visited(h: Hub, e: Event, rest: set<nat>): Hub {
    h.(events := h.events + [e],
       active := h.active[|h.events| := rest],
       channels := map ch | ch in h.channels ::
         if ch in Registered(h, e.drill) - rest then Sent(h.channels[ch], |h.events|) else h.channels[ch])
  }

  /** A publication as one step. */
  function Published(h: Hub, e: Event): Hub {
    Visited(h, e, {}).(active := h.active, ended := h.ended[|h.events| := |h.events| + 1])
  }

  /** The channels a publication may visit can take a send. */
  ghost predicate AllOpen(h: Hub, drill: string) {
    forall ch :: ch in Registered(h, drill) ==> ch in h.channels && !h.channels[ch].closed
  }

  lemma RegisteredOpen(h: Hub, drill: string)
    requires Valid(h)
    ensures AllOpen(h, drill)
  {
    forall ch | ch in Registered(h, drill) ensures ch in h.channels && !h.channels[ch].closed {
      assert ChannelOk(h, ch);
    }
  }

  lemma OpenIffRegistered(h: Hub, ch: nat)
    requires Valid(h) && ch in h.channels
    ensures !h.channels[ch].closed <==> ch in Registered(h, h.channels[ch].drill)
  {
    assert ChannelOk(h, ch);
  }

  lemma VisitNext(h: Hub, e: Event, rest: set<nat>, ch: nat)
    requires AllOpen(h, e.drill) && rest <= Registered(h, e.drill) && ch in rest
    ensures ch in h.channels && Visited(h, e, rest).channels[ch] == h.channels[ch]
    ensures ApplySend(Visited(h, e, rest), |h.events|, ch) == Visited(h, e, rest - {ch})
  {
    var s, t := ApplySend(Visited(h, e, rest), |h.events|, ch), Visited(h, e, rest - {ch});
    assert s.channels == t.channels;
    assert s.active == t.active;
  }

  lemma VisitEnds(h: Hub, e: Event)
    requires |h.events| !in h.active
    ensures ApplyBegin(h, e) == Visited(h, e, Registered(h, e.drill))
    ensures ApplyEnd(Visited(h, e, {}), |h.events|) == Published(h, e)
  {
    assert ApplyBegin(h, e).channels == Visited(h, e, Registered(h, e.drill)).channels;
    assert h.active[|h.events| := {}] - {|h.events|} == h.active;
  }

  lemma VisitedStep(h: Hub, e: Event, rest: set<nat>, ch: nat)
    requires AllOpen(h, e.drill) && rest <= Registered(h, e.drill) && ch in rest && Valid(Visited(h, e, rest))
    ensures Valid(Visited(h, e, rest - {ch}))
  {
    KeepSend(Visited(h, e, rest), |h.events|, ch);
    VisitNext(h, e, rest, ch);
  }

  lemma {:induction false} VisitedValid(h: Hub, e: Event, rest: set<nat>, seen: set<nat>)
    requires AllOpen(h, e.drill) && rest + seen == Registered(h, e.drill) && rest !! seen
    requires Valid(Visited(h, e, rest + seen))
    ensures Valid(Visited(h, e, rest))
    decreases seen
  {
    if seen == {} {
      assert rest + seen == rest;
    } else {
      var ch :| ch in seen;
      assert rest + {ch} + (seen - {ch}) == rest + seen;
      VisitedValid(h, e, rest + {ch}, seen - {ch});
      VisitedStep(h, e, rest + {ch}, ch);
      assert rest + {ch} - {ch} == rest;
    }
  }

  lemma BegunValid(h: Hub, e: Event)
    requires Valid(h)
    ensures |h.events| !in h.active && Valid(Visited(h, e, Registered(h, e.drill)))
  {
    TicketFresh(h);
    VisitEnds(h, e);
    KeepBegin(h, e);
  }

  lemma PublishedValid(h: Hub, e: Event)
    requires Valid(h)
    ensures Valid(Published(h, e))
  {
    BegunValid(h, e);
    RegisteredOpen(h, e.drill);
    assert {} + Registered(h, e.drill) == Registered(h, e.drill);
    VisitedValid(h, e, {}, Registered(h, e.drill));
    VisitEnds(h, e);
    KeepEnd(Visited(h, e, {}), |h.events|);
  }

  function SendAll(ticket: nat, order: seq<nat>): seq<Action> {
    seq(|order|, i requires 0 <= i < |order| => Send(ticket, order[i]))
  }

  lemma {:induction false} VisitAll(h: Hub, e: Event, rest: set<nat>, order: seq<nat>)
    requires AllOpen(h, e.drill) && rest <= Registered(h, e.drill)
    requires (set ch | ch in order) == rest
    requires forall i, j :: 0 <= i < j < |order| ==> order[i] != order[j]
    ensures Replay(Visited(h, e, rest), SendAll(|h.events|, order)) == Visited(h, e, {})
    decreases |order|
  {
    if order == [] {
      assert rest == {};
    } else {
      var ch := order[0];
      VisitNext(h, e, rest, ch);
      assert (set x | x in order[1..]) == rest - {ch} by {
        forall x | x in rest - {ch} ensures x in order[1..] {
          assert x in order;
        }
      }
      VisitAll(h, e, rest - {ch}, order[1..]);
      assert SendAll(|h.events|, order)[1..] == SendAll(|h.events|, order[1..]);
    }
  }

  lemma PublishedBy(h: Hub, e: Event, order: seq<nat>)
    requires |h.events| !in h.active && AllOpen(h, e.drill)
    requires (set ch | ch in order) == Registered(h, e.drill)
    requires forall i, j :: 0 <= i < j < |order| ==> order[i] != order[j]
    ensures Replay(h, [Begin(e)] + (SendAll(|h.events|, order) + [End(|h.events|)])) == Published(h, e)
  {
    hide Published, SendAll, Visited, Replay;
    var sends := SendAll(|h.events|, order);
    VisitEnds(h, e);
    VisitAll(h, e, Registered(h, e.drill), order);
    ReplaySnoc(Apply(h, Begin(e)), sends, End(|h.events|));
    ReplayCons(h, Begin(e), sends + [End(|h.events|)]);
  }

  lemma ReplayCons(h: Hub, a: Action, rest: seq<Action>)
    ensures Replay(h, [a] + rest) == Replay(Apply(h, a), rest)
  {
    assert ([a] + rest)[1..] == rest;
  }

  /** A publication that runs alone has one outcome, in whatever order it visits its
      subscribers. */
  lemma PublishedInAnyOrder(h: Hub, e: Event, order: seq<nat>)
    requires Reachable(h)
    requires (set ch | ch in order) == Registered(h, e.drill)
    requires forall i, j :: 0 <= i < j < |order| ==> order[i] != order[j]
    ensures Replay(h, [Begin(e)] + (SendAll(|h.events|, order) + [End(|h.events|)])) == Published(h, e)
  {
    ReachableValid(h);
    TicketFresh(h);
    RegisteredOpen(h, e.drill);
    PublishedBy(h, e, order);
  }

  function Shut(channels: map<nat, Channel>, done: set<nat>, now: nat): map<nat, Channel> {
    map ch | ch in channels :: if ch in done then channels[ch].(closed := true, died := now) else channels[ch]
  }

  /** The channels registered under drills that are gone from `left`. */
  ghost function Gone(h: Hub, left: set<string>): set<nat> {
    set d, ch | d in h.subscribers && d !in left && ch in h.subscribers[d] :: ch
  }

  lemma GoneNext(h: Hub, left: set<string>, id: string)
    requires WellRegistered(h) && AllOpen(h, id) && id in left && id in h.subscribers
    ensures Gone(h, left - {id}) == Gone(h, left) + h.subscribers[id]
    ensures forall ch :: ch in h.subscribers[id] ==>
      ch in h.channels && !h.channels[ch].closed && ch !in Gone(h, left)
  {
    assert forall ch :: ch in h.subscribers[id] ==> ch in h.channels && h.channels[ch].drill == id;
  }

  lemma ClosedAll(h: Hub)
    requires Valid(h) && h.active == map[]
    ensures ApplyClose(h) == h.(subscribers := map[], channels := Shut(h.channels, Gone(h, {}), |h.events|))
    ensures forall ch :: ch in h.channels ==> ch in Gone(h, {}) || h.channels[ch].closed
  {
    KeepClose(h);
    assert Gone(h, {}) == AllRegistered(h);
    forall ch | ch in h.channels ensures ch in Gone(h, {}) || h.channels[ch].closed { assert ChannelOk(h, ch); }
  }

  lemma ShutTwice(channels: map<nat, Channel>, first: set<nat>, second: set<nat>, now: nat)
    ensures Shut(Shut(channels, first, now), second, now) == Shut(channels, first + second, now)
    ensures forall ch :: ch in channels && ch !in first ==> Shut(channels, first, now)[ch] == channels[ch]
  {}

  class Registry {
    var subscribers: map<string, set<nat>>
    var channels: map<nat, Channel>
    var next: nat
    var events: seq<Event>
    var ended: map<nat, nat>

    ghost function Model(): Hub
      reads this
    {
      Hub(subscribers, channels, events, map[], ended, false)
    }

    ghost predicate Ready()
      reads this
    {
      Valid(Model()) && forall ch :: ch in channels ==> ch < next
    }

    constructor ()
      ensures Ready() && Model() == EMPTY
    {
      subscribers, channels, next, events, ended := map[], map[], 0, [], map[];
    }

    method Subscribe(drill: string) returns (ch: nat)
      requires Ready()
      modifies this
      ensures Ready() && ch !in old(channels) && ch in channels
      ensures Model() == ApplySubscribe(old(Model()), drill, ch)
    {
      ghost var was := Model();
      ch := next;
      next := next + 1;
      if drill !in subscribers {
        subscribers := subscribers[drill := {}];
      }
      subscribers := subscribers[drill := subscribers[drill] + {ch}];
      channels := channels[ch := Channel(drill, [], false, [], [], |events|, 0)];
      assert subscribers == was.subscribers[drill := Registered(was, drill) + {ch}];
      assert Model() == ApplySubscribe(was, drill, ch);
      KeepSubscribe(was, drill, ch);
    }

    /** Closing a channel: the precondition is that it is still open. */
    method CloseChannel(ch: nat)
      requires ch in channels && !channels[ch].closed
      modifies this`channels
      ensures channels == old(channels)[ch := old(channels)[ch].(closed := true, died := |events|)]
    {
      channels := channels[ch := channels[ch].(closed := true, died := |events|)];
    }

    /** The closure that `Subscribe` returns. */
    method Leave(ch: nat)
      requires ch in channels && (!channels[ch].closed <==> ch in Registered(Model(), channels[ch].drill))
      modifies this`subscribers, this`channels
      ensures Model() == ApplyUnsubscribe(old(Model()), ch)
      ensures channels.Keys == old(channels.Keys) && channels[ch].closed
    {
      var drill := channels[ch].drill;
      if drill in subscribers && ch in subscribers[drill] {
        subscribers := subscribers[drill := subscribers[drill] - {ch}];
        CloseChannel(ch);
      }
    }

    method Unsubscribe(ch: nat)
      requires Ready() && ch in channels
      modifies this
      ensures Ready() && Model() == ApplyUnsubscribe(old(Model()), ch)
      ensures channels[ch].closed
    {
      OpenIffRegistered(Model(), ch);
      KeepUnsubscribe(Model(), ch);
      Leave(ch);
    }

    /** A send to an open channel that gives up on a full buffer. */
    method TrySend(ch: nat, ticket: nat)
      requires ch in channels && !channels[ch].closed
      modifies this`channels
      ensures channels == old(channels)[ch := Sent(old(channels)[ch], ticket)]
    {
      var c := channels[ch];
      if |c.buffer| < CAPACITY {
        channels := channels[ch := c.(buffer := c.buffer + [ticket], offers := c.offers + [Offer(ticket, |c.buffer|)])];
      } else {
        channels := channels[ch := c.(offers := c.offers + [Offer(ticket, |c.buffer|)])];
      }
    }

    /** The loop of `Publish`. */
    method SendToAll(e: Event, ticket: nat)
      requires AllOpen(Model(), e.drill) && ticket == |events|
      modifies this`channels
      ensures channels == Visited(old(Model()), e, {}).channels
    {
      ghost var was := Model();
      var rest: set<nat> := if e.drill in subscribers then subscribers[e.drill] else {};
      while rest != {}
        invariant rest <= Registered(was, e.drill)
        invariant channels == Visited(was, e, rest).channels
        decreases |rest|
      {
        var ch :| ch in rest;
        VisitNext(was, e, rest, ch);
        TrySend(ch, ticket);
        rest := rest - {ch};
        assert channels == Visited(was, e, rest).channels;
      }
    }

    method Publish(e: Event)
      requires Ready()
      modifies this
      ensures Ready() && Model() == Published(old(Model()), e)
    {
      ghost var was := Model();
      RegisteredOpen(was, e.drill);
      var ticket := |events|;
      SendToAll(e, ticket);
      events := events + [e];
      ended := ended[ticket := ticket + 1];
      assert Model() == Published(was, e);
      PublishedValid(was, e);
    }

    /** The inner loop of `Close`. */
    method CloseChannels(chs: set<nat>)
      requires forall ch :: ch in chs ==> ch in channels && !channels[ch].closed
      modifies this`channels
      ensures channels == Shut(old(channels), chs, |events|)
    {
      var rest := chs;
      while rest != {}
        invariant rest <= chs
        invariant channels == Shut(old(channels), chs - rest, |events|)
        decreases |rest|
      {
        var ch :| ch in rest;
        CloseChannel(ch);
        rest := rest - {ch};
      }
    }

    /** The outer loop of `Close`. */
    method CloseSubscribers()
      requires WellRegistered(Model()) && forall id :: id in subscribers ==> AllOpen(Model(), id)
      modifies this`subscribers, this`channels
      ensures subscribers == map[]
      ensures channels == Shut(old(channels), Gone(old(Model()), {}), |events|)
    {
      ghost var was := Model();
      var left := subscribers.Keys;
      while left != {}
        invariant left == subscribers.Keys <= was.subscribers.Keys
        invariant forall d :: d in left ==> subscribers[d] == was.subscribers[d]
        invariant channels == Shut(was.channels, Gone(was, left), |was.events|)
        decreases |left|
      {
        var id :| id in left;
        GoneNext(was, left, id);
        ShutTwice(was.channels, Gone(was, left), subscribers[id], |was.events|);
        CloseChannels(subscribers[id]);
        subscribers := subscribers - {id};
        left := left - {id};
      }
    }

    method Close()
      requires Ready()
      modifies this
      ensures Ready() && Model() == ApplyClose(old(Model())) && subscribers == map[]
      ensures forall ch :: ch in channels ==> channels[ch].closed
    {
      ghost var was := Model();
      forall id | id in subscribers ensures AllOpen(was, id) { RegisteredOpen(was, id); }
      CloseSubscribers();
      ClosedAll(was);
      KeepClose(was);
    }

    method Receive(ch: nat) returns (ticket: Option<nat>)
      requires Ready() && ch in channels
      modifies this
      ensures Ready() && Model() == ApplyReceive(old(Model()), ch)
      ensures ticket == if old(channels)[ch].buffer == [] then None else Some(old(channels)[ch].buffer[0])
    {
      KeepReceive(Model(), ch);
      var c := channels[ch];
      if c.buffer == [] { return None; }
      channels := channels[ch := c.(buffer := c.buffer[1..], received := c.received + [c.buffer[0]])];
      return Some(c.buffer[0]);
    }
  }
}
