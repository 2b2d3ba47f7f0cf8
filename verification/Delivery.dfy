/**
  What each subscriber of the hub gets, with receives at any moment.

  Subscribing, unsubscribing and publishing exclude one another by a mutex, so
  while a publication is offering its event to one subscriber after another
  nothing else but receives can happen. Events are identified by their place in
  the order of publication.
 */
module Delivery {
  import opened Broker

  datatype Subscriber = Subscriber(
    from: nat,            // events published before it subscribed
    to: nat,              // it has been offered from .. to - 1
    received: seq<nat>,
    buffer: seq<nat>,
    dropped: seq<nat>,
    live: bool)
  {
    // Everything it got or will get, in the order it gets it.
    function History(): seq<nat> {
      received + buffer
    }
  }

  // pending: who is still to be offered the event being published.
  datatype State = State(published: seq<Event>, subs: seq<Subscriber>, publishing: bool, pending: set<nat>)

  datatype Action =
    | Subscribe
    | Unsubscribe(id: nat)
    | PublishBegin(e: Event)
    | OfferTo(id: nat)
    | PublishEnd
    | Receive(id: nat)

  const INIT := State([], [], false, {})

  // The event the current publication is about, offered without blocking.
  function Offered(sub: Subscriber, event: nat): Subscriber {
    if |sub.buffer| < CAPACITY then sub.(to := event + 1, buffer := sub.buffer + [event])
    else sub.(to := event + 1, dropped := sub.dropped + [event])
  }

  function Received(sub: Subscriber): Subscriber
    requires sub.buffer != []
  {
    sub.(received := sub.received + [sub.buffer[0]], buffer := sub.buffer[1..])
  }

  function Next(s: State, a: Action): State {
    match a
    case Subscribe =>
      if s.publishing then s
      else s.(subs := s.subs + [Subscriber(|s.published|, |s.published|, [], [], [], true)])
    case Unsubscribe(id) =>
      if s.publishing || id >= |s.subs| then s else s.(subs := s.subs[id := s.subs[id].(live := false)])
    case PublishBegin(e) =>
      if s.publishing then s
      else s.(published := s.published + [e], publishing := true,
              pending := set id | 0 <= id < |s.subs| && s.subs[id].live)
    case OfferTo(id) =>
      if id in s.pending && id < |s.subs| && s.published != [] then
        s.(subs := s.subs[id := Offered(s.subs[id], |s.published| - 1)], pending := s.pending - {id})
      else s
    case PublishEnd => if s.pending == {} then s.(publishing := false) else s
    case Receive(id) =>
      if id < |s.subs| && s.subs[id].buffer != [] then s.(subs := s.subs[id := Received(s.subs[id])]) else s
  }

  function Run(actions: seq<Action>): State {
    if actions == [] then INIT else Next(Run(actions[..|actions| - 1]), actions[|actions| - 1])
  }

  // ---------- the invariant ----------

  ghost predicate Increasing(xs: seq<nat>) {
    forall i, j :: 0 <= i < j < |xs| ==> xs[i] < xs[j]
  }

  ghost predicate Within(xs: seq<nat>, from: nat, to: nat) {
    forall i :: 0 <= i < |xs| ==> from <= xs[i] < to
  }

  // Order kept, nothing twice, and every offered event accounted for once.
  ghost predicate HistoryOk(sub: Subscriber) {
    && Increasing(sub.History()) && Within(sub.History(), sub.from, sub.to)
    && Increasing(sub.dropped) && Within(sub.dropped, sub.from, sub.to)
    && (forall event :: event in sub.dropped ==> event !in sub.History())
    && |sub.received| + |sub.buffer| + |sub.dropped| == sub.to - sub.from
    && |sub.buffer| <= 16
  }

  ghost predicate Inv(s: State) {
    && (s.pending != {} ==> s.publishing)
    && (s.publishing ==> s.published != [])
    && (forall id :: id in s.pending ==> id < |s.subs| && s.subs[id].live)
    && (forall id :: 0 <= id < |s.subs| ==>
          && HistoryOk(s.subs[id])
          && s.subs[id].from <= s.subs[id].to <= |s.published|
          && (s.subs[id].live ==> s.subs[id].to == if id in s.pending then |s.published| - 1 else |s.published|))
  }

  lemma OfferKeeps(sub: Subscriber, event: nat)
    requires HistoryOk(sub) && sub.from <= sub.to == event
    ensures HistoryOk(Offered(sub, event))
  {
    var sub' := Offered(sub, event);
    if |sub.buffer| < CAPACITY {
      assert sub'.History() == sub.History() + [event];
    }
  }

  lemma ReceiveKeeps(sub: Subscriber)
    requires HistoryOk(sub) && sub.buffer != []
    ensures HistoryOk(Received(sub)) && Received(sub).History() == sub.History()
  {
    assert Received(sub).History() == sub.History();
  }

  lemma PublishKeeps(s: State, e: Event)
    requires Inv(s)
    ensures Inv(Next(s, PublishBegin(e))) && Inv(Next(s, PublishEnd))
  {
  }

  lemma MembershipKeeps(s: State, id: nat)
    requires Inv(s)
    ensures Inv(Next(s, Subscribe)) && Inv(Next(s, Unsubscribe(id)))
  {
  }

  lemma OfferStep(s: State, id: nat)
    requires Inv(s) && id in s.pending
    ensures Inv(Next(s, OfferTo(id)))
  {
    OfferKeeps(s.subs[id], |s.published| - 1);
  }

  lemma ReceiveStep(s: State, id: nat)
    requires Inv(s) && id < |s.subs| && s.subs[id].buffer != []
    ensures Inv(Next(s, Receive(id)))
  {
    ReceiveKeeps(s.subs[id]);
  }

  lemma StepKeeps(s: State, a: Action)
    requires Inv(s)
    ensures Inv(Next(s, a))
  {
    match a
    case Subscribe => MembershipKeeps(s, 0);
    case Unsubscribe(id) => MembershipKeeps(s, id);
    case PublishBegin(e) => PublishKeeps(s, e);
    case PublishEnd =>
    case OfferTo(id) =>
      if id in s.pending {
        OfferStep(s, id);
      }
    case Receive(id) =>
      if id < |s.subs| && s.subs[id].buffer != [] {
        ReceiveStep(s, id);
      }
  }

  lemma {:induction false} RunKeeps(actions: seq<Action>)
    ensures Inv(Run(actions))
  {
    if actions != [] {
      RunKeeps(actions[..|actions| - 1]);
      StepKeeps(Run(actions[..|actions| - 1]), actions[|actions| - 1]);
    }
  }

  /**
    At every moment of every run, what a subscriber has received and still has
    buffered is a duplicate-free subsequence, in order, of what was published
    since it subscribed; every event offered to it is received, buffered or
    dropped; and while no publication is under way, a subscriber that is still
    subscribed has been offered everything.
   */
  lemma SubscriberHistory(actions: seq<Action>, id: nat)
    requires id < |Run(actions).subs|
    ensures var s := Run(actions); var sub := s.subs[id];
            && HistoryOk(sub) && sub.to <= |s.published|
            && (sub.live && !s.publishing ==> sub.to == |s.published|)
  {
    RunKeeps(actions);
  }

  // The events that a subscriber's buffered places stand for.
  function Contents(published: seq<Event>, buffer: seq<nat>): seq<Event>
    requires forall i :: 0 <= i < |buffer| ==> buffer[i] < |published|
  {
    seq(|buffer|, i requires 0 <= i < |buffer| => published[buffer[i]])
  }

  lemma OfferedContents(published: seq<Event>, sub: Subscriber, event: nat)
    requires event < |published| && forall i :: 0 <= i < |sub.buffer| ==> sub.buffer[i] < |published|
    ensures forall i :: 0 <= i < |Offered(sub, event).buffer| ==> Offered(sub, event).buffer[i] < |published|
    ensures Contents(published, Offered(sub, event).buffer) == Offer(Contents(published, sub.buffer), published[event])
  {
  }

  lemma BufferedIsPublished(sub: Subscriber)
    requires HistoryOk(sub)
    ensures forall i :: 0 <= i < |sub.buffer| ==> sub.buffer[i] < sub.to
  {
    forall i | 0 <= i < |sub.buffer| ensures sub.buffer[i] < sub.to {
      assert sub.History()[|sub.received| + i] == sub.buffer[i];
    }
  }

  /** Offering does to a subscriber's buffered events what the hub's send does. */
  lemma OfferIsTheHubs(s: State, id: nat)
    requires Inv(s) && id in s.pending
    ensures var sub, sub' := s.subs[id], Next(s, OfferTo(id)).subs[id];
            && (forall i :: 0 <= i < |sub.buffer| ==> sub.buffer[i] < |s.published|)
            && (forall i :: 0 <= i < |sub'.buffer| ==> sub'.buffer[i] < |s.published|)
            && Contents(s.published, sub'.buffer) == Offer(Contents(s.published, sub.buffer), s.published[|s.published| - 1])
  {
    BufferedIsPublished(s.subs[id]);
    OfferedContents(s.published, s.subs[id], |s.published| - 1);
  }

  // What the hub can see of the subscribers: who is subscribed, and what each has
  // buffered.
  function Channels(s: State): seq<(bool, seq<nat>)> {
    seq(|s.subs|, id requires 0 <= id < |s.subs| => (s.subs[id].live, s.subs[id].buffer))
  }

  /**
    While no publication is under way, subscribing and unsubscribing do to the
    channels what the hub's operations do; a publication sets out to offer its
    event to exactly those subscribed; and a receive takes the oldest event.
   */
  lemma StepsAreTheHubs(s: State, id: nat, e: Event)
    requires !s.publishing
    ensures Channels(Next(s, Subscribe)) == Channels(s) + [(true, [])]
    ensures id < |s.subs| ==> Channels(Next(s, Unsubscribe(id))) == Channels(s)[id := (false, s.subs[id].buffer)]
    ensures var s' := Next(s, PublishBegin(e));
            && s'.publishing && s'.published == s.published + [e] && Channels(s') == Channels(s)
            && forall other: nat :: other in s'.pending <==> other < |s.subs| && s.subs[other].live
    ensures id < |s.subs| && s.subs[id].buffer != [] ==>
      var sub, sub' := s.subs[id], Next(s, Receive(id)).subs[id];
      sub'.live == sub.live && sub'.received + sub'.buffer == sub.received + sub.buffer && |sub'.received| == |sub.received| + 1
  {
    if id < |s.subs| && s.subs[id].buffer != [] {
      var sub := s.subs[id];
      assert sub.received + [sub.buffer[0]] + sub.buffer[1..] == sub.received + sub.buffer;
    }
  }

  /**
    In every reachable state, a step drops an event of a subscriber exactly if
    it is the offer of a publication to that subscriber and finds 16 events
    buffered; the event dropped is the one being published.
   */
  lemma DropsOnlyWhenFull(actions: seq<Action>, a: Action, id: nat)
    requires id < |Run(actions).subs| && |Next(Run(actions), a).subs| >= |Run(actions).subs|
    ensures var s, s' := Run(actions), Next(Run(actions), a);
            && (s'.subs[id].dropped != s.subs[id].dropped <==>
                  a == OfferTo(id) && id in s.pending && |s.subs[id].buffer| == 16)
            && (s'.subs[id].dropped != s.subs[id].dropped ==>
                  s.published != [] && s'.subs[id].dropped == s.subs[id].dropped + [|s.published| - 1])
  {
    RunKeeps(actions);
    assert HistoryOk(Run(actions).subs[id]);
  }

  lemma {:induction false} IncreasingFillsUp(xs: seq<nat>, from: nat, i: nat)
    requires Increasing(xs) && Within(xs, from, from + |xs|) && i < |xs|
    ensures xs[i] == from + i
  {
    ClimbsFromBelow(xs, from, i);
    CannotOvershoot(xs, from + |xs|, i);
  }

  lemma {:induction false} ClimbsFromBelow(xs: seq<nat>, from: nat, i: nat)
    requires Increasing(xs) && i < |xs| && from <= xs[0]
    ensures from + i <= xs[i]
  {
    if i > 0 {
      ClimbsFromBelow(xs, from, i - 1);
    }
  }

  lemma {:induction false} CannotOvershoot(xs: seq<nat>, to: nat, i: nat)
    requires Increasing(xs) && i < |xs| && xs[|xs| - 1] < to
    ensures xs[i] + (|xs| - i) <= to
    decreases |xs| - i
  {
    if i < |xs| - 1 {
      CannotOvershoot(xs, to, i + 1);
    }
  }

  /** A subscriber that has dropped nothing has, or will get, every event. */
  lemma NoDropsMeansEverything(actions: seq<Action>, id: nat)
    requires id < |Run(actions).subs| && Run(actions).subs[id].dropped == []
    ensures var sub := Run(actions).subs[id];
            |sub.History()| == sub.to - sub.from && forall i :: 0 <= i < |sub.History()| ==> sub.History()[i] == sub.from + i
  {
    RunKeeps(actions);
    var sub := Run(actions).subs[id];
    forall i | 0 <= i < |sub.History()| ensures sub.History()[i] == sub.from + i {
      IncreasingFillsUp(sub.History(), sub.from, i);
    }
  }

  lemma OneOrder(h: seq<nat>, g: seq<nat>, i: nat, j: nat, k: nat, l: nat)
    requires Increasing(h) && Increasing(g)
    requires i < |h| && j < |h| && k < |g| && l < |g| && h[i] == g[k] && h[j] == g[l]
    ensures i < j <==> k < l
  {
  }

  /** No two subscribers ever get two events in opposite orders. */
  lemma SubscribersAgreeOnOrder(actions: seq<Action>, a: nat, b: nat, i: nat, j: nat, k: nat, l: nat)
    requires a < |Run(actions).subs| && b < |Run(actions).subs|
    requires var h, g := Run(actions).subs[a].History(), Run(actions).subs[b].History();
             i < |h| && j < |h| && k < |g| && l < |g| && h[i] == g[k] && h[j] == g[l]
    ensures i < j <==> k < l
  {
    SubscriberHistory(actions, a);
    SubscriberHistory(actions, b);
    OneOrder(Run(actions).subs[a].History(), Run(actions).subs[b].History(), i, j, k, l);
  }
}
