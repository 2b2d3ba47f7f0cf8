/** The in-memory hub that fans task events out to subscribers. */
module Broker {
  import opened TaskRuns

  datatype EventType = Started | Heartbeat | Succeeded | Failure | TimedOutEvent | ScheduleMissed

  datatype Event = Event(kind: EventType, task: TaskRun)

  const CAPACITY := 16

  // Sending without blocking: a full buffer loses the event.
  function Offer(buffer: seq<Event>, e: Event): seq<Event> {
    if |buffer| < CAPACITY then buffer + [e] else buffer
  }

  function OfferAll(buffer: seq<Event>, events: seq<Event>): seq<Event> {
    if events == [] then buffer else Offer(OfferAll(buffer, events[..|events| - 1]), events[|events| - 1])
  }

  // A buffered channel: what was sent and not yet received.
  class Channel {
    var buffer: seq<Event>
    var closed: bool

    constructor ()
      ensures buffer == [] && !closed
    {
      buffer, closed := [], false;
    }

    // A receive that finds an event; a closed channel still drains.
    method Receive() returns (e: Event)
      requires buffer != []
      modifies this`buffer
      ensures [e] + buffer == old(buffer)
    {
      e := buffer[0];
      buffer := buffer[1..];
    }
  }

  class Hub {
    var subs: set<Channel>

    // No subscribed channel is closed, so a publication never sends on one.
    ghost predicate Valid()
      reads this, subs
    {
      forall ch :: ch in subs ==> !ch.closed && |ch.buffer| <= 16
    }

    constructor ()
      ensures Valid() && subs == {}
    {
      subs := {};
    }

    method Subscribe() returns (ch: Channel)
      requires Valid()
      modifies this
      ensures Valid() && fresh(ch)
      ensures subs == old(subs) + {ch} && ch.buffer == []
    {
      ch := new Channel();
      subs := subs + {ch};
    }

    // Closes the channel the first time; calling it again does nothing.
    method Unsubscribe(ch: Channel)
      requires Valid()
      modifies this, ch`closed
      ensures Valid()
      ensures subs == old(subs) - {ch}
      ensures ch.closed == (old(ch.closed) || ch in old(subs))
    {
      if ch in subs {
        subs := subs - {ch};
        ch.closed := true;
      }
    }

    // Offers the event to every subscriber, in any order. One that has 16 events
    // buffered misses it.
    method Publish(e: Event)
      requires Valid()
      modifies subs`buffer
      ensures Valid()
      ensures forall ch :: ch in subs ==> ch.buffer == Offer(old(ch.buffer), e)
      ensures forall ch :: ch in subs && |old(ch.buffer)| < 16 ==> ch.buffer == old(ch.buffer) + [e]
      ensures forall ch :: ch in subs && |old(ch.buffer)| == 16 ==> ch.buffer == old(ch.buffer)
    {
      var todo := subs;
      while todo != {}
        invariant todo <= subs
        invariant forall ch :: ch in subs ==>
          ch.buffer == if ch in todo then old(ch.buffer) else Offer(old(ch.buffer), e)
        decreases |todo|
      {
        var ch :| ch in todo;
        if |ch.buffer| < CAPACITY {
          ch.buffer := ch.buffer + [e];
        }
        todo := todo - {ch};
      }
    }
  }
}
