/** The API's event hub: numbered events, a bounded history for late subscribers, and
    one bounded channel per subscriber that loses events while it is full. */
module EventHub {
  import opened AuthCacheSpec

  const HISTORY_LIMIT := 1024
  const CHANNEL_SIZE := 64

  datatype Hub = Hub(source: Id, revision: nat, history: seq<Event>, channels: map<nat, seq<Event>>, nextId: nat)

  function Last(s: seq<Event>, n: nat): seq<Event> {
    if |s| > n then s[|s| - n..] else s
  }

  function Offer(channel: seq<Event>, e: Event): seq<Event> {
    if |channel| < CHANNEL_SIZE then channel + [e] else channel
  }

  function Published(h: Hub, p: Payload): Hub {
    var e := Event(h.source, h.revision + 1, p);
    h.(revision := h.revision + 1, history := Last(h.history + [e], HISTORY_LIMIT),
       channels := map id | id in h.channels :: Offer(h.channels[id], e))
  }

  predicate Wanted(h: Hub, source: Id, revision: int, e: Event) {
    source != h.source || e.revision > revision
  }

  function Backlog(h: Hub, events: seq<Event>, source: Id, revision: int): seq<Event> {
    if events == [] then []
    else
      var before, e := Backlog(h, events[..|events| - 1], source, revision), events[|events| - 1];
      if Wanted(h, source, revision, e) then before + [e] else before
  }

  function Subscribed(h: Hub): Hub {
    h.(nextId := h.nextId + 1, channels := h.channels[h.nextId + 1 := []])
  }

  class EventHub {
    const source: Id
    var revision: nat
    var history: seq<Event>
    var channels: map<nat, seq<Event>>
    var nextId: nat

    function Value(): Hub
      reads this
    {
      Hub(source, revision, history, channels, nextId)
    }

    constructor (id: Id)
      ensures Value() == Hub(id, 0, [], map[], 0)
    {
      source, revision, history, channels, nextId := id, 0, [], map[], 0;
    }

    method Remember(e: Event)
      modifies `history
      ensures history == Last(old(history) + [e], HISTORY_LIMIT)
    {
      history := history + [e];
      if |history| > HISTORY_LIMIT {
        history := history[|history| - HISTORY_LIMIT..];
      }
    }

    /** Offers an event to every subscriber; a full channel misses it. */
    method Broadcast(e: Event)
      modifies `channels
      ensures channels == map id | id in old(channels) :: Offer(old(channels)[id], e)
      ensures forall id :: id in old(channels) ==>
                channels[id] == if |old(channels)[id]| < 64 then old(channels)[id] + [e] else old(channels)[id]
    {
      var todo := channels.Keys;
      while todo != {}
        invariant todo <= channels.Keys == old(channels).Keys
        invariant forall id :: id in todo ==> channels[id] == old(channels)[id]
        invariant forall id :: id in channels.Keys - todo ==> channels[id] == Offer(old(channels)[id], e)
      {
        var id :| id in todo;
        if |channels[id]| < CHANNEL_SIZE {
          channels := channels[id := channels[id] + [e]];
        }
        todo := todo - {id};
      }
    }

    method PublishEvent(p: Payload) returns (e: Event)
      modifies this
      ensures Value() == Published(old(Value()), p)
      ensures e == Event(source, revision, p)
    {
      revision := revision + 1;
      e := Event(source, revision, p);
      Remember(e);
      Broadcast(e);
    }

    /** Installs a channel and returns what was published after the caller's cursor. */
    method SubscribeAfter(from: Id, after: int) returns (id: nat, backlog: seq<Event>)
      modifies this
      ensures Value() == Subscribed(old(Value())) && id == nextId
      ensures backlog == Backlog(old(Value()), old(history), from, after)
    {
      nextId := nextId + 1;
      id := nextId;
      channels := channels[id := []];
      backlog := [];
      for i := 0 to |history|
        invariant backlog == Backlog(old(Value()), history[..i], from, after)
      {
        assert history[..i + 1][..i] == history[..i];
        if from != source || history[i].revision > after {
          backlog := backlog + [history[i]];
        }
      }
      assert history[..|history|] == history;
    }

    method Unsubscribe(id: nat)
      modifies this
      ensures Value() == old(Value()).(channels := old(channels) - {id})
    {
      if id in channels {
        channels := channels - {id};
      }
    }
  }

  // ---------- what the history holds ----------

  /** The events a hub with this source has published, in order. */
  predicate Numbered(source: Id, events: seq<Event>) {
    forall i :: 0 <= i < |events| ==> events[i].source == source && events[i].revision == i + 1
  }

  /** The hub's state after publishing `events`. */
  predicate Holds(h: Hub, events: seq<Event>) {
    Numbered(h.source, events) && h.revision == |events| && h.history == Last(events, HISTORY_LIMIT)
  }

  lemma PublishHolds(h: Hub, events: seq<Event>, p: Payload)
    requires Holds(h, events)
    ensures Holds(Published(h, p), events + [Event(h.source, h.revision + 1, p)])
  {
    var e := Event(h.source, h.revision + 1, p);
    assert Last(Last(events, HISTORY_LIMIT) + [e], HISTORY_LIMIT) == Last(events + [e], HISTORY_LIMIT);
  }

  /** The first event a cursor gets back: the one after it, or the oldest still held. */
  function FirstKept(events: seq<Event>, cursor: nat): nat {
    var oldest := if |events| > HISTORY_LIMIT then |events| - HISTORY_LIMIT else 0;
    if cursor < oldest then oldest else if cursor > |events| then |events| else cursor
  }

  lemma SliceGrows(events: seq<Event>, start: nat, end: nat)
    requires start < end <= |events|
    ensures events[start..end] == events[start..end - 1] + [events[end - 1]]
  {
  }

  lemma BacklogStep(h: Hub, events: seq<Event>, start: nat, end: nat, cursor: nat)
    requires Numbered(h.source, events) && start < end <= |events|
    ensures Backlog(h, events[start..end], h.source, cursor) ==
            Backlog(h, events[start..end - 1], h.source, cursor) + (if end > cursor then [events[end - 1]] else [])
  {
    var part := events[start..end];
    assert part[..|part| - 1] == events[start..end - 1];
    assert part[|part| - 1] == events[end - 1];
  }

  /** Where the events a cursor wants begin in `events[start..end]`. */
  function Cut(start: nat, end: nat, cursor: nat): (at: nat)
    requires start <= end
    ensures start <= at <= end
  {
    if cursor <= start then start else if cursor >= end then end else cursor
  }

  lemma {:induction false} BacklogOfSlice(h: Hub, events: seq<Event>, start: nat, end: nat, cursor: nat)
    requires Numbered(h.source, events) && start <= end <= |events|
    ensures Backlog(h, events[start..end], h.source, cursor) == events[Cut(start, end, cursor)..end]
    decreases end
  {
    if start < end {
      BacklogOfSlice(h, events, start, end - 1, cursor);
      BacklogStep(h, events, start, end, cursor);
      var at := Cut(start, end - 1, cursor);
      if end > cursor {
        SliceGrows(events, at, end);
      }
    }
  }

  lemma {:induction false} BacklogOfStranger(h: Hub, events: seq<Event>, source: Id, cursor: int)
    requires source != h.source
    ensures Backlog(h, events, source, cursor) == events
  {
    if events != [] {
      BacklogOfStranger(h, events[..|events| - 1], source, cursor);
    }
  }

  /** A cursor of this hub gets the events after it, as far back as the history reaches;
      nothing is missing exactly when at most 1024 events were published since. */
  lemma BacklogExact(h: Hub, events: seq<Event>, cursor: nat)
    requires Holds(h, events) && cursor <= |events|
    ensures Backlog(h, h.history, h.source, cursor) == events[FirstKept(events, cursor)..]
    ensures Backlog(h, h.history, h.source, cursor) == events[cursor..] <==> |events| - cursor <= 1024
  {
    var oldest := if |events| > HISTORY_LIMIT then |events| - HISTORY_LIMIT else 0;
    assert h.history == events[oldest..|events|];
    BacklogOfSlice(h, events, oldest, |events|, cursor);
    assert events[cursor..|events|] == events[cursor..];
    assert events[oldest..|events|] == events[oldest..];
    if cursor < oldest {
      assert |events[cursor..]| != |events[oldest..]|;
    }
  }

  /** The cursor of another hub gets the whole history. */
  lemma BacklogAfterRestart(h: Hub, events: seq<Event>, source: Id, cursor: int)
    requires Holds(h, events) && source != h.source
    ensures Backlog(h, h.history, source, cursor) == events[FirstKept(events, 0)..]
  {
    BacklogOfStranger(h, h.history, source, cursor);
  }
}
