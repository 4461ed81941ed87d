/** The whole replication path as a state machine: changes are committed and later announced, the
    hub feeds a stream that can lose events or be cut at any time, snapshots arrive at any
    time, and the node applies both and may crash back to what it last saved. */
module Replication {
  import opened Wrappers
  import opened AuthCacheSpec
  import opened EventHub
  import opened AuthDatabase
  import opened AuthReplay
  import opened SnapshotCapture

  /** Where a cache comes from: a snapshot, and where and when that was read. */
  datatype Origin = Origin(snapshot: Snapshot, pos: Positions, at: nat)

  /** A node's cache.  `origin` records the last accepted snapshot for as long as no event has been
      skipped since.  The node itself does not use it. */
  datatype Node = Node(cache: Cache, origin: Option<Origin>)

  /** `log` is what was committed, `states[n]` the tables after `n` changes, and `events` what the hub
      published, the events of a prefix of the log.  `feed` is the node's subscription,
      `transit` what was written to it and not yet applied, and `since` the position from which
      on the subscription has lost nothing. */
  datatype World = World(log: seq<Change>, states: seq<Db>, events: seq<Event>, hub: Hub,
                         feed: Option<nat>, since: nat, transit: seq<Event>, now: nat, node: Node, saved: Node)

  datatype Step =
    | Commit(change: Change)
    | Announce
    | Tick(later: nat)
    | Subscribe(source: Id, cursor: nat)
    | Forward
    | Deliver
    | Disconnect
    | Reconcile(snapshot: Snapshot, pos: Positions, at: nat)
    | Repeat(i: nat)
    | Save
    | Restart

  // ---------- steps ----------

  function Channel(w: World): seq<Event> {
    if w.feed.Some? && w.feed.value in w.hub.channels then w.hub.channels[w.feed.value] else []
  }

  function InFlight(w: World): seq<Event> {
    w.transit + Channel(w)
  }

  /** Whether applying `e` skips nothing: the node ignores it, or the changes in between write nothing. */
  predicate Passes(log: seq<Change>, c: Cache, e: Event) {
    || e.payload.Note?
    || !Accepts(c, e.source, e.revision)
    || (0 <= c.revision < e.revision <= |log| && forall j :: c.revision <= j < e.revision - 1 ==> log[j].Record?)
  }

  function Take(log: seq<Change>, node: Node, e: Event): Node {
    Node(Apply(node.cache, e), if Passes(log, node.cache, e) then node.origin else None)
  }

  function Adopt(node: Node, s: Snapshot, pos: Positions, at: nat): Node {
    if Stale(node.cache, s) then node else Node(Replace(node.cache, s), Some(Origin(s, pos, at)))
  }

  function Unsubscribed(w: World): World {
    w.(feed := None, transit := [],
       hub := if w.feed.Some? then w.hub.(channels := w.hub.channels - {w.feed.value}) else w.hub)
  }

  ghost predicate Enabled(w: World, step: Step) {
    match step
    case Commit(_) => true
    case Announce => |w.events| < |w.log|
    case Tick(later) => w.now <= later
    case Subscribe(_, _) => w.feed.None?
    case Forward => w.feed.Some? && w.feed.value in w.hub.channels && w.hub.channels[w.feed.value] != []
    case Deliver => w.transit != []
    case Disconnect => true
    case Reconcile(s, pos, at) =>
      Captures(w.hub.source, w.states, s, pos, at) && s.revision <= |w.events| && at <= w.now
    case Repeat(i) =>
      && i < |w.events|
      && w.node.cache.source == w.hub.source
      && w.events[i].revision <= w.node.cache.revision
    case Save => true
    case Restart => true
  }

  function NextCommit(w: World, ch: Change): World
    requires w.states != []
  {
    w.(log := w.log + [ch], states := w.states + [Write(w.states[|w.states| - 1], ch)])
  }

  /** The next committed change is published; a full channel loses its event. */
  function NextAnnounce(w: World): World
    requires |w.events| < |w.log|
  {
    var ch := w.log[|w.events|];
    w.(events := w.events + [Event(w.hub.source, w.hub.revision + 1, Wire(ch))],
       hub := Published(w.hub, Wire(ch)),
       since := if |Channel(w)| < CHANNEL_SIZE || ch.Record? then w.since else |w.events| + 1)
  }

  /** A cursor of this process gets what the history still holds after it, any other the whole history. */
  function NextSubscribe(w: World, source: Id, cursor: nat): World {
    w.(hub := Subscribed(w.hub), feed := Some(w.hub.nextId + 1),
       transit := Backlog(w.hub, w.hub.history, source, cursor),
       since := FirstKept(w.events, if source == w.hub.source then cursor else 0))
  }

  function NextForward(w: World): World
    requires w.feed.Some? && w.feed.value in w.hub.channels && w.hub.channels[w.feed.value] != []
  {
    var channel := w.hub.channels[w.feed.value];
    w.(transit := w.transit + [channel[0]],
       hub := w.hub.(channels := w.hub.channels[w.feed.value := channel[1..]]))
  }

  function NextDeliver(w: World): World
    requires w.transit != []
  {
    w.(node := Take(w.log, w.node, w.transit[0]), transit := w.transit[1..])
  }

  ghost function Next(w: World, step: Step): World
    requires Enabled(w, step) && w.states != []
  {
    match step
    case Commit(ch) => NextCommit(w, ch)
    case Announce => NextAnnounce(w)
    case Tick(later) => w.(now := later)
    case Subscribe(source, cursor) => NextSubscribe(w, source, cursor)
    case Forward => NextForward(w)
    case Deliver => NextDeliver(w)
    case Disconnect => Unsubscribed(w)
    case Reconcile(s, pos, at) => w.(node := Adopt(w.node, s, pos, at))
    case Repeat(i) => w.(node := Take(w.log, w.node, w.events[i]))
    case Save => w.(saved := w.node)
    case Restart => Unsubscribed(w).(node := w.saved)
  }

  // ---------- the invariant ----------

  ghost predicate Genuine(events: seq<Event>, q: seq<Event>) {
    forall i :: 0 <= i < |q| ==> 1 <= q[i].revision <= |events| && q[i] == events[q[i].revision - 1]
  }

  ghost predicate Rising(q: seq<Event>) {
    forall i, j :: 0 <= i < j < |q| ==> q[i].revision < q[j].revision
  }

  ghost predicate Queue(events: seq<Event>, q: seq<Event>) {
    Genuine(events, q) && Rising(q)
  }

  /** The events are the first changes of the log, in order. */
  ghost predicate Announces(w: World) {
    && |w.events| <= |w.log|
    && Holds(w.hub, w.events)
    && forall i :: 0 <= i < |w.events| ==> w.events[i].payload == Wire(w.log[i])
  }

  /** The log, the hub and the stream fit together. */
  ghost predicate Streaming(w: World) {
    && Follows(w.states, w.log)
    && Announces(w)
    && Queue(w.events, InFlight(w))
    && (w.feed.None? ==> w.transit == [])
    && (w.feed.Some? ==> w.feed.value in w.hub.channels)
  }

  /** An event the subscription did not lose is on its way or applied, unless it writes nothing. */
  ghost predicate FedAt(w: World, j: nat)
    requires j < |w.events| <= |w.log|
  {
    || w.log[j].Record?
    || w.events[j] in InFlight(w)
    || (w.node.cache.source == w.hub.source && j < w.node.cache.revision)
  }

  ghost predicate Fed(w: World)
    requires |w.events| <= |w.log|
  {
    w.feed.Some? ==> forall j :: w.since <= j < |w.events| ==> FedAt(w, j)
  }

  /** The same tables, whatever source and revision go with them. */
  predicate SameTables(a: Cache, b: Cache) {
    a == b.(source := a.source, revision := a.revision)
  }

  /** A node with an origin holds the published events folded onto the tables of its snapshot. */
  ghost predicate Tracks(source: Id, log: seq<Change>, states: seq<Db>, published: nat, now: nat, node: Node) {
    node.origin.Some? ==>
      var o := node.origin.value;
      && Captures(source, states, o.snapshot, o.pos, o.at) && o.at <= now
      && node.cache.source == source
      && o.snapshot.revision <= node.cache.revision <= published <= |log|
      && SameTables(node.cache, Replay(Loaded(o.snapshot), log, o.snapshot.revision, node.cache.revision))
  }

  ghost predicate NodeTracks(w: World, node: Node) {
    Tracks(w.hub.source, w.log, w.states, |w.events|, w.now, node)
  }

  ghost predicate Inv(w: World) {
    Streaming(w) && Fed(w) && NodeTracks(w, w.node) && NodeTracks(w, w.saved)
  }

  /** An API process just started over existing tables; the node may hold anything an
      earlier process left it. */
  ghost predicate Start(w: World) {
    && w.log == [] && |w.states| == 1 && w.events == [] && w.hub.revision == 0 && w.hub.history == []
    && w.feed.None? && w.transit == []
    && w.node.origin.None? && w.saved.origin.None?
  }

  ghost predicate ValidRun(w: World, steps: seq<Step>)
    decreases |steps|
  {
    w.states != [] &&
    (steps == [] || (Enabled(w, steps[0]) && ValidRun(Next(w, steps[0]), steps[1..])))
  }

  ghost function Run(w: World, steps: seq<Step>): World
    requires ValidRun(w, steps)
    decreases |steps|
  {
    if steps == [] then w else Run(Next(w, steps[0]), steps[1..])
  }

  // ---------- applying one event ----------

  lemma UpdateSameTables(a: Cache, b: Cache, p: Payload)
    requires SameTables(a, b)
    ensures SameTables(Update(a, p), Update(b, p))
  {
  }

  lemma RecordIsSilent(c: Cache, ch: Change)
    requires ch.Record?
    ensures Update(c, Wire(ch)) == c
  {
  }

  lemma {:induction false} ReplayQuiet(c: Cache, log: seq<Change>, start: nat, j: nat, k: nat)
    requires start <= j <= k <= |log|
    requires forall i :: j <= i < k ==> log[i].Record?
    ensures Replay(c, log, start, k) == Replay(c, log, start, j)
    decreases k
  {
    if j < k {
      ReplayQuiet(c, log, start, j, k - 1);
      RecordIsSilent(Replay(c, log, start, k - 1), log[k - 1]);
    }
  }

  lemma TakeKeeps(w: World, node: Node, i: nat)
    requires Announces(w) && i < |w.events| && NodeTracks(w, node)
    ensures NodeTracks(w, Take(w.log, node, w.events[i]))
  {
    var e, next := w.events[i], Take(w.log, node, w.events[i]);
    if next.origin.Some? && !e.payload.Note? && Accepts(node.cache, e.source, e.revision) {
      var o := node.origin.value;
      var start, rev := o.snapshot.revision, node.cache.revision;
      assert e.revision == i + 1 && e.source == w.hub.source && e.payload == Wire(w.log[i]);
      ReplayQuiet(Loaded(o.snapshot), w.log, start, rev, i);
      UpdateSameTables(node.cache.(source := e.source, revision := e.revision), Replay(Loaded(o.snapshot), w.log, start, i), e.payload);
    }
  }

  // ---------- steps keep the invariant ----------

  lemma QueueGrows(events: seq<Event>, e: Event, q: seq<Event>)
    requires Queue(events, q) && e.revision == |events| + 1
    ensures Queue(events + [e], q) && Queue(events + [e], q + [e])
  {
  }

  lemma AnnouncesGrows(w: World)
    requires Announces(w) && |w.events| < |w.log|
    ensures Announces(NextAnnounce(w))
  {
    PublishHolds(w.hub, w.events, Wire(w.log[|w.events|]));
  }

  lemma FollowsGrows(states: seq<Db>, log: seq<Change>, ch: Change)
    requires Follows(states, log)
    ensures Follows(states + [Write(states[|log|], ch)], log + [ch])
  {
  }

  /** A published event reaches the node's channel unless the channel is full. */
  lemma AnnounceFlight(w: World)
    requires |w.events| < |w.log|
    ensures InFlight(NextAnnounce(w)) ==
            if w.feed.Some? && w.feed.value in w.hub.channels && |Channel(w)| < CHANNEL_SIZE
            then InFlight(w) + [Event(w.hub.source, w.hub.revision + 1, Wire(w.log[|w.events|]))] else InFlight(w)
  {
    var e := Event(w.hub.source, w.hub.revision + 1, Wire(w.log[|w.events|]));
    assert w.transit + (Channel(w) + [e]) == InFlight(w) + [e];
  }

  lemma AnnounceKeeps(w: World)
    requires Streaming(w) && |w.events| < |w.log|
    ensures Streaming(NextAnnounce(w))
  {
    AnnouncesGrows(w);
    AnnounceFlight(w);
    QueueGrows(w.events, Event(w.hub.source, w.hub.revision + 1, Wire(w.log[|w.events|])), InFlight(w));
  }

  lemma AnnounceFed(w: World)
    requires Streaming(w) && Fed(w) && |w.events| < |w.log|
    ensures Fed(NextAnnounce(w))
  {
    AnnounceFlight(w);
    var x := NextAnnounce(w);
    if x.feed.Some? {
      forall j | x.since <= j < |x.events| ensures FedAt(x, j) {
        if j < |w.events| {
          assert FedAt(w, j) && x.events[j] == w.events[j];
        } else {
          assert x.events[j] == Event(w.hub.source, w.hub.revision + 1, Wire(w.log[j]));
        }
      }
    }
  }

  lemma {:induction false} ReplayPrefix(c: Cache, log: seq<Change>, more: seq<Change>, start: nat, k: nat)
    requires start <= k <= |log|
    ensures Replay(c, log + more, start, k) == Replay(c, log, start, k)
    decreases k
  {
    if k > start {
      ReplayPrefix(c, log, more, start, k - 1);
    }
  }

  lemma CapturesGrows(source: Id, states: seq<Db>, db: Db, s: Snapshot, pos: Positions, at: nat)
    requires Captures(source, states, s, pos, at)
    ensures Captures(source, states + [db], s, pos, at)
  {
  }

  lemma CommitTracks(w: World, node: Node, ch: Change)
    requires Follows(w.states, w.log) && NodeTracks(w, node)
    ensures NodeTracks(NextCommit(w, ch), node)
  {
    if node.origin.Some? {
      var o := node.origin.value;
      CapturesGrows(w.hub.source, w.states, Write(w.states[|w.log|], ch), o.snapshot, o.pos, o.at);
      ReplayPrefix(Loaded(o.snapshot), w.log, [ch], o.snapshot.revision, node.cache.revision);
    }
  }

  /** Nothing that leaves the stream alone, and the node no further back, unfeeds it. */
  lemma FedStays(w: World, x: World)
    requires |w.events| <= |w.log| && Fed(w)
    requires x.feed == w.feed && x.since == w.since && x.events == w.events && w.log <= x.log
    requires InFlight(x) == InFlight(w) && x.hub.source == w.hub.source
    requires w.node.cache.source == w.hub.source ==>
               x.node.cache.source == w.hub.source && w.node.cache.revision <= x.node.cache.revision
    ensures Fed(x)
  {
    if x.feed.Some? {
      forall j | x.since <= j < |x.events| ensures FedAt(x, j) {
        assert FedAt(w, j);
      }
    }
  }

  lemma CommitKeeps(w: World, ch: Change)
    requires Streaming(w) && Fed(w)
    ensures Streaming(NextCommit(w, ch)) && Fed(NextCommit(w, ch))
  {
    FollowsGrows(w.states, w.log, ch);
    FedStays(w, NextCommit(w, ch));
  }

  lemma {:induction false} BacklogPicks(h: Hub, events: seq<Event>, q: seq<Event>, source: Id, cursor: int)
    requires Queue(events, q)
    ensures Queue(events, Backlog(h, q, source, cursor))
    ensures forall e :: e in Backlog(h, q, source, cursor) ==> e in q
    decreases |q|
  {
    if q != [] {
      var front, last := q[..|q| - 1], q[|q| - 1];
      BacklogPicks(h, events, front, source, cursor);
      var picked := Backlog(h, front, source, cursor);
      forall i | 0 <= i < |picked| ensures picked[i].revision < last.revision {
        assert picked[i] in front;
      }
    }
  }

  lemma HistoryIsQueue(h: Hub, events: seq<Event>)
    requires Holds(h, events)
    ensures Queue(events, h.history)
  {
    var oldest := |events| - |h.history|;
    forall i | 0 <= i < |h.history| ensures h.history[i] == events[oldest + i] && h.history[i].revision == oldest + i + 1 {
      assert h.history[i] == events[oldest + i];
    }
  }

  lemma SubscribeKeeps(w: World, source: Id, cursor: nat)
    requires Streaming(w) && w.feed.None?
    ensures Streaming(NextSubscribe(w, source, cursor))
  {
    HistoryIsQueue(w.hub, w.events);
    BacklogPicks(w.hub, w.events, w.hub.history, source, cursor);
    var next := NextSubscribe(w, source, cursor);
    assert Channel(next) == [] && InFlight(next) == Backlog(w.hub, w.hub.history, source, cursor);
  }

  lemma SubscribeFed(w: World, source: Id, cursor: nat)
    requires Streaming(w) && w.feed.None?
    ensures Fed(NextSubscribe(w, source, cursor))
  {
    var x := NextSubscribe(w, source, cursor);
    assert Channel(x) == [] && InFlight(x) == Backlog(w.hub, w.hub.history, source, cursor);
    if x.since < |w.events| {
      if source == w.hub.source {
        BacklogExact(w.hub, w.events, cursor);
      } else {
        BacklogAfterRestart(w.hub, w.events, source, cursor);
      }
      forall j | x.since <= j < |w.events| ensures FedAt(x, j) {
        assert w.events[x.since..][j - x.since] == w.events[j];
      }
    }
  }

  lemma ForwardKeeps(w: World)
    requires Streaming(w) && Enabled(w, Forward)
    ensures Streaming(NextForward(w)) && InFlight(NextForward(w)) == InFlight(w)
  {
    var next := NextForward(w);
    assert Channel(w) == [Channel(w)[0]] + Channel(next);
    assert InFlight(next) == InFlight(w);
  }

  lemma QueueTail(events: seq<Event>, q: seq<Event>)
    requires Queue(events, q) && q != []
    ensures Queue(events, q[1..])
  {
  }

  lemma DeliverKeeps(w: World)
    requires Streaming(w) && w.transit != []
    ensures Streaming(NextDeliver(w)) && InFlight(NextDeliver(w)) == InFlight(w)[1..]
    ensures 1 <= w.transit[0].revision <= |w.events| && w.transit[0] == w.events[w.transit[0].revision - 1]
  {
    assert InFlight(NextDeliver(w)) == InFlight(w)[1..];
    assert InFlight(w)[0] == w.transit[0];
    QueueTail(w.events, InFlight(w));
  }

  /** An event of the source that the cache has seen is not above its revision, and the revision never falls. */
  lemma ApplyAdvances(c: Cache, e: Event)
    ensures c.source == e.source ==> Apply(c, e).source == e.source && c.revision <= Apply(c, e).revision
    ensures !e.payload.Note? ==> Apply(c, e).source == e.source && e.revision <= Apply(c, e).revision
  {
  }

  lemma DeliverFed(w: World)
    requires Streaming(w) && Fed(w) && w.transit != []
    ensures Fed(NextDeliver(w))
  {
    DeliverKeeps(w);
    var x, e := NextDeliver(w), w.transit[0];
    ApplyAdvances(w.node.cache, e);
    if x.feed.Some? {
      forall j | x.since <= j < |x.events| ensures FedAt(x, j) {
        assert FedAt(w, j);
        assert w.events[j].revision == j + 1 && w.events[j].payload == Wire(w.log[j]);
        assert InFlight(w) == [e] + InFlight(x);
      }
    }
  }

  lemma ReconcileKeeps(w: World, s: Snapshot, pos: Positions, at: nat)
    requires Streaming(w) && Fed(w) && NodeTracks(w, w.node) && Enabled(w, Reconcile(s, pos, at))
    ensures var x := w.(node := Adopt(w.node, s, pos, at)); Fed(x) && NodeTracks(x, x.node)
  {
    FedStays(w, w.(node := Adopt(w.node, s, pos, at)));
  }

  /** Steps that touch neither the stream nor, except for the better, the node. */
  lemma QuietStreams(w: World, step: Step)
    requires Streaming(w) && Fed(w) && Enabled(w, step)
    requires step.Tick? || step.Repeat? || step.Save? || step.Disconnect? || step.Restart?
    ensures Streaming(Next(w, step)) && Fed(Next(w, step))
  {
    if step.Tick? || step.Repeat? || step.Save? {
      FedStays(w, Next(w, step));
    }
  }

  lemma StepStreams(w: World, step: Step)
    requires Streaming(w) && Fed(w) && NodeTracks(w, w.node) && Enabled(w, step)
    ensures Streaming(Next(w, step)) && Fed(Next(w, step))
  {
    match step {
      case Commit(ch) => CommitKeeps(w, ch);
      case Announce =>
        AnnounceKeeps(w);
        AnnounceFed(w);
      case Subscribe(source, cursor) =>
        SubscribeKeeps(w, source, cursor);
        SubscribeFed(w, source, cursor);
      case Forward =>
        ForwardKeeps(w);
        FedStays(w, NextForward(w));
      case Deliver =>
        DeliverKeeps(w);
        DeliverFed(w);
      case Reconcile(s, pos, at) => ReconcileKeeps(w, s, pos, at);
      case _ => QuietStreams(w, step);
    }
  }

  lemma StepKeeps(w: World, step: Step)
    requires Inv(w) && Enabled(w, step)
    ensures Inv(Next(w, step))
  {
    StepStreams(w, step);
    match step {
      case Commit(ch) =>
        CommitTracks(w, w.node, ch);
        CommitTracks(w, w.saved, ch);
      case Deliver =>
        DeliverKeeps(w);
        TakeKeeps(w, w.node, w.transit[0].revision - 1);
      case Reconcile(s, pos, at) => ReconcileKeeps(w, s, pos, at);
      case Repeat(i) => TakeKeeps(w, w.node, i);
      case _ =>
    }
  }

  lemma {:induction false} RunKeeps(w: World, steps: seq<Step>)
    requires Inv(w) && ValidRun(w, steps)
    ensures Inv(Run(w, steps))
    decreases |steps|
  {
    if steps != [] {
      StepKeeps(w, steps[0]);
      RunKeeps(Next(w, steps[0]), steps[1..]);
    }
  }
}
