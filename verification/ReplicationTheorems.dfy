/** What the replication path promises: a cache is the published events folded onto its last snapshot,
    it agrees with the fold of the log once it has caught up with what that snapshot read, a
    snapshot repairs any gap, and without a lost event a node never falls out of step. */
module ReplicationTheorems {
  import opened Wrappers
  import opened AuthCacheSpec
  import opened EventHub
  import opened AuthDatabase
  import opened AuthReplay
  import opened SnapshotCapture
  import opened Replication

  // ---------- every run ----------

  lemma StartInv(w: World)
    requires Start(w)
    ensures Inv(w)
  {
  }

  lemma {:induction false} RunKeepsBase(w: World, steps: seq<Step>)
    requires Inv(w) && ValidRun(w, steps)
    ensures Run(w, steps).states != [] && Run(w, steps).states[0] == w.states[0]
    decreases |steps|
  {
    if steps != [] {
      StepKeeps(w, steps[0]);
      RunKeepsBase(Next(w, steps[0]), steps[1..]);
    }
  }

  /** Through every interleaving, whatever the events announce or leave out: the cache of a node that skipped
      nothing is the events published after its snapshot's revision, folded onto the tables as they were read. */
  lemma CacheIsReplay(w: World, steps: seq<Step>)
    requires Start(w) && ValidRun(w, steps)
    ensures var x := Run(w, steps); var c := x.node.cache;
            x.node.origin.Some? ==>
              var s := x.node.origin.value.snapshot;
              && Captures(x.hub.source, x.states, s, x.node.origin.value.pos, x.node.origin.value.at)
              && 0 <= s.revision <= c.revision <= |x.events| <= |x.log|
              && SameTables(c, Replay(Loaded(s), x.log, s.revision, c.revision))
  {
    StartInv(w);
    RunKeeps(w, steps);
  }

  /** Whether every change a cache applied, or read, was announced in full. */
  ghost predicate AppliedAnnounced(w: World, node: Node, k: nat) {
    node.origin.Some? && 0 <= node.origin.value.snapshot.revision &&
    AnnouncedIn(w.states, w.log, node.origin.value.snapshot.revision, k)
  }

  /** Whether every table of the node's snapshot was read at or before position `k`. */
  ghost predicate CaughtUpTo(node: Node, k: nat) {
    node.origin.Some? && Within(node.origin.value.pos, 0, k)
  }

  lemma RowOfNode(w: World, node: Node, k: nat, key: Key)
    requires Follows(w.states, w.log) && NodeTracks(w, node) && k <= |w.log|
    requires AppliedAnnounced(w, node, k) && CaughtUpTo(node, k) && node.cache.revision <= k
    requires forall j :: node.cache.revision <= j < k ==> w.log[j].Record?
    ensures AgreesAt(node.cache, w.states[k], w.now, key)
  {
    var o := node.origin.value;
    LoadedAgrees(w.hub.source, w.states, o.snapshot, o.pos, o.at, w.now, key);
    ReplayCatchesUp(Loaded(o.snapshot), w.states, w.log, o.snapshot.revision, At(o.pos, key), k, w.now, key);
    ReplayQuiet(Loaded(o.snapshot), w.log, o.snapshot.revision, node.cache.revision, k);
  }

  /** A node agrees with the tables at `k` once everything up to `k` that writes anything is applied. */
  lemma NodeAgrees(w: World, node: Node, k: nat)
    requires Follows(w.states, w.log) && NodeTracks(w, node) && k <= |w.log|
    requires AppliedAnnounced(w, node, k) && CaughtUpTo(node, k) && node.cache.revision <= k
    requires forall j :: node.cache.revision <= j < k ==> w.log[j].Record?
    ensures Agree(node.cache, w.states[k], w.now)
  {
    forall key ensures AgreesAt(node.cache, w.states[k], w.now, key) {
      RowOfNode(w, node, k, key);
    }
    AgreeByRows(node.cache, w.states[k], w.now);
  }

  /** In every run a node that skipped nothing agrees with the fold of the log up to its revision, as soon as it
      has applied every event up to the last position its snapshot read. */
  lemma SyncedShowsFold(w: World, steps: seq<Step>)
    requires Start(w) && ValidRun(w, steps)
    ensures var x := Run(w, steps); var c := x.node.cache;
            x.node.origin.Some? && 0 <= c.revision <= |x.log| &&
            AppliedAnnounced(x, x.node, c.revision) && CaughtUpTo(x.node, c.revision) ==>
              Agree(c, After(w.states[0], x.log, c.revision), x.now)
  {
    StartInv(w);
    RunKeeps(w, steps);
    RunKeepsBase(w, steps);
    var x := Run(w, steps);
    var c := x.node.cache;
    if 0 <= c.revision <= |x.log| && AppliedAnnounced(x, x.node, c.revision) && CaughtUpTo(x.node, c.revision) {
      NodeAgrees(x, x.node, c.revision);
      FollowsIsFold(x.states, x.log, c.revision);
    }
  }

  /** In any state at all, after any gap, an accepted snapshot gives the node an origin again.  It agrees with the
      tables of the snapshot's own revision if and only if no committed change without its event had
      moved a row when its table was read. */
  lemma SnapshotRestores(w: World, s: Snapshot, pos: Positions, at: nat)
    requires Inv(w) && Enabled(w, Reconcile(s, pos, at)) && (s.source != w.node.cache.source || s.revision >= w.node.cache.revision)
    ensures var x := Next(w, Reconcile(s, pos, at));
            && x.node.origin == Some(Origin(s, pos, at)) && NodeTracks(x, x.node)
            && x.node.cache.revision == s.revision
            && (Agree(x.node.cache, x.states[s.revision], x.now) <==>
                forall key :: Unmoved(x.states, x.log, s.revision, pos, x.now, key))
  {
    StepKeeps(w, Reconcile(s, pos, at));
    SnapshotFits(w.node.cache, w.hub.source, w.states, w.log, s, pos, at, w.now);
  }

  // ---------- runs without a lost event ----------

  /** What keeps the stream whole: a channel with room, a cursor the history still reaches,
      and changes that their events announce in full. */
  ghost predicate Gentle(w: World, step: Step)
    requires |w.states| == |w.log| + 1
  {
    match step
    case Commit(ch) => Announced(w.states[|w.log|], ch)
    case Announce => w.feed.Some? ==> |Channel(w)| < 64
    case Subscribe(source, cursor) =>
      source == w.hub.source && cursor <= w.node.cache.revision && |w.events| - cursor <= 1024
    case _ => true
  }

  ghost predicate GentleRun(w: World, steps: seq<Step>)
    decreases |steps|
  {
    |w.states| == |w.log| + 1 &&
    (steps == [] || (Enabled(w, steps[0]) && Gentle(w, steps[0]) && GentleRun(Next(w, steps[0]), steps[1..])))
  }

  ghost predicate OriginFrom(node: Node, from: nat) {
    node.origin.Some? && from <= node.origin.value.snapshot.revision
  }

  /** The node and what it saved come from snapshots, and the open stream has lost nothing the node still needs. */
  ghost predicate InStep(w: World, from: nat) {
    && OriginFrom(w.node, from) && OriginFrom(w.saved, from)
    && (w.feed.Some? ==> w.since <= w.node.cache.revision)
  }

  ghost predicate Whole(w: World, from: nat) {
    Inv(w) && InStep(w, from) && AnnouncedIn(w.states, w.log, from, |w.log|)
  }

  lemma AnnouncedGrows(states: seq<Db>, log: seq<Change>, from: nat, ch: Change, db: Db)
    requires AnnouncedIn(states, log, from, |log|) && Announced(states[|log|], ch)
    ensures AnnouncedIn(states + [db], log + [ch], from, |log| + 1)
  {
    var more, longer := states + [db], log + [ch];
    forall j | from <= j < |longer| ensures Announced(more[j], longer[j]) {
      assert more[j] == states[j];
      if j < |log| {
        assert longer[j] == log[j];
      }
    }
  }

  lemma HeadIsLeast(q: seq<Event>)
    requires Rising(q) && q != []
    ensures forall e :: e in q ==> q[0].revision <= e.revision
  {
  }

  /** The next event of a whole stream skips nothing. */
  lemma HeadPasses(w: World, from: nat)
    requires Whole(w, from) && w.transit != []
    ensures Passes(w.log, w.node.cache, w.transit[0])
  {
    var q, e, rev := InFlight(w), w.transit[0], w.node.cache.revision;
    assert q[0] == e && e.source == w.hub.source;
    if rev < e.revision {
      assert w.feed.Some?;
      HeadIsLeast(q);
      forall j | rev <= j < e.revision - 1 ensures w.log[j].Record? {
        assert FedAt(w, j) && w.events[j].revision == j + 1;
      }
    }
  }

  lemma DeliverInStep(w: World, from: nat)
    requires Whole(w, from) && w.transit != []
    ensures InStep(NextDeliver(w), from)
  {
    HeadPasses(w, from);
    assert w.transit[0] == InFlight(w)[0];
    ApplyAdvances(w.node.cache, w.transit[0]);
  }

  lemma SubscribeInStep(w: World, from: nat, cursor: nat)
    requires InStep(w, from) && cursor <= w.node.cache.revision <= |w.events| && |w.events| - cursor <= 1024
    ensures InStep(NextSubscribe(w, w.hub.source, cursor), from)
  {
  }

  lemma AdoptInStep(w: World, from: nat, s: Snapshot, pos: Positions, at: nat)
    requires InStep(w, from) && w.node.cache.source == s.source
    requires w.node.origin.value.snapshot.revision <= w.node.cache.revision
    ensures InStep(w.(node := Adopt(w.node, s, pos, at)), from)
  {
  }

  /** Steps that move neither the stream's losses nor the node back. */
  lemma QuietInStep(w: World, from: nat, step: Step)
    requires InStep(w, from) && w.states != [] && Enabled(w, step)
    requires step.Commit? || step.Tick? || step.Forward? || step.Disconnect? || step.Save? || step.Restart?
    ensures InStep(Next(w, step), from)
  {
  }

  lemma AnnounceInStep(w: World, from: nat)
    requires InStep(w, from) && |w.events| < |w.log| && (w.feed.Some? ==> |Channel(w)| < 64)
    ensures InStep(NextAnnounce(w), from)
  {
  }

  ghost predicate Placed(w: World) {
    && w.node.origin.Some? && w.node.cache.source == w.hub.source
    && w.node.origin.value.snapshot.revision <= w.node.cache.revision <= |w.events|
  }

  lemma WholeIsPlaced(w: World, from: nat)
    requires Whole(w, from)
    ensures Placed(w) && InStep(w, from) && |w.states| == |w.log| + 1
    ensures forall i :: 0 <= i < |w.events| ==> w.events[i].source == w.hub.source
  {
  }

  lemma RepeatInStep(w: World, from: nat, e: Event)
    requires InStep(w, from) && w.node.cache.source == e.source && e.revision <= w.node.cache.revision
    ensures InStep(w.(node := Take(w.log, w.node, e)), from)
  {
  }

  lemma OtherInStep(w: World, from: nat, step: Step)
    requires InStep(w, from) && Placed(w) && |w.states| == |w.log| + 1 && Enabled(w, step) && Gentle(w, step)
    requires forall i :: 0 <= i < |w.events| ==> w.events[i].source == w.hub.source
    requires !step.Deliver?
    ensures InStep(Next(w, step), from)
  {
    match step {
      case Announce => AnnounceInStep(w, from);
      case Subscribe(_, cursor) => SubscribeInStep(w, from, cursor);
      case Reconcile(s, pos, at) => AdoptInStep(w, from, s, pos, at);
      case Repeat(i) => RepeatInStep(w, from, w.events[i]);
      case _ => QuietInStep(w, from, step);
    }
  }

  lemma StepInStep(w: World, from: nat, step: Step)
    requires Whole(w, from) && Enabled(w, step) && Gentle(w, step)
    ensures InStep(Next(w, step), from)
  {
    WholeIsPlaced(w, from);
    if step.Deliver? {
      DeliverInStep(w, from);
    } else {
      OtherInStep(w, from, step);
    }
  }

  lemma LogKept(w: World, step: Step)
    requires w.states != [] && Enabled(w, step) && !step.Commit?
    ensures Next(w, step).log == w.log && Next(w, step).states == w.states
  {
  }

  lemma StepAnnounced(w: World, from: nat, step: Step)
    requires AnnouncedIn(w.states, w.log, from, |w.log|) && Enabled(w, step) && Gentle(w, step)
    ensures AnnouncedIn(Next(w, step).states, Next(w, step).log, from, |Next(w, step).log|)
  {
    if step.Commit? {
      AnnouncedGrows(w.states, w.log, from, step.change, Write(w.states[|w.log|], step.change));
    } else {
      LogKept(w, step);
    }
  }

  lemma StepWhole(w: World, from: nat, step: Step)
    requires Whole(w, from) && Enabled(w, step) && Gentle(w, step)
    ensures Whole(Next(w, step), from)
  {
    StepKeeps(w, step);
    StepInStep(w, from, step);
    StepAnnounced(w, from, step);
  }

  /** Once a snapshot is adopted and saved, a node stays in step through every run without a lost event,
      crashes back to its last save included. */
  lemma {:induction false} WholeRunStaysSynced(w: World, from: nat, steps: seq<Step>)
    requires Whole(w, from) && GentleRun(w, steps)
    ensures ValidRun(w, steps) && Whole(Run(w, steps), from)
    decreases |steps|
  {
    if steps != [] {
      StepWhole(w, from, steps[0]);
      WholeRunStaysSynced(Next(w, steps[0]), from, steps[1..]);
    }
  }

  lemma WholeAgrees(w: World, from: nat)
    requires Whole(w, from)
    ensures 0 <= w.node.cache.revision <= |w.log|
    ensures CaughtUpTo(w.node, w.node.cache.revision) ==> Agree(w.node.cache, w.states[w.node.cache.revision], w.now)
  {
    if CaughtUpTo(w.node, w.node.cache.revision) {
      NodeAgrees(w, w.node, w.node.cache.revision);
    }
  }

  /** Adopting and saving a snapshot starts such a run, beside an open stream too, as long as that
      stream has lost nothing from the snapshot's revision on. */
  lemma SnapshotStartsWhole(w: World, s: Snapshot, pos: Positions, at: nat)
    requires Inv(w) && Enabled(w, Reconcile(s, pos, at)) && (s.source != w.node.cache.source || s.revision >= w.node.cache.revision)
    requires w.feed.Some? ==> w.since <= s.revision
    requires AnnouncedIn(w.states, w.log, s.revision, |w.log|)
    ensures Whole(Next(Next(w, Reconcile(s, pos, at)), Save), s.revision)
  {
    StepKeeps(w, Reconcile(s, pos, at));
    StepKeeps(Next(w, Reconcile(s, pos, at)), Save);
  }

  /** After anything, one accepted and saved snapshot, and then any run without a lost event: once the node has
      applied every event up to the last position its snapshot read, its cache agrees with the
      fold of the log up to its revision. */
  lemma ReplicationAgrees(w: World, before: seq<Step>, s: Snapshot, pos: Positions, at: nat, steps: seq<Step>)
    requires Start(w) && ValidRun(w, before)
    requires var x := Run(w, before);
             && Enabled(x, Reconcile(s, pos, at)) && (s.source != x.node.cache.source || s.revision >= x.node.cache.revision)
             && (x.feed.Some? ==> x.since <= s.revision)
             && AnnouncedIn(x.states, x.log, s.revision, |x.log|)
             && GentleRun(Next(Next(x, Reconcile(s, pos, at)), Save), steps)
    ensures var y := Next(Next(Run(w, before), Reconcile(s, pos, at)), Save);
            && ValidRun(y, steps)
            && var z := Run(y, steps);
               && 0 <= z.node.cache.revision <= |z.log|
               && (CaughtUpTo(z.node, z.node.cache.revision) ==>
                     Agree(z.node.cache, After(w.states[0], z.log, z.node.cache.revision), z.now))
  {
    StartInv(w);
    RunKeeps(w, before);
    RunKeepsBase(w, before);
    var x := Run(w, before);
    SnapshotStartsWhole(x, s, pos, at);
    var y := Next(Next(x, Reconcile(s, pos, at)), Save);
    WholeRunStaysSynced(y, s.revision, steps);
    RunKeepsBase(y, steps);
    var z := Run(y, steps);
    WholeAgrees(z, s.revision);
    FollowsIsFold(z.states, z.log, z.node.cache.revision);
  }

  /** With everything announced and nothing in flight, the cache shows the tables as they are now. */
  lemma CaughtUp(w: World, from: nat)
    requires Whole(w, from) && w.feed.Some? && InFlight(w) == [] && |w.events| == |w.log|
    ensures Agree(w.node.cache, w.states[|w.log|], w.now)
  {
    var rev := w.node.cache.revision;
    forall j | rev <= j < |w.log| ensures w.log[j].Record? {
      assert FedAt(w, j);
    }
    NodeAgrees(w, w.node, |w.log|);
  }

  /** What agreement is for: the node lets in the same tokens as the tables of its revision. */
  lemma WholeRunSameAccess(w: World, from: nat, steps: seq<Step>, claims: Claims)
    requires Whole(w, from) && GentleRun(w, steps)
    ensures ValidRun(w, steps)
    ensures var x := Run(w, steps); var c := x.node.cache;
            && 0 <= c.revision < |x.states|
            && (CaughtUpTo(x.node, c.revision) ==>
                  (Authorize(c, claims, x.now).Allowed? <==>
                   Authorize(Ideal(x.states[c.revision]), claims, x.now).Allowed?))
  {
    WholeRunStaysSynced(w, from, steps);
    var x := Run(w, steps);
    WholeAgrees(x, from);
    if CaughtUpTo(x.node, x.node.cache.revision) {
      SameAccess(x.node.cache, x.states[x.node.cache.revision], claims, x.now);
    }
  }

  // ---------- what an open stream has lost ----------

  /** Steps that keep the subscription and drop nothing. */
  ghost predicate KeepsFeed(w: World, step: Step) {
    match step
    case Announce => |Channel(w)| < 64
    case Disconnect => false
    case Restart => false
    case _ => true
  }

  ghost predicate FeedRun(w: World, steps: seq<Step>)
    decreases |steps|
  {
    w.states != [] &&
    (steps == [] || (Enabled(w, steps[0]) && KeepsFeed(w, steps[0]) && FeedRun(Next(w, steps[0]), steps[1..])))
  }

  lemma {:induction false} FeedKept(w: World, steps: seq<Step>)
    requires w.feed.Some? && FeedRun(w, steps)
    ensures ValidRun(w, steps) && Run(w, steps).feed == w.feed && Run(w, steps).since == w.since
    decreases |steps|
  {
    if steps != [] {
      FeedKept(Next(w, steps[0]), steps[1..]);
    }
  }

  /** A stream opened at a cursor within 1024 events, whose channel was never full since, has lost
      nothing from the cursor on; so a snapshot at or after the cursor can be adopted beside it. */
  lemma OpenFeedLosesNothing(w: World, cursor: nat, steps: seq<Step>)
    requires Inv(w) && w.feed.None? && cursor <= |w.events| && |w.events| - cursor <= 1024
    requires FeedRun(NextSubscribe(w, w.hub.source, cursor), steps)
    ensures ValidRun(NextSubscribe(w, w.hub.source, cursor), steps)
    ensures Run(NextSubscribe(w, w.hub.source, cursor), steps).feed.Some?
    ensures Run(NextSubscribe(w, w.hub.source, cursor), steps).since == cursor
  {
    FeedKept(NextSubscribe(w, w.hub.source, cursor), steps);
  }

  // ---------- where agreement fails ----------

  function OneRule(id: Id): Db {
    NOBODY.(users := map[id := User(id, "", "", true, Approved, 0)], rules := map["r" := Rule("r", Some(id), "")])
  }

  /** Deleting a user removes the user's rules from the tables and not from the caches:
      the tables are left without rules while the cache still holds one. */
  lemma DeletionLeavesRule(c: Cache, id: Id, now: nat)
    requires Agree(c, OneRule(id), now)
    ensures Write(OneRule(id), DeleteUser(id)).rules == map[]
    ensures Update(c, Wire(DeleteUser(id))).rules != map[]
    ensures !Agree(Update(c, Wire(DeleteUser(id))), Write(OneRule(id), DeleteUser(id)), now)
  {
    assert "r" in Update(c, Wire(DeleteUser(id))).rules;
  }

  /** Events have to be published in commit order: announced the other way round, two edits of one
      user leave the cache in agreement if and only if they are the same. */
  lemma SwappedEdits(c: Cache, db: Db, first: User, second: User, now: nat)
    requires Agree(c, db, now) && first.id == second.id
    ensures var one, two := SaveUser(first, {}), SaveUser(second, {});
            Agree(Update(Update(c, Wire(two)), Wire(one)), Write(Write(db, one), two), now) <==> first == second
  {
    var one, two := SaveUser(first, {}), SaveUser(second, {});
    var stored, cached := Write(Write(db, one), two), Update(Update(c, Wire(two)), Wire(one));
    assert stored.users[second.id] == second && cached.users[second.id] == first;
    if first == second {
      EventAgrees(c, db, one, now);
      EventAgrees(Update(c, Wire(one)), Write(db, one), two, now);
    } else {
      assert !UserAgrees(cached.users, stored.users, second.id);
    }
  }
}
