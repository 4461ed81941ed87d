/** What the durable outbox promises over every run. */
module OutboxTheorems {
  import opened Wrappers
  import opened OutboxSpec
  import opened OutboxRuns
  import opened OutboxProofs

  // ---------- alternation, pair by pair ----------

  /** A history whose events flip their pairs reads active, closed, active, ... for each pair. */
  lemma {:induction false} PairAlternates(h: seq<Event>, u: string)
    requires Alternates(h)
    ensures forall k :: 0 <= k < |Statuses(h, u)| ==> Statuses(h, u)[k] == if k % 2 == 0 then Active else Closed
    ensures IsActive(h, u) <==> |Statuses(h, u)| % 2 == 1
    decreases |h|
  {
    if h != [] {
      var n := |h| - 1;
      forall i | 0 <= i < n ensures FlipsAt(h[..n], i) {
        assert h[..n][..i] == h[..i] && FlipsAt(h, i);
      }
      PairAlternates(h[..n], u);
      assert FlipsAt(h, n);
    }
  }

  // ---------- growth ----------

  ghost predicate Extends(v: World, w: World) {
    && w.persisted <= v.persisted
    && w.delivered <= v.delivered
    && forall r :: r in w.contents ==> r in v.contents && v.contents[r] == w.contents[r]
  }

  lemma OpenGrows(w: World, s: Step)
    requires w.persisted <= w.log && s.OpenStep? && Enabled(w, s)
    ensures Extends(NextOpen(w, s), w)
  {
  }

  lemma ReportGrows(w: World, s: Step)
    requires w.persisted <= w.log && s.ReportStep?
    ensures Extends(NextReport(w, s), w)
  {
  }

  lemma QueueGrows(w: World, s: Step)
    requires w.persisted <= w.log
    ensures s.NextEventStep? ==> Extends(NextHandOut(w, s), w)
    ensures s.AckStep? ==> Extends(NextAck(w, s), w)
    ensures s.QuarantineStep? ==> Extends(NextQuarantine(w, s), w)
    ensures s.ArchiveStep? ==> Extends(NextArchive(w, s), w)
  {
  }

  /** One step only adds: to the persisted history, to the deliveries, to what revisions mean. */
  lemma StepGrows(w: World, s: Step)
    requires Inv(w) && Enabled(w, s)
    ensures Extends(Next(w, s), w)
  {
    match s
    case CrashStep =>
    case OpenStep(_, _, _, _, _) => OpenGrows(w, s);
    case ReportStep(_, _, _, _, _) => ReportGrows(w, s);
    case _ => QueueGrows(w, s);
  }

  lemma {:induction false} RunGrows(w: World, steps: seq<Step>)
    requires Inv(w) && ValidRun(w, steps)
    ensures Extends(Run(w, steps), w)
    decreases |steps|
  {
    if steps != [] {
      StepGrows(w, steps[0]);
      StepKeeps(w, steps[0]);
      RunGrows(Next(w, steps[0]), steps[1..]);
    }
  }

  ghost predicate Reachable(w: World, steps: seq<Step>) {
    ValidRun(Fresh(), steps) && w == Run(Fresh(), steps)
  }

  lemma ReachableInv(w: World, steps: seq<Step>)
    requires Reachable(w, steps)
    ensures Inv(w)
  {
    FreshInv();
    RunKeeps(Fresh(), steps);
  }

  // ---------- 1: the persisted history ----------

  /** From an empty directory, through any crashes and failed writes: the file's
      queue is the persisted history without the removed events; the history
      alternates for every pair; a pair is stored as open exactly when its last
      persisted event is "active"; first deliveries are a prefix of the history;
      and later histories only extend it. */
  lemma PersistedHistory(w: World, before: seq<Step>, after: seq<Step>, u: string)
    requires Reachable(w, before) && ValidRun(w, after)
    ensures w.persisted <= Run(w, after).persisted
    ensures w.delivered <= w.persisted
    ensures w.diskPopped <= |w.persisted| && Stored(w.st.disk).events == w.persisted[w.diskPopped..]
    ensures u in Stored(w.st.disk).active <==> IsActive(w.persisted, u)
    ensures forall k :: 0 <= k < |Statuses(w.persisted, u)| ==> Statuses(w.persisted, u)[k] == if k % 2 == 0 then Active else Closed
    ensures IsActive(w.persisted, u) <==> |Statuses(w.persisted, u)| % 2 == 1
  {
    ReachableInv(w, before);
    RunGrows(w, after);
    HistoryPrefix(w.log, w.persisted, w.used);
    PairAlternates(w.persisted, u);
  }

  // ---------- 2: nothing persisted vanishes ----------

  ghost predicate Accounted(w: World, e: Event) {
    || e in Stored(w.st.disk).events
    || Settled(w, Stored(w.st.disk), e)
  }

  lemma HistoryAccounted(w: World, e: Event)
    requires Inv(w) && e in w.persisted
    ensures Accounted(w, e)
  {
    var i :| 0 <= i < |w.persisted| && w.persisted[i] == e;
    if i < w.diskPopped {
      assert SettledAt(w, w.st.disk.file.value, w.persisted, i);
    } else {
      assert e == w.persisted[w.diskPopped..][i - w.diskPopped];
    }
  }

  /** An event that was once in the file, queued or quarantined, is in every later
      state acknowledged, or still in the file, or in a complete backup file. */
  lemma NothingVanishes(w: World, before: seq<Step>, after: seq<Step>, e: Event)
    requires Reachable(w, before) && ValidRun(w, after)
    requires e in Stored(w.st.disk).events || e.(reason := CredentialRotated) in Stored(w.st.disk).quarantine
    requires e.reason.NoReason?
    ensures Accounted(Run(w, after), e)
  {
    ReachableInv(w, before);
    RunKeeps(w, after);
    RunGrows(w, after);
    var s := w.st.disk.file.value;
    if e.(reason := CredentialRotated) in s.quarantine {
      assert e.(reason := CredentialRotated).(reason := NoReason) == e;
      assert e in w.persisted[..w.diskPopped];
    }
    assert e in w.persisted;
    HistoryAccounted(Run(w, after), e);
  }

  // ---------- 3: healthy means saved, and the front is stable ----------

  /** A healthy outbox is what the disk holds, so whatever is handed out is saved first. */
  lemma HandedOutIsSaved(w: World, before: seq<Step>, io: FlushIo)
    requires Reachable(w, before) && w.up
    ensures w.st.healthy ==> w.st.disk.file == Some(w.st.mem)
    ensures var o := NextEvent(w.st, io);
            o.result.Ok? && o.result.value.Some? ==>
              o.st.disk.file.Some? && Front(o.st.disk.file.value) == o.result.value
  {
    ReachableInv(w, before);
  }

  ghost predicate Fronts(w: World, e: Event) {
    && w.st.disk.file.Some? && Front(w.st.disk.file.value) == Some(e)
    && (w.up ==> Front(w.st.mem) == Some(e))
  }

  ghost predicate Answers(s: Step, e: Event) {
    (s.AckStep? || s.QuarantineStep?) && s.id == e.id
  }

  lemma OpenKeepsFront(w: World, s: Step, e: Event)
    requires Fronts(w, e) && s.OpenStep? && Enabled(w, s)
    ensures Fronts(NextOpen(w, s), e)
  {
  }

  lemma QueueKeepsFront(w: World, s: Step, e: Event)
    requires Fronts(w, e) && w.up && !Answers(s, e)
    ensures s.ReportStep? ==> Fronts(NextReport(w, s), e)
    ensures s.NextEventStep? ==> Fronts(NextHandOut(w, s), e)
    ensures s.AckStep? ==> Fronts(NextAck(w, s), e)
    ensures s.QuarantineStep? ==> Fronts(NextQuarantine(w, s), e)
  {
  }

  lemma ArchiveKeepsFront(w: World, s: Step, e: Event)
    requires Fronts(w, e) && w.up && s.ArchiveStep?
    ensures Fronts(NextArchive(w, s), e)
  {
  }

  lemma StepKeepsFront(w: World, s: Step, e: Event)
    requires Fronts(w, e) && Enabled(w, s) && !Answers(s, e)
    ensures Fronts(Next(w, s), e)
  {
    match s
    case CrashStep =>
    case OpenStep(_, _, _, _, _) => OpenKeepsFront(w, s, e);
    case ArchiveStep(_, _, _, _) => ArchiveKeepsFront(w, s, e);
    case _ => QueueKeepsFront(w, s, e);
  }

  lemma {:induction false} RunKeepsFront(w: World, steps: seq<Step>, e: Event)
    requires Fronts(w, e) && ValidRun(w, steps)
    requires forall i :: 0 <= i < |steps| ==> !Answers(steps[i], e)
    ensures Fronts(Run(w, steps), e)
    decreases |steps|
  {
    if steps != [] {
      assert !Answers(steps[0], e);
      StepKeepsFront(w, steps[0], e);
      assert forall i :: 0 <= i < |steps[1..]| ==> steps[1..][i] == steps[i + 1];
      RunKeepsFront(Next(w, steps[0]), steps[1..], e);
    }
  }

  lemma HandOutFronts(w: World, before: seq<Step>, io: FlushIo, e: Event)
    requires Reachable(w, before) && w.up && NextEvent(w.st, io).result == Ok(Some(e))
    ensures Fronts(NextHandOut(w, NextEventStep(io)), e)
  {
    HandedOutIsSaved(w, before, io);
  }

  /** Once handed out, an event is the front in memory and on disk, through crashes
      and reopens, until the gateway answers it: every hand-out returns it again. */
  lemma Redelivered(w: World, before: seq<Step>, io: FlushIo, after: seq<Step>, e: Event)
    requires Reachable(w, before) && w.up && NextEvent(w.st, io).result == Ok(Some(e))
    requires ValidRun(NextHandOut(w, NextEventStep(io)), after)
    requires forall i :: 0 <= i < |after| ==> !Answers(after[i], e)
    ensures Fronts(Run(NextHandOut(w, NextEventStep(io)), after), e)
  {
    HandOutFronts(w, before, io, e);
    RunKeepsFront(NextHandOut(w, NextEventStep(io)), after, e);
  }

  lemma FrontIsHandedOut(v: World, io: FlushIo, e: Event)
    requires Fronts(v, e) && v.up
    ensures NextEvent(v.st, io).result.Ok? ==> NextEvent(v.st, io).result.value == Some(e)
    ensures v.st.healthy || io.Synced? ==> NextEvent(v.st, io).result.Ok?
  {
  }

  // ---------- 4: quarantine revisions ----------

  ghost predicate SnapshotOf(s: Snapshot, w: World) {
    (w.up && s == w.st.mem) || w.st.disk.file == Some(s)
  }

  /** Over a whole run, equal revisions mean equal quarantines. */
  lemma RevisionDetermines(w: World, before: seq<Step>, after: seq<Step>, s: Snapshot, t: Snapshot)
    requires Reachable(w, before) && ValidRun(w, after)
    requires SnapshotOf(s, w) && SnapshotOf(t, Run(w, after)) && s.revision == t.revision
    ensures s.quarantine == t.quarantine
  {
    ReachableInv(w, before);
    RunKeeps(w, after);
    RunGrows(w, after);
  }

  /** Archiving removes the quarantine only of the named revision, and only with
      an identical complete backup on disk; otherwise it leaves it alone. */
  lemma ArchiveIsBackedUp(w: World, before: seq<Step>, r: Ident, nextRevision: Ident, backupIo: BackupIo, io: FlushIo)
    requires Reachable(w, before) && w.up
    ensures var o := Archive(w.st, r, nextRevision, backupIo, io);
            || (o.st.mem.quarantine == w.st.mem.quarantine && Stored(o.st.disk).quarantine in {Stored(w.st.disk).quarantine, w.st.mem.quarantine})
            || (&& r == w.st.mem.revision && o.st.mem.quarantine == []
                && r in o.st.disk.backups && o.st.disk.backups[r] == Complete(FullPage(w.st.mem)))
  {
    ReachableInv(w, before);
  }

  /** Asking again for a revision archived, or seen, earlier never removes another quarantine. */
  lemma RepeatedArchive(w: World, before: seq<Step>, after: seq<Step>, r: Ident, nextRevision: Ident, backupIo: BackupIo, io: FlushIo)
    requires Reachable(w, before) && ValidRun(w, after) && w.up && w.st.mem.revision == r
    requires Run(w, after).up
    ensures var v := Run(w, after);
            var o := Archive(v.st, r, nextRevision, backupIo, io);
            v.st.mem.quarantine != w.st.mem.quarantine ==> o.st.mem.quarantine == v.st.mem.quarantine
  {
    var v := Run(w, after);
    if v.st.mem.revision == r {
      RevisionDetermines(w, before, after, w.st.mem, v.st.mem);
    }
  }

  // ---------- 5: capacity ----------

  /** The bound holds in memory and on disk, and closing an open pair can only fail in the write. */
  lemma CapacityHolds(w: World, before: seq<Step>)
    requires Reachable(w, before)
    ensures Size(Stored(w.st.disk)) <= CAPACITY
    ensures w.up ==> Size(w.st.mem) <= CAPACITY
    ensures forall u, id, now, io :: w.up && u in w.st.mem.active ==>
              (Report(w.st, u, Closed, id, now, io).result.Ok? <==> io.Synced?)
  {
    ReachableInv(w, before);
  }

  /** The admission check tells exactly whether a new pair's opening event would be taken, and then its
      closing event is taken too, each failing only in its write. */
  lemma AdmittedPairFits(st: State, u: string, id: Ident, now: nat, io: FlushIo)
    requires ValidPair(u) && u !in st.mem.active
    ensures CanAdmit(st) <==> Report(st, u, Active, id, now, Synced).result.Ok?
    ensures CanAdmit(st) ==>
              var o := Report(st, u, Active, id, now, io);
              && (o.result.Ok? <==> io.Synced?)
              && Size(o.st.mem) <= CAPACITY
              && forall id', now' :: Report(o.st, u, Closed, id', now', Synced).result.Ok?
  {
  }

  /** A reopen never refuses what earlier runs left behind; it fails only in its write. */
  lemma ReopenSucceeds(w: World, before: seq<Step>, s: Step)
    requires Reachable(w, before) && s.OpenStep? && Enabled(w, s)
    ensures Open(w.st.disk, s.order, s.ids, s.revision, s.now, s.io).result.Ok? <==> s.io.Synced?
    ensures Next(w, s).up <==> s.io.Synced?
    ensures Next(w, s).up ==> Next(w, s).st.mem.active == {} && w.persisted + Closes(s.order, s.ids, s.now) == Next(w, s).persisted
  {
    ReachableInv(w, before);
    OpenKeeps(w, s);
  }
}
