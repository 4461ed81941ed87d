/** Every step of every run keeps the outbox invariant. */
module OutboxProofs {
  import opened Wrappers
  import opened OutboxSpec
  import opened OutboxRuns

  /** `v` knows at least what `w` knew. */
  ghost predicate Knows(v: World, w: World) {
    && w.used <= v.used
    && w.acked <= v.acked
    && (forall r :: r in w.contents ==> r in v.contents && v.contents[r] == w.contents[r])
    && (forall r :: r in w.st.disk.backups && w.st.disk.backups[r].Complete? ==>
          r in v.st.disk.backups && v.st.disk.backups[r] == w.st.disk.backups[r])
  }

  lemma KnowsKeeps(w: World, v: World, s: Snapshot, h: seq<Event>, popped: nat)
    requires Knows(v, w)
    requires Holds(s, h, popped, w) && AllSettled(w, s, h, popped)
    ensures Holds(s, h, popped, v) && AllSettled(v, s, h, popped)
  {
    forall i | 0 <= i < popped ensures SettledAt(v, s, h, i) {
      assert SettledAt(w, s, h, i);
    }
  }

  /** Writing the file, whatever happens to the write, establishes the invariant. */
  lemma WriteKeeps(w: World, io: FlushIo)
    requires Core(w) && w.up
    ensures var o := Write(w.st, io);
            Inv(Record(w, o.st, o.wrote, w.log, w.popped))
  {
    var o := Write(w.st, io);
    var v := Record(w, o.st, o.wrote, w.log, w.popped);
    KnowsKeeps(w, v, w.st.mem, w.log, w.popped);
    if w.st.disk.file.Some? {
      KnowsKeeps(w, v, w.st.disk.file.value, w.persisted, w.diskPopped);
    }
  }

  lemma DistinctInsert(a: seq<Event>, e: Event, b: seq<Event>)
    requires DistinctIds(a + b)
    requires forall x :: x in a + b ==> x.id != e.id
    ensures DistinctIds(a + [e] + b)
  {
    var s, t := a + b, a + [e] + b;
    forall i, j | 0 <= i < j < |t| ensures Differ(t, i, j) {
      assert i < |a| ==> t[i] == s[i];
      assert i > |a| ==> t[i] == s[i - 1];
      assert j < |a| ==> t[j] == s[j];
      assert j > |a| ==> t[j] == s[j - 1];
      if i != |a| && j != |a| {
        assert Differ(s, if i < |a| then i else i - 1, if j < |a| then j else j - 1);
      }
    }
  }

  lemma DistinctMove(f: Event, rest: seq<Event>, q: seq<Event>, g: Event)
    requires DistinctIds([f] + rest + q) && g.id == f.id
    ensures DistinctIds(rest + (q + [g]))
    ensures DistinctIds(rest + q)
  {
    var s, t := [f] + rest + q, rest + (q + [g]);
    forall i, j | 0 <= i < j < |t| ensures Differ(t, i, j) {
      assert t[i] == s[i + 1];
      if j < |t| - 1 {
        assert t[j] == s[j + 1] && Differ(s, i + 1, j + 1);
      } else {
        assert Differ(s, 0, i + 1);
      }
    }
    var r := rest + q;
    forall i, j | 0 <= i < j < |r| ensures Differ(r, i, j) {
      assert r[i] == s[i + 1] && r[j] == s[j + 1] && Differ(s, i + 1, j + 1);
    }
  }

  /** A world that only learned something keeps the invariant. */
  lemma LearnKeeps(w: World, v: World)
    requires Inv(w)
    requires Knows(v, w) && v.contents.Keys <= v.used && BackupsOk(v)
    requires v.up == w.up && v.st.mem == w.st.mem && v.st.healthy == w.st.healthy && v.st.disk.file == w.st.disk.file
    requires v.log == w.log && v.persisted == w.persisted && v.popped == w.popped && v.diskPopped == w.diskPopped
    requires v.delivered == w.delivered
    ensures Inv(v)
  {
    if w.up {
      KnowsKeeps(w, v, w.st.mem, w.log, w.popped);
    }
    if w.st.disk.file.Some? {
      KnowsKeeps(w, v, w.st.disk.file.value, w.persisted, w.diskPopped);
    }
  }

  ghost predicate Flips(s: Snapshot, e: Event, active: set<string>) {
    || (e.status.Active? && e.uuid !in s.active && active == s.active + {e.uuid} && Size(s) + 2 <= CAPACITY)
    || (e.status.Closed? && e.uuid in s.active && active == s.active - {e.uuid})
  }

  /** The snapshot after appending an event that flips its pair. */
  lemma AppendHolds(s: Snapshot, h: seq<Event>, popped: nat, w: World, e: Event, active: set<string>)
    requires Holds(s, h, popped, w) && HistoryOk(h, w.used)
    requires NewId(w, e.id) && ValidPair(e.uuid) && e.reason.NoReason? && Flips(s, e, active)
    ensures HistoryOk(h + [e], w.used + {e.id})
    ensures Holds(s.(active := active, events := s.events + [e]), h + [e], popped, w.(used := w.used + {e.id}))
  {
    var s' := s.(active := active, events := s.events + [e]);
    AppendEvent(h, e, w.used);
    assert s'.events == (h + [e])[popped..] && (h + [e])[..popped] == h[..popped];
    assert DistinctIds(s'.events + s'.quarantine) by {
      assert forall x :: x in s.events ==> x in h;
      assert forall x :: x in s.events + s.quarantine ==> x.id in w.used;
      DistinctInsert(s.events, e, s.quarantine);
    }
    assert Size(s') <= CAPACITY;
  }

  function Reported(w: World, e: Event, active: set<string>): World {
    w.(
      st := w.st.(mem := w.st.mem.(active := active, events := w.st.mem.events + [e])),
      log := w.log + [e],
      used := w.used + {e.id})
  }

  /** The world after a report, in memory, before the write. */
  lemma ReportedCore(w: World, e: Event, active: set<string>)
    requires Inv(w) && w.up
    requires NewId(w, e.id) && ValidPair(e.uuid) && e.reason.NoReason? && Flips(w.st.mem, e, active)
    ensures Core(Reported(w, e, active))
  {
    var v := Reported(w, e, active);
    AppendHolds(w.st.mem, w.log, w.popped, w, e, active);
    assert Holds(v.st.mem, v.log, v.popped, v);
    forall i | 0 <= i < v.popped ensures SettledAt(v, v.st.mem, v.log, i) {
      assert SettledAt(w, w.st.mem, w.log, i);
    }
    if w.st.disk.file.Some? {
      KnowsKeeps(w, v, w.st.disk.file.value, w.persisted, w.diskPopped);
    }
  }

  function Rewritten(w: World, io: FlushIo): World {
    var o := Write(w.st, io);
    Record(w, o.st, o.wrote, w.log, w.popped)
  }

  /** A report changes nothing but the identifiers used, or flips its pair and writes. */
  lemma ReportShape(w: World, s: Step)
    requires s.ReportStep? && Enabled(w, s) && w.st.mem.revision in w.contents
    ensures
      || NextReport(w, s) == w.(used := w.used + {s.id})
      || (var e := Event(s.id, s.uuid, s.status, s.now, NoReason);
          exists active :: && ValidPair(s.uuid)
                           && Flips(w.st.mem, e, active)
                           && NextReport(w, s) == Rewritten(Reported(w, e, active), s.io))
  {
    var o := Report(w.st, s.uuid, s.status, s.id, s.now, s.io);
    if |o.st.mem.events| > |w.st.mem.events| {
      var e := Event(s.id, s.uuid, s.status, s.now, NoReason);
      var active := if s.status.Active? then w.st.mem.active + {s.uuid} else w.st.mem.active - {s.uuid};
      assert Flips(w.st.mem, e, active);
      assert NextReport(w, s) == Rewritten(Reported(w, e, active), s.io);
    }
  }

  lemma ReportKeeps(w: World, s: Step)
    requires Inv(w) && s.ReportStep? && Enabled(w, s)
    ensures Inv(NextReport(w, s))
  {
    ReportShape(w, s);
    var n := NextReport(w, s);
    if n == w.(used := w.used + {s.id}) {
      LearnKeeps(w, n);
    } else {
      var e := Event(s.id, s.uuid, s.status, s.now, NoReason);
      var active :| Flips(w.st.mem, e, active) && n == Rewritten(Reported(w, e, active), s.io);
      ReportedCore(w, e, active);
      WriteKeeps(Reported(w, e, active), s.io);
    }
  }

  // ---------- crash and hand-out ----------

  lemma HistoryPrefix(h: seq<Event>, g: seq<Event>, used: set<Ident>)
    requires HistoryOk(h, used) && g <= h
    ensures HistoryOk(g, used)
  {
    forall i | 0 <= i < |g| ensures FlipsAt(g, i) {
      assert g[..i] == h[..i] && FlipsAt(h, i);
    }
    forall i, j | 0 <= i < j < |g| ensures Differ(g, i, j) {
      assert Differ(h, i, j);
    }
  }

  lemma CrashKeeps(w: World)
    requires Core(w)
    ensures Inv(Crashed(w))
  {
    HistoryPrefix(w.log, w.persisted, w.used);
    if w.st.disk.file.Some? {
      KnowsKeeps(w, Crashed(w), w.st.disk.file.value, w.persisted, w.diskPopped);
    }
  }

  /** The front of the queue is new to the gateway only if everything older was delivered. */
  lemma FrontIsNext(w: World)
    requires Inv(w) && w.up && w.st.healthy && w.st.mem.events != []
    ensures w.st.mem.events[0] in w.delivered <==> w.popped < |w.delivered|
    ensures w.st.mem.events[0] !in w.delivered ==> w.delivered + [w.st.mem.events[0]] <= w.persisted
  {
    var e := w.st.mem.events[0];
    assert e == w.log[w.popped];
    if e in w.delivered {
      var i :| 0 <= i < |w.delivered| && w.delivered[i] == e;
      assert w.delivered[i] == w.log[i];
      assert i < w.popped ==> Differ(w.log, i, w.popped);
    } else {
      assert w.popped == |w.delivered|;
    }
  }

  lemma NextEventKeeps(w: World, s: Step)
    requires Inv(w) && s.NextEventStep? && Enabled(w, s)
    ensures Inv(NextHandOut(w, s))
  {
    WriteKeeps(w, s.io);
    var m := if w.st.healthy then w else Rewritten(w, s.io);
    var o := NextEvent(w.st, s.io);
    assert Record(w, o.st, o.wrote, w.log, w.popped) == m;
    assert Inv(m);
    if o.result.Ok? && o.result.value.Some? && o.result.value.value !in w.delivered {
      FrontIsNext(m);
      var n := NextHandOut(w, s);
      assert n == m.(delivered := m.delivered + [m.st.mem.events[0]]);
      KnowsKeeps(m, n, m.st.mem, m.log, m.popped);
    }
  }

  // ---------- acknowledgement and quarantine ----------

  /** What the gateway answers for the front was delivered, so it may leave. */
  lemma EchoOfFront(w: World, id: Ident, uuid: string, status: Status)
    requires Inv(w) && w.up && Echo(w, id, uuid, status) && FrontIs(w.st.mem, id)
    ensures w.popped < |w.delivered| && w.log[w.popped] == w.st.mem.events[0]
    ensures w.log[w.popped].uuid == uuid && w.log[w.popped].status == status
  {
    var e :| e in w.delivered && e.id == id && e.uuid == uuid && e.status == status;
    var i :| 0 <= i < |w.delivered| && w.delivered[i] == e;
    assert w.delivered[i] == w.log[i] && w.log[w.popped] == w.st.mem.events[0];
    assert i < w.popped ==> Differ(w.log, i, w.popped);
    assert i > w.popped ==> Differ(w.log, w.popped, i);
  }

  /** A change in memory only: the disk half of the invariant carries over. */
  lemma CoreFrom(w: World, v: World)
    requires Inv(w) && v.up && Knows(v, w) && v.contents.Keys <= v.used && BackupsOk(v)
    requires v.st.disk.file == w.st.disk.file && v.persisted == w.persisted && v.diskPopped == w.diskPopped
    requires v.delivered == w.delivered && v.popped <= |v.delivered|
    requires HistoryOk(v.log, v.used) && v.persisted <= v.log
    requires Holds(v.st.mem, v.log, v.popped, v) && AllSettled(v, v.st.mem, v.log, v.popped)
    ensures Core(v)
  {
    if w.st.disk.file.Some? {
      KnowsKeeps(w, v, w.st.disk.file.value, w.persisted, w.diskPopped);
    }
  }

  function Acked(w: World): World
    requires w.st.mem.events != []
  {
    w.(
      st := w.st.(mem := w.st.mem.(events := w.st.mem.events[1..])),
      popped := w.popped + 1,
      acked := w.acked + {w.st.mem.events[0].id})
  }

  /** The snapshot without its front. */
  lemma PopHolds(s: Snapshot, h: seq<Event>, popped: nat, w: World, v: World)
    requires Holds(s, h, popped, w) && s.events != []
    requires v.used == w.used && v.contents == w.contents
    ensures Holds(s.(events := s.events[1..]), h, popped + 1, v)
    ensures s.events[0] == h[popped]
  {
    assert s.events[1..] == h[popped + 1..] && h[..popped + 1] == h[..popped] + [h[popped]];
    assert s.events + s.quarantine == [s.events[0]] + s.events[1..] + s.quarantine;
    DistinctMove(s.events[0], s.events[1..], s.quarantine, s.events[0]);
  }

  lemma AckedSettled(w: World)
    requires w.st.mem.events != [] && w.popped < |w.log| && w.st.mem.events[0] == w.log[w.popped]
    requires AllSettled(w, w.st.mem, w.log, w.popped)
    ensures AllSettled(Acked(w), Acked(w).st.mem, w.log, w.popped + 1)
  {
    var v := Acked(w);
    forall i | 0 <= i < v.popped ensures SettledAt(v, v.st.mem, v.log, i) {
      if i < w.popped {
        assert SettledAt(w, w.st.mem, w.log, i);
      }
    }
  }

  lemma AckedCore(w: World)
    requires Inv(w) && w.up && w.st.mem.events != [] && w.popped < |w.delivered|
    ensures Core(Acked(w))
  {
    PopHolds(w.st.mem, w.log, w.popped, w, Acked(w));
    AckedSettled(w);
    CoreFrom(w, Acked(w));
  }

  lemma AckShape(w: World, s: Step)
    requires s.AckStep?
    ensures FrontIs(w.st.mem, s.id) && FrontMatches(w.st.mem, s.uuid, s.status) ==>
              NextAck(w, s) == Rewritten(Acked(w), s.io)
    ensures !FrontIs(w.st.mem, s.id) ==> NextAck(w, s) == w
  {
  }

  lemma AckKeeps(w: World, s: Step)
    requires Inv(w) && s.AckStep? && Enabled(w, s)
    ensures Inv(NextAck(w, s))
  {
    AckShape(w, s);
    if FrontIs(w.st.mem, s.id) {
      EchoOfFront(w, s.id, s.uuid, s.status);
      AckedCore(w);
      WriteKeeps(Acked(w), s.io);
    }
  }

  function Quarantined(w: World, revision: Ident): World
    requires w.st.mem.events != []
  {
    var q := w.st.mem.quarantine + [w.st.mem.events[0].(reason := CredentialRotated)];
    w.(
      st := w.st.(mem := w.st.mem.(events := w.st.mem.events[1..], quarantine := q, revision := revision)),
      popped := w.popped + 1,
      contents := w.contents[revision := q],
      used := w.used + {revision})
  }

  lemma OriginGrows(q: seq<Event>, h: seq<Event>, popped: nat)
    requires popped < |h| && Origin(q, h, popped) && h[popped].reason.NoReason?
    ensures Origin(q, h, popped + 1) && Origin(q + [h[popped].(reason := CredentialRotated)], h, popped + 1)
  {
    assert h[..popped + 1] == h[..popped] + [h[popped]];
    assert h[popped].(reason := CredentialRotated).(reason := NoReason) == h[popped];
  }

  lemma OriginExtends(q: seq<Event>, h: seq<Event>, c: seq<Event>, popped: nat)
    requires popped <= |h| && Origin(q, h, popped)
    ensures Origin(q, h + c, popped)
  {
    assert (h + c)[..popped] == h[..popped];
  }

  /** The snapshot with its front moved to the quarantine under a new revision. */
  lemma MoveHolds(s: Snapshot, h: seq<Event>, popped: nat, w: World, v: World)
    requires Holds(s, h, popped, w) && s.events != [] && HistoryOk(h, w.used)
    requires v.st.mem.revision !in w.used && IsUuid(v.st.mem.revision)
    requires w.used <= v.used
    requires v.st.mem == s.(events := s.events[1..], quarantine := s.quarantine + [s.events[0].(reason := CredentialRotated)], revision := v.st.mem.revision)
    requires v.contents == w.contents[v.st.mem.revision := v.st.mem.quarantine]
    ensures Holds(v.st.mem, h, popped + 1, v)
    ensures s.events[0] == h[popped]
  {
    var front := s.events[0];
    assert front in s.events && front in h;
    assert s.events[1..] == h[popped + 1..];
    OriginGrows(s.quarantine, h, popped);
    assert DistinctIds(v.st.mem.events + v.st.mem.quarantine) by {
      assert s.events + s.quarantine == [front] + s.events[1..] + s.quarantine;
      DistinctMove(front, s.events[1..], s.quarantine, front.(reason := CredentialRotated));
    }
  }

  lemma QuarantinedSettled(w: World, revision: Ident)
    requires w.st.mem.events != [] && w.popped < |w.log| && w.st.mem.events[0] == w.log[w.popped]
    requires AllSettled(w, w.st.mem, w.log, w.popped)
    ensures var v := Quarantined(w, revision); AllSettled(v, v.st.mem, v.log, v.popped)
  {
    var v := Quarantined(w, revision);
    var mem := w.st.mem;
    forall i | 0 <= i < v.popped ensures SettledAt(v, v.st.mem, v.log, i) {
      if i < w.popped {
        assert SettledAt(w, mem, w.log, i);
        assert forall e :: e in mem.quarantine ==> e in v.st.mem.quarantine;
      } else {
        assert v.st.mem.quarantine[|mem.quarantine|] == v.log[i].(reason := CredentialRotated);
      }
    }
  }

  lemma QuarantinedKnows(w: World, revision: Ident)
    requires w.st.mem.events != [] && w.contents.Keys <= w.used && BackupsOk(w) && HistoryOk(w.log, w.used) && NewId(w, revision)
    ensures var v := Quarantined(w, revision);
            Knows(v, w) && v.contents.Keys <= v.used && BackupsOk(v) && HistoryOk(v.log, v.used)
  {
  }

  lemma QuarantinedCore(w: World, revision: Ident)
    requires Inv(w) && w.up && w.st.mem.events != [] && w.popped < |w.delivered| && NewId(w, revision)
    ensures Core(Quarantined(w, revision))
  {
    var v := Quarantined(w, revision);
    MoveHolds(w.st.mem, w.log, w.popped, w, v);
    QuarantinedSettled(w, revision);
    QuarantinedKnows(w, revision);
    CoreFrom(w, v);
  }

  lemma QuarantineShape(w: World, s: Step)
    requires s.QuarantineStep? && Enabled(w, s) && w.st.mem.revision in w.contents && w.contents.Keys <= w.used
    ensures s.reason.CredentialRotated? && FrontIs(w.st.mem, s.id) && FrontMatches(w.st.mem, s.uuid, s.status) ==>
              NextQuarantine(w, s) == Rewritten(Quarantined(w, s.revision), s.io)
    ensures !(s.reason.CredentialRotated? && FrontIs(w.st.mem, s.id) && FrontMatches(w.st.mem, s.uuid, s.status)) ==>
              NextQuarantine(w, s) == w.(used := w.used + {s.revision})
  {
  }

  lemma QuarantineKeeps(w: World, s: Step)
    requires Inv(w) && s.QuarantineStep? && Enabled(w, s)
    ensures Inv(NextQuarantine(w, s))
  {
    QuarantineShape(w, s);
    if s.reason.CredentialRotated? && FrontIs(w.st.mem, s.id) {
      EchoOfFront(w, s.id, s.uuid, s.status);
      QuarantinedCore(w, s.revision);
      WriteKeeps(Quarantined(w, s.revision), s.io);
    } else {
      LearnKeeps(w, NextQuarantine(w, s));
    }
  }

  // ---------- archiving ----------

  /** Archiving refused or failed: at most a backup file appeared. */
  lemma BackupKeeps(w: World, v: World, io: BackupIo)
    requires Inv(w) && w.up
    requires var (backups, _) := BackUp(w.st.disk.backups, FullPage(w.st.mem), io);
             v.st == w.st || v.st == w.st.(disk := w.st.disk.(backups := backups))
    requires v == w.(st := v.st, used := v.used) && w.used <= v.used
    ensures Inv(v)
  {
    LearnKeeps(w, v);
  }

  function Archived(w: World, target: Ident, revision: Ident): World {
    var page := FullPage(w.st.mem);
    w.(
      st := w.st.(
        mem := w.st.mem.(quarantine := [], lastArchive := target, revision := revision),
        disk := w.st.disk.(backups := w.st.disk.backups[target := Complete(page)])),
      contents := w.contents[revision := []],
      used := w.used + {revision})
  }

  ghost predicate MayArchive(w: World, target: Ident) {
    && target == w.st.mem.revision
    && (target in w.st.disk.backups ==> w.st.disk.backups[target] == Complete(FullPage(w.st.mem)))
  }

  lemma ArchivedHolds(s: Snapshot, h: seq<Event>, popped: nat, w: World, v: World)
    requires Holds(s, h, popped, w) && w.contents.Keys <= w.used
    requires v.st.mem.revision !in w.used && IsUuid(v.st.mem.revision) && w.used <= v.used
    requires v.st.mem == s.(quarantine := [], lastArchive := s.revision, revision := v.st.mem.revision)
    requires v.contents == w.contents[v.st.mem.revision := []]
    ensures Holds(v.st.mem, h, popped, v)
  {
    assert DistinctIds(v.st.mem.events + v.st.mem.quarantine) by {
      assert v.st.mem.events + v.st.mem.quarantine == s.events;
      forall i, j | 0 <= i < j < |s.events| ensures Differ(s.events, i, j) {
        assert Differ(s.events + s.quarantine, i, j);
      }
    }
  }

  /** What was quarantined is in the backup by the time it leaves the quarantine. */
  lemma ArchivedSettled(w: World, target: Ident, revision: Ident)
    requires w.popped <= |w.log| && AllSettled(w, w.st.mem, w.log, w.popped) && MayArchive(w, target)
    ensures var v := Archived(w, target, revision); AllSettled(v, v.st.mem, v.log, v.popped)
  {
    var v := Archived(w, target, revision);
    forall i | 0 <= i < v.popped ensures SettledAt(v, v.st.mem, v.log, i) {
      assert SettledAt(w, w.st.mem, w.log, i);
      if w.log[i].(reason := CredentialRotated) in w.st.mem.quarantine {
        assert target in v.st.disk.backups;
      } else if InBackup(w.st.disk.backups, w.log[i].(reason := CredentialRotated)) {
        var r :| r in w.st.disk.backups && w.st.disk.backups[r].Complete? && w.log[i].(reason := CredentialRotated) in w.st.disk.backups[r].page.events;
        assert r in v.st.disk.backups && v.st.disk.backups[r] == w.st.disk.backups[r];
      }
    }
  }

  lemma ArchivedCore(w: World, target: Ident, revision: Ident)
    requires Inv(w) && w.up && w.st.healthy && NewId(w, revision) && MayArchive(w, target)
    ensures Core(Archived(w, target, revision))
  {
    var v := Archived(w, target, revision);
    ArchivedHolds(w.st.mem, w.log, w.popped, w, v);
    ArchivedSettled(w, target, revision);
    CoreFrom(w, v);
  }

  lemma ArchiveShape(w: World, s: Step)
    requires s.ArchiveStep? && Enabled(w, s) && w.st.mem.revision in w.contents && w.contents.Keys <= w.used
    ensures
      var v := w.(used := w.used + {s.revision});
      var (backups, _) := BackUp(w.st.disk.backups, FullPage(w.st.mem), s.backupIo);
      || NextArchive(w, s) == v
      || NextArchive(w, s) == v.(st := v.st.(disk := v.st.disk.(backups := backups)))
      || NextArchive(w, s) == Rewritten(v, s.io)
      || (w.st.healthy && MayArchive(w, s.target) && NextArchive(w, s) == Rewritten(Archived(w, s.target, s.revision), s.io))
  {
    var o := Archive(w.st, s.target, s.revision, s.backupIo, s.io);
    if o.st.mem.lastArchive != w.st.mem.lastArchive {
      if s.target in w.st.disk.backups {
        assert w.st.disk.backups[s.target := Complete(FullPage(w.st.mem))] == w.st.disk.backups;
      }
    }
  }

  lemma ArchiveKeeps(w: World, s: Step)
    requires Inv(w) && s.ArchiveStep? && Enabled(w, s)
    ensures Inv(NextArchive(w, s))
  {
    ArchiveShape(w, s);
    var v := w.(used := w.used + {s.revision});
    LearnKeeps(w, v);
    if w.st.healthy && MayArchive(w, s.target) && NextArchive(w, s) == Rewritten(Archived(w, s.target, s.revision), s.io) {
      ArchivedCore(w, s.target, s.revision);
      WriteKeeps(Archived(w, s.target, s.revision), s.io);
    } else if NextArchive(w, s) == Rewritten(v, s.io) {
      WriteKeeps(v, s.io);
    } else {
      BackupKeeps(w, NextArchive(w, s), s.backupIo);
    }
  }

  // ---------- opening ----------

  /** `open` accepts everything the outbox ever left on disk. */
  lemma OpenAccepts(w: World)
    requires Inv(w)
    ensures Defect(Stored(w.st.disk)).None?
  {
    if w.st.disk.file.Some? {
      var s := w.st.disk.file.value;
      forall e | e in s.events + s.quarantine ensures ValidEvent(e) {
        assert e in s.events ==> e in w.persisted;
        assert e in w.persisted ==> e in w.log;
      }
    }
  }

  function Reopened(w: World, s: Step): World
    requires s.OpenStep? && |s.order| == |s.ids|
  {
    var mem := Recovered(Stored(w.st.disk), s.order, s.ids, s.revision, s.now);
    w.(
      up := true,
      st := State(mem, false, w.st.disk),
      log := w.log + Closes(s.order, s.ids, s.now),
      contents := Note(w.contents, mem),
      used := w.used + (ToSet(s.ids) + {s.revision}))
  }

  lemma CountOrder(order: seq<string>, active: set<string>)
    requires Enumerates(order, active)
    ensures |order| == |active|
  {
    if order != [] {
      var n := |order| - 1;
      assert order == order[..n] + [order[n]];
      assert active - {order[n]} == set u | u in order[..n];
      CountOrder(order[..n], active - {order[n]});
    } else {
      assert active == {};
    }
  }

  lemma DistinctCloses(events: seq<Event>, c: seq<Event>, q: seq<Event>, used: set<Ident>)
    requires DistinctIds(events + q) && DistinctIds(c)
    requires (forall e :: e in events + q ==> e.id in used) && (forall e :: e in c ==> e.id !in used)
    ensures DistinctIds(events + c + q)
  {
    var s, t := events + q, events + c + q;
    var k, n := |events|, |c|;
    forall i, j | 0 <= i < j < |t| ensures Differ(t, i, j) {
      assert i < k ==> t[i] == s[i];
      assert j < k ==> t[j] == s[j];
      assert k <= i < k + n ==> t[i] == c[i - k];
      assert k <= j < k + n ==> t[j] == c[j - k];
      assert k + n <= i ==> t[i] == s[i - n];
      assert k + n <= j ==> t[j] == s[j - n];
      if k <= i < k + n && k <= j < k + n {
        assert Differ(c, i - k, j - k);
      } else if (i < k || k + n <= i) && (j < k || k + n <= j) {
        assert Differ(s, if i < k then i else i - n, if j < k then j else j - n);
      } else if i < k || k + n <= i {
        assert s[if i < k then i else i - n] in s && c[j - k] in c;
      } else {
        assert s[if j < k then j else j - n] in s && c[i - k] in c;
      }
    }
  }

  lemma ReopenedHistory(w: World, s: Step)
    requires Inv(w) && s.OpenStep? && Enabled(w, s)
    ensures var v := Reopened(w, s);
            HistoryOk(v.log, v.used) && (forall u :: !IsActive(v.log, u))
  {
    var stored := Stored(w.st.disk);
    assert forall u :: u in stored.active <==> IsActive(w.log, u);
    assert forall i :: 0 <= i < |s.order| ==> s.order[i] in stored.active;
    AppendCloses(w.log, s.order, s.ids, s.now, w.used);
  }

  lemma ReopenedDistinct(stored: Snapshot, h: seq<Event>, popped: nat, s: Step, w: World)
    requires s.OpenStep? && Enabled(w, s) && popped <= |h| && stored.events == h[popped..]
    requires DistinctIds(stored.events + stored.quarantine) && QuarantineOk(stored.quarantine, w.used)
    requires forall e :: e in h ==> e.id in w.used
    ensures DistinctIds(stored.events + Closes(s.order, s.ids, s.now) + stored.quarantine)
  {
    var c := Closes(s.order, s.ids, s.now);
    assert forall e :: e in stored.events ==> e in h;
    assert forall e :: e in c ==> e.id !in w.used;
    DistinctCloses(stored.events, c, stored.quarantine, w.used);
  }

  lemma ReopenedKnows(w: World, s: Step)
    requires Inv(w) && s.OpenStep? && Enabled(w, s)
    ensures var v := Reopened(w, s);
            && Knows(v, w) && v.contents.Keys <= v.used && v.st.mem.revision in v.contents
            && v.contents[v.st.mem.revision] == v.st.mem.quarantine && IsUuid(v.st.mem.revision)
            && v.st.mem.lastArchive != v.st.mem.revision
            && (v.st.mem.lastArchive == Text("") || v.st.mem.lastArchive in v.used)
            && QuarantineOk(v.st.mem.quarantine, v.used)
  {
  }

  /** What a stored snapshot, or the empty one for a fresh directory, promises. */
  ghost predicate StoredOk(stored: Snapshot, w: World) {
    && w.popped <= |w.log|
    && stored.events == w.log[w.popped..]
    && Origin(stored.quarantine, w.log, w.popped)
    && QuarantineOk(stored.quarantine, w.used)
    && DistinctIds(stored.events + stored.quarantine)
    && Size(stored) <= CAPACITY
    && forall e :: e in w.log ==> e.id in w.used
  }

  lemma StoredIsOk(w: World)
    requires Inv(w) && !w.up
    ensures StoredOk(Stored(w.st.disk), w)
  {
  }

  lemma ReopenedPart(w: World, s: Step)
    requires s.OpenStep? && Enabled(w, s) && StoredOk(Stored(w.st.disk), w)
    ensures var v := Reopened(w, s);
            && v.st.mem.events == v.log[v.popped..]
            && Origin(v.st.mem.quarantine, v.log, v.popped)
            && DistinctIds(v.st.mem.events + v.st.mem.quarantine)
            && Size(v.st.mem) <= CAPACITY
  {
    var stored := Stored(w.st.disk);
    CountOrder(s.order, stored.active);
    OriginExtends(stored.quarantine, w.log, Closes(s.order, s.ids, s.now), w.popped);
    ReopenedDistinct(stored, w.log, w.popped, s, w);
  }

  lemma ReopenedHolds(w: World, s: Step)
    requires Inv(w) && s.OpenStep? && Enabled(w, s)
    ensures var v := Reopened(w, s); Holds(v.st.mem, v.log, v.popped, v)
  {
    StoredIsOk(w);
    ReopenedPart(w, s);
    ReopenedHistory(w, s);
    ReopenedKnows(w, s);
  }

  lemma ReopenedCore(w: World, s: Step)
    requires Inv(w) && s.OpenStep? && Enabled(w, s)
    ensures Core(Reopened(w, s))
  {
    var v := Reopened(w, s);
    ReopenedHistory(w, s);
    ReopenedKnows(w, s);
    ReopenedHolds(w, s);
    forall i | 0 <= i < v.popped ensures SettledAt(v, v.st.mem, v.log, i) {
      assert SettledAt(w, Stored(w.st.disk), w.persisted, i);
    }
    CoreFrom(w, v);
  }

  lemma OpenKeeps(w: World, s: Step)
    requires Inv(w) && s.OpenStep? && Enabled(w, s)
    ensures Inv(NextOpen(w, s))
    ensures Open(w.st.disk, s.order, s.ids, s.revision, s.now, s.io).result.Ok? <==> s.io.Synced?
    ensures NextOpen(w, s).up <==> s.io.Synced?
  {
    OpenAccepts(w);
    ReopenedCore(w, s);
    var v := Rewritten(Reopened(w, s), s.io);
    WriteKeeps(Reopened(w, s), s.io);
    assert NextOpen(w, s) == if s.io.Synced? then v else Crashed(v);
    CrashKeeps(v);
  }

  // ---------- runs ----------

  lemma StepKeeps(w: World, s: Step)
    requires Inv(w) && Enabled(w, s)
    ensures Inv(Next(w, s))
  {
    match s
    case CrashStep => CrashKeeps(w);
    case OpenStep(_, _, _, _, _) => OpenKeeps(w, s);
    case ReportStep(_, _, _, _, _) => ReportKeeps(w, s);
    case NextEventStep(_) => NextEventKeeps(w, s);
    case AckStep(_, _, _, _) => AckKeeps(w, s);
    case QuarantineStep(_, _, _, _, _, _) => QuarantineKeeps(w, s);
    case ArchiveStep(_, _, _, _) => ArchiveKeeps(w, s);
  }

  lemma {:induction false} RunKeeps(w: World, steps: seq<Step>)
    requires Inv(w) && ValidRun(w, steps)
    ensures Inv(Run(w, steps))
    decreases |steps|
  {
    if steps != [] {
      StepKeeps(w, steps[0]);
      RunKeeps(Next(w, steps[0]), steps[1..]);
    }
  }

  lemma FreshInv()
    ensures Inv(Fresh())
  {
  }
}
