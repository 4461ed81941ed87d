/** What each outbox operation does when it does something, field by field, and what that means for
    whole runs: reports reach the history, and a working gateway drains the queue. */
module OutboxEffects {
  import opened Wrappers
  import opened OutboxSpec
  import opened OutboxRuns
  import opened OutboxProofs
  import opened OutboxTheorems

  /** The file holds the memory, after a write that was carried out; a failed one is reported. */
  ghost predicate SavedBy(st: State, before: Disk, io: FlushIo, answer: Result<()>) {
    && (answer.Ok? <==> io.Synced?) && (answer.Err? ==> answer.error == IoFailure)
    && st.healthy == io.Synced?
    && st.disk.backups == before.backups
    && st.disk.file == if io.NotReplaced? then before.file else Some(st.mem)
  }

  // ---------- reports ----------

  /** An opening report with room, and a closing one of an open pair, append their event, flip the pair,
      keep the rest, and are saved. */
  lemma ReportRecords(st: State, u: string, status: Status, id: Ident, now: nat, io: FlushIo)
    requires 8 <= |u| <= 128
    requires || (status.Active? && u !in st.mem.active && st.healthy &&
                 |st.mem.events| + |st.mem.active| + |st.mem.quarantine| + 2 <= 4096)
             || (status.Closed? && u in st.mem.active)
    ensures var o := Report(st, u, status, id, now, io);
            && o.st.mem.events == st.mem.events + [Event(id, u, status, now, NoReason)]
            && o.st.mem.active == (if status.Active? then st.mem.active + {u} else st.mem.active - {u})
            && o.st.mem == st.mem.(events := o.st.mem.events, active := o.st.mem.active)
            && SavedBy(o.st, st.disk, io, o.result)
  {
  }

  /** Any other report changes nothing and is answered by the first reason against it. */
  lemma ReportRefuses(st: State, u: string, status: Status, id: Ident, now: nat, io: FlushIo)
    ensures var o := Report(st, u, status, id, now, io);
            && (!(8 <= |u| <= 128) ==> o.st == st && o.result == Err(InvalidUuid))
            && (8 <= |u| <= 128 && status.OtherStatus? ==> o.st == st && o.result == Err(InvalidState))
            && (8 <= |u| <= 128 && status.Closed? && u !in st.mem.active ==> o.st == st && o.result == Ok(()))
            && (8 <= |u| <= 128 && status.Active? && !st.healthy ==> o.st == st && o.result == Err(StorageUnavailable))
            && (8 <= |u| <= 128 && status.Active? && st.healthy && u in st.mem.active ==>
                  o.st == st && o.result == Err(DuplicateActive))
            && (8 <= |u| <= 128 && status.Active? && st.healthy && u !in st.mem.active &&
                |st.mem.events| + |st.mem.active| + |st.mem.quarantine| + 2 > 4096 ==>
                  o.st == st && o.result == Err(OutboxFull))
  {
  }

  /** A report that a pair's history calls for: it opens a pair that is not open, or closes one that is. */
  ghost predicate Due(w: World, s: Step)
    requires s.ReportStep?
  {
    && 8 <= |s.uuid| <= 128
    && (|| (s.status.Active? && !IsActive(w.log, s.uuid) && w.st.healthy && Size(w.st.mem) + 2 <= 4096)
        || (s.status.Closed? && IsActive(w.log, s.uuid)))
  }

  /** In every run a due report extends the history by exactly its event and, once saved, the persisted
      history by exactly that event after what was still unsaved; any other report leaves both alone. */
  lemma ReportIsRecorded(w: World, before: seq<Step>, s: Step)
    requires Reachable(w, before) && s.ReportStep? && Enabled(w, s)
    ensures var v := Next(w, s); var e := Event(s.id, s.uuid, s.status, s.now, NoReason);
            && v.log == (if Due(w, s) then w.log + [e] else w.log)
            && (Due(w, s) && s.io.Synced? ==> v.persisted == w.log + [e] && v.st.disk.file == Some(v.st.mem))
            && (Due(w, s) && s.io.Synced? && w.st.healthy ==> v.persisted == w.persisted + [e])
            && (Due(w, s) && !s.io.Synced? ==> w.persisted <= v.persisted <= w.log + [e])
            && (!Due(w, s) ==> v.persisted == w.persisted && v.st == w.st)
  {
    ReachableInv(w, before);
    if Due(w, s) {
      ReportRecords(w.st, s.uuid, s.status, s.id, s.now, s.io);
    }
  }

  // ---------- the gateway's answers ----------

  /** The answer for the front takes it off the queue and is saved; a mismatch, or another identifier, changes nothing. */
  lemma AcknowledgeRemoves(st: State, id: Ident, u: string, status: Status, io: FlushIo)
    ensures var o := Acknowledge(st, id, u, status, io);
            if st.mem.events == [] || st.mem.events[0].id != id then o.st == st && o.result == Ok(())
            else if st.mem.events[0].uuid != u || st.mem.events[0].status != status then
              o.st == st && o.result == Err(IdentityMismatch)
            else
              o.st.mem == st.mem.(events := st.mem.events[1..]) && SavedBy(o.st, st.disk, io, o.result)
  {
  }

  /** A rejected front moves to the end of the quarantine with its reason, under the new revision. */
  lemma QuarantineMoves(st: State, id: Ident, u: string, status: Status, reason: Reason, revision: Ident, io: FlushIo)
    ensures var o := Quarantine(st, id, u, status, reason, revision, io);
            if !reason.CredentialRotated? then o.st == st && o.result == Err(InvalidReason)
            else if st.mem.events == [] || st.mem.events[0].id != id then o.st == st && o.result == Ok(())
            else if st.mem.events[0].uuid != u || st.mem.events[0].status != status then
              o.st == st && o.result == Err(IdentityMismatch)
            else
              && o.st.mem == st.mem.(events := st.mem.events[1..], revision := revision, quarantine :=
                               st.mem.quarantine + [Event(id, u, status, st.mem.events[0].createdAt, CredentialRotated)])
              && SavedBy(o.st, st.disk, io, o.result)
  {
  }

  /** What is handed out is the oldest queued event, whenever the outbox is healthy or can be saved. */
  lemma HandOutGivesOldest(st: State, io: FlushIo)
    ensures var o := NextEvent(st, io);
            && o.st.mem == st.mem
            && (o.result.Ok? <==> st.healthy || io.Synced?)
            && (o.result.Ok? ==> o.result.value == if st.mem.events == [] then None else Some(st.mem.events[0]))
            && (st.healthy ==> o.st == st)
            && (o.result.Ok? && !st.healthy ==> o.st.healthy && o.st.disk.file == Some(st.mem))
  {
  }

  /** With nothing standing in the way an archive empties the quarantine into a complete backup. */
  lemma ArchiveEmpties(st: State, r: Ident, next: Ident)
    requires st.healthy && r.Uuid? && r == st.mem.revision != st.mem.lastArchive && st.mem.quarantine != []
    requires r in st.disk.backups ==> st.disk.backups[r] == Complete(Page(r, |st.mem.quarantine|, 0, st.mem.quarantine))
    ensures var o := Archive(st, r, next, BackupSynced, Synced);
            && o.result == Ok(())
            && o.st.mem == st.mem.(quarantine := [], lastArchive := r, revision := next)
            && o.st.disk.file == Some(o.st.mem)
            && o.st.disk.backups == st.disk.backups[r := Complete(Page(r, |st.mem.quarantine|, 0, st.mem.quarantine))]
  {
  }

  /** What an archive is refused for, in order; repeating the last one only saves. */
  lemma ArchiveRefuses(st: State, r: Ident, next: Ident, backupIo: BackupIo, io: FlushIo)
    ensures var o := Archive(st, r, next, backupIo, io);
            if !r.Uuid? then o.st == st && o.result == Err(InvalidRevision)
            else if r == st.mem.lastArchive then o.st.mem == st.mem && SavedBy(o.st, st.disk, io, o.result)
            else if !st.healthy || r != st.mem.revision then o.st == st && o.result == Err(QuarantineChanged)
            else if st.mem.quarantine == [] then o.st == st && o.result == Err(QuarantineEmpty)
            else if r in st.disk.backups && st.disk.backups[r] != Complete(Page(r, |st.mem.quarantine|, 0, st.mem.quarantine)) then
              o.st == st && o.result == Err(BackupMismatch)
            else backupIo != BackupSynced ==> o.st.mem == st.mem && o.result == Err(IoFailure)
  {
  }

  // ---------- reading ----------

  /** A page is the next ten of the quarantine at the asked revision; the empty revision asks for the current one. */
  lemma PageIsSlice(s: Snapshot, revision: Ident, offset: nat)
    ensures var r, n := QuarantinePage(s, revision, offset), |s.quarantine|;
            if revision != Text("") && revision != s.revision then r == Err(QuarantineChanged)
            else if offset > n then r == Err(InvalidOffset)
            else r == Ok(Page(s.revision, n, offset, s.quarantine[offset..if offset + 10 <= n then offset + 10 else n]))
  {
    if offset <= |s.quarantine| {
      var n := |s.quarantine|;
      var end := if offset + 10 <= n then offset + 10 else n;
      assert Take(Drop(s.quarantine, offset), PAGE_SIZE) == s.quarantine[offset..end];
    }
  }

  /** A status counts the queue, the quarantine and the open pairs, and shows the first five quarantined events. */
  lemma SummaryCounts(st: State)
    ensures var v := Summary(st);
            && v.pending == |st.mem.events| && v.quarantined == |st.mem.quarantine| && v.reserved == |st.mem.active|
            && v.capacity == 4096 && v.healthy == st.healthy
            && (v.blocked <==> !st.healthy || |st.mem.events| + |st.mem.active| + |st.mem.quarantine| + 2 > 4096)
            && (st.mem.events != [] ==> v.oldestAt == st.mem.events[0].createdAt)
            && (st.mem.events == [] ==> v.oldestAt == 0)
            && v.sample == st.mem.quarantine[..if |st.mem.quarantine| <= 5 then |st.mem.quarantine| else 5]
  {
  }

  /** A stored snapshot is accepted exactly when its version is known, it fits, its events are well formed with
      identifiers of their own, quarantined ones have the one known reason, and open pairs have usable names. */
  lemma AcceptedSnapshots(s: Snapshot)
    ensures Defect(s).None? <==>
            && (s.version == 1 || s.version == 2)
            && |s.events| + |s.active| + |s.quarantine| <= 4096
            && (forall e :: e in s.events || e in s.quarantine ==>
                  e.id.Uuid? && 8 <= |e.uuid| <= 128 && (e.status.Active? || e.status.Closed?))
            && DistinctIds(s.events + s.quarantine)
            && (forall e :: e in s.quarantine ==> e.reason == CredentialRotated)
            && (forall u :: u in s.active ==> 8 <= |u| <= 128)
  {
    assert forall e :: e in s.events + s.quarantine <==> e in s.events || e in s.quarantine;
  }

  /** Reopening keeps the queue, the quarantine and its revision, and appends one closing event per open pair. */
  lemma ReopenRecovers(disk: Disk, order: seq<string>, ids: seq<Ident>, revision: Ident, now: nat)
    requires |order| == |ids| && Defect(Stored(disk)).None?
    ensures var was, o := Stored(disk), Open(disk, order, ids, revision, now, Synced);
            && o.result == Ok(()) && o.st.healthy && o.st.disk.file == Some(o.st.mem)
            && |o.st.mem.events| == |was.events| + |order| && o.st.mem.events[..|was.events|] == was.events
            && (forall i :: 0 <= i < |order| ==>
                  o.st.mem.events[|was.events| + i] == Event(ids[i], order[i], Closed, now, NoReason))
            && o.st.mem.quarantine == was.quarantine && o.st.mem.lastArchive == was.lastArchive
            && o.st.mem.active == {} && o.st.mem.version == 2
            && o.st.mem.revision == if was.revision == Text("") then revision else was.revision
  {
  }

  // ---------- runs ----------

  /** An identifier counts as acknowledged only if the gateway acknowledged it. */
  lemma {:induction false} AckedByGateway(w: World, steps: seq<Step>, id: Ident)
    requires ValidRun(w, steps) && id in Run(w, steps).acked
    ensures id in w.acked || exists i :: 0 <= i < |steps| && steps[i].AckStep? && steps[i].id == id
    decreases |steps|
  {
    if steps != [] {
      var v := Next(w, steps[0]);
      assert v.acked <= w.acked + (if steps[0].AckStep? then {steps[0].id} else {});
      AckedByGateway(v, steps[1..], id);
      if exists i :: 0 <= i < |steps[1..]| && steps[1..][i].AckStep? && steps[1..][i].id == id {
        var i :| 0 <= i < |steps[1..]| && steps[1..][i].AckStep? && steps[1..][i].id == id;
        assert steps[i + 1].AckStep? && steps[i + 1].id == id;
      }
    }
  }

  /** Hand out and acknowledge, one queued event after another. */
  ghost function DrainSteps(events: seq<Event>): seq<Step> {
    if events == [] then []
    else [NextEventStep(Synced), AckStep(events[0].id, events[0].uuid, events[0].status, Synced)] + DrainSteps(events[1..])
  }

  /** One round with a working disk and gateway: the oldest event is delivered and gone. */
  lemma DrainRound(w: World)
    requires Inv(w) && w.up && w.st.mem.events != []
    ensures var e := w.st.mem.events[0];
            var v := NextHandOut(w, NextEventStep(Synced));
            var ack := AckStep(e.id, e.uuid, e.status, Synced);
            && Enabled(v, ack) && Inv(NextAck(v, ack)) && NextAck(v, ack).up
            && NextAck(v, ack).st.mem == w.st.mem.(events := w.st.mem.events[1..])
            && NextAck(v, ack).log == w.log && e.id in NextAck(v, ack).acked
  {
    var e := w.st.mem.events[0];
    NextEventKeeps(w, NextEventStep(Synced));
    var v := NextHandOut(w, NextEventStep(Synced));
    assert v.st.mem == w.st.mem && e in v.delivered;
    AckKeeps(v, AckStep(e.id, e.uuid, e.status, Synced));
  }

  lemma RunTwo(w: World, a: Step, b: Step, rest: seq<Step>)
    requires Enabled(w, a) && Enabled(Next(w, a), b) && ValidRun(Next(Next(w, a), b), rest)
    ensures ValidRun(w, [a, b] + rest) && Run(w, [a, b] + rest) == Run(Next(Next(w, a), b), rest)
  {
    var steps := [a, b] + rest;
    assert steps[1..] == [b] + rest && steps[1..][1..] == rest;
  }

  /** An empty queue means everything was delivered and saved. */
  lemma EmptyMeansDelivered(w: World)
    requires Inv(w) && w.up && w.st.mem.events == []
    ensures w.delivered == w.persisted == w.log
  {
    assert |w.log| == w.popped;
  }

  /** From any state of any run, a working disk and gateway drain the queue: everything reported so far is then
      delivered, saved, and in the order it was reported. */
  lemma {:induction false} DrainDelivers(w: World)
    requires Inv(w) && w.up
    ensures ValidRun(w, DrainSteps(w.st.mem.events))
    ensures var v := Run(w, DrainSteps(w.st.mem.events));
            && v.st.mem == w.st.mem.(events := [])
            && v.delivered == v.persisted == v.log == w.log
    decreases |w.st.mem.events|
  {
    if w.st.mem.events == [] {
      EmptyMeansDelivered(w);
    } else {
      DrainRound(w);
      var e := w.st.mem.events[0];
      var ack := AckStep(e.id, e.uuid, e.status, Synced);
      var u := NextAck(NextHandOut(w, NextEventStep(Synced)), ack);
      DrainDelivers(u);
      RunTwo(w, NextEventStep(Synced), ack, DrainSteps(u.st.mem.events));
    }
  }

  lemma ReachableDrains(w: World, before: seq<Step>)
    requires Reachable(w, before) && w.up
    ensures ValidRun(w, DrainSteps(w.st.mem.events))
    ensures var v := Run(w, DrainSteps(w.st.mem.events)); v.st.mem.events == [] && v.delivered == v.persisted == w.log
  {
    ReachableInv(w, before);
    DrainDelivers(w);
  }
}
