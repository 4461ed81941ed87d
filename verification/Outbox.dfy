/** The outbox as the relay runs it: an object over a directory it owns, whose
    methods change the snapshot in place and then write it out. */
module Outbox {
  import opened Wrappers
  import opened OutboxSpec

  /** The outbox directory: outbox.json, the backup files and owner.lock. */
  class Directory {
    var file: Option<Snapshot>
    var backups: map<Ident, Backup>
    var locked: bool

    constructor ()
      ensures file == None && backups == map[] && !locked
    {
      file, backups, locked := None, map[], false;
    }

    ghost function Content(): Disk
      reads this
    {
      Disk(file, backups)
    }
  }

  /** The identity loop of `open`: every event well formed, no identifier twice. */
  method CheckEvents(all: seq<Event>) returns (ok: bool)
    ensures ok <==> (forall e :: e in all ==> ValidEvent(e)) && DistinctIds(all)
  {
    var identities: set<Ident> := {};
    for i := 0 to |all|
      invariant forall k :: 0 <= k < i ==> ValidEvent(all[k])
      invariant forall j, k :: 0 <= j < k < i ==> Differ(all, j, k)
      invariant identities == set k | 0 <= k < i :: all[k].id
    {
      if !ValidEvent(all[i]) || all[i].id in identities {
        assert all[i] in all;
        if ValidEvent(all[i]) {
          var k :| 0 <= k < i && all[k].id == all[i].id;
          assert !Differ(all, k, i);
        }
        return false;
      }
      identities := identities + {all[i].id};
    }
    return true;
  }

  method CheckReasons(quarantine: seq<Event>) returns (ok: bool)
    ensures ok <==> forall e :: e in quarantine ==> e.reason.CredentialRotated?
  {
    for i := 0 to |quarantine|
      invariant forall k :: 0 <= k < i ==> quarantine[k].reason.CredentialRotated?
    {
      if !quarantine[i].reason.CredentialRotated? {
        assert quarantine[i] in quarantine;
        return false;
      }
    }
    return true;
  }

  /** The drain loop of `open`: one closing event per pair that was still open. */
  method CloseInterrupted(events: seq<Event>, order: seq<string>, ids: seq<Ident>, now: nat) returns (r: Result<seq<Event>>)
    requires |ids| == |order|
    ensures r == if forall u :: u in order ==> ValidPair(u) then Ok(events + Closes(order, ids, now)) else Err(InvalidUuid)
  {
    var queue := events;
    for i := 0 to |order|
      invariant forall k :: 0 <= k < i ==> ValidPair(order[k])
      invariant queue == events + Closes(order, ids, now)[..i]
    {
      if !ValidPair(order[i]) {
        assert order[i] in order;
        return Err(InvalidUuid);
      }
      queue := queue + [Event(ids[i], order[i], Closed, now, NoReason)];
    }
    assert Closes(order, ids, now)[..|order|] == Closes(order, ids, now);
    return Ok(queue);
  }

  /** Validates the stored snapshot, migrates it and closes interrupted pairs. */
  method Recover(stored: Snapshot, order: seq<string>, ids: seq<Ident>, revision: Ident, now: nat)
    returns (r: Result<Snapshot>)
    requires Enumerates(order, stored.active) && |ids| == |order|
    ensures r == match Defect(stored)
                 case Some(e) => Err(e)
                 case None => Ok(Recovered(stored, order, ids, revision, now))
  {
    if stored.version != 1 && stored.version != 2 {
      return Err(UnsupportedVersion);
    }
    var snapshot := stored.(version := 2);
    if snapshot.revision == Text("") {
      snapshot := snapshot.(revision := revision);
    }
    if |snapshot.events| + |snapshot.active| + |snapshot.quarantine| > CAPACITY {
      return Err(CapacityExceeded);
    }
    var sound := CheckEvents(snapshot.events + snapshot.quarantine);
    if !sound {
      return Err(InvalidEvent);
    }
    var explained := CheckReasons(snapshot.quarantine);
    if !explained {
      return Err(InvalidReason);
    }
    assert forall u :: u in stored.active <==> u in order;
    var queue := CloseInterrupted(snapshot.events, order, ids, now);
    if queue.Err? {
      return Err(queue.error);
    }
    return Ok(snapshot.(events := queue.value, active := {}));
  }

  class Outbox {
    const dir: Directory
    var snapshot: Snapshot
    var healthy: bool

    ghost function Value(): State
      reads this, dir
    {
      State(snapshot, healthy, dir.Content())
    }

    constructor (dir: Directory, snapshot: Snapshot)
      ensures this.dir == dir && this.snapshot == snapshot && !healthy
    {
      this.dir, this.snapshot, this.healthy := dir, snapshot, false;
    }

    /** Opens a directory; the lock is kept only by an outbox that was returned. */
    static method Open(dir: Directory, order: seq<string>, ids: seq<Ident>, revision: Ident, now: nat, io: FlushIo)
      returns (r: Result<Outbox>)
      requires Enumerates(order, Stored(dir.Content()).active) && |ids| == |order|
      modifies dir
      ensures old(dir.locked) ==> r == Err(AlreadyInUse) && unchanged(dir)
      ensures !old(dir.locked) ==>
                var o := OutboxSpec.Open(old(dir.Content()), order, ids, revision, now, io);
                && dir.Content() == o.st.disk
                && dir.locked == r.Ok?
                && (o.result.Ok? <==> r.Ok?)
                && (r.Ok? ==> fresh(r.value) && r.value.dir == dir && r.value.Value() == o.st)
                && (r.Err? ==> r.error == o.result.error)
    {
      if dir.locked {
        return Err(AlreadyInUse);
      }
      var stored := EmptySnapshot();
      if dir.file.Some? {
        stored := dir.file.value;
      }
      var recovered := Recover(stored, order, ids, revision, now);
      if recovered.Err? {
        return Err(recovered.error);
      }
      var value := new Outbox(dir, recovered.value);
      var flushed := value.Flush(io);
      if flushed.Err? {
        return Err(flushed.error);
      }
      dir.locked := true;
      return Ok(value);
    }

    method Flush(io: FlushIo) returns (r: Result<()>)
      modifies this`healthy, dir`file
      ensures Value() == Write(old(Value()), io).st && r == Write(old(Value()), io).result
    {
      healthy := false;
      match io {
        case NotReplaced =>
          return Err(IoFailure);
        case ReplacedUnsynced =>
          dir.file := Some(snapshot);
          return Err(IoFailure);
        case Synced =>
          dir.file := Some(snapshot);
          healthy := true;
          return Ok(());
      }
    }

    method Admits() returns (r: bool)
      ensures r == CanAdmit(Value())
    {
      r := healthy && |snapshot.events| + |snapshot.active| + |snapshot.quarantine| + 2 <= CAPACITY;
    }

    method Report(uuid: string, status: Status, id: Ident, now: nat, io: FlushIo) returns (r: Result<()>)
      modifies this`snapshot, this`healthy, dir`file
      ensures Value() == OutboxSpec.Report(old(Value()), uuid, status, id, now, io).st
      ensures r == OutboxSpec.Report(old(Value()), uuid, status, id, now, io).result
    {
      if !(8 <= |uuid| <= 128) {
        return Err(InvalidUuid);
      }
      if status.Active? {
        if !healthy {
          return Err(StorageUnavailable);
        }
        if uuid in snapshot.active {
          return Err(DuplicateActive);
        }
        if |snapshot.events| + |snapshot.active| + |snapshot.quarantine| + 2 > CAPACITY {
          return Err(OutboxFull);
        }
        snapshot := snapshot.(active := snapshot.active + {uuid});
      } else if status.Closed? {
        if uuid !in snapshot.active {
          return Ok(());
        }
        snapshot := snapshot.(active := snapshot.active - {uuid});
      } else {
        return Err(InvalidState);
      }
      snapshot := snapshot.(events := snapshot.events + [Event(id, uuid, status, now, NoReason)]);
      r := Flush(io);
    }

    method Acknowledge(id: Ident, uuid: string, status: Status, io: FlushIo) returns (r: Result<()>)
      modifies this`snapshot, this`healthy, dir`file
      ensures Value() == OutboxSpec.Acknowledge(old(Value()), id, uuid, status, io).st
      ensures r == OutboxSpec.Acknowledge(old(Value()), id, uuid, status, io).result
    {
      if snapshot.events != [] && snapshot.events[0].id == id {
        if snapshot.events[0].uuid != uuid || snapshot.events[0].status != status {
          return Err(IdentityMismatch);
        }
        snapshot := snapshot.(events := snapshot.events[1..]);
        r := Flush(io);
      } else {
        r := Ok(());
      }
    }

    method Quarantine(id: Ident, uuid: string, status: Status, reason: Reason, revision: Ident, io: FlushIo)
      returns (r: Result<()>)
      modifies this`snapshot, this`healthy, dir`file
      ensures Value() == OutboxSpec.Quarantine(old(Value()), id, uuid, status, reason, revision, io).st
      ensures r == OutboxSpec.Quarantine(old(Value()), id, uuid, status, reason, revision, io).result
    {
      if !reason.CredentialRotated? {
        return Err(InvalidReason);
      }
      if snapshot.events != [] && snapshot.events[0].id == id {
        var front := snapshot.events[0];
        if front.uuid != uuid || front.status != status {
          return Err(IdentityMismatch);
        }
        snapshot := snapshot.(events := snapshot.events[1..]);
        snapshot := snapshot.(quarantine := snapshot.quarantine + [front.(reason := reason)]);
        snapshot := snapshot.(revision := revision);
        r := Flush(io);
      } else {
        r := Ok(());
      }
    }

    /** The relay's answer to one "list" request. */
    method ListPage(revision: Ident, offset: nat) returns (r: Result<Page>)
      ensures r == QuarantinePage(snapshot, revision, offset)
    {
      if revision != Text("") && revision != snapshot.revision {
        return Err(QuarantineChanged);
      }
      if offset > |snapshot.quarantine| {
        return Err(InvalidOffset);
      }
      var last := if offset + PAGE_SIZE <= |snapshot.quarantine| then offset + PAGE_SIZE else |snapshot.quarantine|;
      assert snapshot.quarantine[offset..last] == Take(Drop(snapshot.quarantine, offset), PAGE_SIZE);
      r := Ok(OutboxSpec.Page(snapshot.revision, |snapshot.quarantine|, offset, snapshot.quarantine[offset..last]));
    }

    method Archive(revision: Ident, nextRevision: Ident, backupIo: BackupIo, io: FlushIo) returns (r: Result<()>)
      modifies this`snapshot, this`healthy, dir`file, dir`backups
      ensures Value() == OutboxSpec.Archive(old(Value()), revision, nextRevision, backupIo, io).st
      ensures r == OutboxSpec.Archive(old(Value()), revision, nextRevision, backupIo, io).result
    {
      if !IsUuid(revision) {
        return Err(InvalidRevision);
      }
      if snapshot.lastArchive == revision {
        r := Flush(io);
        return;
      }
      if !healthy || revision != snapshot.revision {
        return Err(QuarantineChanged);
      }
      if snapshot.quarantine == [] {
        return Err(QuarantineEmpty);
      }
      var page := OutboxSpec.Page(revision, |snapshot.quarantine|, 0, snapshot.quarantine);
      if revision in dir.backups {
        if dir.backups[revision] != Complete(page) {
          return Err(BackupMismatch);
        }
      } else if backupIo == BackupTorn {
        dir.backups := dir.backups[revision := Partial];
      } else if backupIo != BackupAbsent {
        dir.backups := dir.backups[revision := Complete(page)];
      }
      if backupIo != BackupSynced {
        return Err(IoFailure);
      }
      snapshot := snapshot.(quarantine := []);
      snapshot := snapshot.(lastArchive := revision);
      snapshot := snapshot.(revision := nextRevision);
      r := Flush(io);
    }

    /** The reporter's `next_event`. */
    method NextEvent(io: FlushIo) returns (r: Result<Option<Event>>)
      modifies this`healthy, dir`file
      ensures Value() == OutboxSpec.NextEvent(old(Value()), io).st
      ensures r == OutboxSpec.NextEvent(old(Value()), io).result
    {
      if !healthy {
        var flushed := Flush(io);
        if flushed.Err? {
          return Err(flushed.error);
        }
      }
      if snapshot.events == [] {
        r := Ok(None);
      } else {
        r := Ok(Some(snapshot.events[0]));
      }
    }
  }
}
