/** The relay's durable lifecycle outbox as values: the in-memory snapshot, the
    directory on disk, and each operation as a function of both.  What the
    environment decides (how far a write got, generated identifiers, the clock,
    hash-set order) is a parameter.
 */
module OutboxSpec {
  import opened Wrappers

  const CAPACITY := 4096
  const PAGE_SIZE := 10
  const SAMPLE_SIZE := 5

  datatype Error =
    | AlreadyInUse | UnsupportedVersion | CapacityExceeded | InvalidEvent
    | InvalidReason | InvalidUuid | InvalidState | StorageUnavailable
    | DuplicateActive | OutboxFull | IdentityMismatch | QuarantineChanged
    | QuarantineEmpty | InvalidRevision | InvalidOffset | BackupMismatch | IoFailure

  datatype Result<+T> = Ok(value: T) | Err(error: Error)

  datatype Form = Simple | Hyphenated | Braced | Urn

  /** An identifier or revision: the text of a UUID, or any other text.  A UUID can be spelled in four forms
      and, `capitals` says how, in two cases of letters; different spellings are different texts. */
  datatype Ident = Uuid(value: nat, form: Form, capitals: nat) | Text(text: string)

  datatype Status = Active | Closed | OtherStatus(text: string)

  datatype Reason = NoReason | CredentialRotated | OtherReason(text: string)

  /** A lifecycle event: `id` identifies the event, `uuid` the relayed pair. */
  datatype Event = Event(id: Ident, uuid: string, status: Status, createdAt: nat, reason: Reason)

  /** The content of outbox.json. */
  datatype Snapshot = Snapshot(
    version: nat,
    events: seq<Event>,
    active: set<string>,
    quarantine: seq<Event>,
    revision: Ident,
    lastArchive: Ident)

  datatype Page = Page(revision: Ident, total: nat, offset: nat, events: seq<Event>)

  /** A quarantine-<revision>.json file: torn by a failed write, or whole. */
  datatype Backup = Partial | Complete(page: Page)

  datatype Disk = Disk(file: Option<Snapshot>, backups: map<Ident, Backup>)

  datatype State = State(mem: Snapshot, healthy: bool, disk: Disk)

  /** How far replacing outbox.json got: synced; not renamed; renamed but the
      directory was not synced, so the new content may be there although the
      call fails. */
  datatype FlushIo = Synced | NotReplaced | ReplacedUnsynced

  /** How far creating a backup file got. */
  datatype BackupIo = BackupSynced | BackupAbsent | BackupTorn | BackupUnsynced

  /** What an operation leaves behind; `wrote` says whether outbox.json was replaced. */
  datatype Outcome<+T> = Outcome(st: State, result: Result<T>, wrote: bool)

  datatype DeliveryStatus = DeliveryStatus(
    pending: nat, quarantined: nat, reserved: nat, capacity: nat,
    healthy: bool, blocked: bool, oldestAt: nat, sample: seq<Event>)

  predicate IsUuid(id: Ident) {
    id.Uuid?
  }

  predicate ValidPair(uuid: string) {
    8 <= |uuid| <= 128
  }

  predicate ValidStatus(status: Status) {
    status.Active? || status.Closed?
  }

  predicate ValidEvent(e: Event) {
    IsUuid(e.id) && ValidPair(e.uuid) && ValidStatus(e.status)
  }

  predicate Differ(events: seq<Event>, i: nat, j: nat)
    requires i < |events| && j < |events|
  {
    events[i].id != events[j].id
  }

  predicate DistinctIds(events: seq<Event>) {
    forall i, j :: 0 <= i < j < |events| ==> Differ(events, i, j)
  }

  function Size(s: Snapshot): nat {
    |s.events| + |s.active| + |s.quarantine|
  }

  /** The error `open` finds in a snapshot read from disk, if any. */
  function Defect(s: Snapshot): Option<Error> {
    if s.version != 1 && s.version != 2 then Some(UnsupportedVersion)
    else if Size(s) > CAPACITY then Some(CapacityExceeded)
    else if !(forall e :: e in s.events + s.quarantine ==> ValidEvent(e)) || !DistinctIds(s.events + s.quarantine) then Some(InvalidEvent)
    else if !(forall e :: e in s.quarantine ==> e.reason.CredentialRotated?) then Some(InvalidReason)
    else if !(forall u :: u in s.active ==> ValidPair(u)) then Some(InvalidUuid)
    else None
  }

  function Write(st: State, io: FlushIo): (o: Outcome<()>) {
    match io
    case Synced => Outcome(State(st.mem, true, st.disk.(file := Some(st.mem))), Ok(()), true)
    case NotReplaced => Outcome(State(st.mem, false, st.disk), Err(IoFailure), false)
    case ReplacedUnsynced => Outcome(State(st.mem, false, st.disk.(file := Some(st.mem))), Err(IoFailure), true)
  }

  function EmptySnapshot(): Snapshot {
    Snapshot(2, [], {}, [], Text(""), Text(""))
  }

  predicate Enumerates(order: seq<string>, s: set<string>) {
    && s == (set u | u in order)
    && forall i, j :: 0 <= i < j < |order| ==> order[i] != order[j]
  }

  /** Closing events for pairs that were open when the process died. */
  function Closes(order: seq<string>, ids: seq<Ident>, now: nat): (r: seq<Event>)
    requires |order| == |ids|
    ensures |r| == |order|
  {
    seq(|order|, i requires 0 <= i < |order| => Event(ids[i], order[i], Closed, now, NoReason))
  }

  function Stored(disk: Disk): Snapshot {
    match disk.file case None => EmptySnapshot() case Some(s) => s
  }

  /** The snapshot `open` builds from the file. */
  function Recovered(stored: Snapshot, order: seq<string>, ids: seq<Ident>, revision: Ident, now: nat): Snapshot
    requires |order| == |ids|
  {
    stored.(
      version := 2,
      revision := if stored.revision == Text("") then revision else stored.revision,
      events := stored.events + Closes(order, ids, now),
      active := {})
  }

  /** `order` is the hash-set order in which `active` is drained. */
  function Open(disk: Disk, order: seq<string>, ids: seq<Ident>, revision: Ident, now: nat, io: FlushIo): Outcome<()>
    requires |order| == |ids|
  {
    match Defect(Stored(disk))
    case Some(error) => Outcome(State(Stored(disk), false, disk), Err(error), false)
    case None => Write(State(Recovered(Stored(disk), order, ids, revision, now), false, disk), io)
  }

  predicate CanAdmit(st: State) {
    st.healthy && Size(st.mem) + 2 <= CAPACITY
  }

  function Report(st: State, uuid: string, status: Status, id: Ident, now: nat, io: FlushIo): Outcome<()> {
    var appended := st.mem.events + [Event(id, uuid, status, now, NoReason)];
    if !ValidPair(uuid) then Outcome(st, Err(InvalidUuid), false)
    else if status.Active? then
      if !st.healthy then Outcome(st, Err(StorageUnavailable), false)
      else if uuid in st.mem.active then Outcome(st, Err(DuplicateActive), false)
      else if Size(st.mem) + 2 > CAPACITY then Outcome(st, Err(OutboxFull), false)
      else Write(st.(mem := st.mem.(active := st.mem.active + {uuid}, events := appended)), io)
    else if status.Closed? then
      if uuid !in st.mem.active then Outcome(st, Ok(()), false)
      else Write(st.(mem := st.mem.(active := st.mem.active - {uuid}, events := appended)), io)
    else Outcome(st, Err(InvalidState), false)
  }

  predicate FrontIs(s: Snapshot, id: Ident) {
    s.events != [] && s.events[0].id == id
  }

  predicate FrontMatches(s: Snapshot, uuid: string, status: Status)
    requires s.events != []
  {
    s.events[0].uuid == uuid && s.events[0].status == status
  }

  function Acknowledge(st: State, id: Ident, uuid: string, status: Status, io: FlushIo): Outcome<()> {
    if !FrontIs(st.mem, id) then Outcome(st, Ok(()), false)
    else if !FrontMatches(st.mem, uuid, status) then Outcome(st, Err(IdentityMismatch), false)
    else Write(st.(mem := st.mem.(events := st.mem.events[1..])), io)
  }

  /** `revision` is the identifier generated for the changed quarantine. */
  function Quarantine(st: State, id: Ident, uuid: string, status: Status, reason: Reason, revision: Ident, io: FlushIo): Outcome<()> {
    if !reason.CredentialRotated? then Outcome(st, Err(InvalidReason), false)
    else if !FrontIs(st.mem, id) then Outcome(st, Ok(()), false)
    else if !FrontMatches(st.mem, uuid, status) then Outcome(st, Err(IdentityMismatch), false)
    else Write(st.(mem := st.mem.(
        events := st.mem.events[1..],
        quarantine := st.mem.quarantine + [st.mem.events[0].(reason := reason)],
        revision := revision)), io)
  }

  function FullPage(s: Snapshot): Page {
    Page(s.revision, |s.quarantine|, 0, s.quarantine)
  }

  function Drop(events: seq<Event>, offset: nat): seq<Event> {
    if offset <= |events| then events[offset..] else []
  }

  function Take(events: seq<Event>, count: nat): seq<Event> {
    if count <= |events| then events[..count] else events
  }

  function QuarantinePage(s: Snapshot, revision: Ident, offset: nat): Result<Page> {
    if revision != Text("") && revision != s.revision then Err(QuarantineChanged)
    else if offset > |s.quarantine| then Err(InvalidOffset)
    else Ok(Page(s.revision, |s.quarantine|, offset, Take(Drop(s.quarantine, offset), PAGE_SIZE)))
  }

  /** The backup half of archiving: the files afterwards, and the error if the
      quarantine must not be removed. */
  function BackUp(backups: map<Ident, Backup>, page: Page, io: BackupIo): (map<Ident, Backup>, Option<Error>) {
    if page.revision in backups then
      if backups[page.revision] != Complete(page) then (backups, Some(BackupMismatch))
      else if io != BackupSynced then (backups, Some(IoFailure))
      else (backups, None)
    else match io
      case BackupSynced => (backups[page.revision := Complete(page)], None)
      case BackupAbsent => (backups, Some(IoFailure))
      case BackupTorn => (backups[page.revision := Partial], Some(IoFailure))
      case BackupUnsynced => (backups[page.revision := Complete(page)], Some(IoFailure))
  }

  /** `nextRevision` is the identifier generated for the emptied quarantine. */
  function Archive(st: State, revision: Ident, nextRevision: Ident, backupIo: BackupIo, io: FlushIo): Outcome<()> {
    if !IsUuid(revision) then Outcome(st, Err(InvalidRevision), false)
    else if st.mem.lastArchive == revision then Write(st, io)
    else if !st.healthy || revision != st.mem.revision then Outcome(st, Err(QuarantineChanged), false)
    else if st.mem.quarantine == [] then Outcome(st, Err(QuarantineEmpty), false)
    else
      var (backups, error) := BackUp(st.disk.backups, FullPage(st.mem), backupIo);
      var backedUp := st.(disk := st.disk.(backups := backups));
      match error
      case Some(e) => Outcome(backedUp, Err(e), false)
      case None => Write(backedUp.(mem := st.mem.(quarantine := [], lastArchive := revision, revision := nextRevision)), io)
  }

  /** `next_event`: an unhealthy outbox must reach disk before its front is shown. */
  function NextEvent(st: State, io: FlushIo): Outcome<Option<Event>> {
    var o := if st.healthy then Outcome(st, Ok(()), false) else Write(st, io);
    match o.result
    case Err(e) => Outcome(o.st, Err(e), o.wrote)
    case Ok(_) => Outcome(o.st, Ok(Front(o.st.mem)), o.wrote)
  }

  function Front(s: Snapshot): Option<Event> {
    if s.events == [] then None else Some(s.events[0])
  }

  function Summary(st: State): DeliveryStatus {
    DeliveryStatus(
      |st.mem.events|, |st.mem.quarantine|, |st.mem.active|, CAPACITY,
      st.healthy, !CanAdmit(st),
      if st.mem.events == [] then 0 else st.mem.events[0].createdAt,
      Take(st.mem.quarantine, SAMPLE_SIZE))
  }
}
