/** Whole runs of the outbox: operations, failed writes, crashes and reopens,
    starting from an empty directory, together with what an observer of the disk
    and of the gateway would record. */
module OutboxRuns {
  import opened Wrappers
  import opened OutboxSpec

  /** `st.mem` and `st.healthy` mean nothing while the process is down.

      The remaining fields record the run and never influence it:
      `log`        every event this process believes in, oldest first;
      `persisted`  the same, as the file on disk would give it back;
      `popped`, `diskPopped`  how many events of each have left the queue;
      `delivered`  events handed to the gateway, in order of first hand-out;
      `acked`      identifiers removed by an acknowledgement;
      `contents`   the quarantine each generated revision stood for;
      `used`       every identifier generated so far. */
  datatype World = World(
    up: bool,
    st: State,
    log: seq<Event>,
    persisted: seq<Event>,
    popped: nat,
    diskPopped: nat,
    delivered: seq<Event>,
    acked: set<Ident>,
    contents: map<Ident, seq<Event>>,
    used: set<Ident>)

  datatype Step =
    | CrashStep
    | OpenStep(order: seq<string>, ids: seq<Ident>, revision: Ident, now: nat, io: FlushIo)
    | ReportStep(uuid: string, status: Status, id: Ident, now: nat, io: FlushIo)
    | NextEventStep(io: FlushIo)
    | AckStep(id: Ident, uuid: string, status: Status, io: FlushIo)
    | QuarantineStep(id: Ident, uuid: string, status: Status, reason: Reason, revision: Ident, io: FlushIo)
    | ArchiveStep(target: Ident, revision: Ident, backupIo: BackupIo, io: FlushIo)

  function ToSet<T(==)>(s: seq<T>): set<T> {
    set x | x in s
  }

  function Fresh(): World {
    World(false, State(EmptySnapshot(), false, Disk(None, map[])), [], [], 0, 0, [], {}, map[], {})
  }

  /** Generated identifiers are UUIDs never generated before. */
  predicate NewId(w: World, id: Ident) {
    IsUuid(id) && id !in w.used
  }

  /** The gateway only answers what it was sent, echoing its identity. */
  predicate Echo(w: World, id: Ident, uuid: string, status: Status) {
    exists e :: e in w.delivered && e.id == id && e.uuid == uuid && e.status == status
  }

  predicate Enabled(w: World, s: Step) {
    match s
    case CrashStep => w.up
    case OpenStep(order, ids, revision, _, _) =>
      && !w.up
      && Enumerates(order, Stored(w.st.disk).active)
      && |ids| == |order|
      && (forall i :: 0 <= i < |ids| ==> NewId(w, ids[i]) && ids[i] != revision)
      && (forall i, j :: 0 <= i < j < |ids| ==> ids[i] != ids[j])
      && NewId(w, revision)
    case ReportStep(_, _, id, _, _) => w.up && NewId(w, id)
    case NextEventStep(_) => w.up
    case AckStep(id, uuid, status, _) => w.up && Echo(w, id, uuid, status)
    case QuarantineStep(id, uuid, status, _, revision, _) => w.up && Echo(w, id, uuid, status) && NewId(w, revision)
    case ArchiveStep(_, revision, _, _) => w.up && NewId(w, revision)
  }

  /** Records an operation that left `st`, having written the file or not. */
  function Record(w: World, st: State, wrote: bool, log: seq<Event>, popped: nat): World {
    w.(
      st := st,
      log := log,
      popped := popped,
      persisted := if wrote then log else w.persisted,
      diskPopped := if wrote then popped else w.diskPopped)
  }

  function Note(contents: map<Ident, seq<Event>>, s: Snapshot): map<Ident, seq<Event>> {
    if s.revision in contents then contents else contents[s.revision := s.quarantine]
  }

  function Learn(w: World, ids: set<Ident>): World {
    w.(contents := Note(w.contents, w.st.mem), used := w.used + ids)
  }

  function Crashed(w: World): World {
    w.(up := false, log := w.persisted, popped := w.diskPopped, st := w.st.(healthy := false))
  }

  function NextOpen(w: World, s: Step): World
    requires s.OpenStep? && Enabled(w, s)
  {
    var o := Open(w.st.disk, s.order, s.ids, s.revision, s.now, s.io);
    if Defect(Stored(w.st.disk)).Some? then w
    else
      var started := Learn(Record(w, o.st, o.wrote, w.log + Closes(s.order, s.ids, s.now), w.popped), ToSet(s.ids) + {s.revision}).(up := true);
      if o.result.Ok? then started else Crashed(started)
  }

  function NextReport(w: World, s: Step): World
    requires s.ReportStep?
  {
    var o := Report(w.st, s.uuid, s.status, s.id, s.now, s.io);
    var added := |o.st.mem.events| > |w.st.mem.events|;
    Learn(Record(w, o.st, o.wrote, if added then w.log + [Event(s.id, s.uuid, s.status, s.now, NoReason)] else w.log, w.popped), {s.id})
  }

  function NextHandOut(w: World, s: Step): World
    requires s.NextEventStep?
  {
    var o := NextEvent(w.st, s.io);
    var after := Record(w, o.st, o.wrote, w.log, w.popped);
    if o.result.Ok? && o.result.value.Some? && o.result.value.value !in w.delivered
    then after.(delivered := w.delivered + [o.result.value.value])
    else after
  }

  function NextAck(w: World, s: Step): World
    requires s.AckStep?
  {
    var o := Acknowledge(w.st, s.id, s.uuid, s.status, s.io);
    var removed := |o.st.mem.events| < |w.st.mem.events|;
    Record(w, o.st, o.wrote, w.log, if removed then w.popped + 1 else w.popped).(
      acked := if removed then w.acked + {s.id} else w.acked)
  }

  function NextQuarantine(w: World, s: Step): World
    requires s.QuarantineStep?
  {
    var o := Quarantine(w.st, s.id, s.uuid, s.status, s.reason, s.revision, s.io);
    var removed := |o.st.mem.events| < |w.st.mem.events|;
    Learn(Record(w, o.st, o.wrote, w.log, if removed then w.popped + 1 else w.popped), {s.revision})
  }

  function NextArchive(w: World, s: Step): World
    requires s.ArchiveStep?
  {
    var o := Archive(w.st, s.target, s.revision, s.backupIo, s.io);
    Learn(Record(w, o.st, o.wrote, w.log, w.popped), {s.revision})
  }

  function Next(w: World, s: Step): World
    requires Enabled(w, s)
  {
    match s
    case CrashStep => Crashed(w)
    case OpenStep(_, _, _, _, _) => NextOpen(w, s)
    case ReportStep(_, _, _, _, _) => NextReport(w, s)
    case NextEventStep(_) => NextHandOut(w, s)
    case AckStep(_, _, _, _) => NextAck(w, s)
    case QuarantineStep(_, _, _, _, _, _) => NextQuarantine(w, s)
    case ArchiveStep(_, _, _, _) => NextArchive(w, s)
  }

  ghost predicate ValidRun(w: World, steps: seq<Step>)
    decreases |steps|
  {
    steps != [] ==> Enabled(w, steps[0]) && ValidRun(Next(w, steps[0]), steps[1..])
  }

  ghost function Run(w: World, steps: seq<Step>): World
    requires ValidRun(w, steps)
    decreases |steps|
  {
    if steps == [] then w else Run(Next(w, steps[0]), steps[1..])
  }

  // ---------- what a history says about a pair ----------

  /** Whether the last event about `u` opened it. */
  ghost predicate IsActive(h: seq<Event>, u: string) {
    h != [] && var e := h[|h| - 1]; if e.uuid == u then e.status.Active? else IsActive(h[..|h| - 1], u)
  }

  /** Each event flips the state its pair was in. */
  ghost predicate Alternates(h: seq<Event>) {
    forall i :: 0 <= i < |h| ==> FlipsAt(h, i)
  }

  ghost predicate FlipsAt(h: seq<Event>, i: nat)
    requires i < |h|
  {
    h[i].status == if IsActive(h[..i], h[i].uuid) then Closed else Active
  }

  /** The statuses recorded for one pair, in order. */
  ghost function Statuses(h: seq<Event>, u: string): seq<Status> {
    if h == [] then [] else
      var rest := Statuses(h[..|h| - 1], u);
      if h[|h| - 1].uuid == u then rest + [h[|h| - 1].status] else rest
  }

  // ---------- the invariant ----------

  ghost predicate HistoryOk(h: seq<Event>, used: set<Ident>) {
    && DistinctIds(h)
    && (forall e :: e in h ==> ValidEvent(e) && e.reason.NoReason? && e.id in used)
    && Alternates(h)
  }

  ghost predicate QuarantineOk(q: seq<Event>, used: set<Ident>) {
    forall e :: e in q ==> ValidEvent(e) && e.reason.CredentialRotated? && e.id in used
  }

  /** Quarantined events are removed events of the history, with the reason filled in. */
  ghost predicate Origin(q: seq<Event>, h: seq<Event>, popped: nat)
    requires popped <= |h|
  {
    forall e :: e in q ==> e.(reason := NoReason) in h[..popped]
  }

  /** A snapshot is the unremoved part of a history. */
  ghost predicate Holds(s: Snapshot, h: seq<Event>, popped: nat, w: World) {
    && s.version == 2
    && popped <= |h|
    && s.events == h[popped..]
    && (forall u :: u in s.active <==> IsActive(h, u))
    && (forall u :: u in s.active ==> ValidPair(u))
    && Size(s) <= CAPACITY
    && QuarantineOk(s.quarantine, w.used)
    && Origin(s.quarantine, h, popped)
    && DistinctIds(s.events + s.quarantine)
    && IsUuid(s.revision)
    && s.revision in w.contents
    && w.contents[s.revision] == s.quarantine
    && s.lastArchive != s.revision
    && (s.lastArchive == Text("") || s.lastArchive in w.used)
  }

  ghost predicate InBackup(backups: map<Ident, Backup>, e: Event) {
    exists r :: r in backups && backups[r].Complete? && e in backups[r].page.events
  }

  /** A removed event was acknowledged, or is quarantined, or is backed up. */
  ghost predicate Settled(w: World, s: Snapshot, e: Event) {
    || e.id in w.acked
    || e.(reason := CredentialRotated) in s.quarantine
    || InBackup(w.st.disk.backups, e.(reason := CredentialRotated))
  }

  ghost predicate AllSettled(w: World, s: Snapshot, h: seq<Event>, popped: nat)
    requires popped <= |h|
  {
    forall i :: 0 <= i < popped ==> SettledAt(w, s, h, i)
  }

  ghost predicate SettledAt(w: World, s: Snapshot, h: seq<Event>, i: nat)
    requires i < |h|
  {
    Settled(w, s, h[i])
  }

  ghost predicate BackupsOk(w: World) {
    forall r :: r in w.st.disk.backups && w.st.disk.backups[r].Complete? ==>
      r in w.contents && w.st.disk.backups[r].page == Page(r, |w.contents[r]|, 0, w.contents[r])
  }

  /** Everything but the link between `healthy` and the disk. */
  ghost predicate Core(w: World) {
    && HistoryOk(w.log, w.used)
    && w.persisted <= w.log
    && w.delivered <= w.persisted
    && w.popped <= |w.delivered|
    && w.diskPopped <= |w.delivered|
    && w.contents.Keys <= w.used
    && BackupsOk(w)
    && (w.up ==> Holds(w.st.mem, w.log, w.popped, w) && AllSettled(w, w.st.mem, w.log, w.popped))
    && match w.st.disk.file
       case None => w.persisted == [] && w.diskPopped == 0
       case Some(s) => Holds(s, w.persisted, w.diskPopped, w) && AllSettled(w, s, w.persisted, w.diskPopped)
  }

  ghost predicate Inv(w: World) {
    && Core(w)
    && (w.up && w.st.healthy ==> w.st.disk.file == Some(w.st.mem) && w.persisted == w.log && w.diskPopped == w.popped)
    && (!w.up ==> w.log == w.persisted && w.popped == w.diskPopped && !w.st.healthy)
  }

  // ---------- histories ----------

  lemma AppendEvent(h: seq<Event>, e: Event, used: set<Ident>)
    requires HistoryOk(h, used)
    requires ValidEvent(e) && e.reason.NoReason? && e.id !in used
    requires e.status == if IsActive(h, e.uuid) then Closed else Active
    ensures HistoryOk(h + [e], used + {e.id})
    ensures forall u :: IsActive(h + [e], u) <==> if u == e.uuid then e.status.Active? else IsActive(h, u)
  {
    var g := h + [e];
    assert g[..|h|] == h;
    forall i | 0 <= i < |g| ensures FlipsAt(g, i) {
      if i < |h| {
        assert g[..i] == h[..i] && FlipsAt(h, i);
      }
    }
    forall i, j | 0 <= i < j < |g| ensures Differ(g, i, j) {
      assert g[i] in h;
      if j < |h| {
        assert Differ(h, i, j);
      }
    }
  }

  lemma ClosesSplit(order: seq<string>, ids: seq<Ident>, now: nat)
    requires |order| == |ids| > 0
    ensures var n := |order| - 1;
            && Closes(order, ids, now) == Closes(order[..n], ids[..n], now) + [Event(ids[n], order[n], Closed, now, NoReason)]
            && ToSet(ids) == ToSet(ids[..n]) + {ids[n]}
            && ToSet(order) == ToSet(order[..n]) + {order[n]}
  {
    var n := |order| - 1;
    assert ids == ids[..n] + [ids[n]] && order == order[..n] + [order[n]];
  }

  /** A list of distinct open pairs and new identifiers for their closing events. */
  ghost predicate Closable(h: seq<Event>, order: seq<string>, ids: seq<Ident>, used: set<Ident>) {
    && |order| == |ids|
    && (forall i :: 0 <= i < |order| ==> IsUuid(ids[i]) && ids[i] !in used && ValidPair(order[i]) && IsActive(h, order[i]))
    && (forall i, j :: 0 <= i < j < |order| ==> order[i] != order[j] && ids[i] != ids[j])
  }

  lemma ClosableInit(h: seq<Event>, order: seq<string>, ids: seq<Ident>, used: set<Ident>)
    requires Closable(h, order, ids, used) && order != []
    ensures var n := |order| - 1;
            && Closable(h, order[..n], ids[..n], used)
            && IsUuid(ids[n]) && ValidPair(order[n]) && ids[n] !in used && IsActive(h, order[n])
            && order[n] !in ToSet(order[..n]) && ids[n] !in ToSet(ids[..n])
  {
  }

  lemma {:induction false} AppendCloses(h: seq<Event>, order: seq<string>, ids: seq<Ident>, now: nat, used: set<Ident>)
    requires HistoryOk(h, used) && Closable(h, order, ids, used)
    ensures HistoryOk(h + Closes(order, ids, now), used + ToSet(ids))
    ensures forall u :: IsActive(h + Closes(order, ids, now), u) <==> IsActive(h, u) && u !in ToSet(order)
    decreases |order|
  {
    if order == [] {
      assert h + Closes(order, ids, now) == h;
      assert used + ToSet(ids) == used;
    } else {
      var n := |order| - 1;
      var g := h + Closes(order[..n], ids[..n], now);
      var e := Event(ids[n], order[n], Closed, now, NoReason);
      ClosableInit(h, order, ids, used);
      AppendCloses(h, order[..n], ids[..n], now, used);
      AppendEvent(g, e, used + ToSet(ids[..n]));
      ClosesSplit(order, ids, now);
      assert h + Closes(order, ids, now) == g + [e];
      assert used + ToSet(ids) == used + ToSet(ids[..n]) + {e.id};
    }
  }
}
