/** Every interleaving of commands, connections, terminations, cleanups and control
    epochs.  `accept_authorized` holds the transition lock over three steps; the
    cleanup task and ending relays do not take that lock and may fall between. */
module AdmissionRuns {
  import opened Wrappers
  import opened AdmissionSpec

  /** Who is inside accept_authorized, and how far. */
  datatype Holder =
    | Idle
    | Consumed(uuid: string, conn: nat, serial: nat)
    | Matched(uuid: string, conn: nat, serial: nat, peer: Waiting)

  datatype Admission = Admission(serial: nat, uuid: string, conn: nat)

  datatype Pair = Pair(uuid: string, first: Waiting, second: Admission)

  /** `session` is the replay table of the control session, absent between
      sessions.  `owners` lists the uuid of every permit granted, by serial, and `grantedAt`
      when; `admissions`, `admittedAt` and `pairs` record what was let in. */
  datatype Relay = Relay(
    maps: Maps,
    session: Option<Table>,
    holder: Holder,
    clock: nat,
    owners: seq<string>,
    grantedAt: seq<nat>,
    admissions: seq<Admission>,
    admittedAt: seq<nat>,
    pairs: seq<Pair>)

  datatype Step =
    | Tick(millis: nat)
    | Deliver(command: Command, wall: nat, available: bool)
    | EndSession
    | ClearStep
    | StartSession
    | ConsumeStep(uuid: string, conn: nat)
    | JoinStep
    | ActivateStep(reported: bool)
    | FinishStep(uuid: string)
    | CleanPermits
    | CleanPending

  function Initial(): Relay {
    Relay(Maps(map[], map[], {}), None, Idle, 0, [], [], [], [], [])
  }

  predicate Enabled(r: Relay, s: Step) {
    match s
    case Deliver(_, _, _) => r.session.Some? && r.holder.Idle?
    case EndSession => r.session.Some?
    case ClearStep => r.session.None? && r.holder.Idle?
    case StartSession => r.session.None? && r.holder.Idle?
    case ConsumeStep(_, _) => r.holder.Idle?
    case JoinStep => r.holder.Consumed?
    case ActivateStep(_) => r.holder.Matched?
    case _ => true
  }

  /** A refused command ends the control session. */
  function Delivered(r: Relay, c: Command, wall: nat, available: bool): Relay
    requires r.session.Some?
  {
    var seen := r.session.value;
    match Refusal(r.maps, seen, c, wall, available)
    case Some(_) => r.(session := None)
    case None => r.(
      maps := Effect(r.maps, seen, c, r.clock, |r.owners|),
      session := Some(Remembered(r.maps, seen, c)),
      owners := if c.requestId !in seen && c.action.Grant? then r.owners + [c.uuid] else r.owners,
      grantedAt := if c.requestId !in seen && c.action.Grant? then r.grantedAt + [r.clock] else r.grantedAt)
  }

  function Next(r: Relay, s: Step): Relay
    requires Enabled(r, s)
  {
    match s
    case Tick(millis) => r.(clock := r.clock + millis)
    case Deliver(c, wall, available) => Delivered(r, c, wall, available)
    case EndSession => r.(session := None)
    case ClearStep => r.(maps := Cleared(r.maps))
    case StartSession => r.(maps := Cleared(r.maps), session := Some(map[]))
    case ConsumeStep(uuid, conn) =>
      if Rejection(r.maps, uuid, r.clock).Some? then r
      else
        var serial := r.maps.permits[uuid].serial;
        r.(
          maps := Spend(r.maps, uuid),
          holder := Consumed(uuid, conn, serial),
          admissions := r.admissions + [Admission(serial, uuid, conn)],
          admittedAt := r.admittedAt + [r.clock])
    case JoinStep =>
      var h := r.holder;
      r.(
        maps := Joined(r.maps, h.uuid, h.conn, h.serial, r.clock),
        holder := if h.uuid in r.maps.pending then Matched(h.uuid, h.conn, h.serial, r.maps.pending[h.uuid]) else Idle)
    case ActivateStep(reported) =>
      var h := r.holder;
      if !reported then r.(holder := Idle)
      else r.(
        holder := Idle,
        maps := r.maps.(active := r.maps.active + {h.uuid}),
        pairs := r.pairs + [Pair(h.uuid, h.peer, Admission(h.serial, h.uuid, h.conn))])
    case FinishStep(uuid) => r.(maps := r.maps.(active := r.maps.active - {uuid}))
    case CleanPermits => r.(maps := WithoutExpired(r.maps, r.clock))
    case CleanPending => r.(maps := WithoutStale(r.maps, r.clock))
  }

  ghost predicate ValidRun(r: Relay, steps: seq<Step>)
    decreases |steps|
  {
    steps != [] ==> Enabled(r, steps[0]) && ValidRun(Next(r, steps[0]), steps[1..])
  }

  ghost function Run(r: Relay, steps: seq<Step>): Relay
    requires ValidRun(r, steps)
    decreases |steps|
  {
    if steps == [] then r else Run(Next(r, steps[0]), steps[1..])
  }

  // ---------- counting ----------

  /** How many connections a permit admitted. */
  ghost function Admitted(log: seq<Admission>, serial: nat): nat {
    if log == [] then 0
    else Admitted(log[..|log| - 1], serial) + (if log[|log| - 1].serial == serial then 1 else 0)
  }

  /** How many pairs have a half admitted by a permit. */
  ghost function Paired(pairs: seq<Pair>, serial: nat): nat {
    if pairs == [] then 0
    else
      var last := pairs[|pairs| - 1];
      Paired(pairs[..|pairs| - 1], serial) + (if last.first.serial == serial || last.second.serial == serial then 1 else 0)
  }

  ghost function UsesLeft(r: Relay, serial: nat): nat {
    if serial < |r.owners| && r.owners[serial] in r.maps.permits && r.maps.permits[r.owners[serial]].serial == serial
    then r.maps.permits[r.owners[serial]].uses else 0
  }

  /** Connections of a permit that wait or are being matched. */
  ghost function InHand(r: Relay, serial: nat): nat {
    (if serial < |r.owners| && r.owners[serial] in r.maps.pending && r.maps.pending[r.owners[serial]].serial == serial then 1 else 0) +
    (match r.holder
     case Idle => 0
     case Consumed(_, _, s) => if s == serial then 1 else 0
     case Matched(_, _, s, _) => if s == serial then 2 else 0)
  }

  // ---------- the invariant ----------

  ghost predicate Owned(r: Relay, serial: nat, uuid: string) {
    serial < |r.owners| && r.owners[serial] == uuid
  }

  ghost predicate Named(r: Relay) {
    && (forall u :: u in r.maps.permits ==> Owned(r, r.maps.permits[u].serial, u) && 1 <= r.maps.permits[u].uses <= PERMIT_USES)
    && (forall u :: u in r.maps.pending ==> Owned(r, r.maps.pending[u].serial, u))
    && (forall u :: u in r.maps.pending && u in r.maps.permits ==> r.maps.pending[u].serial == r.maps.permits[u].serial)
    && match r.holder
       case Idle => true
       case Consumed(u, _, s) =>
         && Owned(r, s, u)
         && (u in r.maps.permits ==> r.maps.permits[u].serial == s)
         && (u in r.maps.pending ==> r.maps.pending[u].serial == s)
       case Matched(u, _, s, peer) => Owned(r, s, u) && peer.serial == s && u !in r.maps.pending
  }

  /** The accounts of one permit: what it admitted plus what it still allows never
      exceeds two, and everything in hand or paired was admitted by it. */
  ghost predicate Balanced(r: Relay, serial: nat) {
    && Admitted(r.admissions, serial) + UsesLeft(r, serial) <= PERMIT_USES
    && 2 * Paired(r.pairs, serial) + InHand(r, serial) <= Admitted(r.admissions, serial)
    && (serial >= |r.owners| ==> Admitted(r.admissions, serial) == 0)
  }

  ghost predicate SamePermit(p: Pair) {
    p.first.serial == p.second.serial
  }

  /** What waits, is being matched or was paired is in the log of admissions. */
  ghost predicate Traced(r: Relay) {
    && (forall u :: u in r.maps.pending ==> Admission(r.maps.pending[u].serial, u, r.maps.pending[u].conn) in r.admissions)
    && (match r.holder
        case Idle => true
        case Consumed(u, conn, s) => Admission(s, u, conn) in r.admissions
        case Matched(u, conn, s, peer) => Admission(s, u, conn) in r.admissions && Admission(peer.serial, u, peer.conn) in r.admissions)
    && forall i :: 0 <= i < |r.pairs| ==> PairTraced(r, r.pairs[i])
  }

  /** Both halves of a pair were admitted for its uuid, by the permit granted to that uuid. */
  ghost predicate PairTraced(r: Relay, p: Pair) {
    && p.second.uuid == p.uuid && Owned(r, p.second.serial, p.uuid)
    && p.second in r.admissions && Admission(p.first.serial, p.uuid, p.first.conn) in r.admissions
  }

  /** Permits end thirty seconds after their grant, and every admission came in that time. */
  ghost predicate Timed(r: Relay) {
    && |r.grantedAt| == |r.owners| && |r.admittedAt| == |r.admissions|
    && (forall i :: 0 <= i < |r.grantedAt| ==> r.grantedAt[i] <= r.clock)
    && (forall u :: u in r.maps.permits ==> EndsInTime(r, r.maps.permits[u]))
    && forall i :: 0 <= i < |r.admissions| ==> InTime(r, i)
  }

  ghost predicate EndsInTime(r: Relay, p: Permit) {
    p.serial < |r.grantedAt| && p.expiresAt == r.grantedAt[p.serial] + 30_000
  }

  ghost predicate InTime(r: Relay, i: nat)
    requires i < |r.admissions| == |r.admittedAt|
  {
    && r.admissions[i].serial < |r.grantedAt|
    && r.grantedAt[r.admissions[i].serial] <= r.admittedAt[i] < r.grantedAt[r.admissions[i].serial] + 30_000
  }

  ghost predicate Inv(r: Relay) {
    && Named(r)
    && (forall serial :: Balanced(r, serial))
    && forall i :: 0 <= i < |r.pairs| ==> SamePermit(r.pairs[i])
  }
}
