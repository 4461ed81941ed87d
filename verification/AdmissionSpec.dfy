/** Relay admission in secure control mode: permits arrive as commands on a control
    session, connections spend them, and two connections with one permit become
    a pair.  Operations are functions of the state, as values. */
module AdmissionSpec {
  import opened Wrappers

  const MAX_PERMITS := 4096
  const MAX_SEEN := 8192
  const PERMIT_MILLIS := 30_000
  const COMMAND_MILLIS := 30_000
  const PENDING_MILLIS := 90_000
  const PERMIT_USES := 2

  /** `serial` numbers permits in the order they were granted; the relay itself never reads it. */
  datatype Permit = Permit(expiresAt: nat, uses: nat, serial: nat)

  /** A connection waiting for its peer, with the permit that admitted it. */
  datatype Waiting = Waiting(conn: nat, createdAt: nat, serial: nat)

  datatype Action = Grant | Terminate | OtherAction(text: string)

  datatype Reply = Permitted | Terminated | NotFound

  datatype Command = Command(requestId: string, uuid: string, action: Action, expiresAt: nat)

  datatype Seen = Seen(uuid: string, action: Action, reply: Reply)

  datatype Error =
    | BadIdentity | ReplayMismatch | BadLifetime | EpochLimit | OutboxUnavailable
    | Reauthorized | PermitCapacity | AlreadyUsed | UnsupportedCommand
    | NoPermit | PermitExpired

  datatype Result<+T> = Ok(value: T) | Err(error: Error)

  type Table = map<string, Seen>

  /** The three maps of the relay state. */
  datatype Maps = Maps(permits: map<string, Permit>, pending: map<string, Waiting>, active: set<string>)

  predicate GrantedBefore(seen: Table, uuid: string) {
    exists id :: id in seen && seen[id].uuid == uuid && seen[id].action.Grant?
  }

  predicate InUse(m: Maps, uuid: string) {
    uuid in m.permits || uuid in m.pending || uuid in m.active
  }

  function TerminateReply(m: Maps, uuid: string): Reply {
    if uuid in m.active || uuid in m.pending then Terminated else NotFound
  }

  function TerminateMaps(m: Maps, uuid: string): Maps {
    Maps(m.permits - {uuid}, m.pending - {uuid}, m.active - {uuid})
  }

  /** Why a command is refused, if it is; `wall` is the wall clock, `available`
      whether the outbox can take another pair. */
  function Refusal(m: Maps, seen: Table, c: Command, wall: nat, available: bool): Option<Error> {
    if !(0 < |c.requestId| <= 64 && 8 <= |c.uuid| <= 128) then Some(BadIdentity)
    else if c.requestId in seen then
      if seen[c.requestId].uuid == c.uuid && seen[c.requestId].action == c.action then None else Some(ReplayMismatch)
    else if !(wall < c.expiresAt <= wall + COMMAND_MILLIS) then Some(BadLifetime)
    else if |seen| >= MAX_SEEN then Some(EpochLimit)
    else match c.action
      case Grant =>
        if !available then Some(OutboxUnavailable)
        else if GrantedBefore(seen, c.uuid) then Some(Reauthorized)
        else if |m.permits| >= MAX_PERMITS then Some(PermitCapacity)
        else if InUse(m, c.uuid) then Some(AlreadyUsed)
        else None
      case Terminate => None
      case OtherAction(_) => Some(UnsupportedCommand)
  }

  /** The reply to an accepted command. */
  function Answer(m: Maps, seen: Table, c: Command): Reply {
    if c.requestId in seen then seen[c.requestId].reply
    else if c.action.Grant? then Permitted
    else TerminateReply(m, c.uuid)
  }

  /** The maps after an accepted command; `clock` is the monotonic clock. */
  function Effect(m: Maps, seen: Table, c: Command, clock: nat, serial: nat): Maps {
    if c.requestId in seen then m
    else if c.action.Grant? then m.(permits := m.permits[c.uuid := Permit(clock + PERMIT_MILLIS, PERMIT_USES, serial)])
    else TerminateMaps(m, c.uuid)
  }

  function Remembered(m: Maps, seen: Table, c: Command): Table {
    if c.requestId in seen then seen else seen[c.requestId := Seen(c.uuid, c.action, Answer(m, seen, c))]
  }

  /** Why a connection is turned away, if it is. */
  function Rejection(m: Maps, uuid: string, clock: nat): Option<Error> {
    if uuid !in m.permits then Some(NoPermit)
    else if clock >= m.permits[uuid].expiresAt || m.permits[uuid].uses == 0 then Some(PermitExpired)
    else None
  }

  function Spend(m: Maps, uuid: string): Maps
    requires uuid in m.permits && m.permits[uuid].uses > 0
  {
    var p := m.permits[uuid];
    if p.uses == 1 then m.(permits := m.permits - {uuid})
    else m.(permits := m.permits[uuid := p.(uses := p.uses - 1)])
  }

  /** The second step of admission: the waiting peer leaves, or this connection waits. */
  function Joined(m: Maps, uuid: string, conn: nat, serial: nat, clock: nat): Maps {
    if uuid in m.pending then m.(pending := m.pending - {uuid})
    else m.(pending := m.pending[uuid := Waiting(conn, clock, serial)])
  }

  function WithoutExpired(m: Maps, clock: nat): Maps {
    m.(permits := map u | u in m.permits && m.permits[u].expiresAt > clock :: m.permits[u])
  }

  function WithoutStale(m: Maps, clock: nat): Maps {
    m.(pending := map u | u in m.pending && clock - m.pending[u].createdAt < PENDING_MILLIS :: m.pending[u])
  }

  function Cleared(m: Maps): Maps {
    m.(permits := map[], pending := map[])
  }
}
