/** The relay's shared state as the relay runs it: maps updated in place. */
module Admission {
  import opened Wrappers
  import opened AdmissionSpec

  class RelayState {
    var permits: map<string, Permit>
    var pending: map<string, Waiting>
    var active: set<string>
    var seen: Table

    constructor ()
      ensures Value() == Maps(map[], map[], {}) && seen == map[]
    {
      permits, pending, active, seen := map[], map[], {}, map[];
    }

    ghost function Value(): Maps
      reads this
    {
      Maps(permits, pending, active)
    }

    method TerminateRelay(uuid: string) returns (found: bool)
      modifies this`permits, this`pending, this`active
      ensures Value() == TerminateMaps(old(Value()), uuid)
      ensures found <==> TerminateReply(old(Value()), uuid).Terminated?
    {
      permits := permits - {uuid};
      var waiting := uuid in pending;
      pending := pending - {uuid};
      if uuid in active {
        active := active - {uuid};
        found := true;
      } else {
        found := waiting;
      }
    }

    /** One control command; a refusal changes nothing. */
    method Apply(c: Command, wall: nat, clock: nat, serial: nat, available: bool) returns (r: Result<Reply>)
      modifies this
      ensures match Refusal(old(Value()), old(seen), c, wall, available)
              case Some(e) => r == Err(e) && Value() == old(Value()) && seen == old(seen)
              case None =>
                && r == Ok(Answer(old(Value()), old(seen), c))
                && Value() == Effect(old(Value()), old(seen), c, clock, serial)
                && seen == Remembered(old(Value()), old(seen), c)
    {
      if |c.requestId| > 64 || |c.requestId| == 0 || !(8 <= |c.uuid| <= 128) {
        return Err(BadIdentity);
      }
      if c.requestId in seen {
        if seen[c.requestId].uuid != c.uuid || seen[c.requestId].action != c.action {
          return Err(ReplayMismatch);
        }
        return Ok(seen[c.requestId].reply);
      }
      if c.expiresAt <= wall || c.expiresAt > wall + COMMAND_MILLIS {
        return Err(BadLifetime);
      }
      if |seen| >= MAX_SEEN {
        return Err(EpochLimit);
      }
      var reply: Reply;
      match c.action {
        case Grant =>
          if !available {
            return Err(OutboxUnavailable);
          }
          if exists id :: id in seen && seen[id].uuid == c.uuid && seen[id].action.Grant? {
            return Err(Reauthorized);
          }
          if |permits| >= MAX_PERMITS {
            return Err(PermitCapacity);
          }
          if c.uuid in permits || c.uuid in pending || c.uuid in active {
            return Err(AlreadyUsed);
          }
          permits := permits[c.uuid := Permit(clock + PERMIT_MILLIS, PERMIT_USES, serial)];
          reply := Permitted;
        case Terminate =>
          var found := TerminateRelay(c.uuid);
          reply := if found then Terminated else NotFound;
        case OtherAction(_) =>
          return Err(UnsupportedCommand);
      }
      seen := seen[c.requestId := Seen(c.uuid, c.action, reply)];
      return Ok(reply);
    }

    /** The permit check at the head of accept_authorized. */
    method Consume(uuid: string, clock: nat) returns (r: Result<nat>)
      modifies this`permits
      ensures match Rejection(old(Value()), uuid, clock)
              case Some(e) => r == Err(e) && Value() == old(Value())
              case None => r == Ok(old(permits)[uuid].serial) && Value() == Spend(old(Value()), uuid)
    {
      if uuid !in permits {
        return Err(NoPermit);
      }
      var permit := permits[uuid];
      if clock >= permit.expiresAt || permit.uses == 0 {
        return Err(PermitExpired);
      }
      permit := permit.(uses := permit.uses - 1);
      permits := permits[uuid := permit];
      if permit.uses == 0 {
        permits := permits - {uuid};
      }
      assert permits == Spend(old(Value()), uuid).permits;
      return Ok(permit.serial);
    }

    /** The rest of accept_authorized up to the report: take the waiting peer, or wait. */
    method Join(uuid: string, conn: nat, serial: nat, clock: nat) returns (peer: Option<Waiting>)
      modifies this`pending
      ensures peer == if uuid in old(pending) then Some(old(pending)[uuid]) else None
      ensures Value() == Joined(old(Value()), uuid, conn, serial, clock)
    {
      if uuid in pending {
        peer := Some(pending[uuid]);
        pending := pending - {uuid};
      } else {
        peer := None;
        pending := pending[uuid := Waiting(conn, clock, serial)];
      }
    }

    method Cleanup(clock: nat)
      modifies this`permits, this`pending
      ensures Value() == WithoutStale(WithoutExpired(old(Value()), clock), clock)
    {
      permits := map u | u in permits && permits[u].expiresAt > clock :: permits[u];
      pending := map u | u in pending && clock - pending[u].createdAt < PENDING_MILLIS :: pending[u];
    }

    /** What the control loop does on both sides of a session. */
    method ClearEpoch()
      modifies this`permits, this`pending
      ensures Value() == Cleared(old(Value()))
    {
      permits, pending := map[], map[];
    }
  }
}
