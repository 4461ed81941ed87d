/** The gateway resends a command until it is answered, so a relay may see one
    request any number of times, mixed with everything else.  The relay behaves
    as if each request arrived once. */
module CommandReplay {
  import opened Wrappers
  import opened AdmissionSpec
  import opened AdmissionRuns

  // ---------- the gateway's command ----------

  /** What ends one wait of the gateway's command loop. */
  datatype Wake = Answered(reply: Option<Reply>) | Retry | WriteFailed | DeadlineHit | PeerClosed

  datatype CommandError = Unsupported | Offline | Unauthorized | Rejected | TimedOut

  datatype CommandResult = Replied(reply: Reply) | Failed(error: CommandError)

  /** The replies that count as success for an action; `None` is any other status text. */
  predicate Satisfies(action: Action, reply: Option<Reply>) {
    && reply.Some?
    && ((action.Grant? && reply.value.Permitted?) || (action.Terminate? && !reply.value.Permitted?))
  }

  /** The first wake that is no retry ends the loop: one frame was sent per wake so far, all of them the command,
      and it succeeds exactly with a fitting answer. */
  ghost predicate Resent(m: Command, wakes: seq<Wake>, r: CommandResult, sent: seq<Command>) {
    && 0 < |sent| <= |wakes|
    && (forall i :: 0 <= i < |sent| ==> sent[i] == m)
    && (forall i :: 0 <= i < |sent| - 1 ==> wakes[i].Retry?) && !wakes[|sent| - 1].Retry?
    && (r.Replied? <==>
          || (m.action.Grant? && wakes[|sent| - 1] == Answered(Some(Permitted)))
          || (m.action.Terminate? && wakes[|sent| - 1] in {Answered(Some(Terminated)), Answered(Some(NotFound))}))
    && (r.Replied? ==> wakes[|sent| - 1].reply == Some(r.reply))
  }

  /** The resend loop over what it meets, which ends in something other than a retry:
      every frame is the same command, and success is a fitting reply to it. */
  method Await(m: Command, wakes: seq<Wake>) returns (r: CommandResult, sent: seq<Command>)
    requires wakes != [] && !wakes[|wakes| - 1].Retry?
    ensures Resent(m, wakes, r, sent)
  {
    sent := [m];
    var i := 0;
    while wakes[i].Retry?
      invariant 0 <= i < |wakes|
      invariant |sent| == i + 1
      invariant forall k :: 0 <= k < |sent| ==> sent[k] == m
      invariant forall k :: 0 <= k < i ==> wakes[k].Retry?
      decreases |wakes| - i
    {
      sent := sent + [m];
      i := i + 1;
    }
    match wakes[i] {
      case Answered(reply) =>
        if Satisfies(m.action, reply) {
          r := Replied(reply.value);
        } else {
          r := Failed(Rejected);
        }
      case DeadlineHit => r := Failed(TimedOut);
      case _ => r := Failed(Offline);
    }
  }

  /** One connected control peer: waiters by request, and when each permitted uuid may be forgotten. */
  datatype Waiters = Waiters(ready: bool, pending: map<string, string>, issued: map<string, nat>)

  predicate Room(p: Waiters, action: Action) {
    p.ready && |p.pending| < 64 && !action.OtherAction? && (action.Grant? ==> |p.issued| < 4096)
  }

  function Begun(p: Waiters, requestId: string, action: Action, uuid: string, wall: nat): Waiters {
    p.(pending := p.pending[requestId := uuid],
       issued := if action.Grant? then p.issued[uuid := wall + 120_000] else p.issued)
  }

  class Peer {
    var ready: bool
    var pending: map<string, string>
    var issued: map<string, nat>

    ghost function Value(): Waiters
      reads this
    {
      Waiters(ready, pending, issued)
    }

    constructor ()
      ensures Value() == Waiters(false, map[], map[])
    {
      ready, pending, issued := false, map[], map[];
    }

    /** Under the lock: registers a waiter, and a permit's uuid, if there is room for them. */
    method Begin(requestId: string, action: Action, uuid: string, wall: nat) returns (accepted: bool)
      modifies this`pending, this`issued
      ensures accepted == Room(old(Value()), action)
      ensures Value() == if accepted then Begun(old(Value()), requestId, action, uuid, wall) else old(Value())
    {
      if action.OtherAction? || !ready || |pending| >= 64 || (action.Grant? && |issued| >= 4096) {
        return false;
      }
      pending := pending[requestId := uuid];
      if action.Grant? {
        issued := issued[uuid := wall + 120_000];
      }
      return true;
    }

    /** An unauthorized permit is not issued after all. */
    method Withdraw(uuid: string)
      modifies this`issued
      ensures issued == old(issued) - {uuid}
    {
      issued := issued - {uuid};
    }

    method Finish(requestId: string)
      modifies this`pending
      ensures pending == old(pending) - {requestId}
    {
      pending := pending - {requestId};
    }

    /** One command with no other in between: all frames carry the same identity, content and
        deadline, the waiter is gone afterwards, and a permit stays issued only if authorized. */
    method Send(requestId: string, action: Action, uuid: string, wall: nat, authorized: bool, wakes: seq<Wake>)
      returns (r: CommandResult, sent: seq<Command>)
      requires requestId !in pending
      requires wakes != [] && !wakes[|wakes| - 1].Retry?
      modifies this`pending, this`issued
      ensures pending == old(pending)
      ensures sent != [] <==> Room(old(Value()), action) && (action.Grant? ==> authorized)
      ensures sent != [] ==> Resent(Command(requestId, uuid, action, wall + 5_000), wakes, r, sent)
      ensures sent == [] ==> r.Failed?
      ensures !Room(old(Value()), action) || !action.Grant? ==> issued == old(issued)
      ensures Room(old(Value()), action) && action.Grant? ==>
                issued == if authorized then old(issued)[uuid := wall + 120_000] else old(issued) - {uuid}
    {
      sent := [];
      var accepted := Begin(requestId, action, uuid, wall);
      if !accepted {
        return Failed(if action.OtherAction? then Unsupported else Offline), sent;
      }
      if action.Grant? && !authorized {
        Withdraw(uuid);
        assert issued == old(issued) - {uuid};
        r := Failed(Unauthorized);
      } else {
        r, sent := Await(Command(requestId, uuid, action, wall + 5_000), wakes);
      }
      Finish(requestId);
      AddedAndRemoved(old(pending), requestId, uuid);
    }
  }

  lemma AddedAndRemoved<V>(m: map<string, V>, key: string, value: V)
    requires key !in m
    ensures m[key := value] - {key} == m
  {
  }

  // ---------- many commands at once ----------

  /** What commands in progress do to the peer between them; each wait lies between a `Begin` and a `Finish`. */
  datatype Call =
    | Begin(requestId: string, action: Action, uuid: string, wall: nat)
    | Withdraw(uuid: string)
    | Finish(requestId: string)

  function Called(p: Waiters, call: Call): Waiters {
    match call
    case Begin(id, action, uuid, wall) => if Room(p, action) then Begun(p, id, action, uuid, wall) else p
    case Withdraw(uuid) => p.(issued := p.issued - {uuid})
    case Finish(id) => p.(pending := p.pending - {id})
  }

  function CalledAll(p: Waiters, calls: seq<Call>): Waiters {
    if calls == [] then p else Called(CalledAll(p, calls[..|calls| - 1]), calls[|calls| - 1])
  }

  predicate Concerns(call: Call, id: string) {
    !call.Withdraw? && call.requestId == id
  }

  /** Whatever other commands begin and finish meanwhile, a command's waiter keeps its uuid until the
      command itself is done, and neither table outgrows its limit. */
  lemma {:induction false} WaiterStays(p: Waiters, calls: seq<Call>, id: string)
    requires id in p.pending && |p.pending| <= 64 && |p.issued| <= 4096
    requires forall i :: 0 <= i < |calls| ==> !Concerns(calls[i], id)
    ensures var q := CalledAll(p, calls);
            && id in q.pending && q.pending[id] == p.pending[id]
            && |q.pending| <= 64 && |q.issued| <= 4096
  {
    if calls != [] {
      var front, last := calls[..|calls| - 1], calls[|calls| - 1];
      assert !Concerns(last, id);
      WaiterStays(p, front, id);
      CalledBounds(CalledAll(p, front), last);
    }
  }

  lemma CalledBounds(p: Waiters, call: Call)
    requires |p.pending| <= 64 && |p.issued| <= 4096
    ensures |Called(p, call).pending| <= 64 && |Called(p, call).issued| <= 4096
  {
    match call {
      case Begin(_, _, _, _) =>
      case Withdraw(uuid) => RemovedCount(p.issued, uuid);
      case Finish(id) => RemovedCount(p.pending, id);
    }
  }

  lemma RemovedCount<V>(m: map<string, V>, key: string)
    ensures |m - {key}| <= |m|
  {
    if key in m {
      assert m == (m - {key})[key := m[key]];
    } else {
      assert m - {key} == m;
    }
  }

  // ---------- the relay executes each request once ----------

  /** The trace with repeated deliveries of a request in one session left out. */
  function Once(steps: seq<Step>, delivered: set<string>): seq<Step> {
    if steps == [] then []
    else match steps[0]
      case StartSession => [steps[0]] + Once(steps[1..], {})
      case Deliver(c, _, _) =>
        if c.requestId in delivered then Once(steps[1..], delivered)
        else [steps[0]] + Once(steps[1..], delivered + {c.requestId})
      case _ => [steps[0]] + Once(steps[1..], delivered)
  }

  /** No request is delivered twice in a session, those in `delivered` not at all. */
  ghost predicate NoRepeat(steps: seq<Step>, delivered: set<string>) {
    steps != [] ==>
      match steps[0]
      case StartSession => NoRepeat(steps[1..], {})
      case Deliver(c, _, _) => c.requestId !in delivered && NoRepeat(steps[1..], delivered + {c.requestId})
      case _ => NoRepeat(steps[1..], delivered)
  }

  lemma {:induction false} OnceIsOnce(steps: seq<Step>, delivered: set<string>)
    ensures NoRepeat(Once(steps, delivered), delivered)
    decreases |steps|
  {
    if steps != [] {
      var s, rest := steps[0], steps[1..];
      match s
      case StartSession =>
        OnceIsOnce(rest, {});
        assert Once(steps, delivered)[1..] == Once(rest, {});
      case Deliver(c, _, _) =>
        if c.requestId in delivered {
          OnceIsOnce(rest, delivered);
        } else {
          OnceIsOnce(rest, delivered + {c.requestId});
          assert Once(steps, delivered)[1..] == Once(rest, delivered + {c.requestId});
        }
      case _ =>
        OnceIsOnce(rest, delivered);
        assert Once(steps, delivered)[1..] == Once(rest, delivered);
    }
  }

  /** Every delivery is a frame of the command its request identifier was issued for. */
  ghost predicate FromGateway(steps: seq<Step>, issued: map<string, Command>) {
    forall i :: 0 <= i < |steps| && steps[i].Deliver? ==>
      steps[i].command.requestId in issued && issued[steps[i].command.requestId] == steps[i].command
  }

  /** The session's replay table holds exactly the delivered requests, as issued. */
  ghost predicate Faithful(r: Relay, delivered: set<string>, issued: map<string, Command>) {
    r.session.Some? ==>
      && r.session.value.Keys == delivered
      && forall id :: id in r.session.value ==>
           && id in issued
           && r.session.value[id].uuid == issued[id].uuid
           && r.session.value[id].action == issued[id].action
           && 0 < |id| <= 64 && 8 <= |issued[id].uuid| <= 128
           && issued[id].requestId == id
  }

  lemma ReplayChangesNothing(r: Relay, c: Command, wall: nat, available: bool, delivered: set<string>, issued: map<string, Command>)
    requires Faithful(r, delivered, issued) && r.session.Some?
    requires c.requestId in delivered && c.requestId in issued && issued[c.requestId] == c
    ensures Delivered(r, c, wall, available) == r
    ensures Refusal(r.maps, r.session.value, c, wall, available).None?
    ensures Answer(r.maps, r.session.value, c) == r.session.value[c.requestId].reply
  {
  }

  lemma DeliverFaithful(r: Relay, c: Command, wall: nat, available: bool, delivered: set<string>, issued: map<string, Command>)
    requires Faithful(r, delivered, issued) && r.session.Some?
    requires c.requestId in issued && issued[c.requestId] == c
    ensures Faithful(Delivered(r, c, wall, available), delivered + {c.requestId}, issued)
  {
  }

  /** Refinement: a run with any repetitions reaches the very state of the run in
      which every request is delivered once per session. */
  lemma {:induction false} ExecutesOnce(r: Relay, steps: seq<Step>, delivered: set<string>, issued: map<string, Command>)
    requires ValidRun(r, steps) && FromGateway(steps, issued) && Faithful(r, delivered, issued)
    ensures ValidRun(r, Once(steps, delivered))
    ensures Run(r, Once(steps, delivered)) == Run(r, steps)
    decreases |steps|
  {
    if steps != [] {
      var s, rest := steps[0], steps[1..];
      assert FromGateway(rest, issued) by {
        assert forall i :: 0 <= i < |rest| ==> rest[i] == steps[i + 1];
      }
      match s
      case StartSession =>
        ExecutesOnce(Next(r, s), rest, {}, issued);
        assert Once(steps, delivered)[1..] == Once(rest, {});
      case Deliver(c, wall, available) =>
        if c.requestId in delivered {
          ReplayChangesNothing(r, c, wall, available, delivered, issued);
          ExecutesOnce(r, rest, delivered, issued);
        } else {
          DeliverFaithful(r, c, wall, available, delivered, issued);
          ExecutesOnce(Next(r, s), rest, delivered + {c.requestId}, issued);
          assert Once(steps, delivered)[1..] == Once(rest, delivered + {c.requestId});
        }
      case _ =>
        ExecutesOnce(Next(r, s), rest, delivered, issued);
        assert Once(steps, delivered)[1..] == Once(rest, delivered);
    }
  }

  /** From the initial relay there is nothing to assume about tables. */
  lemma GatewayRunsExecuteOnce(steps: seq<Step>, issued: map<string, Command>)
    requires ValidRun(Initial(), steps) && FromGateway(steps, issued)
    ensures ValidRun(Initial(), Once(steps, {})) && Run(Initial(), Once(steps, {})) == Run(Initial(), steps)
    ensures NoRepeat(Once(steps, {}), {})
  {
    OnceIsOnce(steps, {});
    ExecutesOnce(Initial(), steps, {}, issued);
  }

  // ---------- a resend gets the first answer ----------

  ghost predicate Remembers(r: Relay, c: Command, reply: Reply) {
    r.session.Some? ==> c.requestId in r.session.value && r.session.value[c.requestId] == Seen(c.uuid, c.action, reply)
  }

  lemma StepRemembers(r: Relay, s: Step, c: Command, reply: Reply)
    requires Remembers(r, c, reply) && Enabled(r, s) && !s.StartSession?
    ensures Remembers(Next(r, s), c, reply)
  {
  }

  /** However much happens in between, and whatever the clocks say by then, a resent
      command in the same session gets the reply of its first execution and leaves
      every map, in particular spent permit uses, as it is. */
  lemma {:induction false} SameReply(r: Relay, steps: seq<Step>, c: Command, reply: Reply, wall: nat, available: bool)
    requires Remembers(r, c, reply) && ValidRun(r, steps)
    requires forall i :: 0 <= i < |steps| ==> !steps[i].StartSession?
    requires 0 < |c.requestId| <= 64 && 8 <= |c.uuid| <= 128
    ensures var v := Run(r, steps);
            v.session.Some? ==>
              && Refusal(v.maps, v.session.value, c, wall, available).None?
              && Answer(v.maps, v.session.value, c) == reply
              && Delivered(v, c, wall, available) == v
    decreases |steps|
  {
    if steps != [] {
      StepRemembers(r, steps[0], c, reply);
      assert forall i :: 0 <= i < |steps[1..]| ==> steps[1..][i] == steps[i + 1];
      SameReply(Next(r, steps[0]), steps[1..], c, reply, wall, available);
    }
  }

  /** The first execution is remembered. */
  lemma FirstIsRemembered(r: Relay, c: Command, wall: nat, available: bool)
    requires r.session.Some? && Refusal(r.maps, r.session.value, c, wall, available).None?
    ensures Remembers(Delivered(r, c, wall, available), c, Answer(r.maps, r.session.value, c))
  {
  }
}
