/** Time and progress at the relay: permits end after thirty seconds and not before, two connections in
    time become a pair, and what commands and clean-ups take away is exactly what they should. */
module AdmissionProgress {
  import opened Wrappers
  import opened AdmissionSpec
  import opened AdmissionRuns
  import opened AdmissionTheorems

  // ---------- time ----------

  lemma ConsumeTimed(r: Relay, uuid: string, conn: nat)
    requires Timed(r) && r.holder.Idle? && Rejection(r.maps, uuid, r.clock).None?
    ensures Timed(Next(r, ConsumeStep(uuid, conn)))
  {
    var v := Next(r, ConsumeStep(uuid, conn));
    assert EndsInTime(r, r.maps.permits[uuid]);
    forall i | 0 <= i < |v.admissions| ensures InTime(v, i) {
      if i < |r.admissions| {
        assert InTime(r, i);
      }
    }
    forall u | u in v.maps.permits ensures EndsInTime(v, v.maps.permits[u]) {
      assert EndsInTime(r, r.maps.permits[u]);
    }
  }

  lemma DeliverTimed(r: Relay, c: Command, wall: nat, available: bool)
    requires Timed(r) && Named(r) && r.session.Some?
    ensures Timed(Delivered(r, c, wall, available))
  {
    var v := Delivered(r, c, wall, available);
    forall i | 0 <= i < |v.admissions| ensures InTime(v, i) {
      assert InTime(r, i);
    }
    forall u | u in v.maps.permits ensures EndsInTime(v, v.maps.permits[u]) {
      if u in r.maps.permits {
        assert EndsInTime(r, r.maps.permits[u]);
      }
    }
  }

  /** Steps that only take permits away and let time pass. */
  lemma ShrinkTimed(r: Relay, v: Relay)
    requires Timed(r) && r.clock <= v.clock
    requires v.grantedAt == r.grantedAt && v.owners == r.owners && v.admissions == r.admissions && v.admittedAt == r.admittedAt
    requires forall u :: u in v.maps.permits ==> u in r.maps.permits && v.maps.permits[u] == r.maps.permits[u]
    ensures Timed(v)
  {
    forall i | 0 <= i < |v.admissions| ensures InTime(v, i) {
      assert InTime(r, i);
    }
    forall u | u in v.maps.permits ensures EndsInTime(v, v.maps.permits[u]) {
      assert EndsInTime(r, r.maps.permits[u]);
    }
  }

  lemma StepTimed(r: Relay, s: Step)
    requires Timed(r) && Named(r) && Enabled(r, s)
    ensures Timed(Next(r, s))
  {
    match s
    case Deliver(c, wall, available) => DeliverTimed(r, c, wall, available);
    case ConsumeStep(uuid, conn) =>
      if Rejection(r.maps, uuid, r.clock).None? {
        ConsumeTimed(r, uuid, conn);
      }
    case _ => ShrinkTimed(r, Next(r, s));
  }

  lemma {:induction false} RunTimed(r: Relay, steps: seq<Step>)
    requires Inv(r) && Timed(r) && ValidRun(r, steps)
    ensures Timed(Run(r, steps))
    decreases |steps|
  {
    if steps != [] {
      StepKeeps(r, steps[0]);
      StepTimed(r, steps[0]);
      RunTimed(Next(r, steps[0]), steps[1..]);
    }
  }

  /** In every run every connection was let in less than thirty seconds after its permit was granted. */
  lemma AdmittedInTime(steps: seq<Step>, i: nat)
    requires ValidRun(Initial(), steps) && i < |Run(Initial(), steps).admissions|
    ensures var r := Run(Initial(), steps);
            && |r.admittedAt| == |r.admissions| && |r.grantedAt| == |r.owners|
            && r.admissions[i].serial < |r.grantedAt|
            && r.owners[r.admissions[i].serial] == r.admissions[i].uuid
            && r.grantedAt[r.admissions[i].serial] <= r.admittedAt[i] < r.grantedAt[r.admissions[i].serial] + 30_000
  {
    RunKeeps(Initial(), steps);
    RunTimed(Initial(), steps);
    RunAdmissionsOwned(Initial(), steps);
    assert InTime(Run(Initial(), steps), i);
  }

  ghost predicate AdmissionsOwned(r: Relay) {
    forall i :: 0 <= i < |r.admissions| ==> Owned(r, r.admissions[i].serial, r.admissions[i].uuid)
  }

  lemma StepAdmissionsOwned(r: Relay, s: Step)
    requires Named(r) && AdmissionsOwned(r) && Enabled(r, s)
    ensures AdmissionsOwned(Next(r, s))
  {
    var v := Next(r, s);
    forall i | 0 <= i < |v.admissions| ensures Owned(v, v.admissions[i].serial, v.admissions[i].uuid) {
      if i < |r.admissions| {
        assert Owned(r, r.admissions[i].serial, r.admissions[i].uuid);
      }
    }
  }

  lemma {:induction false} RunAdmissionsOwned(r: Relay, steps: seq<Step>)
    requires Inv(r) && AdmissionsOwned(r) && ValidRun(r, steps)
    ensures AdmissionsOwned(Run(r, steps))
    decreases |steps|
  {
    if steps != [] {
      StepKeeps(r, steps[0]);
      StepAdmissionsOwned(r, steps[0]);
      RunAdmissionsOwned(Next(r, steps[0]), steps[1..]);
    }
  }

  // ---------- a permit lasts ----------

  /** Steps that do not take a permit of `uuid` away: no termination of it and no session change. */
  predicate Spares(s: Step, uuid: string) {
    match s
    case Deliver(c, _, _) => !(c.action.Terminate? && c.uuid == uuid)
    case ClearStep => false
    case StartSession => false
    case _ => true
  }

  /** How many connections tried for `uuid`. */
  function Tries(steps: seq<Step>, uuid: string): nat {
    if steps == [] then 0
    else (if steps[0].ConsumeStep? && steps[0].uuid == uuid then 1 else 0) + Tries(steps[1..], uuid)
  }

  ghost predicate Holds(r: Relay, uuid: string, expiresAt: nat, uses: nat) {
    uuid in r.maps.permits && r.maps.permits[uuid].expiresAt == expiresAt && r.maps.permits[uuid].uses >= uses
  }

  lemma StepHolds(r: Relay, s: Step, uuid: string, expiresAt: nat, uses: nat)
    requires Holds(r, uuid, expiresAt, uses) && Enabled(r, s) && Spares(s, uuid) && r.clock < expiresAt
    requires uses > (if s.ConsumeStep? && s.uuid == uuid then 1 else 0)
    ensures Holds(Next(r, s), uuid, expiresAt, uses - if s.ConsumeStep? && s.uuid == uuid then 1 else 0)
  {
  }

  lemma {:induction false} ClockRuns(r: Relay, steps: seq<Step>)
    requires ValidRun(r, steps)
    ensures r.clock <= Run(r, steps).clock
    decreases |steps|
  {
    if steps != [] {
      ClockRuns(Next(r, steps[0]), steps[1..]);
    }
  }

  lemma {:induction false} RunHolds(r: Relay, steps: seq<Step>, uuid: string, expiresAt: nat, uses: nat)
    requires Holds(r, uuid, expiresAt, uses) && ValidRun(r, steps) && Tries(steps, uuid) < uses
    requires forall i :: 0 <= i < |steps| ==> Spares(steps[i], uuid)
    requires Run(r, steps).clock < expiresAt
    ensures Holds(Run(r, steps), uuid, expiresAt, uses - Tries(steps, uuid))
    decreases |steps|
  {
    if steps != [] {
      ClockRuns(r, steps);
      assert Spares(steps[0], uuid);
      StepHolds(r, steps[0], uuid, expiresAt, uses);
      assert forall i :: 0 <= i < |steps[1..]| ==> steps[1..][i] == steps[i + 1];
      RunHolds(Next(r, steps[0]), steps[1..], uuid, expiresAt, uses - (Tries(steps, uuid) - Tries(steps[1..], uuid)));
    }
  }

  ghost predicate NewGrant(r: Relay, c: Command, wall: nat, available: bool) {
    && r.session.Some? && c.action.Grant? && c.requestId !in r.session.value
    && Refusal(r.maps, r.session.value, c, wall, available).None?
  }

  /** Whatever else happens, a connection for a uuid permitted less than thirty seconds ago, tried at most once
      before and neither terminated nor cleared since, is let in. */
  lemma PermitLasts(r: Relay, c: Command, wall: nat, available: bool, steps: seq<Step>, conn: nat)
    requires NewGrant(r, c, wall, available) && ValidRun(Delivered(r, c, wall, available), steps)
    requires forall i :: 0 <= i < |steps| ==> Spares(steps[i], c.uuid)
    requires Tries(steps, c.uuid) < 2
    requires var v := Run(Delivered(r, c, wall, available), steps); v.clock < r.clock + 30_000 && v.holder.Idle?
    ensures var v := Run(Delivered(r, c, wall, available), steps); var x := Next(v, ConsumeStep(c.uuid, conn));
            && |x.admissions| == |v.admissions| + 1
            && x.admissions[|v.admissions|].uuid == c.uuid && x.admissions[|v.admissions|].conn == conn
            && x.holder.Consumed? && x.holder.uuid == c.uuid && x.holder.conn == conn
  {
    RunHolds(Delivered(r, c, wall, available), steps, c.uuid, r.clock + 30_000, 2);
  }

  ghost predicate Free(r: Relay, uuid: string, uses: nat, left: nat) {
    && r.holder.Idle? && uuid in r.maps.permits
    && r.maps.permits[uuid].uses == uses && r.clock + left <= r.maps.permits[uuid].expiresAt
  }

  function Connect(r: Relay, uuid: string, conn: nat, wait: nat): Relay
    requires r.holder.Idle?
  {
    var v := Next(Next(r, Tick(wait)), ConsumeStep(uuid, conn));
    if v.holder.Consumed? then Next(v, JoinStep) else v
  }

  /** The first connection waits, under a permit with one use left. */
  lemma FirstWaits(r: Relay, uuid: string, conn: nat, wait: nat, left: nat)
    requires Free(r, uuid, 2, left) && wait < left && uuid !in r.maps.pending
    ensures var v := Connect(r, uuid, conn, wait);
            && Next(Next(r, Tick(wait)), ConsumeStep(uuid, conn)).holder.Consumed?
            && Free(v, uuid, 1, left - wait) && v.pairs == r.pairs
            && uuid in v.maps.pending && v.maps.pending[uuid].conn == conn
  {
  }

  /** The second one finds it, and the permit is spent. */
  lemma SecondMatches(r: Relay, uuid: string, conn: nat, wait: nat, left: nat)
    requires Free(r, uuid, 1, left) && wait < left && uuid in r.maps.pending
    ensures var v := Connect(r, uuid, conn, wait);
            && Next(Next(r, Tick(wait)), ConsumeStep(uuid, conn)).holder.Consumed?
            && v.holder.Matched? && v.holder.uuid == uuid && v.holder.conn == conn && v.holder.peer == r.maps.pending[uuid]
            && uuid !in v.maps.permits && uuid !in v.maps.pending && v.pairs == r.pairs
  {
  }

  lemma RunConnect(r: Relay, uuid: string, conn: nat, wait: nat, rest: seq<Step>)
    requires r.holder.Idle? && Next(Next(r, Tick(wait)), ConsumeStep(uuid, conn)).holder.Consumed?
    requires ValidRun(Connect(r, uuid, conn, wait), rest)
    ensures var steps := [Tick(wait), ConsumeStep(uuid, conn), JoinStep] + rest;
            ValidRun(r, steps) && Run(r, steps) == Run(Connect(r, uuid, conn, wait), rest)
  {
    var u := Next(r, Tick(wait));
    RunOne(Next(u, ConsumeStep(uuid, conn)), JoinStep, rest);
    RunOne(u, ConsumeStep(uuid, conn), [JoinStep] + rest);
    RunOne(r, Tick(wait), [ConsumeStep(uuid, conn)] + ([JoinStep] + rest));
    assert [Tick(wait)] + ([ConsumeStep(uuid, conn)] + ([JoinStep] + rest)) == [Tick(wait), ConsumeStep(uuid, conn), JoinStep] + rest;
  }

  /** Two connections in time after a grant become a pair: the first waits, the second finds it. */
  lemma PairForms(r: Relay, c: Command, wall: nat, available: bool, first: nat, second: nat, wait: nat, more: nat)
    requires NewGrant(r, c, wall, available) && r.holder.Idle? && wait + more < 30_000
    ensures var steps := [Tick(wait), ConsumeStep(c.uuid, first), JoinStep] +
                         ([Tick(more), ConsumeStep(c.uuid, second), JoinStep] + [ActivateStep(true)]);
            var v := Delivered(r, c, wall, available);
            && ValidRun(v, steps)
            && var x := Run(v, steps);
               && |x.pairs| == |r.pairs| + 1
               && x.pairs[|r.pairs|].uuid == c.uuid && x.pairs[|r.pairs|].first.conn == first
               && x.pairs[|r.pairs|].second.conn == second
               && c.uuid in x.maps.active && c.uuid !in x.maps.permits && c.uuid !in x.maps.pending
  {
    var v := Delivered(r, c, wall, available);
    FirstWaits(v, c.uuid, first, wait, 30_000);
    var u := Connect(v, c.uuid, first, wait);
    SecondMatches(u, c.uuid, second, more, 30_000 - wait);
    var t := Connect(u, c.uuid, second, more);
    RunOne(t, ActivateStep(true), []);
    RunConnect(u, c.uuid, second, more, [ActivateStep(true)]);
    RunConnect(v, c.uuid, first, wait, [Tick(more), ConsumeStep(c.uuid, second), JoinStep] + [ActivateStep(true)]);
  }

  lemma RunOne(r: Relay, s: Step, rest: seq<Step>)
    requires Enabled(r, s) && ValidRun(Next(r, s), rest)
    ensures ValidRun(r, [s] + rest) && Run(r, [s] + rest) == Run(Next(r, s), rest)
  {
    assert ([s] + rest)[1..] == rest;
  }

  // ---------- what commands and clean-ups do ----------

  /** A terminated uuid is in no map; every other keeps its entries. */
  lemma TerminateRemoves(m: Maps, uuid: string)
    ensures var t := TerminateMaps(m, uuid);
            && uuid !in t.permits && uuid !in t.pending && uuid !in t.active
            && forall u :: u != uuid ==>
                 && (u in t.permits <==> u in m.permits) && (u in t.permits ==> t.permits[u] == m.permits[u])
                 && (u in t.pending <==> u in m.pending) && (u in t.pending ==> t.pending[u] == m.pending[u])
                 && (u in t.active <==> u in m.active)
    ensures TerminateReply(m, uuid) == if uuid in m.pending || uuid in m.active then Terminated else NotFound
  {
  }

  /** A new command is taken exactly when its names are in bounds, it lives at most thirty seconds more, the session
      has room, and a permit finds the outbox ready, a uuid new to session and relay, and a free place. */
  lemma TakenCommands(m: Maps, seen: Table, c: Command, wall: nat, available: bool)
    requires c.requestId !in seen
    ensures Refusal(m, seen, c, wall, available).None? <==>
            && 1 <= |c.requestId| <= 64 && 8 <= |c.uuid| <= 128
            && wall < c.expiresAt <= wall + 30_000
            && |seen| < 8192
            && (|| c.action.Terminate?
                || (&& c.action.Grant? && available && |m.permits| < 4096
                    && c.uuid !in m.permits && c.uuid !in m.pending && c.uuid !in m.active
                    && forall id :: id in seen && seen[id].uuid == c.uuid ==> !seen[id].action.Grant?))
  {
  }

  /** A granted permit is for two connections within thirty seconds. */
  lemma GrantGives(m: Maps, seen: Table, c: Command, clock: nat, serial: nat)
    requires c.requestId !in seen && c.action.Grant?
    ensures Effect(m, seen, c, clock, serial) == m.(permits := m.permits[c.uuid := Permit(clock + 30_000, 2, serial)])
    ensures Answer(m, seen, c) == Permitted
    ensures Remembered(m, seen, c) == seen[c.requestId := Seen(c.uuid, Grant, Permitted)]
  {
  }

  /** A new terminate clears its uuid, and answers and remembers whether something was waiting or running. */
  lemma TerminateAnswers(m: Maps, seen: Table, c: Command, clock: nat, serial: nat)
    requires c.requestId !in seen && c.action.Terminate?
    ensures var reply := if c.uuid in m.pending || c.uuid in m.active then Terminated else NotFound;
            && Answer(m, seen, c) == reply
            && Remembered(m, seen, c) == seen[c.requestId := Seen(c.uuid, Terminate, reply)]
            && Effect(m, seen, c, clock, serial) == Maps(m.permits - {c.uuid}, m.pending - {c.uuid}, m.active - {c.uuid})
  {
  }

  /** A request seen before is answered if it is the same command, whatever its lifetime, and refused otherwise. */
  lemma SeenCommands(m: Maps, seen: Table, c: Command, wall: nat, available: bool)
    requires c.requestId in seen && 1 <= |c.requestId| <= 64 && 8 <= |c.uuid| <= 128
    ensures seen[c.requestId].uuid == c.uuid && seen[c.requestId].action == c.action ==>
              Refusal(m, seen, c, wall, available).None? && Answer(m, seen, c) == seen[c.requestId].reply
    ensures seen[c.requestId].uuid != c.uuid || seen[c.requestId].action != c.action ==>
              Refusal(m, seen, c, wall, available) == Some(ReplayMismatch)
  {
  }

  /** Clean-up drops exactly permits past their end and connections that waited ninety seconds. */
  lemma CleanupDrops(m: Maps, clock: nat, u: string)
    ensures var t := WithoutStale(WithoutExpired(m, clock), clock);
            && (u in t.permits <==> u in m.permits && clock < m.permits[u].expiresAt)
            && (u in t.permits ==> t.permits[u] == m.permits[u])
            && (u in t.pending <==> u in m.pending && clock < m.pending[u].createdAt + 90_000)
            && (u in t.pending ==> t.pending[u] == m.pending[u])
            && t.active == m.active
  {
  }

  /** A new session starts without permits or waiting connections; running relays go on. */
  lemma SessionStartsClear(r: Relay)
    requires Enabled(r, StartSession)
    ensures var v := Next(r, StartSession);
            && v.maps.permits == map[] && v.maps.pending == map[] && v.maps.active == r.maps.active
            && v.session == Some(map[])
  {
  }

  /** A relay that ends leaves the active map, so its uuid stops counting as in use there; nothing else moves. */
  lemma FinishFrees(r: Relay, uuid: string)
    ensures var v := Next(r, FinishStep(uuid));
            && uuid !in v.maps.active && (forall u :: u != uuid ==> (u in v.maps.active <==> u in r.maps.active))
            && v.maps.permits == r.maps.permits && v.maps.pending == r.maps.pending && v.pairs == r.pairs
  {
  }
}
