/** Leader leases: a compare-and-swap row per lease name, and on every node a loop
    that renews the row and keeps a worker context alive while it owns it. */
module Lease {
  import opened Wrappers

  const MIN_TTL := 3_000

  /** Times are milliseconds. */
  datatype Row = Row(owner: string, expiresAt: nat)

  /** How a database call ends: carried out and answered; carried out but reported
      as an error; not carried out. */
  datatype Io = Answered | AnswerLost | NotDone

  predicate MayTake(row: Option<Row>, owner: string, now: nat) {
    row.None? || row.value.owner == owner || row.value.expiresAt <= now
  }

  function Taken(row: Option<Row>, owner: string, now: nat, expiresAt: nat): Option<Row> {
    if MayTake(row, owner, now) then Some(Row(owner, expiresAt)) else row
  }

  function Released(row: Option<Row>, owner: string): Option<Row> {
    if row.Some? && row.value.owner == owner then None else row
  }

  function Ttl(requested: nat): nat {
    if requested < MIN_TTL then MIN_TTL else requested
  }

  /** The row after rounds of conditional takes, each for `ttl` from the clock it read. */
  function AfterRounds(row: Option<Row>, id: string, ttl: nat, rounds: seq<Round>): Option<Row> {
    if rounds == [] then row
    else
      var before, last := AfterRounds(row, id, ttl, rounds[..|rounds| - 1]), rounds[|rounds| - 1];
      if last.io.NotDone? then before
      else if before.None? || before.value.owner == id || before.value.expiresAt <= last.now then Some(Row(id, last.now + ttl))
      else before
  }

  // ---------- the store and the coordinator, as they run ----------

  class Store {
    var rows: map<string, Row>

    constructor ()
      ensures rows == map[]
    {
      rows := map[];
    }

    ghost function Find(name: string): Option<Row>
      reads this
    {
      if name in rows then Some(rows[name]) else None
    }

    /** The conditional upsert; `owned` is whether a row was written, `ok` whether the caller hears about it. */
    method Acquire(name: string, owner: string, now: nat, expiresAt: nat, io: Io) returns (owned: bool, ok: bool)
      modifies this
      ensures Find(name) == if io.NotDone? then old(Find(name)) else Taken(old(Find(name)), owner, now, expiresAt)
      ensures forall other :: other != name ==> Find(other) == old(Find(other))
      ensures ok == io.Answered? && owned == (ok && MayTake(old(Find(name)), owner, now))
      ensures owned ==> Find(name) == Some(Row(owner, expiresAt))
    {
      if io.NotDone? {
        return false, false;
      }
      var written := false;
      if name !in rows {
        rows := rows[name := Row(owner, expiresAt)];
        written := true;
      } else if rows[name].owner == owner || rows[name].expiresAt <= now {
        rows := rows[name := Row(owner, expiresAt)];
        written := true;
      }
      return written && io.Answered?, io.Answered?;
    }

    method Release(name: string, owner: string, io: Io)
      modifies this
      ensures Find(name) == if io.NotDone? then old(Find(name)) else Released(old(Find(name)), owner)
      ensures forall other :: other != name ==> Find(other) == old(Find(other))
    {
      if !io.NotDone? && name in rows && rows[name].owner == owner {
        rows := rows - {name};
      }
    }
  }

  /** One round of RunLeader's loop: the clock it read and how its call ended. */
  datatype Round = Round(now: nat, io: Io)

  /** One node's view of a lease: `working` says whether its worker context is alive. */
  class Coordinator {
    const store: Store
    const id: string
    var working: bool

    constructor (store: Store, id: string)
      ensures this.store == store && this.id == id && !working
    {
      this.store, this.id, this.working := store, id, false;
    }

    method Reconcile(name: string, ttl: nat, round: Round)
      modifies this, store
      ensures store.Find(name) == if round.io.NotDone? then old(store.Find(name)) else Taken(old(store.Find(name)), id, round.now, round.now + ttl)
      ensures forall other :: other != name ==> store.Find(other) == old(store.Find(other))
      ensures working <==> round.io.Answered? && MayTake(old(store.Find(name)), id, round.now)
    {
      var owned, ok := store.Acquire(name, id, round.now, round.now + ttl, round.io);
      if !ok || !owned {
        if working {
          working := false;
        }
        return;
      }
      if !working {
        working := true;
      }
    }

    /** The loop until its context ends: afterwards no worker runs, and if the final
        release is carried out this node no longer owns the row. */
    method RunLeader(name: string, requested: nat, rounds: seq<Round>, release: Io)
      modifies this, store
      ensures !working
      ensures var row := AfterRounds(old(store.Find(name)), id, if requested < 3_000 then 3_000 else requested, rounds);
              store.Find(name) == if !release.NotDone? && row.Some? && row.value.owner == id then None else row
      ensures !release.NotDone? && store.Find(name).Some? ==> store.Find(name).value.owner != id
      ensures forall other :: other != name ==> store.Find(other) == old(store.Find(other))
    {
      var ttl := requested;
      if ttl < MIN_TTL {
        ttl := MIN_TTL;
      }
      for i := 0 to |rounds|
        invariant forall other :: other != name ==> store.Find(other) == old(store.Find(other))
        invariant store.Find(name) == AfterRounds(old(store.Find(name)), id, ttl, rounds[..i])
      {
        assert rounds[..i + 1][..i] == rounds[..i];
        Reconcile(name, ttl, rounds[i]);
      }
      assert rounds[..|rounds|] == rounds;
      working := false;
      store.Release(name, id, release);
    }
  }

  // ---------- many nodes, one row ----------

  /** Where a node is in its reconcile. */
  datatype Pc = Waiting | Read(now: nat) | Returned(owned: bool)

  /** `working`: its worker context is alive.  `stored` is the expiry this node wrote last. */
  datatype Node = Node(ttl: nat, pc: Pc, working: bool, stopped: bool, stored: nat)

  datatype Cluster = Cluster(time: nat, row: Option<Row>, nodes: map<string, Node>)

  datatype Step =
    | Tick(millis: nat)
    | ReadClock(id: string)
    | Exec(id: string, io: Io)
    | Settle(id: string)
    | Stop(id: string)
    | Release(id: string, io: Io)

  predicate Enabled(c: Cluster, s: Step) {
    match s
    case Tick(_) => true
    case ReadClock(n) => n in c.nodes && c.nodes[n].pc.Waiting? && !c.nodes[n].stopped
    case Exec(n, _) => n in c.nodes && c.nodes[n].pc.Read?
    case Settle(n) => n in c.nodes && c.nodes[n].pc.Returned?
    case Stop(n) => n in c.nodes
    case Release(n, _) => n in c.nodes && c.nodes[n].stopped && c.nodes[n].pc.Waiting?
  }

  function Next(c: Cluster, s: Step): Cluster
    requires Enabled(c, s)
  {
    match s
    case Tick(millis) => c.(time := c.time + millis)
    case ReadClock(n) => c.(nodes := c.nodes[n := c.nodes[n].(pc := Read(c.time))])
    case Exec(n, io) =>
      var node := c.nodes[n];
      var took := !io.NotDone? && MayTake(c.row, n, node.pc.now);
      c.(
        row := if took then Taken(c.row, n, node.pc.now, node.pc.now + node.ttl) else c.row,
        nodes := c.nodes[n := node.(pc := Returned(took && io.Answered?), stored := if took then node.pc.now + node.ttl else node.stored)])
    case Settle(n) =>
      // A context made from an ended one is ended: a stopped node starts nothing.
      var node := c.nodes[n];
      c.(nodes := c.nodes[n := node.(pc := Waiting, working := node.pc.owned && !node.stopped)])
    case Stop(n) => c.(nodes := c.nodes[n := c.nodes[n].(stopped := true, working := false)])
    case Release(n, io) => if io.NotDone? then c else c.(row := Released(c.row, n))
  }

  /** A worker is alive, or its reconcile is about to start it. */
  predicate Leading(c: Cluster, n: string)
    requires n in c.nodes
  {
    c.nodes[n].working || (c.nodes[n].pc == Returned(true) && !c.nodes[n].stopped)
  }

  /** Every node that leads does so before the expiry it stored. */
  ghost predicate Timely(c: Cluster) {
    forall n :: n in c.nodes && Leading(c, n) ==> c.time < c.nodes[n].stored
  }

  ghost predicate TimelyRun(c: Cluster, steps: seq<Step>)
    decreases |steps|
  {
    Timely(c) && (steps != [] ==> Enabled(c, steps[0]) && TimelyRun(Next(c, steps[0]), steps[1..]))
  }

  ghost function Run(c: Cluster, steps: seq<Step>): Cluster
    requires TimelyRun(c, steps)
    decreases |steps|
  {
    if steps == [] then c else Run(Next(c, steps[0]), steps[1..])
  }

  ghost predicate Fresh(c: Cluster) {
    c.row.None? && forall n :: n in c.nodes ==> c.nodes[n].pc.Waiting? && !c.nodes[n].working && !c.nodes[n].stopped && c.nodes[n].stored == 0
  }

  ghost predicate NodeOk(c: Cluster, n: string)
    requires n in c.nodes
  {
    && (c.nodes[n].pc.Read? ==> c.nodes[n].pc.now <= c.time && c.nodes[n].stored <= c.nodes[n].pc.now + c.nodes[n].ttl)
    && c.nodes[n].stored <= c.time + c.nodes[n].ttl
    && (c.nodes[n].stopped ==> !c.nodes[n].working)
    && (Leading(c, n) ==> c.row == Some(Row(n, c.nodes[n].stored)))
  }

  ghost predicate Inv(c: Cluster) {
    forall n :: n in c.nodes ==> NodeOk(c, n)
  }

  lemma StepKeeps(c: Cluster, s: Step)
    requires Inv(c) && Timely(c) && Enabled(c, s)
    ensures Inv(Next(c, s))
  {
    var v := Next(c, s);
    forall n | n in v.nodes ensures NodeOk(v, n) {
      assert NodeOk(c, n);
      if s.Exec? && s.id != n && Leading(c, n) {
        assert NodeOk(c, s.id);
      }
    }
  }

  lemma {:induction false} RunKeeps(c: Cluster, steps: seq<Step>)
    requires Inv(c) && TimelyRun(c, steps)
    ensures Inv(Run(c, steps))
    decreases |steps|
  {
    if steps != [] {
      StepKeeps(c, steps[0]);
      RunKeeps(Next(c, steps[0]), steps[1..]);
    }
  }

  /** Through errors, takeovers and releases, two nodes never work at once, as long as
      every leading node completes its reconcile before the expiry it stored. */
  lemma OneWorker(c: Cluster, steps: seq<Step>, a: string, b: string)
    requires Fresh(c) && TimelyRun(c, steps)
    requires var v := Run(c, steps); a in v.nodes && b in v.nodes && v.nodes[a].working && v.nodes[b].working
    ensures a == b
  {
    RunKeeps(c, steps);
    var v := Run(c, steps);
    assert NodeOk(v, a) && NodeOk(v, b);
  }

  /** The timing condition cannot be dropped: once a worker outlives its stored expiry,
      any other idle node's next reconcile makes two workers. */
  lemma LateWorkerIsDoubled(c: Cluster, a: string, b: string)
    requires Inv(c) && a in c.nodes && b in c.nodes && a != b
    requires c.nodes[a].working && c.time >= c.nodes[a].stored
    requires c.nodes[b].pc.Waiting? && !c.nodes[b].stopped
    ensures var c1 := Next(c, ReadClock(b));
            && Enabled(c1, Exec(b, Answered)) && Enabled(Next(c1, Exec(b, Answered)), Settle(b))
            && var v := Next(Next(c1, Exec(b, Answered)), Settle(b));
               v.nodes[a].working && v.nodes[b].working
  {
    assert NodeOk(c, a);
  }
}
