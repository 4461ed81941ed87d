/** The admission guarantees, over every run. */
module AdmissionTheorems {
  import opened Wrappers
  import opened AdmissionSpec
  import opened AdmissionRuns

  lemma AdmittedAppend(log: seq<Admission>, a: Admission, serial: nat)
    ensures Admitted(log + [a], serial) == Admitted(log, serial) + (if a.serial == serial then 1 else 0)
  {
    assert (log + [a])[..|log|] == log;
  }

  lemma PairedAppend(pairs: seq<Pair>, p: Pair, serial: nat)
    ensures Paired(pairs + [p], serial) == Paired(pairs, serial) + (if p.first.serial == serial || p.second.serial == serial then 1 else 0)
  {
    assert (pairs + [p])[..|pairs|] == pairs;
  }

  /** Steps that only take entries out of the maps. */
  lemma ShrinkKeeps(r: Relay, v: Relay)
    requires Inv(r)
    requires v.holder == r.holder && v.owners == r.owners && v.admissions == r.admissions && v.pairs == r.pairs
    requires forall u :: u in v.maps.permits ==> u in r.maps.permits && v.maps.permits[u] == r.maps.permits[u]
    requires forall u :: u in v.maps.pending ==> u in r.maps.pending && v.maps.pending[u] == r.maps.pending[u]
    ensures Inv(v)
  {
    forall serial ensures Balanced(v, serial) {
      assert Balanced(r, serial);
    }
  }

  lemma GrantKeeps(r: Relay, v: Relay, uuid: string, expiresAt: nat)
    requires Inv(r) && r.holder.Idle? && !InUse(r.maps, uuid)
    requires v == r.(
      maps := r.maps.(permits := r.maps.permits[uuid := Permit(expiresAt, PERMIT_USES, |r.owners|)]),
      session := v.session,
      owners := r.owners + [uuid],
      grantedAt := v.grantedAt)
    ensures Inv(v)
  {
    forall serial ensures Balanced(v, serial) {
      assert Balanced(r, serial);
    }
  }

  lemma DeliverKeeps(r: Relay, c: Command, wall: nat, available: bool)
    requires Inv(r) && r.session.Some? && r.holder.Idle?
    ensures Inv(Delivered(r, c, wall, available))
  {
    var v := Delivered(r, c, wall, available);
    if Refusal(r.maps, r.session.value, c, wall, available).None? && c.requestId !in r.session.value && c.action.Grant? {
      GrantKeeps(r, v, c.uuid, r.clock + PERMIT_MILLIS);
    } else {
      ShrinkKeeps(r, v);
    }
  }

  lemma ConsumeNamed(r: Relay, uuid: string, conn: nat)
    requires Named(r) && r.holder.Idle?
    ensures Named(Next(r, ConsumeStep(uuid, conn)))
  {
  }

  /** A spent use is one more admission of its permit; no other permit's uses change. */
  lemma SpendMoves(r: Relay, uuid: string, conn: nat, serial: nat)
    requires Named(r) && r.holder.Idle? && Rejection(r.maps, uuid, r.clock).None?
    ensures var v := Next(r, ConsumeStep(uuid, conn)); var one := if r.maps.permits[uuid].serial == serial then 1 else 0;
            && UsesLeft(v, serial) + one == UsesLeft(r, serial)
            && InHand(v, serial) == InHand(r, serial) + one
  {
  }

  lemma ConsumeBalanced(r: Relay, uuid: string, conn: nat, serial: nat)
    requires Named(r) && r.holder.Idle? && Balanced(r, serial) && Rejection(r.maps, uuid, r.clock).None?
    ensures Balanced(Next(r, ConsumeStep(uuid, conn)), serial)
  {
    SpendMoves(r, uuid, conn, serial);
    AdmittedAppend(r.admissions, Admission(r.maps.permits[uuid].serial, uuid, conn), serial);
  }

  lemma ConsumeKeeps(r: Relay, uuid: string, conn: nat)
    requires Inv(r) && r.holder.Idle?
    ensures Inv(Next(r, ConsumeStep(uuid, conn)))
  {
    var v := Next(r, ConsumeStep(uuid, conn));
    if Rejection(r.maps, uuid, r.clock).None? {
      ConsumeNamed(r, uuid, conn);
      forall serial ensures Balanced(v, serial) {
        assert Balanced(r, serial);
        ConsumeBalanced(r, uuid, conn, serial);
      }
    }
  }

  lemma JoinKeeps(r: Relay)
    requires Inv(r) && r.holder.Consumed?
    ensures Inv(Next(r, JoinStep))
  {
    var v := Next(r, JoinStep);
    forall serial ensures Balanced(v, serial) {
      assert Balanced(r, serial);
    }
  }

  lemma ActivateKeeps(r: Relay, reported: bool)
    requires Inv(r) && r.holder.Matched?
    ensures Inv(Next(r, ActivateStep(reported)))
  {
    var v := Next(r, ActivateStep(reported));
    var p := Pair(r.holder.uuid, r.holder.peer, Admission(r.holder.serial, r.holder.uuid, r.holder.conn));
    forall serial ensures Balanced(v, serial) {
      assert Balanced(r, serial);
      PairedAppend(r.pairs, p, serial);
    }
  }

  lemma StepKeeps(r: Relay, s: Step)
    requires Inv(r) && Enabled(r, s)
    ensures Inv(Next(r, s))
  {
    match s
    case Deliver(c, wall, available) => DeliverKeeps(r, c, wall, available);
    case ConsumeStep(uuid, conn) => ConsumeKeeps(r, uuid, conn);
    case JoinStep => JoinKeeps(r);
    case ActivateStep(reported) => ActivateKeeps(r, reported);
    case _ => ShrinkKeeps(r, Next(r, s));
  }

  lemma {:induction false} RunKeeps(r: Relay, steps: seq<Step>)
    requires Inv(r) && ValidRun(r, steps)
    ensures Inv(Run(r, steps))
    decreases |steps|
  {
    if steps != [] {
      StepKeeps(r, steps[0]);
      RunKeeps(Next(r, steps[0]), steps[1..]);
    }
  }

  /** Steps only add to the log of admissions and the list of permits. */
  lemma PairStaysTraced(r: Relay, v: Relay, p: Pair)
    requires PairTraced(r, p) && r.admissions <= v.admissions && r.owners <= v.owners
    ensures PairTraced(v, p)
  {
  }

  lemma ActivateTraced(r: Relay, reported: bool)
    requires Named(r) && Traced(r) && r.holder.Matched?
    ensures Traced(Next(r, ActivateStep(reported)))
  {
    var v := Next(r, ActivateStep(reported));
    forall i | 0 <= i < |v.pairs| ensures PairTraced(v, v.pairs[i]) {
      if i < |r.pairs| {
        PairStaysTraced(r, v, r.pairs[i]);
      }
    }
  }

  lemma StepTraced(r: Relay, s: Step)
    requires Named(r) && Traced(r) && Enabled(r, s)
    ensures Traced(Next(r, s))
  {
    if s.ActivateStep? {
      ActivateTraced(r, s.reported);
    } else {
      var v := Next(r, s);
      forall i | 0 <= i < |v.pairs| ensures PairTraced(v, v.pairs[i]) {
        PairStaysTraced(r, v, r.pairs[i]);
      }
    }
  }

  lemma {:induction false} RunTraced(r: Relay, steps: seq<Step>)
    requires Inv(r) && Traced(r) && ValidRun(r, steps)
    ensures Traced(Run(r, steps))
    decreases |steps|
  {
    if steps != [] {
      StepKeeps(r, steps[0]);
      StepTraced(r, steps[0]);
      RunTraced(Next(r, steps[0]), steps[1..]);
    }
  }

  /** In every run, every permit admits at most two connections and forms at most one pair, and then
      admitted exactly two; both halves of every pair are in the log of admissions, admitted
      for the pair's uuid by the one permit granted to it. */
  lemma PermitsAreBounded(steps: seq<Step>, serial: nat)
    requires ValidRun(Initial(), steps)
    ensures var r := Run(Initial(), steps);
            && Admitted(r.admissions, serial) <= 2
            && Paired(r.pairs, serial) <= 1
            && (Paired(r.pairs, serial) == 1 ==> Admitted(r.admissions, serial) == 2)
            && forall i :: 0 <= i < |r.pairs| ==> SamePermit(r.pairs[i]) && PairTraced(r, r.pairs[i])
  {
    RunKeeps(Initial(), steps);
    RunTraced(Initial(), steps);
    assert Balanced(Run(Initial(), steps), serial);
  }

  // ---------- the tables stay bounded ----------

  ghost predicate Bounded(r: Relay) {
    |r.maps.permits| <= MAX_PERMITS && (r.session.Some? ==> |r.session.value| <= MAX_SEEN)
  }

  lemma {:induction false} SubsetCount(a: set<string>, b: set<string>)
    requires a <= b
    ensures |a| <= |b|
  {
    if a != {} {
      var x :| x in a;
      SubsetCount(a - {x}, b - {x});
    }
  }

  lemma PermitsShrink(m: map<string, Permit>, n: map<string, Permit>)
    requires n.Keys <= m.Keys
    ensures |n| <= |m|
  {
    SubsetCount(n.Keys, m.Keys);
    assert |n| == |n.Keys| && |m| == |m.Keys|;
  }

  lemma DeliverBounded(r: Relay, c: Command, wall: nat, available: bool)
    requires Bounded(r) && r.session.Some?
    ensures Bounded(Delivered(r, c, wall, available))
  {
    var v := Delivered(r, c, wall, available);
    if v.maps.permits.Keys <= r.maps.permits.Keys {
      PermitsShrink(r.maps.permits, v.maps.permits);
    }
  }

  lemma StepBounded(r: Relay, s: Step)
    requires Bounded(r) && Enabled(r, s)
    ensures Bounded(Next(r, s))
  {
    match s
    case Deliver(c, wall, available) => DeliverBounded(r, c, wall, available);
    case _ => PermitsShrink(r.maps.permits, Next(r, s).maps.permits);
  }

  lemma {:induction false} RunBounded(r: Relay, steps: seq<Step>)
    requires Bounded(r) && ValidRun(r, steps)
    ensures Bounded(Run(r, steps))
    decreases |steps|
  {
    if steps != [] {
      StepBounded(r, steps[0]);
      RunBounded(Next(r, steps[0]), steps[1..]);
    }
  }

  /** In every run at most 4096 permits are held and at most 8192 commands remembered per session. */
  lemma TablesAreBounded(steps: seq<Step>)
    requires ValidRun(Initial(), steps)
    ensures var r := Run(Initial(), steps);
            |r.maps.permits| <= 4096 && (r.session.Some? ==> |r.session.value| <= 8192)
  {
    RunBounded(Initial(), steps);
  }

  // ---------- termination is final within an epoch ----------

  /** Nothing of `uuid` is left to admit or pair, and it cannot be granted again. */
  ghost predicate Barred(r: Relay, uuid: string) {
    && uuid !in r.maps.permits && uuid !in r.maps.pending
    && (r.holder.Idle? || r.holder.uuid != uuid)
    && (r.session.Some? ==> GrantedBefore(r.session.value, uuid))
  }

  /** What was let in for one uuid. */
  ghost function AdmittedFor(log: seq<Admission>, uuid: string): nat {
    if log == [] then 0
    else AdmittedFor(log[..|log| - 1], uuid) + (if log[|log| - 1].uuid == uuid then 1 else 0)
  }

  ghost function PairedFor(pairs: seq<Pair>, uuid: string): nat {
    if pairs == [] then 0
    else PairedFor(pairs[..|pairs| - 1], uuid) + (if pairs[|pairs| - 1].uuid == uuid then 1 else 0)
  }

  lemma RememberedGrows(r: Relay, c: Command, uuid: string)
    requires r.session.Some? && GrantedBefore(r.session.value, uuid)
    ensures GrantedBefore(Remembered(r.maps, r.session.value, c), uuid)
  {
    var seen := r.session.value;
    var id :| id in seen && seen[id].uuid == uuid && seen[id].action.Grant?;
    assert id in Remembered(r.maps, seen, c) && Remembered(r.maps, seen, c)[id] == seen[id];
  }

  lemma DeliverBarred(r: Relay, c: Command, wall: nat, available: bool, uuid: string)
    requires Barred(r, uuid) && r.session.Some? && r.holder.Idle?
    ensures Barred(Delivered(r, c, wall, available), uuid)
  {
    RememberedGrows(r, c, uuid);
  }

  lemma OtherBarred(r: Relay, s: Step, uuid: string)
    requires Barred(r, uuid) && Enabled(r, s) && !s.StartSession? && !s.Deliver?
    ensures Barred(Next(r, s), uuid)
  {
  }

  lemma StepBarred(r: Relay, s: Step, uuid: string)
    requires Barred(r, uuid) && Enabled(r, s) && !s.StartSession?
    ensures Barred(Next(r, s), uuid)
    ensures AdmittedFor(Next(r, s).admissions, uuid) == AdmittedFor(r.admissions, uuid)
    ensures PairedFor(Next(r, s).pairs, uuid) == PairedFor(r.pairs, uuid)
  {
    var v := Next(r, s);
    match s
    case Deliver(c, wall, available) => DeliverBarred(r, c, wall, available, uuid);
    case ConsumeStep(_, _) =>
      OtherBarred(r, s, uuid);
      assert v.admissions != r.admissions ==> v.admissions[..|r.admissions|] == r.admissions;
    case ActivateStep(_) =>
      OtherBarred(r, s, uuid);
      assert v.pairs != r.pairs ==> v.pairs[..|r.pairs|] == r.pairs;
    case _ => OtherBarred(r, s, uuid);
  }

  lemma {:induction false} RunBarred(r: Relay, steps: seq<Step>, uuid: string)
    requires Barred(r, uuid) && ValidRun(r, steps)
    requires forall i :: 0 <= i < |steps| ==> !steps[i].StartSession?
    ensures Barred(Run(r, steps), uuid)
    ensures AdmittedFor(Run(r, steps).admissions, uuid) == AdmittedFor(r.admissions, uuid)
    ensures PairedFor(Run(r, steps).pairs, uuid) == PairedFor(r.pairs, uuid)
    decreases |steps|
  {
    if steps != [] {
      StepBarred(r, steps[0], uuid);
      assert forall i :: 0 <= i < |steps[1..]| ==> steps[1..][i] == steps[i + 1];
      RunBarred(Next(r, steps[0]), steps[1..], uuid);
    }
  }

  /** After a permit and then a newly executed terminate for a uuid, nothing more is
      admitted or paired for it until the next control session starts. */
  lemma TerminateIsFinal(r: Relay, c: Command, wall: nat, available: bool, steps: seq<Step>)
    requires r.session.Some? && r.holder.Idle? && GrantedBefore(r.session.value, c.uuid)
    requires c.action.Terminate? && c.requestId !in r.session.value
    requires Refusal(r.maps, r.session.value, c, wall, available).None?
    requires ValidRun(Delivered(r, c, wall, available), steps)
    requires forall i :: 0 <= i < |steps| ==> !steps[i].StartSession?
    ensures var v := Run(Delivered(r, c, wall, available), steps);
            && AdmittedFor(v.admissions, c.uuid) == AdmittedFor(r.admissions, c.uuid)
            && PairedFor(v.pairs, c.uuid) == PairedFor(r.pairs, c.uuid)
  {
    RememberedGrows(r, c, c.uuid);
    RunBarred(Delivered(r, c, wall, available), steps, c.uuid);
  }
}
