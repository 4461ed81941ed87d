/** Revocation is final: once a node has applied the event that revokes a session, nothing of that
    source, in any order and however often repeated, lets the session in again. */
module Revocation {
  import opened Wrappers
  import opened AuthCacheSpec
  import opened AuthDatabase
  import opened AuthReplay
  import opened SnapshotCapture

  /** What reaches a node: any published event, or any snapshot taken. */
  datatype Input = Heard(i: nat) | Fetched(snapshot: Snapshot, pos: Positions, at: nat)

  /** One API process: its committed changes, the tables after each of them, and its events so far. */
  datatype Source = Source(id: Id, log: seq<Change>, states: seq<Db>, events: seq<Event>)

  ghost predicate Valid(p: Source) {
    && Follows(p.states, p.log)
    && |p.events| <= |p.log|
    && forall i :: 0 <= i < |p.events| ==> p.events[i] == Event(p.id, i + 1, Wire(p.log[i]))
  }

  ghost predicate Possible(p: Source, input: Input) {
    match input
    case Heard(i) => i < |p.events|
    case Fetched(s, pos, at) => Captures(p.id, p.states, s, pos, at)
  }

  ghost predicate AllPossible(p: Source, inputs: seq<Input>) {
    forall i :: 0 <= i < |inputs| ==> Possible(p, inputs[i])
  }

  ghost function Receive(p: Source, c: Cache, input: Input): Cache
    requires Possible(p, input)
  {
    match input
    case Heard(i) => Apply(c, p.events[i])
    case Fetched(s, _, _) => Replace(c, s)
  }

  ghost function ReceiveAll(p: Source, c: Cache, inputs: seq<Input>): Cache
    requires AllPossible(p, inputs)
  {
    if inputs == [] then c
    else
      assert AllPossible(p, inputs[..|inputs| - 1]);
      Receive(p, ReceiveAll(p, c, inputs[..|inputs| - 1]), inputs[|inputs| - 1])
  }

  // ---------- one session ----------

  predicate RowOf(ch: Change, sid: Id) {
    ch.SaveSession? && ch.session.id == sid
  }

  predicate OwnedIn(sessions: map<Id, Session>, sid: Id, owner: Id) {
    sid in sessions ==> sessions[sid].userId == owner
  }

  predicate Dead(sessions: map<Id, Session>, sid: Id) {
    sid in sessions ==> sessions[sid].revoked
  }

  /** The session keeps its user throughout. */
  ghost predicate Owned(p: Source, sid: Id, owner: Id) {
    && p.states != [] && OwnedIn(p.states[0].sessions, sid, owner)
    && forall j :: 0 <= j < |p.log| && RowOf(p.log[j], sid) ==> p.log[j].session.userId == owner
  }

  /** Change `r` revokes the session: by its own row, or with all sessions of the user it belongs to. */
  ghost predicate Revokes(p: Source, r: nat, sid: Id) {
    && r < |p.log|
    && (|| (RowOf(p.log[r], sid) && p.log[r].session.revoked)
        || (p.log[r].RevokeSessions? && Owned(p, sid, p.log[r].userId)))
  }

  /** The id is not used again: every later row for it is a revoked one. */
  ghost predicate NotRecreated(p: Source, r: nat, sid: Id) {
    forall j :: r < j < |p.log| && RowOf(p.log[j], sid) ==> p.log[j].session.revoked
  }

  // ---------- in the tables ----------

  lemma {:induction false} TablesOwned(p: Source, n: nat, sid: Id, owner: Id)
    requires Valid(p) && Owned(p, sid, owner) && n <= |p.log|
    ensures OwnedIn(p.states[n].sessions, sid, owner)
  {
    if n > 0 {
      TablesOwned(p, n - 1, sid, owner);
      assert p.states[n - 1 + 1] == Write(p.states[n - 1], p.log[n - 1]);
    }
  }

  lemma {:induction false} TablesDead(p: Source, r: nat, n: nat, sid: Id)
    requires Valid(p) && r < n <= |p.log| && Revokes(p, r, sid) && NotRecreated(p, r, sid)
    ensures Dead(p.states[n].sessions, sid)
    decreases n
  {
    assert p.states[n - 1 + 1] == Write(p.states[n - 1], p.log[n - 1]);
    if n > r + 1 {
      TablesDead(p, r, n - 1, sid);
    } else if p.log[r].RevokeSessions? {
      TablesOwned(p, r, sid, p.log[r].userId);
    }
  }

  // ---------- in the cache ----------

  lemma FetchedSessions(p: Source, c: Cache, input: Input)
    requires Valid(p) && Possible(p, input) && input.Fetched? && !Stale(c, input.snapshot)
    ensures Receive(p, c, input).sessions == Unexpired(p.states[input.pos.sessions].sessions, input.at)
  {
    var s := input.snapshot;
    CollectIsTable(s.sessions, SessionKey, Unexpired(p.states[input.pos.sessions].sessions, input.at));
  }

  /** Whatever it receives, a cache that has the session under its user keeps it so. */
  lemma {:induction false} CacheOwned(p: Source, c: Cache, inputs: seq<Input>, sid: Id, owner: Id)
    requires Valid(p) && Owned(p, sid, owner) && AllPossible(p, inputs) && OwnedIn(c.sessions, sid, owner)
    ensures OwnedIn(ReceiveAll(p, c, inputs).sessions, sid, owner)
  {
    if inputs != [] {
      var front, last := inputs[..|inputs| - 1], inputs[|inputs| - 1];
      CacheOwned(p, c, front, sid, owner);
      ReceiveOwned(p, ReceiveAll(p, c, front), last, sid, owner);
    }
  }

  lemma ReceiveOwned(p: Source, c: Cache, input: Input, sid: Id, owner: Id)
    requires Valid(p) && Owned(p, sid, owner) && Possible(p, input) && OwnedIn(c.sessions, sid, owner)
    ensures OwnedIn(Receive(p, c, input).sessions, sid, owner)
  {
    match input {
      case Heard(i) => assert p.events[i] == Event(p.id, i + 1, Wire(p.log[i]));
      case Fetched(s, pos, _) =>
        if !Stale(c, s) {
          FetchedSessions(p, c, input);
          TablesOwned(p, pos.sessions, sid, owner);
        }
    }
  }

  /** The revocation has been applied. */
  ghost predicate Barred(p: Source, c: Cache, r: nat, sid: Id) {
    c.source == p.id && c.revision > r && Dead(c.sessions, sid)
  }

  lemma RevocationBars(p: Source, c: Cache, r: nat, sid: Id)
    requires Valid(p) && r < |p.events| && Revokes(p, r, sid) && Accepts(c, p.id, r + 1)
    requires p.log[r].RevokeSessions? ==> OwnedIn(c.sessions, sid, p.log[r].userId)
    ensures Barred(p, Receive(p, c, Heard(r)), r, sid)
  {
    assert p.events[r] == Event(p.id, r + 1, Wire(p.log[r]));
  }

  /** A snapshot taken after the revocation bars the session as well, whatever the node held. */
  lemma SnapshotBars(p: Source, c: Cache, r: nat, input: Input, sid: Id)
    requires Valid(p) && Revokes(p, r, sid) && NotRecreated(p, r, sid) && Possible(p, input)
    requires input.Fetched? && (input.snapshot.source != c.source || input.snapshot.revision >= c.revision)
    requires input.snapshot.revision > r
    ensures Barred(p, Receive(p, c, input), r, sid)
  {
    FetchedSessions(p, c, input);
    TablesDead(p, r, input.pos.sessions, sid);
  }

  lemma HeardBarred(p: Source, c: Cache, r: nat, i: nat, sid: Id)
    requires Valid(p) && i < |p.events| && NotRecreated(p, r, sid) && Barred(p, c, r, sid)
    ensures Barred(p, Apply(c, p.events[i]), r, sid)
  {
    assert p.events[i] == Event(p.id, i + 1, Wire(p.log[i]));
  }

  lemma {:induction false} AllBarred(p: Source, c: Cache, r: nat, inputs: seq<Input>, sid: Id)
    requires Valid(p) && AllPossible(p, inputs) && Revokes(p, r, sid) && NotRecreated(p, r, sid)
    requires Barred(p, c, r, sid)
    ensures Barred(p, ReceiveAll(p, c, inputs), r, sid)
  {
    if inputs != [] {
      var front, last := inputs[..|inputs| - 1], inputs[|inputs| - 1];
      AllBarred(p, c, r, front, sid);
      var held := ReceiveAll(p, c, front);
      match last {
        case Heard(i) => HeardBarred(p, held, r, i, sid);
        case Fetched(s, _, _) =>
          if !Stale(held, s) {
            SnapshotBars(p, held, r, last, sid);
          }
      }
    }
  }

  /** Any cache that accepts the revocation, whatever source it followed before, refuses the session's tokens
      after every further sequence of events and snapshots.  Only for a revoke-all does
      it matter whose session the cache takes it for. */
  lemma RevokedStaysOut(p: Source, c: Cache, r: nat, later: seq<Input>, sid: Id, claims: Claims, now: nat)
    requires Valid(p) && AllPossible(p, later) && claims.sid == sid
    requires r < |p.events| && Revokes(p, r, sid) && NotRecreated(p, r, sid) && Accepts(c, p.id, r + 1)
    requires p.log[r].RevokeSessions? ==> OwnedIn(c.sessions, sid, p.log[r].userId)
    ensures Authorize(ReceiveAll(p, Receive(p, c, Heard(r)), later), claims, now).Refused?
  {
    RevocationBars(p, c, r, sid);
    AllBarred(p, Receive(p, c, Heard(r)), r, later, sid);
  }
}
