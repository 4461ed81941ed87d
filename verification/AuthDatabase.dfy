/** The API's authorization tables, the changes made to them, the event each change
    publishes, and what it means for a cache to agree with the tables. */
module AuthDatabase {
  import opened Wrappers
  import opened AuthCacheSpec

  /** `members` holds (user, group) pairs. */
  datatype Db = Db(users: map<Id, User>, sessions: map<Id, Session>, rules: map<Id, Rule>,
                   strategies: map<Id, Strategy>, members: set<(Id, Id)>, config: Config)

  /** One write, which some later event announces.  `left` are the groups an edit takes
      the user out of.  `TouchOther` writes devices or relays; `Record` is any kind caches ignore. */
  datatype Change =
    | SaveUser(user: User, left: set<Id>)
    | DeleteUser(userId: Id)
    | SaveSession(session: Session)
    | RevokeSessions(userId: Id)
    | SaveRule(rule: Rule)
    | DeleteRule(id: Id)
    | SaveStrategy(strategy: Strategy)
    | DeleteStrategy(id: Id)
    | SetMember(membership: Membership)
    | Configure(config: Config)
    | TouchOther
    | Record

  /** A deleted user is announced as a disabled one with every other field blank. */
  function Wire(ch: Change): Payload {
    match ch
    case SaveUser(user, _) => UserRow(user)
    case DeleteUser(id) => UserRow(User(id, "", "", false, OtherApproval, 0))
    case SaveSession(session) => SessionRow(session)
    case RevokeSessions(id) => RevokeAll(id)
    case SaveRule(rule) => RuleRow(rule, false)
    case DeleteRule(id) => RuleRow(Rule(id, None, ""), true)
    case SaveStrategy(s) => StrategyRow(s)
    case DeleteStrategy(id) => StrategyRow(Strategy(id, None, false, true, ""))
    case SetMember(m) => MemberRow(m)
    case Configure(config) => Configuration(config)
    case TouchOther => OtherRow
    case Record => Note
  }

  function Revoked(sessions: map<Id, Session>, user: Id): map<Id, Session> {
    map id | id in sessions :: if sessions[id].userId == user then sessions[id].(revoked := true) else sessions[id]
  }

  /** Strategies are kept as deleted rows; rules are removed. */
  function SoftDeleted(strategies: map<Id, Strategy>, id: Id): map<Id, Strategy> {
    if id in strategies then strategies[id := strategies[id].(enabled := false, deleted := true)] else strategies
  }

  function RulesNotAbout(rules: map<Id, Rule>, user: Id): map<Id, Rule> {
    map id | id in rules && rules[id].subject != Some(user) :: rules[id]
  }

  function StrategiesNotAbout(strategies: map<Id, Strategy>, user: Id): map<Id, Strategy> {
    map id | id in strategies && strategies[id].subject != Some(user) :: strategies[id]
  }

  function Leaving(members: set<(Id, Id)>, user: Id, left: set<Id>): set<(Id, Id)> {
    set m | m in members && !(m.0 == user && m.1 in left)
  }

  function MembersNot(members: set<(Id, Id)>, user: Id): set<(Id, Id)> {
    set m | m in members && m.0 != user
  }

  function Write(db: Db, ch: Change): Db {
    match ch
    case SaveUser(user, left) => db.(users := db.users[user.id := user], members := Leaving(db.members, user.id, left))
    case DeleteUser(id) =>
      db.(users := db.users - {id}, rules := RulesNotAbout(db.rules, id),
          strategies := StrategiesNotAbout(db.strategies, id), members := MembersNot(db.members, id))
    case SaveSession(session) => db.(sessions := db.sessions[session.id := session])
    case RevokeSessions(id) => db.(sessions := Revoked(db.sessions, id))
    case SaveRule(rule) => db.(rules := db.rules[rule.id := rule])
    case DeleteRule(id) => db.(rules := db.rules - {id})
    case SaveStrategy(s) => db.(strategies := db.strategies[s.id := s])
    case DeleteStrategy(id) => db.(strategies := SoftDeleted(db.strategies, id))
    case SetMember(m) =>
      db.(members := if m.active then db.members + {(m.user, m.group)} else db.members - {(m.user, m.group)})
    case Configure(config) => db.(config := config)
    case TouchOther => db
    case Record => db
  }

  /** The tables after the first `n` changes of a log: the fold of the log. */
  function After(base: Db, log: seq<Change>, n: nat): Db
    requires n <= |log|
  {
    if n == 0 then base else Write(After(base, log, n - 1), log[n - 1])
  }

  /** `states[n]` is the tables after `n` changes. */
  ghost predicate Follows(states: seq<Db>, log: seq<Change>) {
    |states| == |log| + 1 && forall i :: 0 <= i < |log| ==> states[i + 1] == Write(states[i], log[i])
  }

  lemma {:induction false} FollowsIsFold(states: seq<Db>, log: seq<Change>, n: nat)
    requires Follows(states, log) && n <= |log|
    ensures states[n] == After(states[0], log, n)
  {
    if n > 0 {
      FollowsIsFold(states, log, n - 1);
      assert states[n - 1 + 1] == Write(states[n - 1], log[n - 1]);
    }
  }

  // ---------- agreement ----------

  /** A user the tables no longer hold may remain in a cache as a disabled row. */
  ghost predicate UserAgrees(cached: map<Id, User>, users: map<Id, User>, id: Id) {
    if id in users then id in cached && cached[id] == users[id]
    else id in cached ==> !cached[id].enabled
  }

  ghost predicate UsersAgree(cached: map<Id, User>, users: map<Id, User>) {
    forall id :: UserAgrees(cached, users, id)
  }

  /** The same sessions can still be used. */
  ghost predicate SessionsAgree(cached: map<Id, Session>, sessions: map<Id, Session>, now: nat) {
    forall sid :: Live(cached, sid, now) == Live(sessions, sid, now)
  }

  function Undeleted(strategies: map<Id, Strategy>): map<Id, Strategy> {
    map id | id in strategies && !strategies[id].deleted :: strategies[id]
  }

  predicate InGroup(groups: map<Id, seq<Id>>, user: Id, group: Id) {
    group in GroupsOf(groups, user)
  }

  ghost predicate GroupsAgree(groups: map<Id, seq<Id>>, members: set<(Id, Id)>) {
    forall u, g :: InGroup(groups, u, g) <==> (u, g) in members
  }

  /** The cache's tables are the database's, as far as any decision can tell. */
  ghost predicate Agree(c: Cache, db: Db, now: nat) {
    && UsersAgree(c.users, db.users)
    && SessionsAgree(c.sessions, db.sessions, now)
    && c.rules == db.rules
    && Undeleted(c.strategies) == Undeleted(db.strategies)
    && GroupsAgree(c.groups, db.members)
    && c.config == Some(db.config)
  }

  /** Whether the event of a change tells everything the change writes. */
  predicate Announced(db: Db, ch: Change) {
    match ch
    case SaveUser(user, left) => forall g :: g in left ==> (user.id, g) !in db.members
    case DeleteUser(id) =>
      && (forall r :: r in db.rules ==> db.rules[r].subject != Some(id))
      && (forall s :: s in db.strategies && db.strategies[s].subject == Some(id) ==> db.strategies[s].deleted)
      && (forall m :: m in db.members ==> m.0 != id)
    case _ => true
  }

  lemma UserSaved(cached: map<Id, User>, users: map<Id, User>, user: User)
    requires UsersAgree(cached, users)
    ensures UsersAgree(cached[user.id := user], users[user.id := user])
  {
    var after, stored := cached[user.id := user], users[user.id := user];
    forall id ensures UserAgrees(after, stored, id) {
      assert UserAgrees(cached, users, id);
    }
  }

  lemma UserDeleted(cached: map<Id, User>, users: map<Id, User>, row: User)
    requires UsersAgree(cached, users) && !row.enabled
    ensures UsersAgree(cached[row.id := row], users - {row.id})
  {
    var after, stored := cached[row.id := row], users - {row.id};
    forall id ensures UserAgrees(after, stored, id) {
      assert UserAgrees(cached, users, id);
    }
  }

  lemma SessionSaved(cached: map<Id, Session>, sessions: map<Id, Session>, s: Session, now: nat)
    requires SessionsAgree(cached, sessions, now)
    ensures SessionsAgree(cached[s.id := s], sessions[s.id := s], now)
  {
    var after, stored := cached[s.id := s], sessions[s.id := s];
    forall sid ensures Live(after, sid, now) == Live(stored, sid, now) {
      assert Live(cached, sid, now) == Live(sessions, sid, now);
    }
  }

  /** The cache drops the sessions that the tables mark as revoked. */
  lemma SessionsRevoked(cached: map<Id, Session>, sessions: map<Id, Session>, user: Id, now: nat)
    requires SessionsAgree(cached, sessions, now)
    ensures SessionsAgree(NotOf(cached, user), Revoked(sessions, user), now)
  {
    forall sid ensures Live(NotOf(cached, user), sid, now) == Live(Revoked(sessions, user), sid, now) {
      assert Live(cached, sid, now) == Live(sessions, sid, now);
    }
  }

  lemma StrategySaved(cached: map<Id, Strategy>, strategies: map<Id, Strategy>, s: Strategy)
    requires Undeleted(cached) == Undeleted(strategies)
    ensures Undeleted(if s.deleted then cached - {s.id} else cached[s.id := s]) == Undeleted(strategies[s.id := s])
  {
    var after, stored := if s.deleted then cached - {s.id} else cached[s.id := s], strategies[s.id := s];
    forall id ensures id in Undeleted(after) <==> id in Undeleted(stored) {
      assert id in Undeleted(cached) <==> id in Undeleted(strategies);
    }
    forall id | id in Undeleted(after) ensures Undeleted(after)[id] == Undeleted(stored)[id] {
      assert id != s.id ==> Undeleted(cached)[id] == Undeleted(strategies)[id];
    }
  }

  lemma StrategyDeleted(cached: map<Id, Strategy>, strategies: map<Id, Strategy>, id: Id)
    requires Undeleted(cached) == Undeleted(strategies)
    ensures Undeleted(cached - {id}) == Undeleted(SoftDeleted(strategies, id))
  {
    var after, stored := cached - {id}, SoftDeleted(strategies, id);
    forall k ensures k in Undeleted(after) <==> k in Undeleted(stored) {
      assert k in Undeleted(cached) <==> k in Undeleted(strategies);
    }
    forall k | k in Undeleted(after) ensures Undeleted(after)[k] == Undeleted(stored)[k] {
      assert Undeleted(cached)[k] == Undeleted(strategies)[k];
    }
  }

  lemma {:induction false} WithoutHolds(groups: seq<Id>, group: Id, g: Id)
    ensures g in Without(groups, group) <==> g in groups && g != group
  {
    if groups != [] {
      WithoutHolds(groups[1..], group, g);
    }
  }

  lemma MemberSet(groups: map<Id, seq<Id>>, members: set<(Id, Id)>, m: Membership)
    requires GroupsAgree(groups, members)
    ensures GroupsAgree(SetMembership(groups, m),
                        if m.active then members + {(m.user, m.group)} else members - {(m.user, m.group)})
  {
    var after := SetMembership(groups, m);
    var stored := if m.active then members + {(m.user, m.group)} else members - {(m.user, m.group)};
    forall u, g ensures InGroup(after, u, g) <==> (u, g) in stored {
      assert InGroup(groups, u, g) <==> (u, g) in members;
      WithoutHolds(GroupsOf(groups, m.user), m.group, g);
    }
  }

  // ---------- one event ----------

  /** An edit keeps agreement exactly when it removes no membership. */
  lemma EditAgrees(c: Cache, db: Db, user: User, left: set<Id>, now: nat)
    requires Agree(c, db, now)
    ensures Agree(Update(c, Wire(SaveUser(user, left))), Write(db, SaveUser(user, left)), now) <==>
            Announced(db, SaveUser(user, left))
  {
    UserSaved(c.users, db.users, user);
    var members := Leaving(db.members, user.id, left);
    if GroupsAgree(c.groups, members) {
      forall g | g in left ensures (user.id, g) !in db.members {
        assert InGroup(c.groups, user.id, g) <==> (user.id, g) in members;
        assert InGroup(c.groups, user.id, g) <==> (user.id, g) in db.members;
      }
    }
    if Announced(db, SaveUser(user, left)) {
      assert members == db.members;
    }
  }

  lemma RulesKept(rules: map<Id, Rule>, id: Id)
    ensures rules == RulesNotAbout(rules, id) <==> forall r :: r in rules ==> rules[r].subject != Some(id)
  {
    if rules == RulesNotAbout(rules, id) {
      forall r | r in rules ensures rules[r].subject != Some(id) {
        assert r in RulesNotAbout(rules, id);
      }
    }
  }

  lemma StrategiesKept(strategies: map<Id, Strategy>, id: Id)
    ensures Undeleted(strategies) == Undeleted(StrategiesNotAbout(strategies, id)) <==>
            forall s :: s in strategies && strategies[s].subject == Some(id) ==> strategies[s].deleted
  {
    var kept := StrategiesNotAbout(strategies, id);
    if Undeleted(strategies) == Undeleted(kept) {
      forall s | s in strategies && strategies[s].subject == Some(id) ensures strategies[s].deleted {
        assert s in Undeleted(strategies) <==> s in Undeleted(kept);
      }
    }
  }

  lemma MembersKept(groups: map<Id, seq<Id>>, members: set<(Id, Id)>, id: Id)
    requires GroupsAgree(groups, members)
    ensures GroupsAgree(groups, MembersNot(members, id)) <==> forall m :: m in members ==> m.0 != id
  {
    var kept := MembersNot(members, id);
    if GroupsAgree(groups, kept) {
      forall m | m in members ensures m.0 != id {
        assert InGroup(groups, m.0, m.1) <==> (m.0, m.1) in kept;
        assert InGroup(groups, m.0, m.1) <==> (m.0, m.1) in members;
      }
    }
    if forall m :: m in members ==> m.0 != id {
      assert kept == members;
    }
  }

  /** A deletion keeps agreement exactly when no rule, strategy or membership of the user goes with it. */
  lemma DeletionAgrees(c: Cache, db: Db, id: Id, now: nat)
    requires Agree(c, db, now)
    ensures Agree(Update(c, Wire(DeleteUser(id))), Write(db, DeleteUser(id)), now) <==> Announced(db, DeleteUser(id))
  {
    UserDeleted(c.users, db.users, Wire(DeleteUser(id)).user);
    RulesKept(db.rules, id);
    StrategiesKept(db.strategies, id);
    MembersKept(c.groups, db.members, id);
  }

  /** Applying the event of a change keeps a cache in agreement if and only if the event announces all of it. */
  lemma EventAgrees(c: Cache, db: Db, ch: Change, now: nat)
    requires Agree(c, db, now)
    ensures Agree(Update(c, Wire(ch)), Write(db, ch), now) <==> Announced(db, ch)
  {
    match ch {
      case SaveUser(user, left) => EditAgrees(c, db, user, left, now);
      case DeleteUser(id) => DeletionAgrees(c, db, id, now);
      case SaveSession(session) => SessionSaved(c.sessions, db.sessions, session, now);
      case RevokeSessions(id) => SessionsRevoked(c.sessions, db.sessions, id, now);
      case SaveRule(_) =>
      case DeleteRule(_) =>
      case SaveStrategy(s) => StrategySaved(c.strategies, db.strategies, s);
      case DeleteStrategy(id) => StrategyDeleted(c.strategies, db.strategies, id);
      case SetMember(m) => MemberSet(c.groups, db.members, m);
      case Configure(_) =>
      case TouchOther =>
      case Record =>
    }
  }

  // ---------- what agreement decides ----------

  /** The cache a reader with the tables themselves would use. */
  function Ideal(db: Db): Cache {
    Cache("", 0, Some(db.config), db.users, db.sessions, db.rules, db.strategies, map[])
  }

  /** A cache that agrees lets in exactly the tokens the tables let in, with the same decision. */
  lemma SameAccess(c: Cache, db: Db, claims: Claims, now: nat)
    requires Agree(c, db, now)
    ensures Authorize(c, claims, now).Allowed? <==> Authorize(Ideal(db), claims, now).Allowed?
    ensures Authorize(c, claims, now).Allowed? ==> Authorize(c, claims, now) == Authorize(Ideal(db), claims, now)
  {
    assert UserAgrees(c.users, db.users, claims.sub);
    assert Live(c.sessions, claims.sid, now) == Live(db.sessions, claims.sid, now);
  }
}
