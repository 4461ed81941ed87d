/** Taking a snapshot of the tables while they change: read everything between two looks at the
    hub's revision, and start over if the revision moved.  Writers commit first and publish
    afterwards, so a table can be ahead of the revision the snapshot carries. */
module SnapshotCapture {
  import opened Wrappers
  import opened AuthCacheSpec
  import opened AuthDatabase
  import opened AuthReplay

  const ATTEMPTS := 3

  /** A query's rows are a table's values, in any order. */
  ghost predicate ListsUsers(rows: seq<User>, table: map<Id, User>) {
    && (forall u :: u in rows ==> u.id in table && table[u.id] == u)
    && (forall k :: k in table ==> table[k].id == k && table[k] in rows)
  }

  ghost predicate ListsSessions(rows: seq<Session>, table: map<Id, Session>) {
    && (forall s :: s in rows ==> s.id in table && table[s.id] == s)
    && (forall k :: k in table ==> table[k].id == k && table[k] in rows)
  }

  ghost predicate ListsRules(rows: seq<Rule>, table: map<Id, Rule>) {
    && (forall r :: r in rows ==> r.id in table && table[r.id] == r)
    && (forall k :: k in table ==> table[k].id == k && table[k] in rows)
  }

  ghost predicate ListsStrategies(rows: seq<Strategy>, table: map<Id, Strategy>) {
    && (forall s :: s in rows ==> s.id in table && table[s.id] == s)
    && (forall k :: k in table ==> table[k].id == k && table[k] in rows)
  }

  ghost predicate ListsMembers(rows: seq<Membership>, members: set<(Id, Id)>) {
    && (forall i :: 0 <= i < |rows| ==> rows[i].active && (rows[i].user, rows[i].group) in members)
    && (forall m :: m in members ==> Membership(m.0, m.1, true) in rows)
  }

  /** The session query leaves out those that had expired; revoked ones stay in. */
  function Unexpired(sessions: map<Id, Session>, now: nat): map<Id, Session> {
    map id | id in sessions && sessions[id].expiresAt.Some? && now < sessions[id].expiresAt.value :: sessions[id]
  }

  ghost predicate Rows(us: seq<User>, ss: seq<Session>, rs: seq<Rule>, ts: seq<Strategy>, ms: seq<Membership>,
                       users: map<Id, User>, sessions: map<Id, Session>, rules: map<Id, Rule>,
                       strategies: map<Id, Strategy>, members: set<(Id, Id)>) {
    && ListsUsers(us, users)
    && ListsSessions(ss, sessions)
    && ListsRules(rs, rules)
    && ListsStrategies(ts, strategies)
    && ListsMembers(ms, members)
  }

  /** How many changes had been committed when each table, and the configuration, was read. */
  datatype Positions = Positions(users: nat, sessions: nat, rules: nat, strategies: nat, members: nat, config: nat)

  function At(pos: Positions, key: Key): nat {
    match key
    case UserOf(_) => pos.users
    case SessionOf(_) => pos.sessions
    case RuleOf(_) => pos.rules
    case StrategyOf(_) => pos.strategies
    case MemberOf(_, _) => pos.members
    case Setting => pos.config
  }

  predicate Within(pos: Positions, low: int, high: int) {
    && low <= pos.users <= high && low <= pos.sessions <= high && low <= pos.rules <= high
    && low <= pos.strategies <= high && low <= pos.members <= high && low <= pos.config <= high
  }

  /** `s` shows each table as it was at its own read, at time `at`, none of them before the snapshot's revision. */
  ghost predicate Captures(source: Id, states: seq<Db>, s: Snapshot, pos: Positions, at: nat) {
    && s.source == source && 0 <= s.revision
    && Within(pos, s.revision, |states| - 1)
    && Rows(s.users, s.sessions, s.rules, s.strategies, s.memberships,
            states[pos.users].users, Unexpired(states[pos.sessions].sessions, at), states[pos.rules].rules,
            states[pos.strategies].strategies, states[pos.members].members)
    && s.config == states[pos.config].config
  }

  // ---------- the capture loop ----------

  /** A moment of the API process: changes committed, and how many of them are published. */
  datatype Moment = Moment(committed: nat, published: nat)

  predicate NotAfter(m: Moment, n: Moment) {
    m.published <= m.committed <= n.committed && m.published <= n.published <= n.committed
  }

  /** One attempt: the moments of its looks at the revision and of its reads, and what it read. */
  datatype Attempt = Attempt(before: Moment, users: Moment, sessions: Moment, rules: Moment, strategies: Moment,
                             members: Moment, after: Moment, config: Moment, time: nat, failed: bool, read: Snapshot)

  /** The configuration is read after the second look. */
  predicate InOrder(a: Attempt) {
    && NotAfter(a.before, a.users) && NotAfter(a.users, a.sessions) && NotAfter(a.sessions, a.rules)
    && NotAfter(a.rules, a.strategies) && NotAfter(a.strategies, a.members) && NotAfter(a.members, a.after)
    && NotAfter(a.after, a.config)
  }

  function PositionsOf(a: Attempt): Positions {
    Positions(a.users.committed, a.sessions.committed, a.rules.committed, a.strategies.committed,
          a.members.committed, a.config.committed)
  }

  ghost predicate Observes(states: seq<Db>, a: Attempt) {
    && InOrder(a) && a.config.committed < |states|
    && (var pos := PositionsOf(a);
        && Rows(a.read.users, a.read.sessions, a.read.rules, a.read.strategies, a.read.memberships,
                states[pos.users].users, Unexpired(states[pos.sessions].sessions, a.time),
                states[pos.rules].rules, states[pos.strategies].strategies, states[pos.members].members)
        && a.read.config == states[pos.config].config)
  }

  predicate Moved(a: Attempt) {
    !a.failed && a.before.published != a.after.published
  }

  function SnapshotOf(source: Id, a: Attempt): Snapshot {
    a.read.(source := source, revision := a.after.published)
  }

  /** What the second look buys: while the tables were read nothing was published, so whatever they show
      beyond the snapshot's revision had been committed and not announced. */
  lemma StillIsCaptured(source: Id, states: seq<Db>, a: Attempt)
    requires Observes(states, a) && a.before.published == a.after.published
    ensures Captures(source, states, SnapshotOf(source, a), PositionsOf(a), a.time)
    ensures var r := a.after.published;
            && a.users.published == a.sessions.published == r && a.rules.published == a.strategies.published == r
            && a.members.published == r && Within(PositionsOf(a), a.before.committed, a.config.committed)
  {
  }

  datatype Answer = Captured(snapshot: Snapshot) | Unavailable | Changing

  /** The snapshot comes from the first attempt that ends the loop, and shows every table at its read;
      the caller is told to retry exactly when every attempt saw a publication. */
  method AuthSnapshot(source: Id, ghost states: seq<Db>, attempts: seq<Attempt>) returns (r: Answer, taken: nat)
    requires |attempts| == 3
    requires forall i :: 0 <= i < |attempts| ==> Observes(states, attempts[i])
    ensures taken <= 3 && (taken == 3 <==> r.Changing?)
    ensures forall i :: 0 <= i < taken ==> Moved(attempts[i])
    ensures taken < 3 ==> !Moved(attempts[taken]) && (r.Unavailable? <==> attempts[taken].failed)
    ensures r.Captured? ==>
              && Captures(source, states, r.snapshot, PositionsOf(attempts[taken]), attempts[taken].time)
              && attempts[taken].before.published == attempts[taken].after.published == r.snapshot.revision
  {
    for attempt := 0 to ATTEMPTS
      invariant forall i :: 0 <= i < attempt ==> Moved(attempts[i])
    {
      var a := attempts[attempt];
      assert Observes(states, a);
      if a.failed {
        return Unavailable, attempt;
      }
      if a.before.published == a.after.published {
        StillIsCaptured(source, states, a);
        return Captured(SnapshotOf(source, a)), attempt;
      }
    }
    return Changing, ATTEMPTS;
  }

  // ---------- accepting a snapshot ----------

  lemma {:induction false} CollectHolds<V(!new)>(rows: seq<V>, key: V -> Id, table: map<Id, V>)
    requires forall i :: 0 <= i < |rows| ==> key(rows[i]) in table && table[key(rows[i])] == rows[i]
    ensures forall k :: k in Collect(rows, key) ==> k in table && Collect(rows, key)[k] == table[k]
    ensures forall i :: 0 <= i < |rows| ==> key(rows[i]) in Collect(rows, key)
  {
    if rows != [] {
      CollectHolds(rows[..|rows| - 1], key, table);
    }
  }

  lemma CollectIsTable<V(!new)>(rows: seq<V>, key: V -> Id, table: map<Id, V>)
    requires forall row :: row in rows ==> key(row) in table && table[key(row)] == row
    requires forall k :: k in table ==> key(table[k]) == k && table[k] in rows
    ensures Collect(rows, key) == table
  {
    CollectHolds(rows, key, table);
    forall k | k in table ensures k in Collect(rows, key) {
      var i :| 0 <= i < |rows| && rows[i] == table[k];
      assert key(rows[i]) in Collect(rows, key);
    }
  }

  /** A row of the snapshot that no later row of the same id replaces. */
  ghost predicate LastRow<V(!new)>(rows: seq<V>, key: V -> Id, i: nat)
    requires i < |rows|
  {
    forall j :: i < j < |rows| ==> key(rows[j]) != key(rows[i])
  }

  lemma {:induction false} CollectKeepsLast<V(!new)>(rows: seq<V>, key: V -> Id, i: nat)
    requires i < |rows| && LastRow(rows, key, i)
    ensures key(rows[i]) in Collect(rows, key) && Collect(rows, key)[key(rows[i])] == rows[i]
    decreases |rows|
  {
    if i < |rows| - 1 {
      var front := rows[..|rows| - 1];
      assert key(rows[|rows| - 1]) != key(rows[i]);
      forall j | i < j < |front| ensures key(front[j]) != key(front[i]) {
        assert front[j] == rows[j];
      }
      CollectKeepsLast(front, key, i);
    }
  }

  lemma {:induction false} CollectOnlyRows<V(!new)>(rows: seq<V>, key: V -> Id, k: Id)
    requires k in Collect(rows, key)
    ensures Collect(rows, key)[k] in rows && key(Collect(rows, key)[k]) == k
    decreases |rows|
  {
    var last := rows[|rows| - 1];
    if k != key(last) {
      CollectOnlyRows(rows[..|rows| - 1], key, k);
    }
  }

  /** A snapshot of another source, or no older than the cache, is taken: its source and revision, and in each table
      exactly its rows, the last of an id counting.  An older one of the same source changes nothing. */
  lemma ReplaceTakes(c: Cache, s: Snapshot)
    ensures s.source == c.source && s.revision < c.revision ==> Replace(c, s) == c
    ensures s.source != c.source || s.revision >= c.revision ==>
              var r := Replace(c, s);
              && r.source == s.source && r.revision == s.revision && r.config == Some(s.config)
              && (forall k :: k in r.users ==> r.users[k] in s.users && r.users[k].id == k)
              && (forall k :: k in r.sessions ==> r.sessions[k] in s.sessions && r.sessions[k].id == k)
              && (forall k :: k in r.rules ==> r.rules[k] in s.rules && r.rules[k].id == k)
              && (forall k :: k in r.strategies ==> r.strategies[k] in s.strategies && r.strategies[k].id == k)
  {
    forall k | k in Collect(s.users, UserKey) ensures Collect(s.users, UserKey)[k] in s.users && Collect(s.users, UserKey)[k].id == k {
      CollectOnlyRows(s.users, UserKey, k);
    }
    forall k | k in Collect(s.sessions, SessionKey) ensures Collect(s.sessions, SessionKey)[k] in s.sessions && Collect(s.sessions, SessionKey)[k].id == k {
      CollectOnlyRows(s.sessions, SessionKey, k);
    }
    forall k | k in Collect(s.rules, RuleKey) ensures Collect(s.rules, RuleKey)[k] in s.rules && Collect(s.rules, RuleKey)[k].id == k {
      CollectOnlyRows(s.rules, RuleKey, k);
    }
    forall k | k in Collect(s.strategies, StrategyKey) ensures Collect(s.strategies, StrategyKey)[k] in s.strategies && Collect(s.strategies, StrategyKey)[k].id == k {
      CollectOnlyRows(s.strategies, StrategyKey, k);
    }
  }

  /** No row of a taken snapshot is missing, unless a later row has its id. */
  lemma ReplaceMissesNothing(c: Cache, s: Snapshot, i: nat)
    requires s.source != c.source || s.revision >= c.revision
    ensures i < |s.users| && LastRow(s.users, UserKey, i) ==>
              s.users[i].id in Replace(c, s).users && Replace(c, s).users[s.users[i].id] == s.users[i]
    ensures i < |s.sessions| && LastRow(s.sessions, SessionKey, i) ==>
              s.sessions[i].id in Replace(c, s).sessions && Replace(c, s).sessions[s.sessions[i].id] == s.sessions[i]
    ensures i < |s.rules| && LastRow(s.rules, RuleKey, i) ==>
              s.rules[i].id in Replace(c, s).rules && Replace(c, s).rules[s.rules[i].id] == s.rules[i]
    ensures i < |s.strategies| && LastRow(s.strategies, StrategyKey, i) ==>
              s.strategies[i].id in Replace(c, s).strategies && Replace(c, s).strategies[s.strategies[i].id] == s.strategies[i]
  {
    if i < |s.users| && LastRow(s.users, UserKey, i) {
      CollectKeepsLast(s.users, UserKey, i);
    }
    if i < |s.sessions| && LastRow(s.sessions, SessionKey, i) {
      CollectKeepsLast(s.sessions, SessionKey, i);
    }
    if i < |s.rules| && LastRow(s.rules, RuleKey, i) {
      CollectKeepsLast(s.rules, RuleKey, i);
    }
    if i < |s.strategies| && LastRow(s.strategies, StrategyKey, i) {
      CollectKeepsLast(s.strategies, StrategyKey, i);
    }
  }

  lemma {:induction false} GroupsAreRows(rows: seq<Membership>, u: Id, g: Id)
    ensures InGroup(CollectGroups(rows), u, g) <==> Membership(u, g, true) in rows
  {
    if rows != [] {
      var front, last := rows[..|rows| - 1], rows[|rows| - 1];
      GroupsAreRows(front, u, g);
      assert rows == front + [last];
    }
  }

  /** A user is in the groups the taken snapshot's active memberships name, and in no others. */
  lemma ReplaceTakesGroups(c: Cache, s: Snapshot, u: Id, g: Id)
    requires s.source != c.source || s.revision >= c.revision
    ensures InGroup(Replace(c, s).groups, u, g) <==> Membership(u, g, true) in s.memberships
  {
    GroupsAreRows(s.memberships, u, g);
  }

  ghost predicate ReadAt(c: Cache, states: seq<Db>, pos: Positions, now: nat, key: Key)
    requires Within(pos, 0, |states| - 1)
  {
    RowAgrees(key, Cached(c, key), Stored(states[At(pos, key)], key), now)
  }

  /** The tables of a snapshot agree, row by row, with the tables at their pos. */
  lemma LoadedAgrees(source: Id, states: seq<Db>, s: Snapshot, pos: Positions, at: nat, now: nat, key: Key)
    requires Captures(source, states, s, pos, at) && at <= now
    ensures ReadAt(Loaded(s), states, pos, now, key) && Fits(key, Cached(Loaded(s), key))
    ensures !key.SessionOf? ==> Cached(Loaded(s), key) == Stored(states[At(pos, key)], key)
  {
    match key {
      case UserOf(_) => CollectIsTable(s.users, UserKey, states[pos.users].users);
      case SessionOf(_) => CollectIsTable(s.sessions, SessionKey, Unexpired(states[pos.sessions].sessions, at));
      case RuleOf(_) => CollectIsTable(s.rules, RuleKey, states[pos.rules].rules);
      case StrategyOf(_) => CollectIsTable(s.strategies, StrategyKey, states[pos.strategies].strategies);
      case MemberOf(u, g) => GroupsAreRows(s.memberships, u, g);
      case Setting =>
    }
  }

  /** Whatever the cache held, an accepted snapshot leaves every row as it was when its table was read. */
  lemma ReplaceAgrees(c: Cache, source: Id, states: seq<Db>, s: Snapshot, pos: Positions, at: nat, now: nat)
    requires Captures(source, states, s, pos, at) && at <= now && (s.source != c.source || s.revision >= c.revision)
    ensures forall key :: ReadAt(Replace(c, s), states, pos, now, key)
    ensures Within(pos, s.revision, s.revision) ==> Agree(Replace(c, s), states[s.revision], now)
  {
    forall key ensures ReadAt(Replace(c, s), states, pos, now, key) {
      LoadedAgrees(source, states, s, pos, at, now, key);
    }
    AgreeByRows(Replace(c, s), states[s.revision], now);
    if Within(pos, s.revision, s.revision) {
      forall key ensures AgreesAt(Replace(c, s), states[s.revision], now, key) {
        assert ReadAt(Replace(c, s), states, pos, now, key);
      }
    }
  }

  // ---------- when it fits its revision ----------

  /** The last change committed after the revision to alter this row before its table was read,
      if there is one, left it as it had been. */
  ghost predicate Unmoved(states: seq<Db>, log: seq<Change>, revision: nat, pos: Positions, now: nat, key: Key)
    requires |states| == |log| + 1 && Within(pos, revision, |log|)
  {
    RowAgrees(key, LeftBy(key, CellsOf(key, states), log, revision, At(pos, key)), Stored(states[revision], key), now)
  }

  lemma RowFits(source: Id, states: seq<Db>, log: seq<Change>, s: Snapshot, pos: Positions, at: nat, now: nat, key: Key)
    requires Follows(states, log) && Captures(source, states, s, pos, at) && at <= now
    ensures AgreesAt(Loaded(s), states[s.revision], now, key) <==> Unmoved(states, log, s.revision, pos, now, key)
  {
    LoadedAgrees(source, states, s, pos, at, now, key);
    HistoryOfRow(key, states, log);
    RowAtRead(key, CellsOf(key, states), log, s.revision, At(pos, key));
  }

  /** An accepted snapshot agrees with the tables of its own revision if and only if no change committed but not
      yet announced had left a row different when its table was read. */
  lemma SnapshotFits(c: Cache, source: Id, states: seq<Db>, log: seq<Change>, s: Snapshot, pos: Positions, at: nat, now: nat)
    requires Follows(states, log) && Captures(source, states, s, pos, at) && at <= now && (s.source != c.source || s.revision >= c.revision)
    ensures Agree(Replace(c, s), states[s.revision], now) <==>
            forall key :: Unmoved(states, log, s.revision, pos, now, key)
  {
    AgreeByRows(Replace(c, s), states[s.revision], now);
    forall key
      ensures AgreesAt(Replace(c, s), states[s.revision], now, key) <==> Unmoved(states, log, s.revision, pos, now, key)
    {
      RowFits(source, states, log, s, pos, at, now, key);
    }
  }

  function LastConfigured(log: seq<Change>, a: nat, b: nat): Option<Config>
    requires a <= b <= |log|
  {
    if a == b then None
    else if log[b - 1].Configure? then Some(log[b - 1].config)
    else LastConfigured(log, a, b - 1)
  }

  lemma {:induction false} ConfigAtRead(states: seq<Db>, log: seq<Change>, a: nat, b: nat)
    requires Follows(states, log) && a <= b <= |log|
    ensures states[b].config == match LastConfigured(log, a, b) case None => states[a].config case Some(config) => config
    decreases b
  {
    if a < b {
      assert states[b - 1 + 1] == Write(states[b - 1], log[b - 1]);
      ConfigAtRead(states, log, a, b - 1);
    }
  }

  /** The configuration fits the revision if and only if the last one set between the revision and its
      read, if any, is the one that held already. */
  lemma ConfigurationFits(c: Cache, source: Id, states: seq<Db>, log: seq<Change>, s: Snapshot, pos: Positions, at: nat)
    requires Follows(states, log) && Captures(source, states, s, pos, at) && (s.source != c.source || s.revision >= c.revision)
    ensures Replace(c, s).config == Some(states[s.revision].config) <==>
            var last := LastConfigured(log, s.revision, pos.config); last.Some? ==> last.value == states[s.revision].config
  {
    ConfigAtRead(states, log, s.revision, pos.config);
  }

  // ---------- where it does not ----------

  const NOBODY := Db(map[], map[], map[], map[], {}, Config(false, false))

  /** A rule committed and not yet published when the rules are read: both looks see revision 0, and the
      captured snapshot shows under revision 0 a rule that only revision 1 announces. */
  lemma CommittedRuleAhead(source: Id, c: Cache, rule: Rule, now: nat)
    requires c.source != source
    ensures var states := [NOBODY, Write(NOBODY, SaveRule(rule))];
            var early, late := Moment(0, 0), Moment(1, 0);
            var read := Snapshot("", 0, Config(false, false), [], [], [rule], [], []);
            var a := Attempt(early, early, early, late, late, late, late, late, 0, false, read);
            && Observes(states, a) && !Moved(a)
            && SnapshotOf(source, a).revision == 0
            && rule.id in Replace(c, SnapshotOf(source, a)).rules && states[0].rules == map[]
            && !Agree(Replace(c, SnapshotOf(source, a)), states[0], now)
  {
    assert Collect([rule], RuleKey) == Collect([], RuleKey)[rule.id := rule];
  }

  /** A setting changed after the second look shows up under the earlier revision. */
  lemma ConfigurationAhead(source: Id, c: Cache)
    requires c.source != source
    ensures var states := [NOBODY, Write(NOBODY, Configure(Config(true, false)))];
            var s := Snapshot(source, 0, Config(true, false), [], [], [], [], []);
            && Captures(source, states, s, Positions(0, 0, 0, 0, 0, 1), 0)
            && Replace(c, s).revision == 0
            && Replace(c, s).config != Some(states[0].config)
  {
  }
}
