/** The tables row by row: what a write does to a row, what its event does to a cache's copy of
    the row, and why events replayed onto rows read too late still end in agreement. */
module AuthReplay {
  import opened Wrappers
  import opened AuthCacheSpec
  import opened AuthDatabase

  // ---------- rows ----------

  datatype Key =
    | UserOf(id: Id) | SessionOf(id: Id) | RuleOf(id: Id) | StrategyOf(id: Id)
    | MemberOf(user: Id, group: Id) | Setting

  datatype Cell =
    | NoRow | AUser(user: User) | ASession(session: Session) | ARule(rule: Rule)
    | AStrategy(strategy: Strategy) | AMember | AConfig(config: Config)

  function Stored(db: Db, key: Key): Cell {
    match key
    case UserOf(id) => if id in db.users then AUser(db.users[id]) else NoRow
    case SessionOf(id) => if id in db.sessions then ASession(db.sessions[id]) else NoRow
    case RuleOf(id) => if id in db.rules then ARule(db.rules[id]) else NoRow
    case StrategyOf(id) => if id in db.strategies then AStrategy(db.strategies[id]) else NoRow
    case MemberOf(u, g) => if (u, g) in db.members then AMember else NoRow
    case Setting => AConfig(db.config)
  }

  function Cached(c: Cache, key: Key): Cell {
    match key
    case UserOf(id) => if id in c.users then AUser(c.users[id]) else NoRow
    case SessionOf(id) => if id in c.sessions then ASession(c.sessions[id]) else NoRow
    case RuleOf(id) => if id in c.rules then ARule(c.rules[id]) else NoRow
    case StrategyOf(id) => if id in c.strategies then AStrategy(c.strategies[id]) else NoRow
    case MemberOf(u, g) => if InGroup(c.groups, u, g) then AMember else NoRow
    case Setting => if c.config.Some? then AConfig(c.config.value) else NoRow
  }

  predicate BelongsTo(x: Cell, user: Id) {
    x.ASession? && x.session.userId == user
  }

  predicate About(x: Cell, user: Id) {
    (x.ARule? && x.rule.subject == Some(user)) || (x.AStrategy? && x.strategy.subject == Some(user))
  }

  /** A change whose event names this very row. */
  predicate Names(key: Key, ch: Change) {
    match key
    case UserOf(id) => (ch.SaveUser? && ch.user.id == id) || (ch.DeleteUser? && ch.userId == id)
    case SessionOf(id) => ch.SaveSession? && ch.session.id == id
    case RuleOf(id) => (ch.SaveRule? && ch.rule.id == id) || (ch.DeleteRule? && ch.id == id)
    case StrategyOf(id) => (ch.SaveStrategy? && ch.strategy.id == id) || (ch.DeleteStrategy? && ch.id == id)
    case MemberOf(u, g) => ch.SetMember? && ch.membership.user == u && ch.membership.group == g
    case Setting => ch.Configure?
  }

  /** What the event says the row is. */
  function Said(ch: Change): Cell {
    match ch
    case SaveUser(user, _) => AUser(user)
    case DeleteUser(id) => AUser(Wire(ch).user)
    case SaveSession(session) => ASession(session)
    case SaveRule(rule) => ARule(rule)
    case SaveStrategy(s) => if s.deleted then NoRow else AStrategy(s)
    case SetMember(m) => if m.active then AMember else NoRow
    case Configure(config) => AConfig(config)
    case _ => NoRow
  }

  /** A cache's row after the event of a change. */
  function Hear(key: Key, x: Cell, ch: Change): Cell {
    if Names(key, ch) then Said(ch)
    else if ch.RevokeSessions? && BelongsTo(x, ch.userId) then NoRow
    else x
  }

  /** The tables' row after a change. */
  function Put(key: Key, y: Cell, ch: Change): Cell {
    match ch
    case SaveUser(user, left) =>
      if key == UserOf(user.id) then AUser(user)
      else if key.MemberOf? && key.user == user.id && key.group in left then NoRow else y
    case DeleteUser(id) =>
      if key == UserOf(id) || About(y, id) || (key.MemberOf? && key.user == id) then NoRow else y
    case SaveSession(session) => if key == SessionOf(session.id) then ASession(session) else y
    case RevokeSessions(id) => if BelongsTo(y, id) then ASession(y.session.(revoked := true)) else y
    case SaveRule(rule) => if key == RuleOf(rule.id) then ARule(rule) else y
    case DeleteRule(id) => if key == RuleOf(id) then NoRow else y
    case SaveStrategy(s) => if key == StrategyOf(s.id) then AStrategy(s) else y
    case DeleteStrategy(id) =>
      if key == StrategyOf(id) && y.AStrategy? then AStrategy(y.strategy.(enabled := false, deleted := true)) else y
    case SetMember(m) => if key == MemberOf(m.user, m.group) then (if m.active then AMember else NoRow) else y
    case Configure(config) => if key == Setting then AConfig(config) else y
    case TouchOther => y
    case Record => y
  }

  /** A row of the kind its key asks for, or none. */
  predicate Fits(key: Key, x: Cell) {
    match x
    case NoRow => true
    case AUser(_) => key.UserOf?
    case ASession(_) => key.SessionOf?
    case ARule(_) => key.RuleOf?
    case AStrategy(_) => key.StrategyOf?
    case AMember => key.MemberOf?
    case AConfig(_) => key.Setting?
  }

  lemma WriteRow(db: Db, ch: Change, key: Key)
    ensures Stored(Write(db, ch), key) == Put(key, Stored(db, key), ch)
  {
  }

  lemma UpdateRow(c: Cache, ch: Change, key: Key)
    ensures Cached(Update(c, Wire(ch)), key) == Hear(key, Cached(c, key), ch)
  {
    if ch.SetMember? && key.MemberOf? {
      WithoutHolds(GroupsOf(c.groups, ch.membership.user), ch.membership.group, key.group);
    }
  }

  // ---------- agreement, row by row ----------

  function Usable(x: Cell, now: nat): Cell {
    if x.ASession? && !x.session.revoked && x.session.expiresAt.Some? && now < x.session.expiresAt.value then x else NoRow
  }

  function Undropped(x: Cell): Cell {
    if x.AStrategy? && x.strategy.deleted then NoRow else x
  }

  ghost predicate RowAgrees(key: Key, x: Cell, y: Cell, now: nat) {
    match key
    case UserOf(_) => if y.AUser? then x == y else x.AUser? ==> !x.user.enabled
    case SessionOf(_) => Usable(x, now) == Usable(y, now)
    case StrategyOf(_) => Undropped(x) == Undropped(y)
    case _ => x == y
  }

  ghost predicate AgreesAt(c: Cache, db: Db, now: nat, key: Key) {
    RowAgrees(key, Cached(c, key), Stored(db, key), now)
  }

  ghost predicate RowsAgree(c: Cache, db: Db, now: nat) {
    forall key :: AgreesAt(c, db, now, key)
  }

  lemma RowsOfAgreement(c: Cache, db: Db, now: nat, key: Key)
    requires Agree(c, db, now)
    ensures AgreesAt(c, db, now, key)
  {
    match key {
      case UserOf(id) => assert UserAgrees(c.users, db.users, id);
      case SessionOf(id) => assert Live(c.sessions, id, now) == Live(db.sessions, id, now);
      case StrategyOf(id) => assert id in Undeleted(c.strategies) <==> id in Undeleted(db.strategies);
      case MemberOf(u, g) => assert InGroup(c.groups, u, g) <==> (u, g) in db.members;
      case _ =>
    }
  }

  lemma StrategiesByRows(c: Cache, db: Db, now: nat)
    requires RowsAgree(c, db, now)
    ensures Undeleted(c.strategies) == Undeleted(db.strategies)
  {
    var a, b := Undeleted(c.strategies), Undeleted(db.strategies);
    forall id ensures (id in a <==> id in b) && (id in a ==> a[id] == b[id]) {
      assert AgreesAt(c, db, now, StrategyOf(id));
    }
  }

  lemma RulesByRows(c: Cache, db: Db, now: nat)
    requires RowsAgree(c, db, now)
    ensures c.rules == db.rules
  {
    forall id ensures (id in c.rules <==> id in db.rules) && (id in c.rules ==> c.rules[id] == db.rules[id]) {
      assert AgreesAt(c, db, now, RuleOf(id));
    }
  }

  /** Agreement of the tables is agreement of every row. */
  lemma AgreeByRows(c: Cache, db: Db, now: nat)
    ensures Agree(c, db, now) <==> RowsAgree(c, db, now)
  {
    if Agree(c, db, now) {
      forall key ensures AgreesAt(c, db, now, key) {
        RowsOfAgreement(c, db, now, key);
      }
    }
    if RowsAgree(c, db, now) {
      forall id ensures UserAgrees(c.users, db.users, id) {
        assert AgreesAt(c, db, now, UserOf(id));
      }
      forall id ensures Live(c.sessions, id, now) == Live(db.sessions, id, now) {
        assert AgreesAt(c, db, now, SessionOf(id));
      }
      forall u, g ensures InGroup(c.groups, u, g) <==> (u, g) in db.members {
        assert AgreesAt(c, db, now, MemberOf(u, g));
      }
      RulesByRows(c, db, now);
      StrategiesByRows(c, db, now);
      assert AgreesAt(c, db, now, Setting);
    }
  }

  /** Whether the event tells what the change does to this row. */
  predicate AnnouncedRow(key: Key, y: Cell, ch: Change) {
    match ch
    case SaveUser(user, left) => key.MemberOf? && key.user == user.id && key.group in left ==> y.NoRow?
    case DeleteUser(id) =>
      && (key.MemberOf? && key.user == id ==> y.NoRow?)
      && (About(y, id) ==> y.AStrategy? && y.strategy.deleted)
    case _ => true
  }

  lemma AnnouncedRows(db: Db, ch: Change, key: Key)
    requires Announced(db, ch)
    ensures AnnouncedRow(key, Stored(db, key), ch)
  {
  }

  lemma HearFits(key: Key, x: Cell, ch: Change)
    requires Fits(key, x)
    ensures Fits(key, Hear(key, x, ch))
  {
  }

  lemma HearAgrees(key: Key, x: Cell, y: Cell, ch: Change, now: nat)
    requires Fits(key, x) && Fits(key, y) && RowAgrees(key, x, y, now) && AnnouncedRow(key, y, ch)
    ensures RowAgrees(key, Hear(key, x, ch), Put(key, y, ch), now)
  {
  }

  // ---------- one row over time ----------

  /** `cells[n]` is the row after `n` changes. */
  ghost predicate RowHistory(key: Key, cells: seq<Cell>, log: seq<Change>) {
    && |cells| == |log| + 1
    && (forall i :: 0 <= i <= |log| ==> Fits(key, cells[i]))
    && forall i :: 0 <= i < |log| ==> cells[i + 1] == Put(key, cells[i], log[i])
  }

  ghost function CellsOf(key: Key, states: seq<Db>): (cells: seq<Cell>)
    ensures |cells| == |states| && forall i :: 0 <= i < |states| ==> cells[i] == Stored(states[i], key)
  {
    seq(|states|, i requires 0 <= i < |states| => Stored(states[i], key))
  }

  lemma HistoryOfRow(key: Key, states: seq<Db>, log: seq<Change>)
    requires Follows(states, log)
    ensures RowHistory(key, CellsOf(key, states), log)
  {
    var cells := CellsOf(key, states);
    forall i | 0 <= i < |log| ensures cells[i + 1] == Put(key, cells[i], log[i]) {
      WriteRow(states[i], log[i], key);
    }
  }

  ghost predicate RowAnnounced(key: Key, cells: seq<Cell>, log: seq<Change>, a: nat, b: nat)
    requires b <= |log| < |cells|
  {
    forall j :: a <= j < b ==> AnnouncedRow(key, cells[j], log[j])
  }

  // ---------- rows read too late ----------

  /** The last change of `log[a..b]` that altered the row. */
  ghost function LastAltered(key: Key, cells: seq<Cell>, log: seq<Change>, a: nat, b: nat): (last: Option<nat>)
    requires a <= b <= |log| < |cells|
    ensures last.Some? ==> a <= last.value < b
  {
    if a == b then None
    else if Put(key, cells[b - 1], log[b - 1]) != cells[b - 1] then Some(b - 1)
    else LastAltered(key, cells, log, a, b - 1)
  }

  /** What that change left, or what there was. */
  ghost function LeftBy(key: Key, cells: seq<Cell>, log: seq<Change>, a: nat, b: nat): Cell
    requires a <= b <= |log| < |cells|
  {
    match LastAltered(key, cells, log, a, b)
    case None => cells[a]
    case Some(i) => Put(key, cells[i], log[i])
  }

  lemma {:induction false} RowAtRead(key: Key, cells: seq<Cell>, log: seq<Change>, a: nat, b: nat)
    requires RowHistory(key, cells, log) && a <= b <= |log|
    ensures cells[b] == LeftBy(key, cells, log, a, b)
    decreases b
  {
    if a < b {
      assert cells[b - 1 + 1] == Put(key, cells[b - 1], log[b - 1]);
      RowAtRead(key, cells, log, a, b - 1);
    }
  }

  // ---------- replay ----------

  /** A cache's row after the events of `log[start..k]`. */
  function ReplayRow(key: Key, x: Cell, log: seq<Change>, start: nat, k: nat): Cell
    requires start <= k <= |log|
  {
    if k == start then x else Hear(key, ReplayRow(key, x, log, start, k - 1), log[k - 1])
  }

  /** A cache's tables after the events of `log[start..k]`. */
  function Replay(c: Cache, log: seq<Change>, start: nat, k: nat): Cache
    requires start <= k <= |log|
  {
    if k == start then c else Update(Replay(c, log, start, k - 1), Wire(log[k - 1]))
  }

  lemma {:induction false} ReplayByRows(c: Cache, log: seq<Change>, start: nat, k: nat, key: Key)
    requires start <= k <= |log|
    ensures Cached(Replay(c, log, start, k), key) == ReplayRow(key, Cached(c, key), log, start, k)
    decreases k
  {
    if k > start {
      ReplayByRows(c, log, start, k - 1, key);
      UpdateRow(Replay(c, log, start, k - 1), log[k - 1], key);
    }
  }

  predicate Rewritten(key: Key, log: seq<Change>, a: nat, b: nat)
    requires a <= b <= |log|
  {
    exists i :: a <= i < b && Names(key, log[i])
  }

  /** A replay under way from position `k` towards `p`: the row agrees with the tables at `k`, or
      will be written again before `p`, or is already what it is to be at `p`. */
  ghost predicate Near(key: Key, x: Cell, cells: seq<Cell>, log: seq<Change>, k: nat, p: nat, now: nat)
    requires k <= p <= |log| < |cells|
  {
    && Fits(key, x)
    && (|| RowAgrees(key, x, cells[k], now)
        || Rewritten(key, log, k, p)
        || RowAgrees(key, x, cells[p], now))
  }

  predicate RevokedFor(y: Cell, user: Id) {
    BelongsTo(y, user) ==> y.session.revoked
  }

  /** Until its row is written again, a revoked session stays revoked. */
  lemma {:induction false} RevokedUntilRewritten(key: Key, cells: seq<Cell>, log: seq<Change>, user: Id, k: nat, p: nat)
    requires RowHistory(key, cells, log) && key.SessionOf? && k < p <= |log| && log[k] == RevokeSessions(user)
    requires !Rewritten(key, log, k, p)
    ensures RevokedFor(cells[p], user)
    decreases p
  {
    assert cells[p - 1 + 1] == Put(key, cells[p - 1], log[p - 1]);
    if p > k + 1 {
      assert !Names(key, log[p - 1]);
      RevokedUntilRewritten(key, cells, log, user, k, p - 1);
    }
  }

  lemma SaidAgrees(key: Key, y: Cell, ch: Change, now: nat)
    requires Fits(key, y) && Names(key, ch)
    ensures RowAgrees(key, Said(ch), Put(key, y, ch), now)
  {
  }

  lemma NearNext(key: Key, x: Cell, cells: seq<Cell>, log: seq<Change>, k: nat, p: nat, now: nat)
    requires RowHistory(key, cells, log) && k < p <= |log| && AnnouncedRow(key, cells[k], log[k])
    requires Near(key, x, cells, log, k, p, now)
    ensures Near(key, Hear(key, x, log[k]), cells, log, k + 1, p, now)
  {
    assert cells[k + 1] == Put(key, cells[k], log[k]);
    HearFits(key, x, log[k]);
    if RowAgrees(key, x, cells[k], now) {
      HearAgrees(key, x, cells[k], log[k], now);
    } else if Names(key, log[k]) {
      SaidAgrees(key, cells[k], log[k], now);
    } else if Rewritten(key, log, k, p) {
      var i :| k <= i < p && Names(key, log[i]);
      assert k + 1 <= i;
    } else if key.SessionOf? && log[k].RevokeSessions? {
      RevokedUntilRewritten(key, cells, log, log[k].userId, k, p);
    }
  }

  lemma {:induction false} NearAll(key: Key, x: Cell, cells: seq<Cell>, log: seq<Change>, start: nat, k: nat, p: nat, now: nat)
    requires RowHistory(key, cells, log) && start <= k <= p <= |log| && RowAnnounced(key, cells, log, start, p)
    requires Fits(key, x) && RowAgrees(key, x, cells[p], now)
    ensures Near(key, ReplayRow(key, x, log, start, k), cells, log, k, p, now)
    decreases k
  {
    if k > start {
      NearAll(key, x, cells, log, start, k - 1, p, now);
      NearNext(key, ReplayRow(key, x, log, start, k - 1), cells, log, k - 1, p, now);
    }
  }

  /** A row read at `p`, with the events from `start` on replayed onto it: once all up to `p` are, it
      agrees with the tables at every later position, although some of them are applied twice. */
  lemma {:induction false} RowCatchesUp(key: Key, x: Cell, cells: seq<Cell>, log: seq<Change>, start: nat, p: nat, k: nat, now: nat)
    requires RowHistory(key, cells, log) && start <= p <= k <= |log| && RowAnnounced(key, cells, log, start, k)
    requires Fits(key, x) && RowAgrees(key, x, cells[p], now)
    ensures Fits(key, ReplayRow(key, x, log, start, k)) && RowAgrees(key, ReplayRow(key, x, log, start, k), cells[k], now)
    decreases k
  {
    if k == p {
      NearAll(key, x, cells, log, start, p, p, now);
    } else {
      RowCatchesUp(key, x, cells, log, start, p, k - 1, now);
      assert cells[k - 1 + 1] == Put(key, cells[k - 1], log[k - 1]);
      var before := ReplayRow(key, x, log, start, k - 1);
      HearFits(key, before, log[k - 1]);
      HearAgrees(key, before, cells[k - 1], log[k - 1], now);
    }
  }

  // ---------- all rows ----------

  ghost predicate AnnouncedIn(states: seq<Db>, log: seq<Change>, a: nat, b: nat) {
    |states| == |log| + 1 && b <= |log| && forall j :: a <= j < b ==> Announced(states[j], log[j])
  }

  lemma AnnouncedInRow(key: Key, states: seq<Db>, log: seq<Change>, a: nat, b: nat)
    requires AnnouncedIn(states, log, a, b)
    ensures RowAnnounced(key, CellsOf(key, states), log, a, b)
  {
    var cells := CellsOf(key, states);
    forall j | a <= j < b ensures AnnouncedRow(key, cells[j], log[j]) {
      AnnouncedRows(states[j], log[j], key);
    }
  }

  /** A cache whose row was read at `p`, after the events of `log[start..k]`. */
  lemma ReplayCatchesUp(c: Cache, states: seq<Db>, log: seq<Change>, start: nat, p: nat, k: nat, now: nat, key: Key)
    requires Follows(states, log) && start <= p <= k <= |log| && AnnouncedIn(states, log, start, k)
    requires Fits(key, Cached(c, key)) && RowAgrees(key, Cached(c, key), Stored(states[p], key), now)
    ensures AgreesAt(Replay(c, log, start, k), states[k], now, key)
  {
    HistoryOfRow(key, states, log);
    AnnouncedInRow(key, states, log, start, k);
    RowCatchesUp(key, Cached(c, key), CellsOf(key, states), log, start, p, k, now);
    ReplayByRows(c, log, start, k, key);
  }
}
