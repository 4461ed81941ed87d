/** The connection server's copy of the authorization tables, as values: snapshots replace
    it, revisioned events update it, and tokens are judged against it. */
module AuthCacheSpec {
  import opened Wrappers

  type Id = string

  datatype Approval = Approved | Pending | OtherApproval

  datatype User = User(id: Id, username: string, role: string, enabled: bool, approval: Approval, tokenVersion: int)

  /** `expiresAt` is in milliseconds, or `None` for a text that is not a date. */
  datatype Session = Session(id: Id, userId: Id, expiresAt: Option<nat>, revoked: bool, device: Id)

  /** `subject` is the user a rule or strategy is about, when it is about one user. */
  datatype Rule = Rule(id: Id, subject: Option<Id>, body: string)

  datatype Strategy = Strategy(id: Id, subject: Option<Id>, enabled: bool, deleted: bool, body: string)

  datatype Membership = Membership(user: Id, group: Id, active: bool)

  datatype Config = Config(requireLogin: bool, requireDeployment: bool)

  datatype Cache = Cache(source: Id, revision: int, config: Option<Config>,
                         users: map<Id, User>, sessions: map<Id, Session>,
                         rules: map<Id, Rule>, strategies: map<Id, Strategy>,
                         groups: map<Id, seq<Id>>)

  datatype Snapshot = Snapshot(source: Id, revision: int, config: Config,
                               users: seq<User>, sessions: seq<Session>,
                               rules: seq<Rule>, strategies: seq<Strategy>,
                               memberships: seq<Membership>)

  /** Decoded payloads by kind.  `OtherRow` is a device or relay row; `Note` any kind the cache does not know. */
  datatype Payload =
    | UserRow(user: User)
    | SessionRow(session: Session)
    | RevokeAll(userId: Id)
    | RuleRow(rule: Rule, deleted: bool)
    | StrategyRow(strategy: Strategy)
    | MemberRow(membership: Membership)
    | Configuration(config: Config)
    | OtherRow
    | Note

  datatype Event = Event(source: Id, revision: int, payload: Payload)

  // ---------- updates ----------

  predicate Accepts(c: Cache, source: Id, revision: int) {
    c.source != source || revision > c.revision
  }

  function GroupsOf(groups: map<Id, seq<Id>>, user: Id): seq<Id> {
    if user in groups then groups[user] else []
  }

  function Without(groups: seq<Id>, group: Id): seq<Id> {
    if groups == [] then []
    else if groups[0] == group then Without(groups[1..], group)
    else [groups[0]] + Without(groups[1..], group)
  }

  function SetMembership(groups: map<Id, seq<Id>>, m: Membership): map<Id, seq<Id>> {
    var kept := Without(GroupsOf(groups, m.user), m.group);
    groups[m.user := if m.active then kept + [m.group] else kept]
  }

  function NotOf(sessions: map<Id, Session>, user: Id): map<Id, Session> {
    map id | id in sessions && sessions[id].userId != user :: sessions[id]
  }

  /** The tables after an accepted payload. */
  function Update(c: Cache, p: Payload): Cache {
    match p
    case UserRow(user) => c.(users := c.users[user.id := user])
    case SessionRow(session) => c.(sessions := c.sessions[session.id := session])
    case RevokeAll(user) => c.(sessions := NotOf(c.sessions, user))
    case RuleRow(rule, deleted) =>
      c.(rules := if deleted then c.rules - {rule.id} else c.rules[rule.id := rule])
    case StrategyRow(s) =>
      c.(strategies := if s.deleted then c.strategies - {s.id} else c.strategies[s.id := s])
    case MemberRow(m) => c.(groups := SetMembership(c.groups, m))
    case Configuration(config) => c.(config := Some(config))
    case OtherRow => c
    case Note => c
  }

  function Apply(c: Cache, e: Event): Cache {
    if e.payload.Note? || !Accepts(c, e.source, e.revision) then c
    else Update(c.(source := e.source, revision := e.revision), e.payload)
  }

  // ---------- snapshots ----------

  function Collect<V>(rows: seq<V>, key: V -> Id): map<Id, V> {
    if rows == [] then map[] else Collect(rows[..|rows| - 1], key)[key(rows[|rows| - 1]) := rows[|rows| - 1]]
  }

  function CollectGroups(rows: seq<Membership>): map<Id, seq<Id>> {
    if rows == [] then map[]
    else
      var groups, last := CollectGroups(rows[..|rows| - 1]), rows[|rows| - 1];
      if last.active then groups[last.user := GroupsOf(groups, last.user) + [last.group]] else groups
  }

  function UserKey(u: User): Id { u.id }

  function SessionKey(s: Session): Id { s.id }

  function RuleKey(r: Rule): Id { r.id }

  function StrategyKey(s: Strategy): Id { s.id }

  /** A snapshot of the source the cache follows is stale when its revision is behind. */
  predicate Stale(c: Cache, s: Snapshot) {
    s.source == c.source && s.revision < c.revision
  }

  /** The tables of a snapshot. */
  function Loaded(s: Snapshot): Cache {
    Cache(s.source, s.revision, Some(s.config),
          Collect(s.users, UserKey), Collect(s.sessions, SessionKey),
          Collect(s.rules, RuleKey), Collect(s.strategies, StrategyKey),
          CollectGroups(s.memberships))
  }

  function Replace(c: Cache, s: Snapshot): Cache {
    if Stale(c, s) then c else Loaded(s)
  }

  // ---------- judging a token ----------

  datatype Claims = Claims(sub: Id, sid: Id, exp: nat, tokenVersion: int, device: Id)

  datatype AuthError = SessionExpired | SessionRevoked | UserDisabled | ApprovalPending | ApprovalRejected | ForceRelogin

  datatype Decision = Decision(userId: Id, sessionId: Id, username: string, role: string, device: Id)

  datatype Verdict = Allowed(decision: Decision) | Refused(error: AuthError)

  /** A session that is not revoked and expires after `now`. */
  function Live(sessions: map<Id, Session>, sid: Id, now: nat): Option<Session> {
    if sid in sessions && !sessions[sid].revoked && sessions[sid].expiresAt.Some? && now < sessions[sid].expiresAt.value
    then Some(sessions[sid]) else None
  }

  /** What a token needs: a known, enabled, approved user at the token's version, with a session
      of their own that is neither revoked nor, in whole seconds, expired. */
  predicate Entitled(c: Cache, claims: Claims, now: nat) {
    && claims.sub in c.users && claims.sid in c.sessions
    && (var user, session := c.users[claims.sub], c.sessions[claims.sid];
        && user.enabled && user.approval == Approved && user.tokenVersion == claims.tokenVersion
        && session.userId == user.id && !session.revoked && session.expiresAt.Some?
        && now / 1000 < session.expiresAt.value / 1000 && now / 1000 < claims.exp)
  }

  /** `now` is in milliseconds.  The user comes first, then the session, then the version, then the clock:
      each refusal names the first of them that fails. */
  function Authorize(c: Cache, claims: Claims, now: nat): (v: Verdict)
    ensures v.Allowed? <==> Entitled(c, claims, now)
    ensures v.Allowed? ==> Live(c.sessions, claims.sid, now).Some?
    ensures v.Allowed? ==>
              var user, session := c.users[claims.sub], c.sessions[claims.sid];
              && v.decision.userId == user.id && v.decision.sessionId == session.id
              && v.decision.username == user.username && v.decision.role == user.role
              && v.decision.device == (if |claims.device| == 0 then session.device else claims.device)
    ensures v == Refused(UserDisabled) <==> claims.sub in c.users && !c.users[claims.sub].enabled
    ensures v == Refused(ApprovalPending) <==>
            claims.sub in c.users && c.users[claims.sub].enabled && c.users[claims.sub].approval == Pending
    ensures v == Refused(ApprovalRejected) <==>
            && claims.sub in c.users && c.users[claims.sub].enabled
            && c.users[claims.sub].approval != Pending && c.users[claims.sub].approval != Approved
    ensures v == Refused(ForceRelogin) ==>
              && claims.sub in c.users && claims.sid in c.sessions && !c.sessions[claims.sid].revoked
              && c.users[claims.sub].tokenVersion != claims.tokenVersion
    ensures v == Refused(SessionExpired) ==>
              && claims.sub in c.users && claims.sid in c.sessions && !c.sessions[claims.sid].revoked
              && c.users[claims.sub].tokenVersion == claims.tokenVersion
  {
    if claims.sub !in c.users then Refused(SessionRevoked)
    else
      var user := c.users[claims.sub];
      if !user.enabled then Refused(UserDisabled)
      else if user.approval == Pending then Refused(ApprovalPending)
      else if user.approval != Approved then Refused(ApprovalRejected)
      else if claims.sid !in c.sessions then Refused(SessionRevoked)
      else
        var session := c.sessions[claims.sid];
        if session.userId != user.id then Refused(SessionRevoked)
        else if session.revoked then Refused(SessionRevoked)
        else if user.tokenVersion != claims.tokenVersion then Refused(ForceRelogin)
        else if session.expiresAt.None? then Refused(SessionExpired)
        else if claims.exp <= now / 1000 || session.expiresAt.value / 1000 <= now / 1000 then Refused(SessionExpired)
        else Allowed(Decision(user.id, session.id, user.username, user.role,
                              if claims.device == "" then session.device else claims.device))
  }
}
