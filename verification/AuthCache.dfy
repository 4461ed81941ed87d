/** The cache as the connection server keeps it: maps changed in place under one lock. */
module AuthCache {
  import opened Wrappers
  import opened AuthCacheSpec

  method CollectRows<V>(rows: seq<V>, key: V -> Id) returns (m: map<Id, V>)
    ensures m == Collect(rows, key)
  {
    m := map[];
    for i := 0 to |rows|
      invariant m == Collect(rows[..i], key)
    {
      assert rows[..i + 1][..i] == rows[..i];
      m := m[key(rows[i]) := rows[i]];
    }
    assert rows[..|rows|] == rows;
  }

  method CollectMemberships(rows: seq<Membership>) returns (groups: map<Id, seq<Id>>)
    ensures groups == CollectGroups(rows)
  {
    groups := map[];
    for i := 0 to |rows|
      invariant groups == CollectGroups(rows[..i])
    {
      assert rows[..i + 1][..i] == rows[..i];
      if rows[i].active {
        var entry := if rows[i].user in groups then groups[rows[i].user] else [];
        groups := groups[rows[i].user := entry + [rows[i].group]];
      }
    }
    assert rows[..|rows|] == rows;
  }

  /** The groups other than `group`, in order. */
  method Retain(groups: seq<Id>, group: Id) returns (kept: seq<Id>)
    ensures kept == Without(groups, group)
  {
    kept := [];
    for i := 0 to |groups|
      invariant kept + Without(groups[i..], group) == Without(groups, group)
    {
      ghost var rest := groups[i..];
      assert rest[1..] == groups[i + 1..];
      if groups[i] != group {
        assert kept + Without(rest, group) == (kept + [groups[i]]) + Without(groups[i + 1..], group);
        kept := kept + [groups[i]];
      }
    }
  }

  class AuthCache {
    var source: Id
    var revision: int
    var config: Option<Config>
    var users: map<Id, User>
    var sessions: map<Id, Session>
    var rules: map<Id, Rule>
    var strategies: map<Id, Strategy>
    var groups: map<Id, seq<Id>>

    function Value(): Cache
      reads this
    {
      Cache(source, revision, config, users, sessions, rules, strategies, groups)
    }

    constructor ()
      ensures Value() == Cache("", 0, None, map[], map[], map[], map[], map[])
    {
      source, revision, config := "", 0, None;
      users, sessions, rules, strategies, groups := map[], map[], map[], map[], map[];
    }

    method AcceptRevision(from: Id, at: int) returns (accepted: bool)
      modifies this
      ensures accepted == old(Accepts(Value(), from, at))
      ensures Value() == if accepted then old(Value()).(source := from, revision := at) else old(Value())
    {
      if source != from {
        source, revision := from, at;
        return true;
      }
      if at > revision {
        revision := at;
        return true;
      }
      return false;
    }

    method ReplaceWith(s: Snapshot)
      modifies this
      ensures Value() == Replace(old(Value()), s)
    {
      if s.source == source && s.revision < revision {
        return;
      }
      source, revision, config := s.source, s.revision, Some(s.config);
      users := CollectRows(s.users, UserKey);
      sessions := CollectRows(s.sessions, SessionKey);
      rules := CollectRows(s.rules, RuleKey);
      strategies := CollectRows(s.strategies, StrategyKey);
      groups := CollectMemberships(s.memberships);
    }

    method UpsertMembership(m: Membership, from: Id, at: int)
      modifies this
      ensures Value() == Apply(old(Value()), Event(from, at, MemberRow(m)))
    {
      var accepted := AcceptRevision(from, at);
      if accepted {
        var kept := Retain(if m.user in groups then groups[m.user] else [], m.group);
        if m.active {
          kept := kept + [m.group];
        }
        groups := groups[m.user := kept];
      }
    }

    /** One decoded event, sent to the update its kind names. */
    method ApplyEvent(e: Event)
      modifies this
      ensures Value() == Apply(old(Value()), e)
    {
      match e.payload {
        case MemberRow(m) =>
          UpsertMembership(m, e.source, e.revision);
        case Note =>
        case _ =>
          var accepted := AcceptRevision(e.source, e.revision);
          if accepted {
            Store(e.payload);
          }
      }
    }

    method Store(p: Payload)
      requires !p.MemberRow? && !p.Note?
      modifies this
      ensures Value() == Update(old(Value()), p)
    {
      match p {
        case UserRow(user) => users := users[user.id := user];
        case SessionRow(session) => sessions := sessions[session.id := session];
        case RevokeAll(user) => sessions := map id | id in sessions && sessions[id].userId != user :: sessions[id];
        case RuleRow(rule, deleted) =>
          if deleted { rules := rules - {rule.id}; } else { rules := rules[rule.id := rule]; }
        case StrategyRow(s) =>
          if s.deleted { strategies := strategies - {s.id}; } else { strategies := strategies[s.id := s]; }
        case Configuration(value) => config := Some(value);
        case OtherRow =>
      }
    }
  }
}
