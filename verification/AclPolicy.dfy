/** Access rules, evaluated twice: by the API as a running winner over a list, and by
    the rendezvous server as sort-then-first over a hash map's values. */
module AclPolicy {
  const MAX_INT := 0x7fff_ffff_ffff_ffff

  datatype SubjectType = UserSubject | UserGroupSubject | OtherSubject(text: string)
  datatype TargetType = DeviceTarget | DeviceGroupTarget | OtherTarget(text: string)
  datatype Effect = Allow | Deny | OtherEffect(text: string)

  datatype Rule = Rule(
    id: string, subjectType: SubjectType, subjectId: string, targetType: TargetType, targetId: string,
    permissions: seq<string>, effect: Effect, enabled: bool, priority: int)

  /** One question: may this user, in these groups, do this to this device? */
  datatype Query = Query(userId: string, groups: set<string>, deviceId: string, deviceGroup: string, permission: string)

  datatype User = User(enabled: bool, approved: bool, admin: bool)

  predicate SubjectMatches(r: Rule, q: Query) {
    || r.subjectId == ""
    || (r.subjectType.UserSubject? && r.subjectId == q.userId)
    || (r.subjectType.UserGroupSubject? && r.subjectId in q.groups)
  }

  predicate TargetMatches(r: Rule, q: Query) {
    || r.targetId == ""
    || (r.targetType.DeviceTarget? && r.targetId == q.deviceId)
    || (r.targetType.DeviceGroupTarget? && q.deviceGroup != "" && r.targetId == q.deviceGroup)
  }

  predicate Applies(r: Rule, q: Query) {
    r.enabled && SubjectMatches(r, q) && TargetMatches(r, q) && q.permission in r.permissions
  }

  /** What rule validation admits, with the 32-bit priorities both sides can hold. */
  predicate Valid(r: Rule) {
    (r.effect.Allow? || r.effect.Deny?) && -0x8000_0000 <= r.priority < 0x8000_0000
  }

  // ---------- the policy, independent of order ----------

  /** No applicable rule overrules `r`: none of smaller priority, none of the same that denies. */
  ghost predicate Stands(r: Rule, rules: seq<Rule>, q: Query) {
    forall other :: other in rules && Applies(other, q) ==>
      r.priority < other.priority || (r.priority == other.priority && (other.effect.Deny? ==> r.effect.Deny?))
  }

  ghost predicate Permits(rules: seq<Rule>, q: Query) {
    exists r :: r in rules && Applies(r, q) && r.effect.Allow? && Stands(r, rules, q)
  }

  ghost predicate SomeEnabled(rules: seq<Rule>) {
    exists r :: r in rules && r.enabled
  }

  // ---------- the API's loop ----------

  method Evaluate(rules: seq<Rule>, user: User, q: Query) returns (allowed: bool)
    requires forall r :: r in rules ==> Valid(r)
    ensures allowed <==> user.enabled && user.approved && (user.admin || !SomeEnabled(rules) || Permits(rules, q))
  {
    var enabledCount := 0;
    var winningPriority := MAX_INT;
    var winningEffect: Effect := OtherEffect("");
    ghost var winner: Candidate := NoRule;
    for i := 0 to |rules|
      invariant 0 <= enabledCount && (enabledCount == 0 <==> forall k :: 0 <= k < i ==> !rules[k].enabled)
      invariant winner.NoRule? ==> winningPriority == MAX_INT && winningEffect == OtherEffect("") && forall k :: 0 <= k < i ==> !Applies(rules[k], q)
      invariant winner.Is? ==>
                  && winner.rule in rules[..i] && Applies(winner.rule, q) && Stands(winner.rule, rules[..i], q)
                  && winningPriority == winner.rule.priority && winningEffect == winner.rule.effect
    {
      var rule := rules[i];
      assert rule in rules && rules[..i + 1] == rules[..i] + [rule];
      if rule.enabled {
        enabledCount := enabledCount + 1;
        var permissionMatched := false;
        for k := 0 to |rule.permissions|
          invariant permissionMatched <==> q.permission in rule.permissions[..k]
        {
          if rule.permissions[k] == q.permission {
            permissionMatched := true;
          }
        }
        assert rule.permissions[..|rule.permissions|] == rule.permissions;
        var subject := rule.subjectId == "" || (rule.subjectType.UserSubject? && rule.subjectId == q.userId)
          || (rule.subjectType.UserGroupSubject? && rule.subjectId in q.groups);
        var target := rule.targetId == "" || (rule.targetType.DeviceTarget? && rule.targetId == q.deviceId)
          || (rule.targetType.DeviceGroupTarget? && q.deviceGroup != "" && rule.targetId == q.deviceGroup);
        if subject && target && permissionMatched {
          if rule.priority < winningPriority || (rule.priority == winningPriority && rule.effect.Deny?) {
            winningPriority, winningEffect := rule.priority, rule.effect;
            winner := Is(rule);
          }
        }
      }
    }
    assert rules[..|rules|] == rules;
    StandingDecides(winner, rules, q);
    allowed := user.enabled && user.approved && (user.admin || enabledCount == 0 || winningEffect.Allow?);
  }

  datatype Candidate = NoRule | Is(rule: Rule)

  /** A standing rule settles the question. */
  lemma StandingDecides(winner: Candidate, rules: seq<Rule>, q: Query)
    requires forall r :: r in rules ==> Valid(r)
    requires winner.NoRule? ==> forall r :: r in rules ==> !Applies(r, q)
    requires winner.Is? ==> winner.rule in rules && Applies(winner.rule, q) && Stands(winner.rule, rules, q)
    ensures Permits(rules, q) <==> winner.Is? && winner.rule.effect.Allow?
  {
  }

  // ---------- the rendezvous server's sort ----------

  /** The sort key order: priority first, denials before the rest. */
  predicate Before(a: Rule, b: Rule) {
    a.priority < b.priority || (a.priority == b.priority && a.effect.Deny? && !b.effect.Deny?)
  }

  function Insert(r: Rule, sorted: seq<Rule>): seq<Rule> {
    if sorted == [] || !Before(sorted[0], r) then [r] + sorted else [sorted[0]] + Insert(r, sorted[1..])
  }

  /** A stable sort by that key. */
  function Sorted(rules: seq<Rule>): seq<Rule> {
    if rules == [] then [] else Insert(rules[0], Sorted(rules[1..]))
  }

  lemma {:induction false} InsertHead(r: Rule, sorted: seq<Rule>)
    ensures multiset(Insert(r, sorted)) == multiset(sorted) + multiset{r}
    ensures Insert(r, sorted) != [] && Insert(r, sorted)[0] == if sorted == [] || !Before(sorted[0], r) then r else sorted[0]
  {
    if sorted != [] && Before(sorted[0], r) {
      InsertHead(r, sorted[1..]);
      assert sorted == [sorted[0]] + sorted[1..];
    }
  }

  lemma {:induction false} SortedHead(rules: seq<Rule>)
    ensures multiset(Sorted(rules)) == multiset(rules)
    ensures rules != [] ==> Sorted(rules) != [] && forall r :: r in rules ==> !Before(r, Sorted(rules)[0])
  {
    if rules != [] {
      SortedHead(rules[1..]);
      InsertHead(rules[0], Sorted(rules[1..]));
      assert rules == [rules[0]] + rules[1..];
      if rules[1..] != [] {
        assert Sorted(rules[1..])[0] in multiset(Sorted(rules[1..]));
      }
    }
  }

  function Matching(rules: seq<Rule>, q: Query): seq<Rule> {
    if rules == [] then []
    else if Applies(rules[0], q) then [rules[0]] + Matching(rules[1..], q)
    else Matching(rules[1..], q)
  }

  lemma {:induction false} MatchingIsFilter(rules: seq<Rule>, q: Query)
    ensures forall r :: r in Matching(rules, q) <==> r in rules && Applies(r, q)
  {
    if rules != [] {
      MatchingIsFilter(rules[1..], q);
      assert rules == [rules[0]] + rules[1..];
    }
  }

  /** The access half of authorize_policy, over the map's values in any order. */
  method AuthorizePolicy(rules: seq<Rule>, admin: bool, q: Query) returns (allowed: bool)
    requires forall r :: r in rules ==> Valid(r)
    ensures allowed <==> admin || rules == [] || Permits(rules, q)
  {
    if admin || rules == [] {
      return true;
    }
    var matching := Matching(rules, q);
    var sorted := Sorted(matching);
    MatchingIsFilter(rules, q);
    SortedHead(matching);
    if sorted == [] {
      assert multiset(sorted) == multiset{};
      assert matching == [];
      StandingDecides(NoRule, rules, q);
      return false;
    }
    var first := sorted[0];
    assert first in multiset(sorted);
    assert first in matching;
    assert Stands(first, rules, q);
    StandingDecides(Is(first), rules, q);
    return first.effect.Allow?;
  }

  /** Whom and what a rule covers, by its types: everyone or everything without an id, else exactly the user, the
      group's members, the device or the group's devices; an unknown type with an id covers nothing. */
  lemma RuleCovers(r: Rule, q: Query)
    ensures SubjectMatches(r, q) <==>
            |r.subjectId| == 0 || (match r.subjectType
                                   case UserSubject => r.subjectId == q.userId
                                   case UserGroupSubject => r.subjectId in q.groups
                                   case OtherSubject(_) => false)
    ensures TargetMatches(r, q) <==>
            |r.targetId| == 0 || (match r.targetType
                                  case DeviceTarget => r.targetId == q.deviceId
                                  case DeviceGroupTarget => |q.deviceGroup| > 0 && r.targetId == q.deviceGroup
                                  case OtherTarget(_) => false)
    ensures Applies(r, q) ==> r.enabled && q.permission in r.permissions
  {
  }

  // ---------- agreement ----------

  ghost predicate ApiAllows(rules: seq<Rule>, user: User, q: Query) {
    user.enabled && user.approved && (user.admin || !SomeEnabled(rules) || Permits(rules, q))
  }

  ghost predicate ServerAllows(rules: seq<Rule>, admin: bool, q: Query) {
    admin || rules == [] || Permits(rules, q)
  }

  lemma SameRules(a: seq<Rule>, b: seq<Rule>)
    requires multiset(a) == multiset(b)
    ensures forall r :: r in a <==> r in b
    ensures a == [] <==> b == []
  {
    assert forall r :: r in a <==> r in multiset(a);
    assert forall r :: r in b <==> r in multiset(b);
    assert |multiset(a)| == |a| && |multiset(b)| == |b|;
  }

  /** For an enabled, approved user the two evaluators, each over its own order of the
      same rules, agree on every query exactly when the user is an administrator, there are
      no rules, or at least one rule is enabled; with only disabled rules the API
      allows and the server refuses. */
  lemma EvaluatorsAgree(apiRules: seq<Rule>, serverRules: seq<Rule>, user: User, q: Query)
    requires multiset(apiRules) == multiset(serverRules) && user.enabled && user.approved
    ensures (ApiAllows(apiRules, user, q) <==> ServerAllows(serverRules, user.admin, q)) <==>
              user.admin || apiRules == [] || SomeEnabled(apiRules)
    ensures !user.admin && apiRules != [] && !SomeEnabled(apiRules) ==>
              ApiAllows(apiRules, user, q) && !ServerAllows(serverRules, user.admin, q)
  {
    SameRules(apiRules, serverRules);
    assert Permits(apiRules, q) <==> Permits(serverRules, q) by {
      assert forall r :: Stands(r, apiRules, q) <==> Stands(r, serverRules, q);
      if Permits(apiRules, q) {
        var r :| r in apiRules && Applies(r, q) && r.effect.Allow? && Stands(r, apiRules, q);
        assert r in serverRules;
      }
      if Permits(serverRules, q) {
        var r :| r in serverRules && Applies(r, q) && r.effect.Allow? && Stands(r, serverRules, q);
        assert r in apiRules;
      }
    }
  }
}
