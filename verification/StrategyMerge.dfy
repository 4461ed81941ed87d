/** Merging the strategies that match a device: every setting key takes its value from the
    strategy of highest precedence, and every client option that any matching
    strategy names is reported, blank when no live strategy sets it. */
module StrategyMerge {
  import opened Wrappers

  /** Setting keys; `Custom(name)` is "rustdesk." followed by `name`. */
  datatype Key =
    | RequireLogin | RequireManagedDevice
    | AllowRemoteControl | AllowFileTransfer | AllowClipboard | AllowTcpTunnel | ForceRelay
    | DisableDirectIp | DisableLanDiscovery | DisableSettings
    | IdServer | RelayServer | ApiServer
    | Custom(name: string)
    | OtherKey(text: string)

  /** Setting values; a number carries its printed form. */
  datatype Value = Bool(b: bool) | Text(s: string) | Number(printed: string) | OtherValue

  datatype Assignment = Assignment(option: string, value: string)

  datatype Scope = Global | UserGroup | User | DeviceGroup | Device | OtherScope(text: string)

  datatype Strategy = Strategy(
    id: string, scope: Scope, scopeId: string, priority: int, settings: map<Key, Value>,
    enabled: bool, deleted: bool, updatedAt: int)

  datatype Target = Target(deviceId: string, owner: string, group: string, ownerGroups: set<string>)

  predicate Matches(s: Strategy, t: Target) {
    match s.scope
    case Global => true
    case User => t.owner != "" && s.scopeId == t.owner
    case UserGroup => s.scopeId in t.ownerGroups
    case DeviceGroup => t.group != "" && s.scopeId == t.group
    case Device => s.scopeId == t.deviceId
    case OtherScope(_) => false
  }

  function Specificity(scope: Scope): int {
    match scope
    case Global => 0
    case UserGroup => 1
    case User => 2
    case DeviceGroup => 3
    case Device => 4
    case OtherScope(_) => -1
  }

  predicate IsSpace(c: char) {
    c == ' ' || c == '\t' || c == '\r' || c == '\n'
  }

  predicate IsUnicodeSpace(c: char) {
    || '\U{9}' <= c <= '\U{D}' || c == ' ' || c == '\U{85}' || c == '\U{A0}' || c == '\U{1680}'
    || '\U{2000}' <= c <= '\U{200A}' || c == '\U{2028}' || c == '\U{2029}' || c == '\U{202F}' || c == '\U{205F}' || c == '\U{3000}'
  }

  function TrimSpace(s: string): string {
    if s != "" && IsUnicodeSpace(s[0]) then TrimSpace(s[1..])
    else if s != "" && IsUnicodeSpace(s[|s| - 1]) then TrimSpace(s[..|s| - 1])
    else s
  }

  function YesNo(b: bool): string {
    if b then "Y" else "N"
  }

  function Flag(option: string, v: Value, positive: bool): Option<Assignment> {
    if v.Bool? then Some(Assignment(option, YesNo(v.b == positive))) else None
  }

  function Server(option: string, v: Value): Option<Assignment> {
    if v.Text? && |TrimSpace(v.s)| <= 2048 then Some(Assignment(option, TrimSpace(v.s))) else None
  }

  predicate ValidName(name: string) {
    0 < |name| <= 128 && forall c :: c in name ==> !IsSpace(c)
  }

  /** The client option a setting stands for, if any. */
  function ClientOption(key: Key, v: Value): Option<Assignment> {
    match key
    case AllowRemoteControl => Flag("enable-keyboard", v, true)
    case AllowFileTransfer => Flag("enable-file-transfer", v, true)
    case AllowClipboard => Flag("enable-clipboard", v, true)
    case AllowTcpTunnel => Flag("enable-tunnel", v, true)
    case ForceRelay => Flag("force-relay", v, true)
    case DisableDirectIp => Flag("direct-server", v, false)
    case DisableLanDiscovery => Flag("enable-lan-discovery", v, false)
    case DisableSettings => Flag("disable-settings", v, true)
    case IdServer => Server("custom-rendezvous-server", v)
    case RelayServer => Server("relay-server", v)
    case ApiServer => Server("api-server", v)
    case Custom(name) =>
      if !ValidName(name) then None
      else (match v
            case Bool(b) => Some(Assignment(name, YesNo(b)))
            case Text(s) => if |s| <= 2048 then Some(Assignment(name, s)) else None
            case Number(printed) => Some(Assignment(name, printed))
            case OtherValue => None)
    case _ => None
  }

  /** Which devices a strategy is for. */
  lemma ScopesMatch(s: Strategy, t: Target)
    ensures s.scope == Global ==> Matches(s, t)
    ensures s.scope == Device ==> (Matches(s, t) <==> t.deviceId == s.scopeId)
    ensures s.scope == DeviceGroup ==> (Matches(s, t) <==> |t.group| > 0 && t.group == s.scopeId)
    ensures s.scope == User ==> (Matches(s, t) <==> |t.owner| > 0 && t.owner == s.scopeId)
    ensures s.scope == UserGroup ==> (Matches(s, t) <==> s.scopeId in t.ownerGroups)
    ensures s.scope.OtherScope? ==> !Matches(s, t)
  {
  }

  /** The switches a client understands. */
  lemma SwitchOptions(b: bool)
    ensures ClientOption(AllowRemoteControl, Bool(b)) == Some(Assignment("enable-keyboard", if b then "Y" else "N"))
    ensures ClientOption(AllowFileTransfer, Bool(b)) == Some(Assignment("enable-file-transfer", if b then "Y" else "N"))
    ensures ClientOption(AllowClipboard, Bool(b)) == Some(Assignment("enable-clipboard", if b then "Y" else "N"))
  {
  }

  lemma MoreSwitchOptions(b: bool)
    ensures ClientOption(AllowTcpTunnel, Bool(b)) == Some(Assignment("enable-tunnel", if b then "Y" else "N"))
    ensures ClientOption(ForceRelay, Bool(b)) == Some(Assignment("force-relay", if b then "Y" else "N"))
    ensures ClientOption(DisableSettings, Bool(b)) == Some(Assignment("disable-settings", if b then "Y" else "N"))
  {
  }

  /** The two switches the client has the other way round. */
  lemma InvertedOptions(b: bool)
    ensures ClientOption(DisableDirectIp, Bool(b)) == Some(Assignment("direct-server", if b then "N" else "Y"))
    ensures ClientOption(DisableLanDiscovery, Bool(b)) == Some(Assignment("enable-lan-discovery", if b then "N" else "Y"))
  {
  }

  lemma ServerOptions(s: string)
    requires |TrimSpace(s)| <= 2048
    ensures ClientOption(IdServer, Text(s)) == Some(Assignment("custom-rendezvous-server", TrimSpace(s)))
    ensures ClientOption(RelayServer, Text(s)) == Some(Assignment("relay-server", TrimSpace(s)))
    ensures ClientOption(ApiServer, Text(s)) == Some(Assignment("api-server", TrimSpace(s)))
  {
  }

  /** What names no option: settings for the server alone, values of the wrong type, texts that are too long,
      and custom names that are empty, too long or contain a space. */
  lemma NoOption(key: Key, v: Value)
    ensures key in {RequireLogin, RequireManagedDevice} || key.OtherKey? ==> ClientOption(key, v).None?
    ensures key in {AllowRemoteControl, AllowFileTransfer, AllowClipboard, AllowTcpTunnel} && !v.Bool? ==> ClientOption(key, v).None?
    ensures key in {ForceRelay, DisableDirectIp, DisableLanDiscovery, DisableSettings} && !v.Bool? ==> ClientOption(key, v).None?
    ensures key in {IdServer, RelayServer, ApiServer} && (!v.Text? || |TrimSpace(v.s)| > 2048) ==> ClientOption(key, v).None?
    ensures key.Custom? ==>
              (ClientOption(key, v).None? <==>
                 || |key.name| == 0 || |key.name| > 128 || ' ' in key.name || '\t' in key.name || '\r' in key.name || '\n' in key.name
                 || v.OtherValue? || (v.Text? && |v.s| > 2048))
    ensures key.Custom? && ClientOption(key, v).Some? ==>
              && ClientOption(key, v).value.option == key.name
              && (v.Text? ==> ClientOption(key, v).value.value == v.s)
              && (v.Number? ==> ClientOption(key, v).value.value == v.printed)
              && (v.Bool? ==> ClientOption(key, v).value.value == if v.b then "Y" else "N")
  {
  }

  /** Trimming takes spaces off both ends and nothing else. */
  lemma {:induction false} TrimSpaceTrims(s: string) returns (a: nat, b: nat)
    ensures a <= b <= |s| && TrimSpace(s) == s[a..b]
    ensures forall i :: 0 <= i < a || b <= i < |s| ==> IsUnicodeSpace(s[i])
    ensures a < b ==> !IsUnicodeSpace(s[a]) && !IsUnicodeSpace(s[b - 1])
    decreases |s|
  {
    if s != "" && IsUnicodeSpace(s[0]) {
      a, b := TrimSpaceTrims(s[1..]);
      assert s[1..][a..b] == s[a + 1..b + 1];
      forall i | 0 <= i < a + 1 || b + 1 <= i < |s| ensures IsUnicodeSpace(s[i]) {
        assert i > 0 ==> s[i] == s[1..][i - 1];
      }
      a, b := a + 1, b + 1;
    } else if s != "" && IsUnicodeSpace(s[|s| - 1]) {
      a, b := TrimSpaceTrims(s[..|s| - 1]);
      assert s[..|s| - 1][a..b] == s[a..b];
      forall i | 0 <= i < a || b <= i < |s| ensures IsUnicodeSpace(s[i]) {
        assert i < |s| - 1 ==> s[i] == s[..|s| - 1][i];
      }
    } else {
      a, b := 0, |s|;
    }
  }

  // ---------- precedence ----------

  predicate Less(a: Strategy, b: Strategy) {
    if a.priority != b.priority then a.priority < b.priority
    else if Specificity(a.scope) != Specificity(b.scope) then Specificity(a.scope) < Specificity(b.scope)
    else a.updatedAt < b.updatedAt
  }

  /** Priority first; at equal priority the narrower scope, device over its group over its owner over the owner's
      group over everything, and any of these over an unknown scope; within a scope the later change. */
  lemma PrecedenceIs(a: Strategy, b: Strategy)
    ensures a.priority < b.priority ==> Less(a, b)
    ensures a.priority == b.priority && b.scope == Device && a.scope != Device ==> Less(a, b)
    ensures a.priority == b.priority && b.scope == DeviceGroup && a.scope != Device && a.scope != DeviceGroup ==> Less(a, b)
    ensures a.priority == b.priority && b.scope == User && (a.scope == UserGroup || a.scope == Global || a.scope.OtherScope?) ==> Less(a, b)
    ensures a.priority == b.priority && b.scope == UserGroup && (a.scope == Global || a.scope.OtherScope?) ==> Less(a, b)
    ensures a.priority == b.priority && b.scope == Global && a.scope.OtherScope? ==> Less(a, b)
    ensures a.priority == b.priority && a.scope == b.scope ==> (Less(a, b) <==> a.updatedAt < b.updatedAt)
    ensures Less(a, b) ==> !Less(b, a)
  {
  }

  predicate Level(a: Strategy, b: Strategy) {
    !Less(a, b) && !Less(b, a)
  }

  function Insert(s: Strategy, sorted: seq<Strategy>): seq<Strategy> {
    if sorted != [] && Less(sorted[0], s) then [sorted[0]] + Insert(s, sorted[1..]) else [s] + sorted
  }

  /** A stable sort, lowest precedence first. */
  function Sorted(all: seq<Strategy>): seq<Strategy> {
    if all == [] then [] else Insert(all[0], Sorted(all[1..]))
  }

  ghost predicate Ordered(s: seq<Strategy>) {
    |s| <= 1 || (!Less(s[1], s[0]) && Ordered(s[1..]))
  }

  lemma {:induction false} OrderedPairs(s: seq<Strategy>, i: nat, j: nat)
    requires Ordered(s) && i < j < |s|
    ensures !Less(s[j], s[i])
    decreases |s|
  {
    if i > 0 {
      OrderedPairs(s[1..], i - 1, j - 1);
    } else if j > 1 {
      OrderedPairs(s[1..], 0, j - 1);
    }
  }

  /** The strategies level with `p`, in order. */
  ghost function Peers(s: seq<Strategy>, p: Strategy): seq<Strategy> {
    if s == [] then [] else (if Level(s[0], p) then [s[0]] else []) + Peers(s[1..], p)
  }

  lemma {:induction false} InsertOrdered(s: Strategy, sorted: seq<Strategy>)
    requires Ordered(sorted)
    ensures Ordered(Insert(s, sorted))
    ensures Insert(s, sorted) != [] && Insert(s, sorted)[0] in [s] + sorted[..if sorted == [] then 0 else 1]
    decreases |sorted|
  {
    if sorted != [] && Less(sorted[0], s) {
      InsertOrdered(s, sorted[1..]);
      assert Insert(s, sorted)[1..] == Insert(s, sorted[1..]);
    } else {
      assert ([s] + sorted)[1..] == sorted;
    }
  }

  lemma {:induction false} InsertPermutes(s: Strategy, sorted: seq<Strategy>)
    ensures multiset(Insert(s, sorted)) == multiset(sorted) + multiset{s}
    decreases |sorted|
  {
    if sorted != [] && Less(sorted[0], s) {
      assert sorted == [sorted[0]] + sorted[1..];
      InsertPermutes(s, sorted[1..]);
    }
  }

  lemma {:induction false} InsertIsStable(s: Strategy, sorted: seq<Strategy>, p: Strategy)
    ensures Peers(Insert(s, sorted), p) == Peers([s] + sorted, p)
    decreases |sorted|
  {
    assert ([s] + sorted)[1..] == sorted;
    if sorted != [] && Less(sorted[0], s) {
      InsertIsStable(s, sorted[1..], p);
      assert ([s] + sorted[1..])[1..] == sorted[1..];
      assert !(Level(s, p) && Level(sorted[0], p));
    }
  }

  lemma {:induction false} SortedOrdered(all: seq<Strategy>)
    ensures Ordered(Sorted(all))
    decreases |all|
  {
    if all != [] {
      SortedOrdered(all[1..]);
      InsertOrdered(all[0], Sorted(all[1..]));
    }
  }

  lemma {:induction false} SortedCounts(all: seq<Strategy>)
    ensures multiset(Sorted(all)) == multiset(all)
    decreases |all|
  {
    if all != [] {
      SortedCounts(all[1..]);
      assert all == [all[0]] + all[1..];
      InsertPermutes(all[0], Sorted(all[1..]));
    }
  }

  lemma SameMembers(a: seq<Strategy>, b: seq<Strategy>)
    requires multiset(a) == multiset(b)
    ensures forall s :: s in a <==> s in b
  {
    assert forall s :: s in a <==> s in multiset(a);
  }

  lemma SortedPermutes(all: seq<Strategy>)
    ensures multiset(Sorted(all)) == multiset(all)
    ensures forall s :: s in Sorted(all) <==> s in all
  {
    SortedCounts(all);
    SameMembers(Sorted(all), all);
  }

  /** The sort keeps strategies of equal precedence in their order. */
  lemma {:induction false} SortedIsStable(all: seq<Strategy>, p: Strategy)
    ensures Peers(Sorted(all), p) == Peers(all, p)
    decreases |all|
  {
    if all != [] {
      SortedIsStable(all[1..], p);
      InsertIsStable(all[0], Sorted(all[1..]), p);
      assert ([all[0]] + Sorted(all[1..]))[1..] == Sorted(all[1..]);
    }
  }

  // ---------- the merge ----------

  type Settings = map<Key, Value>

  predicate Live(s: Strategy, t: Target) {
    Matches(s, t) && s.enabled && !s.deleted
  }

  function LiveOf(values: seq<Strategy>, t: Target): seq<Strategy> {
    if values == [] then []
    else (if Live(values[0], t) then [values[0]] else []) + LiveOf(values[1..], t)
  }

  function Ids(order: seq<Strategy>): seq<string> {
    if order == [] then [] else Ids(order[..|order| - 1]) + [order[|order| - 1].id]
  }

  /** Later strategies override earlier ones, key by key. */
  function Merged(order: seq<Strategy>): Settings {
    if order == [] then map[] else Merged(order[..|order| - 1]) + order[|order| - 1].settings
  }

  predicate Assigns(settings: Settings, key: Key, option: string) {
    key in settings && ClientOption(key, settings[key]).Some? && ClientOption(key, settings[key]).value.option == option
  }

  ghost predicate Names(settings: Settings, option: string) {
    exists key :: Assigns(settings, key, option)
  }

  ghost predicate SetsTo(settings: Settings, option: string, value: string) {
    exists key :: Assigns(settings, key, option) && ClientOption(key, settings[key]).value.value == value
  }

  /** An option's value comes from the last strategy of `order` that names it, blank if none does. */
  ghost predicate Decided(order: seq<Strategy>, option: string, value: string) {
    if order == [] then value == ""
    else if Names(order[|order| - 1].settings, option) then SetsTo(order[|order| - 1].settings, option, value)
    else Decided(order[..|order| - 1], option, value)
  }

  ghost function NewestOf(values: seq<Strategy>, t: Target): int {
    if values == [] then 0
    else
      var newest := NewestOf(values[..|values| - 1], t);
      var last := values[|values| - 1];
      if Matches(last, t) && last.updatedAt > newest then last.updatedAt else newest
  }

  /** The newest change among all matching strategies, live or not, but not below zero. */
  lemma {:induction false} NewestIsNewest(values: seq<Strategy>, t: Target)
    ensures NewestOf(values, t) >= 0
    ensures forall s :: s in values && Matches(s, t) ==> s.updatedAt <= NewestOf(values, t)
    ensures NewestOf(values, t) == 0 || exists s :: s in values && Matches(s, t) && s.updatedAt == NewestOf(values, t)
  {
    if values != [] {
      var front, last := values[..|values| - 1], values[|values| - 1];
      NewestIsNewest(front, t);
      assert values == front + [last];
      if NewestOf(values, t) == NewestOf(front, t) && NewestOf(front, t) != 0 {
        var s :| s in front && Matches(s, t) && s.updatedAt == NewestOf(front, t);
        assert s in values;
      }
    }
  }

  /** A strategy counts exactly when it matches, is enabled and is not deleted; the identifiers reported are those
      of the counting ones, in merge order. */
  lemma {:induction false} MatchedAreLive(values: seq<Strategy>, t: Target, order: seq<Strategy>)
    ensures forall s :: s in LiveOf(values, t) <==> s in values && Matches(s, t) && s.enabled && !s.deleted
    ensures |Ids(order)| == |order| && forall i :: 0 <= i < |order| ==> Ids(order)[i] == order[i].id
    decreases |order|
  {
    LiveMember(values, t);
    if order != [] {
      MatchedAreLive(values, t, order[..|order| - 1]);
    }
  }

  datatype Result = Result(modifiedAt: int, options: map<string, string>, settings: Settings, matched: seq<string>)

  /** Some key outside `left` assigns the option. */
  ghost predicate Handled(settings: Settings, left: set<Key>, option: string) {
    exists k :: k !in left && Assigns(settings, k, option)
  }

  lemma HandledNext(settings: Settings, left: set<Key>, key: Key, option: string)
    requires key in left
    ensures Handled(settings, left - {key}, option) <==> Handled(settings, left, option) || Assigns(settings, key, option)
  {
    if Handled(settings, left, option) {
      var k :| k !in left && Assigns(settings, k, option);
      assert k !in left - {key};
    }
    if Assigns(settings, key, option) {
      assert key !in left - {key};
    }
  }

  lemma HandledAll(settings: Settings, option: string)
    ensures Handled(settings, {}, option) <==> Names(settings, option)
    ensures !Handled(settings, settings.Keys, option)
  {
    if Names(settings, option) {
      var key :| Assigns(settings, key, option);
      assert key !in {};
    }
  }

  /** Marks every option a strategy names; the key order is the map's. */
  method NameOptions(options: map<string, string>, settings: Settings) returns (out: map<string, string>)
    ensures forall o :: o in out <==> o in options || Names(settings, o)
    ensures forall o :: o in out ==> out[o] == if Names(settings, o) then "" else options[o]
  {
    out := options;
    var keys := settings.Keys;
    forall o ensures !Handled(settings, keys, o) {
      HandledAll(settings, o);
    }
    while keys != {}
      invariant keys <= settings.Keys
      invariant forall o :: o in out <==> o in options || Handled(settings, keys, o)
      invariant forall o :: o in out ==> out[o] == if Handled(settings, keys, o) then "" else options[o]
      decreases |keys|
    {
      var key :| key in keys;
      forall o ensures Handled(settings, keys - {key}, o) <==> Handled(settings, keys, o) || Assigns(settings, key, o) {
        HandledNext(settings, keys, key, o);
      }
      keys := keys - {key};
      var assignment := ClientOption(key, settings[key]);
      if assignment.Some? {
        out := out[assignment.value.option := ""];
      }
    }
    forall o ensures Handled(settings, {}, o) <==> Names(settings, o) {
      HandledAll(settings, o);
    }
  }

  ghost predicate OverwrittenAt(options: map<string, string>, out: map<string, string>, settings: Settings, left: set<Key>, o: string) {
    if Handled(settings, left, o) then o in out && SetsTo(settings, o, out[o])
    else (o in out <==> o in options) && (o in out ==> out[o] == options[o])
  }

  /** `out` is `options` overwritten by the settings whose keys are not in `left`. */
  ghost predicate Overwritten(options: map<string, string>, out: map<string, string>, settings: Settings, left: set<Key>) {
    forall o :: OverwrittenAt(options, out, settings, left, o)
  }

  function WithOption(out: map<string, string>, assignment: Option<Assignment>): map<string, string> {
    if assignment.Some? then out[assignment.value.option := assignment.value.value] else out
  }

  lemma OverwrittenNext(options: map<string, string>, out: map<string, string>, settings: Settings, left: set<Key>, key: Key)
    requires Overwritten(options, out, settings, left) && key in left && key in settings
    ensures Overwritten(options, WithOption(out, ClientOption(key, settings[key])), settings, left - {key})
  {
    var next, rest := WithOption(out, ClientOption(key, settings[key])), left - {key};
    forall o ensures OverwrittenAt(options, next, settings, rest, o) {
      assert OverwrittenAt(options, out, settings, left, o);
      HandledNext(settings, left, key, o);
    }
  }

  lemma SettingsNext(effective: Settings, settings: Settings, left: set<Key>, key: Key)
    requires key in left && key in settings
    ensures (effective + (settings - left))[key := settings[key]] == effective + (settings - (left - {key}))
  {
  }

  lemma OverwrittenFirst(options: map<string, string>, settings: Settings)
    ensures Overwritten(options, options, settings, settings.Keys)
  {
    forall o ensures !Handled(settings, settings.Keys, o) {
      HandledAll(settings, o);
    }
  }

  /** Writes one strategy's settings and options over what is there. */
  method ApplySettings(effective: Settings, options: map<string, string>, settings: Settings)
    returns (effective': Settings, options': map<string, string>)
    ensures effective' == effective + settings
    ensures Overwritten(options, options', settings, {})
  {
    effective', options' := effective, options;
    var keys := settings.Keys;
    OverwrittenFirst(options, settings);
    assert settings - keys == map[];
    while keys != {}
      invariant keys <= settings.Keys
      invariant effective' == effective + (settings - keys)
      invariant Overwritten(options, options', settings, keys)
      decreases |keys|
    {
      var key :| key in keys;
      OverwrittenNext(options, options', settings, keys, key);
      SettingsNext(effective, settings, keys, key);
      keys := keys - {key};
      effective' := effective'[key := settings[key]];
      options' := WithOption(options', ClientOption(key, settings[key]));
    }
    assert settings - keys == settings;
  }

  ghost predicate NamedByAny(values: seq<Strategy>, t: Target, option: string) {
    exists s :: s in values && Matches(s, t) && Names(s.settings, option)
  }

  lemma LiveSnoc(values: seq<Strategy>, s: Strategy, t: Target)
    ensures LiveOf(values + [s], t) == LiveOf(values, t) + (if Live(s, t) then [s] else [])
  {
    if values == [] {
      assert [s][1..] == [];
    } else {
      assert (values + [s])[1..] == values[1..] + [s];
      LiveSnoc(values[1..], s, t);
    }
  }

  lemma LiveMember(values: seq<Strategy>, t: Target)
    ensures forall s :: s in LiveOf(values, t) <==> s in values && Live(s, t)
  {
    if values != [] {
      LiveMember(values[1..], t);
      assert values == [values[0]] + values[1..];
    }
  }

  /** The first loop: options named by any matching strategy, live strategies, newest stamp. */
  method Collect(values: seq<Strategy>, t: Target) returns (live: seq<Strategy>, options: map<string, string>, modifiedAt: int)
    ensures live == LiveOf(values, t)
    ensures forall o :: o in options <==> NamedByAny(values, t, o)
    ensures forall o :: o in options ==> options[o] == ""
    ensures modifiedAt == NewestOf(values, t)
  {
    live, options, modifiedAt := [], map[], 0;
    for i := 0 to |values|
      invariant live == LiveOf(values[..i], t)
      invariant forall o :: o in options <==> NamedByAny(values[..i], t, o)
      invariant forall o :: o in options ==> options[o] == ""
      invariant modifiedAt == NewestOf(values[..i], t)
    {
      var value := values[i];
      ghost var before := options;
      assert values[..i + 1] == values[..i] + [value];
      assert values[..i + 1][..i] == values[..i];
      LiveSnoc(values[..i], value, t);
      NamedSnoc(values[..i], value, t);
      if Matches(value, t) {
        if value.updatedAt > modifiedAt {
          modifiedAt := value.updatedAt;
        }
        options := NameOptions(options, value.settings);
        if value.enabled && !value.deleted {
          live := live + [value];
        }
      }
    }
    assert values[..|values|] == values;
  }

  lemma NamedSnoc(values: seq<Strategy>, s: Strategy, t: Target)
    ensures forall o :: NamedByAny(values + [s], t, o) <==> NamedByAny(values, t, o) || (Matches(s, t) && Names(s.settings, o))
  {
    forall o ensures NamedByAny(values + [s], t, o) <==> NamedByAny(values, t, o) || (Matches(s, t) && Names(s.settings, o)) {
      if NamedByAny(values, t, o) {
        var x :| x in values && Matches(x, t) && Names(x.settings, o);
        assert x in values + [s];
      }
      if Matches(s, t) && Names(s.settings, o) {
        assert s in values + [s];
      }
    }
  }

  ghost predicate AllDecided(options: map<string, string>, order: seq<Strategy>) {
    forall o :: o in options ==> Decided(order, o, options[o])
  }

  lemma DecidedNext(options: map<string, string>, out: map<string, string>, order: seq<Strategy>, s: Strategy)
    requires AllDecided(options, order) && Overwritten(options, out, s.settings, {})
    requires forall o :: Names(s.settings, o) ==> o in options
    ensures AllDecided(out, order + [s]) && out.Keys == options.Keys
  {
    var next := order + [s];
    assert next[..|order|] == order;
    forall o ensures (o in out <==> o in options) && (o in out ==> Decided(next, o, out[o])) {
      HandledAll(s.settings, o);
      assert OverwrittenAt(options, out, s.settings, {}, o);
    }
  }

  /** Merges the matching strategies, lowest precedence first. */
  method Resolve(values: seq<Strategy>, t: Target) returns (r: Result)
    ensures r.settings == Merged(Sorted(LiveOf(values, t)))
    ensures r.matched == Ids(Sorted(LiveOf(values, t)))
    ensures forall o :: o in r.options <==> NamedByAny(values, t, o)
    ensures forall o :: o in r.options ==> Decided(Sorted(LiveOf(values, t)), o, r.options[o])
    ensures r.modifiedAt == NewestOf(values, t)
  {
    var live, options, modifiedAt := Collect(values, t);
    ghost var named := options.Keys;
    var order := Sorted(live);
    SortedPermutes(live);
    LiveMember(values, t);
    var settings: Settings, matched := map[], [];
    for i := 0 to |order|
      invariant settings == Merged(order[..i]) && matched == Ids(order[..i])
      invariant options.Keys == named && AllDecided(options, order[..i])
    {
      assert order[..i + 1] == order[..i] + [order[i]] && order[..i + 1][..i] == order[..i];
      forall o | Names(order[i].settings, o) ensures o in options {
        assert order[i] in order && NamedByAny(values, t, o);
      }
      ghost var before := options;
      matched := matched + [order[i].id];
      settings, options := ApplySettings(settings, options, order[i].settings);
      DecidedNext(before, options, order[..i], order[i]);
    }
    assert order[..|order|] == order;
    r := Result(modifiedAt, options, settings, matched);
  }

  // ---------- what the merge promises ----------

  /** `s` is the last of the strategies level with it, in input order, that defines the key. */
  ghost predicate LastPeer(live: seq<Strategy>, s: Strategy, key: Key) {
    var peers := Peers(live, s);
    exists i :: 0 <= i < |peers| && peers[i] == s && forall j :: i < j < |peers| ==> key !in peers[j].settings
  }

  lemma {:induction false} LastDefiner(order: seq<Strategy>, key: Key) returns (i: nat)
    requires exists s :: s in order && key in s.settings
    ensures i < |order| && key in order[i].settings
    ensures forall j :: i < j < |order| ==> key !in order[j].settings
    ensures key in Merged(order) && Merged(order)[key] == order[i].settings[key]
    decreases |order|
  {
    var n := |order| - 1;
    if key in order[n].settings {
      i := n;
    } else {
      var s :| s in order && key in s.settings;
      assert s in order[..n];
      i := LastDefiner(order[..n], key);
    }
  }

  lemma {:induction false} UndefinedStays(order: seq<Strategy>, key: Key)
    requires forall s :: s in order ==> key !in s.settings
    ensures key !in Merged(order)
    decreases |order|
  {
    if order != [] {
      UndefinedStays(order[..|order| - 1], key);
    }
  }

  /** `all[k]` is followed by nobody who defines the key. */
  ghost predicate LastIn(all: seq<Strategy>, k: nat, key: Key) {
    k < |all| && forall j :: k < j < |all| ==> key !in all[j].settings
  }

  lemma LastShifts(head: seq<Strategy>, rest: seq<Strategy>, k: nat, key: Key)
    requires LastIn(rest, k, key)
    ensures LastIn(head + rest, |head| + k, key) && (head + rest)[|head| + k] == rest[k]
  {
    var all := head + rest;
    forall j | |head| + k < j < |all| ensures key !in all[j].settings {
      assert all[j] == rest[j - |head|];
    }
  }

  lemma {:induction false} LastAmongPeers(order: seq<Strategy>, i: nat, p: Strategy, key: Key) returns (k: nat)
    requires LastIn(order, i, key) && Level(order[i], p)
    ensures LastIn(Peers(order, p), k, key) && Peers(order, p)[k] == order[i]
    decreases |order|
  {
    var rest := Peers(order[1..], p);
    if i == 0 {
      PeersMember(order[1..], p);
      var all := Peers(order, p);
      assert all == [order[0]] + rest;
      k := 0;
      forall j | 0 < j < |all| ensures key !in all[j].settings {
        assert all[j] == rest[j - 1] && rest[j - 1] in rest;
      }
    } else {
      assert LastIn(order[1..], i - 1, key);
      k := LastAmongPeers(order[1..], i - 1, p, key);
      var head := if Level(order[0], p) then [order[0]] else [];
      LastShifts(head, rest, k, key);
      k := |head| + k;
    }
  }

  lemma {:induction false} PeersMember(order: seq<Strategy>, p: Strategy)
    ensures forall s :: s in Peers(order, p) ==> s in order
    decreases |order|
  {
    if order != [] {
      PeersMember(order[1..], p);
    }
  }

  /** The order the merge runs in: the live matching strategies by precedence. */
  lemma LiveOrder(values: seq<Strategy>, t: Target)
    ensures Ordered(Sorted(LiveOf(values, t)))
    ensures forall s :: s in Sorted(LiveOf(values, t)) <==> s in values && Live(s, t)
  {
    LiveMember(values, t);
    SortedPermutes(LiveOf(values, t));
    SortedOrdered(LiveOf(values, t));
  }

  lemma LastDefinerIsGreatest(order: seq<Strategy>, i: nat, key: Key)
    requires Ordered(order) && i < |order|
    requires forall j :: i < j < |order| ==> key !in order[j].settings
    ensures forall u :: u in order && key in u.settings ==> !Less(order[i], u)
  {
    forall u | u in order && key in u.settings ensures !Less(order[i], u) {
      var j :| 0 <= j < |order| && order[j] == u;
      if j < i {
        OrderedPairs(order, j, i);
      }
    }
  }

  /** A key is set exactly when a live matching strategy defines it, and then by one that
      no other definer exceeds, the last in input order among equals. */
  lemma SettingWinner(values: seq<Strategy>, t: Target, key: Key)
    ensures var live := LiveOf(values, t);
            && (key in Merged(Sorted(live)) <==> exists s :: s in values && Live(s, t) && key in s.settings)
            && (key in Merged(Sorted(live)) ==>
                  exists s :: s in values && Live(s, t) && key in s.settings && Merged(Sorted(live))[key] == s.settings[key]
                    && LastPeer(live, s, key)
                    && forall u :: u in values && Live(u, t) && key in u.settings ==> !Less(s, u))
  {
    var live := LiveOf(values, t);
    var order := Sorted(live);
    LiveOrder(values, t);
    if exists s :: s in order && key in s.settings {
      var i := LastDefiner(order, key);
      var s := order[i];
      assert s in order;
      LastDefinerIsGreatest(order, i, key);
      var k := LastAmongPeers(order, i, s, key);
      SortedIsStable(live, s);
      assert Peers(live, s)[k] == s && LastPeer(live, s, key);
    } else {
      UndefinedStays(order, key);
    }
  }

  lemma {:induction false} DecidedByLast(order: seq<Strategy>, option: string, value: string) returns (i: nat)
    requires Decided(order, option, value) && exists s :: s in order && Names(s.settings, option)
    ensures i < |order| && SetsTo(order[i].settings, option, value)
    ensures forall j :: i < j < |order| ==> !Names(order[j].settings, option)
    decreases |order|
  {
    var n := |order| - 1;
    if Names(order[n].settings, option) {
      i := n;
    } else {
      var s :| s in order && Names(s.settings, option);
      assert s in order[..n];
      i := DecidedByLast(order[..n], option, value);
    }
  }

  lemma {:induction false} DecidedBlank(order: seq<Strategy>, option: string, value: string)
    requires Decided(order, option, value) && forall s :: s in order ==> !Names(s.settings, option)
    ensures value == ""
    decreases |order|
  {
    if order != [] {
      DecidedBlank(order[..|order| - 1], option, value);
    }
  }

  lemma LastNamerIsGreatest(order: seq<Strategy>, i: nat, option: string)
    requires Ordered(order) && i < |order|
    requires forall j :: i < j < |order| ==> !Names(order[j].settings, option)
    ensures forall u :: u in order && Names(u.settings, option) ==> !Less(order[i], u)
  {
    forall u | u in order && Names(u.settings, option) ensures !Less(order[i], u) {
      var j :| 0 <= j < |order| && order[j] == u;
      if j < i {
        OrderedPairs(order, j, i);
      }
    }
  }

  /** A reported option is blank if no live matching strategy sets it, and otherwise has a
      value set by one that no other such strategy exceeds. */
  lemma OptionWinner(values: seq<Strategy>, t: Target, option: string, value: string)
    requires Decided(Sorted(LiveOf(values, t)), option, value)
    ensures (forall s :: s in values && Live(s, t) ==> !Names(s.settings, option)) ==> value == ""
    ensures (exists s :: s in values && Live(s, t) && Names(s.settings, option)) ==>
              exists s :: s in values && Live(s, t) && SetsTo(s.settings, option, value)
                && forall u :: u in values && Live(u, t) && Names(u.settings, option) ==> !Less(s, u)
  {
    var order := Sorted(LiveOf(values, t));
    LiveOrder(values, t);
    if exists s :: s in order && Names(s.settings, option) {
      var i := DecidedByLast(order, option, value);
      LastNamerIsGreatest(order, i, option);
      assert order[i] in order;
    } else {
      DecidedBlank(order, option, value);
    }
  }

  // ---------- order independence ----------

  /** No two different strategies of the list have the same precedence. */
  ghost predicate Separated(s: seq<Strategy>) {
    forall a, b :: a in s && b in s && Level(a, b) ==> a == b
  }

  /** No strategy of the list assigns one option through two keys. */
  ghost predicate OneKeyPerOption(s: seq<Strategy>) {
    forall a, k, l, o :: a in s && Assigns(a.settings, k, o) && Assigns(a.settings, l, o) ==> k == l
  }

  lemma SameHead(a: seq<Strategy>, b: seq<Strategy>)
    requires Ordered(a) && Ordered(b) && multiset(a) == multiset(b) && Separated(a) && a != [] && b != []
    ensures a[0] == b[0]
  {
    HeadIsLeast(a, b);
    HeadIsLeast(b, a);
    SameMembers(a, b);
    assert b[0] in a && a[0] in a;
  }

  lemma TailCounts(a: seq<Strategy>)
    requires a != []
    ensures multiset(a[1..]) == multiset(a) - multiset{a[0]}
  {
    assert a == [a[0]] + a[1..];
  }

  lemma {:induction false} OneOrder(a: seq<Strategy>, b: seq<Strategy>)
    requires Ordered(a) && Ordered(b) && multiset(a) == multiset(b) && Separated(a)
    ensures a == b
    decreases |a|
  {
    assert |multiset(a)| == |a| && |multiset(b)| == |b|;
    if a != [] {
      SameHead(a, b);
      TailCounts(a);
      TailCounts(b);
      assert Separated(a[1..]) by {
        assert forall s :: s in a[1..] ==> s in a;
      }
      OneOrder(a[1..], b[1..]);
      assert a == [a[0]] + a[1..] && b == [b[0]] + b[1..];
    }
  }

  lemma HeadIsLeast(a: seq<Strategy>, b: seq<Strategy>)
    requires Ordered(a) && multiset(a) == multiset(b) && a != [] && b != []
    ensures !Less(b[0], a[0])
  {
    assert b[0] in multiset(a);
    var i :| 0 <= i < |a| && a[i] == b[0];
    if i > 0 {
      OrderedPairs(a, 0, i);
    }
  }

  lemma {:induction false} LiveCounts(values: seq<Strategy>, t: Target, s: Strategy)
    ensures multiset(LiveOf(values, t))[s] == if Live(s, t) then multiset(values)[s] else 0
    decreases |values|
  {
    if values != [] {
      assert values == [values[0]] + values[1..];
      LiveCounts(values[1..], t, s);
    }
  }

  /** When live matching strategies differ in precedence, any order of the list gives the
      same merge order, hence the same settings and matched list. */
  lemma OrderIndependent(a: seq<Strategy>, b: seq<Strategy>, t: Target)
    requires multiset(a) == multiset(b) && Separated(LiveOf(a, t))
    ensures Sorted(LiveOf(a, t)) == Sorted(LiveOf(b, t))
  {
    forall s ensures multiset(LiveOf(a, t))[s] == multiset(LiveOf(b, t))[s] {
      LiveCounts(a, t, s);
      LiveCounts(b, t, s);
    }
    assert multiset(LiveOf(a, t)) == multiset(LiveOf(b, t));
    SortedPermutes(LiveOf(a, t));
    SortedPermutes(LiveOf(b, t));
    SortedOrdered(LiveOf(a, t));
    SortedOrdered(LiveOf(b, t));
    OneOrder(Sorted(LiveOf(a, t)), Sorted(LiveOf(b, t)));
  }

  /** With one key per option, the merge order fixes every option's value. */
  lemma {:induction false} OptionsDetermined(order: seq<Strategy>, option: string, v: string, w: string)
    requires OneKeyPerOption(order) && Decided(order, option, v) && Decided(order, option, w)
    ensures v == w
    decreases |order|
  {
    if order != [] {
      var last := order[|order| - 1];
      assert last in order;
      if Names(last.settings, option) {
        var k :| Assigns(last.settings, k, option) && ClientOption(k, last.settings[k]).value.value == v;
        var l :| Assigns(last.settings, l, option) && ClientOption(l, last.settings[l]).value.value == w;
        assert k == l;
      } else {
        assert forall s :: s in order[..|order| - 1] ==> s in order;
        OptionsDetermined(order[..|order| - 1], option, v, w);
      }
    }
  }
}
