/** The one-time rewrites of stored Xray outbounds: each touches its own protocol's outbounds only, is
    idempotent, reports a change exactly when there is one, and keeps what the old keys meant. */
module OutboundRewrites {
  import opened Options
  import opened GoStrings
  import opened Json
  import opened DnsOutbound

  type Fields = map<string, Value>

  function At(f: Fields, key: string): Option<Value> { if key in f then Some(f[key]) else None }

  function Protocol(ob: Value): string { StrOf(Get(ob, "protocol")) }

  predicate Speaks(ob: Value, protocol: string) { ob.Obj? && EqualFold(Protocol(ob), protocol) }

  /** outboundSockopt's map, empty when there is none. */
  function Sockopt(f: Fields): Fields { FieldsOf(At(FieldsOf(At(f, "streamSettings")), "sockopt")) }

  /** Stores a changed sockopt map, creating the maps on the way. */
  function WithSockopt(f: Fields, sockopt: Fields): Fields {
    f["streamSettings" := Obj(FieldsOf(At(f, "streamSettings"))["sockopt" := Obj(sockopt)])]
  }

  lemma SockoptStored(f: Fields, sockopt: Fields)
    ensures Sockopt(WithSockopt(f, sockopt)) == sockopt
    ensures forall k :: k != "streamSettings" ==> At(WithSockopt(f, sockopt), k) == At(f, k)
  {
  }

  // ---- dns: legacy keys into rules -----------------------------------------------------------

  /** One comma-separated part: a query type, or nothing. */
  function PartType(part: string): seq<nat> {
    var n := ParseInt(TrimSpace(part));
    if n.Some? && 0 <= n.value <= 65535 then [n.value] else []
  }

  function PartTypes(parts: seq<string>): seq<nat> {
    if parts == [] then [] else PartType(parts[0]) + PartTypes(parts[1..])
  }

  /** `sprint` is fmt.Sprint. */
  function ItemTypes(items: seq<Value>, sprint: Value -> string): seq<nat> {
    if items == [] then [] else PartTypes(Split(sprint(items[0]), ',')) + ItemTypes(items[1..], sprint)
  }

  function Items(value: Option<Value>): seq<Value> {
    if value.None? || value.value.Null? then [] else if value.value.Arr? then value.value.items else [value.value]
  }

  function BlockTypes(value: Option<Value>, sprint: Value -> string): seq<nat> { ItemTypes(Items(value), sprint) }

  predicate Present(v: Option<Value>) { v.Some? && !v.value.Null? }

  /** What rewriteDNSOutboundLegacyKeys does to one outbound. */
  function DnsLegacy(ob: Value, sprint: Value -> string): Value {
    if !Speaks(ob, "dns") || At(ob.fields, "settings").None? || !ob.fields["settings"].Obj? then ob
    else
      var s := ob.fields["settings"].fields;
      if !Present(At(s, "nonIPQuery")) && !Present(At(s, "blockTypes")) then ob
      else
        var rules := Arr(LegacyRules(Mode(At(s, "nonIPQuery")), BlockTypes(At(s, "blockTypes"), sprint)));
        var t := if Present(At(s, "rules")) then s else s["rules" := rules];
        Obj(ob.fields["settings" := Obj(t - {"nonIPQuery", "blockTypes"})])
  }

  lemma {:induction false} PartTypesValid(parts: seq<string>)
    ensures QTypes(PartTypes(parts))
  {
    if parts != [] {
      PartTypesValid(parts[1..]);
    }
  }

  lemma {:induction false} ItemTypesValid(items: seq<Value>, sprint: Value -> string)
    ensures QTypes(ItemTypes(items, sprint))
  {
    if items != [] {
      PartTypesValid(Split(sprint(items[0]), ','));
      ItemTypesValid(items[1..], sprint);
    }
  }

  /** A dns outbound whose legacy keys decided, its rules after the rewrite, and any query type: the answer
      is the legacy one. */
  lemma DnsRewriteKeepsMeaning(ob: Value, sprint: Value -> string, q: nat)
    requires Speaks(ob, "dns") && At(ob.fields, "settings").Some? && ob.fields["settings"].Obj?
    requires
      var s := ob.fields["settings"].fields;
      !Present(At(s, "rules")) && (Present(At(s, "nonIPQuery")) || Present(At(s, "blockTypes")))
    ensures
      var s, t := ob.fields["settings"].fields, FieldsOf(Get(DnsLegacy(ob, sprint), "settings"));
      FirstMatch(ItemsOf(At(t, "rules")), q) == LegacyAnswer(Mode(At(s, "nonIPQuery")), BlockTypes(At(s, "blockTypes"), sprint), q)
  {
    var s := ob.fields["settings"].fields;
    var types := BlockTypes(At(s, "blockTypes"), sprint);
    ItemTypesValid(Items(At(s, "blockTypes")), sprint);
    RulesAnswerAsLegacy(Mode(At(s, "nonIPQuery")), types, q);
  }

  /** fmt.Sprint on strings and on numbers a query type can be. */
  ghost predicate PrintsPlainly(sprint: Value -> string) {
    && (forall s :: sprint(Str(s)) == s)
    && (forall n: nat :: n <= 65535 ==> sprint(Number(n)) == Itoa(n))
  }

  function Numbers(types: seq<nat>): seq<Value> {
    if types == [] then [] else [Number(types[0])] + Numbers(types[1..])
  }

  lemma OneItem(v: Value, sprint: Value -> string)
    ensures ItemTypes([v], sprint) == PartTypes(Split(sprint(v), ','))
  {
    assert [v][1..] == [];
  }

  lemma DecimalPart(t: nat)
    requires t <= 65535
    ensures PartType(Itoa(t)) == [t]
  {
    TrimTrimmed(Itoa(t));
    ParseFormat(t);
  }

  lemma NumberPart(t: nat)
    requires t <= 65535
    ensures PartTypes(Split(Itoa(t), ',')) == [t]
  {
    SplitWhole(Itoa(t), ',');
    DecimalPart(t);
    assert [Itoa(t)][1..] == [];
  }

  lemma {:induction false} DecimalParts(types: seq<nat>)
    requires QTypes(types)
    ensures PartTypes(Decimals(types)) == types
  {
    if types != [] {
      DecimalParts(types[1..]);
      DecimalPart(types[0]);
      assert Decimals(types)[1..] == Decimals(types[1..]);
      assert types == [types[0]] + types[1..];
    }
  }

  lemma {:induction false} NumbersRead(types: seq<nat>, sprint: Value -> string)
    requires QTypes(types) && PrintsPlainly(sprint)
    ensures ItemTypes(Numbers(types), sprint) == types
  {
    if types != [] {
      NumbersRead(types[1..], sprint);
      NumberPart(types[0]);
      assert Numbers(types)[1..] == Numbers(types[1..]);
      assert types == [types[0]] + types[1..];
    }
  }

  lemma TextReads(types: seq<nat>, sprint: Value -> string)
    requires types != [] && QTypes(types) && PrintsPlainly(sprint)
    ensures BlockTypes(Some(Str(Join(Decimals(types), ','))), sprint) == types
  {
    DecimalsAt(types);
    SplitJoin(Decimals(types), ',');
    DecimalParts(types);
    OneItem(Str(Join(Decimals(types), ',')), sprint);
  }

  lemma NumberReads(t: nat, sprint: Value -> string)
    requires t <= 65535 && PrintsPlainly(sprint)
    ensures BlockTypes(Some(Number(t)), sprint) == [t]
  {
    OneItem(Number(t), sprint);
    NumberPart(t);
  }

  /** Every shape the old form saved reads as the same types: a list of numbers, one number, or a
      comma-separated string. */
  lemma EveryShapeReads(types: seq<nat>, sprint: Value -> string)
    requires types != [] && QTypes(types) && PrintsPlainly(sprint)
    ensures BlockTypes(Some(Arr(Numbers(types))), sprint) == types
    ensures BlockTypes(Some(Str(Join(Decimals(types), ','))), sprint) == types
    ensures BlockTypes(Some(Number(types[0])), sprint) == [types[0]]
  {
    NumbersRead(types, sprint);
    TextReads(types, sprint);
    NumberReads(types[0], sprint);
  }

  method CollectParts(parts: seq<string>, start: seq<nat>) returns (out: seq<nat>)
    ensures out == start + PartTypes(parts)
  {
    out := start;
    var j := 0;
    while j < |parts|
      invariant 0 <= j <= |parts|
      invariant out + PartTypes(parts[j..]) == start + PartTypes(parts)
    {
      assert parts[j..][0] == parts[j] && parts[j..][1..] == parts[j + 1..];
      Regroup(out, PartType(parts[j]), PartTypes(parts[j + 1..]));
      out := out + PartType(parts[j]);
      j := j + 1;
    }
    assert out + [] == out;
  }

  lemma ItemStep(done: seq<nat>, items: seq<Value>, i: nat, sprint: Value -> string, parts: seq<string>)
    requires i < |items| && parts == Split(sprint(items[i]), ',')
    ensures done + ItemTypes(items[i..], sprint) == done + PartTypes(parts) + ItemTypes(items[i + 1..], sprint)
  {
    var tail := items[i..];
    assert tail[0] == items[i] && tail[1..] == items[i + 1..];
    Regroup(done, PartTypes(parts), ItemTypes(items[i + 1..], sprint));
  }

  lemma Regroup(a: seq<nat>, b: seq<nat>, c: seq<nat>)
    ensures a + (b + c) == a + b + c
  {
  }

  /** legacyDNSBlockTypes' nested loops. */
  method CollectBlockTypes(value: Option<Value>, sprint: Value -> string) returns (out: seq<nat>)
    ensures out == BlockTypes(value, sprint) && QTypes(out)
  {
    var items := Items(value);
    out := [];
    var i := 0;
    while i < |items|
      invariant 0 <= i <= |items|
      invariant out + ItemTypes(items[i..], sprint) == ItemTypes(items, sprint)
    {
      var parts := Split(sprint(items[i]), ',');
      ItemStep(out, items, i, sprint, parts);
      out := CollectParts(parts, out);
      i := i + 1;
    }
    assert out + [] == out;
    ItemTypesValid(items, sprint);
  }

  // ---- dns: the numeric zero -----------------------------------------------------------------

  function DnsZero(ob: Value): Value {
    if !Speaks(ob, "dns") then ob
    else
      var s := At(ob.fields, "settings");
      if s.None? || !s.value.Obj? || "rules" !in s.value.fields || !s.value.fields["rules"].Arr? then ob
      else Obj(ob.fields["settings" := Obj(s.value.fields["rules" := Arr(SpellZeros(s.value.fields["rules"].items))])])
  }

  // ---- freedom -------------------------------------------------------------------------------

  const FREEDOM_STRATEGIES := {"asis", "useip", "useipv4", "useipv6", "useipv4v6", "useipv6v4", "forceip", "forceipv4",
                               "forceipv6", "forceipv4v6", "forceipv6v4"}

  /** A strategy the core accepts and that is not the default; "" otherwise. */
  function Strategy(v: Option<Value>): string {
    var s := StrOf(v);
    if s != "" && Lower(s) in FREEDOM_STRATEGIES && !EqualFold(s, "asis") then s else ""
  }

  /** freedomMigratedStrategy: the root key first, then the first of the settings keys that says anything. */
  function Migrated(f: Fields): string {
    var s := FieldsOf(At(f, "settings"));
    if Strategy(At(f, "targetStrategy")) != "" then Strategy(At(f, "targetStrategy"))
    else Strategy(if StrOf(At(s, "targetStrategy")) != "" then At(s, "targetStrategy") else At(s, "domainStrategy"))
  }

  predicate HasLegacyStrategy(f: Fields) {
    var s := FieldsOf(At(f, "settings"));
    "targetStrategy" in f || "targetStrategy" in s || "domainStrategy" in s
  }

  function WithoutStrategies(f: Fields): Fields {
    var g := f - {"targetStrategy"};
    if "settings" in f && f["settings"].Obj? then
      g["settings" := Obj(f["settings"].fields - {"targetStrategy", "domainStrategy"})]
    else g
  }

  function Freedom(ob: Value): Value {
    if !Speaks(ob, "freedom") || !HasLegacyStrategy(ob.fields) then ob
    else
      var strategy, g := Migrated(ob.fields), WithoutStrategies(ob.fields);
      Obj(if strategy == "" then g else WithSockopt(g, Sockopt(g)["domainStrategy" := Str(strategy)]))
  }

  /** The strategy a freedom outbound runs with: the legacy keys first, sockopt where they say nothing. */
  function EffectiveStrategy(ob: Value): string
    requires ob.Obj?
  {
    if Migrated(ob.fields) != "" then Migrated(ob.fields) else StrOf(At(Sockopt(ob.fields), "domainStrategy"))
  }

  lemma StrategiesGone(f: Fields)
    ensures !HasLegacyStrategy(WithoutStrategies(f)) && Migrated(WithoutStrategies(f)) == ""
    ensures Sockopt(WithoutStrategies(f)) == Sockopt(f)
    ensures At(WithoutStrategies(f), "protocol") == At(f, "protocol")
  {
  }

  lemma FreedomLeavesNoLegacy(ob: Value)
    requires Speaks(ob, "freedom")
    ensures Speaks(Freedom(ob), "freedom") && !HasLegacyStrategy(Freedom(ob).fields)
    ensures EffectiveStrategy(Freedom(ob)) == EffectiveStrategy(ob)
  {
    var g := WithoutStrategies(ob.fields);
    StrategiesGone(ob.fields);
    SockoptStored(g, Sockopt(g)["domainStrategy" := Str(Migrated(ob.fields))]);
  }

  // ---- wireguard -----------------------------------------------------------------------------

  const FAMILY_STRATEGIES := {"forceipv4", "forceipv6", "forceipv4v6", "forceipv6v4"}

  predicate IsSet(v: Option<Value>) { StrOf(v) != "" && !EqualFold(StrOf(v), "asis") }

  predicate LocalDns(s: Fields) { ItemsOf(At(s, "remoteDNS")) == [Str("local")] }

  function FamilyOf(s: Fields): string {
    var v := StrOf(At(s, "domainStrategy"));
    if Lower(v) in FAMILY_STRATEGIES then v else ""
  }

  /** sockopt.domainStrategy takes the pinned family unless it is set. */
  function FamilyMoved(f: Fields, family: string): Fields {
    if family != "" && !IsSet(At(Sockopt(f), "domainStrategy")) then WithSockopt(f, Sockopt(f)["domainStrategy" := Str(family)]) else f
  }

  function Targeted(f: Fields, target: string): Fields {
    if target != "" && !IsSet(At(f, "targetStrategy")) then f["targetStrategy" := Str(target)] else f
  }

  function KeptSettings(s: Fields): Fields {
    s - (if LocalDns(s) then {"domainStrategy", "remoteDNS"} else {"domainStrategy"})
  }

  function Target(s: Fields): string { if FamilyOf(s) != "" then FamilyOf(s) else if LocalDns(s) then "ForceIP" else "" }

  function Wireguard(ob: Value): Value {
    if !Speaks(ob, "wireguard") then ob
    else
      var s := FieldsOf(At(ob.fields, "settings"));
      if LegacyFree(s) then ob
      else Obj(Targeted(FamilyMoved(ob.fields["settings" := Obj(KeptSettings(s))], FamilyOf(s)), Target(s)))
  }

  lemma FamilyIsMoved(f: Fields, family: string)
    ensures At(Sockopt(FamilyMoved(f, family)), "domainStrategy") ==
      if family != "" && !IsSet(At(Sockopt(f), "domainStrategy")) then Some(Str(family)) else At(Sockopt(f), "domainStrategy")
    ensures forall k :: k != "streamSettings" ==> At(FamilyMoved(f, family), k) == At(f, k)
  {
    SockoptStored(f, Sockopt(f)["domainStrategy" := Str(family)]);
  }

  lemma TargetIsSet(f: Fields, target: string)
    ensures At(Targeted(f, target), "targetStrategy") ==
      if target != "" && !IsSet(At(f, "targetStrategy")) then Some(Str(target)) else At(f, "targetStrategy")
    ensures forall k :: k != "targetStrategy" ==> At(Targeted(f, target), k) == At(f, k)
  {
  }

  lemma NoFamilyByDefault(s: Fields)
    requires "domainStrategy" !in s
    ensures FamilyOf(s) == ""
  {
    assert Lower("") == "" && "" !in FAMILY_STRATEGIES;
  }

  /** The legacy settings are gone, the rest of the settings stay. */
  lemma SettingsAreKept(s: Fields)
    ensures "domainStrategy" !in KeptSettings(s) && !LocalDns(KeptSettings(s))
    ensures forall k :: k !in {"domainStrategy", "remoteDNS"} ==> At(KeptSettings(s), k) == At(s, k)
  {
  }

  predicate SplitsStrategy(before: Fields, after: Fields) {
    var s, so := FieldsOf(At(before, "settings")), At(Sockopt(before), "domainStrategy");
    && At(Sockopt(after), "domainStrategy") == (if FamilyOf(s) != "" && !IsSet(so) then Some(Str(FamilyOf(s))) else so)
    && At(after, "targetStrategy") ==
         (if Target(s) != "" && !IsSet(At(before, "targetStrategy")) then Some(Str(Target(s))) else At(before, "targetStrategy"))
  }

  lemma LegacyIsSplit(f: Fields, s: Fields)
    requires At(f, "settings") == Some(Obj(s))
    ensures
      var after := Targeted(FamilyMoved(f["settings" := Obj(KeptSettings(s))], FamilyOf(s)), Target(s));
      && SplitsStrategy(f, after) && At(after, "protocol") == At(f, "protocol")
      && At(after, "settings") == Some(Obj(KeptSettings(s)))
  {
    var g := f["settings" := Obj(KeptSettings(s))];
    FamilyIsMoved(g, FamilyOf(s));
    TargetIsSet(FamilyMoved(g, FamilyOf(s)), Target(s));
    assert At(g, "streamSettings") == At(f, "streamSettings") && At(g, "targetStrategy") == At(f, "targetStrategy");
  }

  predicate LegacyFree(s: Fields) { "domainStrategy" !in s && !LocalDns(s) }

  lemma NothingToSplit(f: Fields)
    requires LegacyFree(FieldsOf(At(f, "settings")))
    ensures SplitsStrategy(f, f)
  {
    NoFamilyByDefault(FieldsOf(At(f, "settings")));
  }

  /** Afterwards no legacy key is left, a pinned family is the endpoint's unless one was set already, and
      the targets follow it, or any address where only local DNS was asked for. */
  lemma WireguardSplits(ob: Value)
    requires Speaks(ob, "wireguard")
    ensures
      var after := Wireguard(ob);
      Speaks(after, "wireguard") && SplitsStrategy(ob.fields, after.fields) && LegacyFree(FieldsOf(At(after.fields, "settings")))
  {
    var s := FieldsOf(At(ob.fields, "settings"));
    if LegacyFree(s) {
      NothingToSplit(ob.fields);
    } else {
      LegacyIsSplit(ob.fields, s);
      SettingsAreKept(s);
    }
  }

  // ---- removed keys --------------------------------------------------------------------------

  function DialerMoved(f: Fields): Fields {
    if "proxySettings" !in f then f
    else
      var tag, sockopt := StrOf(Get(f["proxySettings"], "tag")), Sockopt(f);
      var g := if tag != "" && StrOf(At(sockopt, "dialerProxy")) == "" then WithSockopt(f, sockopt["dialerProxy" := Str(tag)]) else f;
      g - {"proxySettings"}
  }

  function RemovedKeys(ob: Value): Value {
    if !ob.Obj? then ob
    else
      var f := DialerMoved(ob.fields);
      Obj(if EqualFold(Protocol(ob), "freedom") && "addressPortStrategy" in Sockopt(f) then
            WithSockopt(f, Sockopt(f) - {"addressPortStrategy"})
          else f)
  }

  /** The proxy an outbound dials through: sockopt's own, else the one proxySettings names. */
  function Dialer(f: Fields): string {
    if StrOf(At(Sockopt(f), "dialerProxy")) != "" then StrOf(At(Sockopt(f), "dialerProxy"))
    else if "proxySettings" in f then StrOf(Get(f["proxySettings"], "tag"))
    else ""
  }

  lemma DialerIsMoved(f: Fields)
    ensures Dialer(DialerMoved(f)) == Dialer(f) && "proxySettings" !in DialerMoved(f)
    ensures At(DialerMoved(f), "protocol") == At(f, "protocol")
    ensures "addressPortStrategy" in Sockopt(DialerMoved(f)) <==> "addressPortStrategy" in Sockopt(f)
  {
    var sockopt := Sockopt(f);
    if "proxySettings" in f {
      SockoptStored(f, sockopt["dialerProxy" := Str(StrOf(Get(f["proxySettings"], "tag")))]);
    }
  }

  /** No refused key is left, the outbound dials through the same proxy, and an outbound that is not freedom
      keeps its addressPortStrategy. */
  lemma RemovedKeysKeepDialer(ob: Value)
    requires ob.Obj?
    ensures
      var after := RemovedKeys(ob);
      && after.Obj? && Protocol(after) == Protocol(ob)
      && "proxySettings" !in after.fields && Dialer(after.fields) == Dialer(ob.fields)
      && ("addressPortStrategy" in Sockopt(after.fields) <==>
          "addressPortStrategy" in Sockopt(ob.fields) && !EqualFold(Protocol(ob), "freedom"))
  {
    var f := DialerMoved(ob.fields);
    DialerIsMoved(ob.fields);
    SockoptStored(f, Sockopt(f) - {"addressPortStrategy"});
  }
}
