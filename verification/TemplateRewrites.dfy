/** The rewrites over whole templates: idempotent, confined to their protocol's outbounds, and reporting a
    change exactly when the template differs. */
module TemplateRewrites {
  import opened Options
  import opened Json
  import opened DnsOutbound
  import opened OutboundRewrites

  /** rewriteDNSOutboundLegacyKeys, RewriteDNSOutboundQTypeZero, rewriteFreedomDomainStrategy,
      rewriteWireguardDomainStrategy, rewriteRemovedOutboundKeys. */
  datatype Rewriter = DnsKeys | DnsZeros | FreedomKeys | WireguardKeys | Removed

  function Apply(r: Rewriter, ob: Value, sprint: Value -> string): Value {
    match r
    case DnsKeys => DnsLegacy(ob, sprint)
    case DnsZeros => DnsZero(ob)
    case FreedomKeys => Freedom(ob)
    case WireguardKeys => Wireguard(ob)
    case Removed => RemovedKeys(ob)
  }

  function Settings(ob: Value): Fields { FieldsOf(Get(ob, "settings")) }

  predicate AnyZero(rules: seq<Value>) { exists i :: 0 <= i < |rules| && Get(rules[i], "qType") == Some(Number(0)) }

  /** The guard on which each rewriter sets its changed flag. */
  predicate Flagged(r: Rewriter, ob: Value) {
    match r
    case DnsKeys =>
      Speaks(ob, "dns") && Get(ob, "settings").Some? && Get(ob, "settings").value.Obj? &&
      (Present(At(Settings(ob), "nonIPQuery")) || Present(At(Settings(ob), "blockTypes")))
    case DnsZeros => Speaks(ob, "dns") && AnyZero(ItemsOf(At(Settings(ob), "rules")))
    case FreedomKeys => Speaks(ob, "freedom") && HasLegacyStrategy(ob.fields)
    case WireguardKeys => Speaks(ob, "wireguard") && !LegacyFree(Settings(ob))
    case Removed =>
      ob.Obj? && ("proxySettings" in ob.fields || (EqualFold(Protocol(ob), "freedom") && "addressPortStrategy" in Sockopt(ob.fields)))
  }

  // ---- one outbound --------------------------------------------------------------------------

  lemma {:induction false} SpellZerosChanges(rules: seq<Value>)
    ensures SpellZeros(rules) == rules <==> !AnyZero(rules)
  {
    if rules != [] {
      SpellZerosChanges(rules[1..]);
      var first, rest := [SpellZero(rules[0])], SpellZeros(rules[1..]);
      assert rules == [rules[0]] + rules[1..];
      assert first + rest == rules <==> first[0] == rules[0] && rest == rules[1..] by {
        assert (first + rest)[0] == first[0] && (first + rest)[1..] == rest;
      }
      assert AnyZero(rules) <==> Get(rules[0], "qType") == Some(Number(0)) || AnyZero(rules[1..]) by {
        if AnyZero(rules[1..]) {
          var i :| 0 <= i < |rules[1..]| && Get(rules[1..][i], "qType") == Some(Number(0));
          assert Get(rules[i + 1], "qType") == Some(Number(0));
        }
        assert forall i :: 1 <= i < |rules| ==> rules[i] == rules[1..][i - 1];
      }
    }
  }

  lemma DnsZeroFlagged(ob: Value)
    ensures Flagged(DnsZeros, ob) <==> DnsZero(ob) != ob
  {
    var s, rules := Settings(ob), At(Settings(ob), "rules");
    SpellZerosChanges(ItemsOf(rules));
    if Speaks(ob, "dns") && rules.Some? && rules.value.Arr? {
      assert At(Settings(DnsZero(ob)), "rules") == Some(Arr(SpellZeros(rules.value.items)));
      if !AnyZero(rules.value.items) {
        assert s["rules" := rules.value] == s && ob.fields["settings" := Obj(s)] == ob.fields;
      }
    }
  }

  lemma RemovedFlagged(ob: Value)
    ensures Flagged(Removed, ob) <==> RemovedKeys(ob) != ob
  {
    if ob.Obj? {
      RemovedKeysKeepDialer(ob);
      assert "proxySettings" !in ob.fields ==> DialerMoved(ob.fields) == ob.fields;
    }
  }

  lemma StrategiesFlagged(r: Rewriter, ob: Value)
    requires r.FreedomKeys? || r.WireguardKeys?
    ensures Flagged(r, ob) <==> Apply(r, ob, _ => "") != ob
  {
    if r.FreedomKeys? && Speaks(ob, "freedom") {
      FreedomLeavesNoLegacy(ob);
    }
    if r.WireguardKeys? && Speaks(ob, "wireguard") {
      WireguardSplits(ob);
    }
  }

  lemma DnsLegacyFlagged(ob: Value, sprint: Value -> string)
    ensures Flagged(DnsKeys, ob) <==> DnsLegacy(ob, sprint) != ob
    ensures Flagged(DnsKeys, ob) ==>
      "nonIPQuery" !in Settings(DnsLegacy(ob, sprint)) && "blockTypes" !in Settings(DnsLegacy(ob, sprint))
  {
  }

  /** The changed flag is set exactly when the outbound changes. */
  lemma FlaggedIff(r: Rewriter, ob: Value, sprint: Value -> string)
    ensures Flagged(r, ob) <==> Apply(r, ob, sprint) != ob
  {
    match r
    case DnsKeys => DnsLegacyFlagged(ob, sprint);
    case DnsZeros => DnsZeroFlagged(ob);
    case Removed => RemovedFlagged(ob);
    case _ => StrategiesFlagged(r, ob);
  }

  /** An outbound of another protocol is left alone; only the removal of proxySettings looks at them all. */
  lemma OnlyOwnProtocol(r: Rewriter, ob: Value, sprint: Value -> string)
    ensures r != Removed && !Speaks(ob, if r.DnsKeys? || r.DnsZeros? then "dns" else if r.FreedomKeys? then "freedom" else "wireguard")
      ==> Apply(r, ob, sprint) == ob
    ensures r == Removed && !(ob.Obj? && "proxySettings" in ob.fields) && !Speaks(ob, "freedom") ==> Apply(r, ob, sprint) == ob
  {
    FlaggedIff(r, ob, sprint);
  }

  lemma DnsOnce(ob: Value, sprint: Value -> string)
    ensures !Flagged(DnsKeys, DnsLegacy(ob, sprint))
  {
    DnsLegacyFlagged(ob, sprint);
  }

  lemma FreedomOnce(ob: Value)
    ensures !Flagged(FreedomKeys, Freedom(ob))
  {
    if Speaks(ob, "freedom") {
      FreedomLeavesNoLegacy(ob);
    }
  }

  lemma WireguardOnce(ob: Value)
    ensures !Flagged(WireguardKeys, Wireguard(ob))
  {
    if Speaks(ob, "wireguard") {
      WireguardSplits(ob);
    }
  }

  lemma RemovedOnce(ob: Value)
    ensures !Flagged(Removed, RemovedKeys(ob))
  {
    if ob.Obj? {
      RemovedKeysKeepDialer(ob);
    }
  }

  lemma ZerosAreGone(ob: Value)
    ensures !Flagged(DnsZeros, DnsZero(ob))
  {
    if Speaks(ob, "dns") {
      var rules := ItemsOf(At(Settings(ob), "rules"));
      SpellZerosTwice(rules);
      SpellZerosChanges(SpellZeros(rules));
      SpellZerosChanges(rules);
    }
  }

  lemma OnceIsEnough(r: Rewriter, ob: Value, sprint: Value -> string)
    ensures !Flagged(r, Apply(r, ob, sprint))
  {
    match r
    case DnsKeys => DnsOnce(ob, sprint);
    case DnsZeros => ZerosAreGone(ob);
    case FreedomKeys => FreedomOnce(ob);
    case WireguardKeys => WireguardOnce(ob);
    case Removed => RemovedOnce(ob);
  }

  // ---- the template --------------------------------------------------------------------------

  function MapAll(obs: seq<Value>, f: Value -> Value): (out: seq<Value>)
    ensures |out| == |obs| && forall i :: 0 <= i < |obs| ==> out[i] == f(obs[i])
  {
    if obs == [] then [] else [f(obs[0])] + MapAll(obs[1..], f)
  }

  function Rewritten(cfg: Value, f: Value -> Value): Value {
    var obs := Get(cfg, "outbounds");
    if obs.None? || !obs.value.Arr? then cfg else Obj(cfg.fields["outbounds" := Arr(MapAll(obs.value.items, f))])
  }

  function Rewriting(r: Rewriter, sprint: Value -> string): Value -> Value { ob => Apply(r, ob, sprint) }

  lemma FixedPoints(cfg: Value, f: Value -> Value)
    requires forall ob :: f(f(ob)) == f(ob)
    ensures Rewritten(Rewritten(cfg, f), f) == Rewritten(cfg, f)
  {
    var obs := Get(cfg, "outbounds");
    if obs.Some? && obs.value.Arr? {
      var once := MapAll(obs.value.items, f);
      assert MapAll(once, f) == once;
    }
  }

  /** Running a rewrite twice is running it once. */
  lemma Idempotent(r: Rewriter, cfg: Value, sprint: Value -> string)
    ensures Rewritten(Rewritten(cfg, Rewriting(r, sprint)), Rewriting(r, sprint)) == Rewritten(cfg, Rewriting(r, sprint))
  {
    var f := Rewriting(r, sprint);
    forall ob ensures f(f(ob)) == f(ob) {
      OnceIsEnough(r, ob, sprint);
      FlaggedIff(r, f(ob), sprint);
    }
    FixedPoints(cfg, f);
  }

  /** The loop each rewriter runs over the decoded outbounds, editing them in place. */
  method RewriteAll(items: seq<Value>, f: Value -> Value, flag: Value -> bool) returns (obs: seq<Value>, changed: bool)
    requires forall ob :: flag(ob) <==> f(ob) != ob
    ensures obs == MapAll(items, f) && (changed <==> obs != items)
  {
    obs, changed := items, false;
    var i := 0;
    while i < |obs|
      invariant 0 <= i <= |obs| == |items|
      invariant forall k :: 0 <= k < i ==> obs[k] == f(items[k])
      invariant forall k :: i <= k < |obs| ==> obs[k] == items[k]
      invariant changed <==> exists k :: 0 <= k < i && f(items[k]) != items[k]
    {
      if flag(obs[i]) {
        obs := obs[i := f(obs[i])];
        changed := true;
      }
      i := i + 1;
    }
    if changed {
      var k :| 0 <= k < i && f(items[k]) != items[k];
      assert obs[k] != items[k];
    }
  }

  /** Nothing is written back unless the template differs. */
  method Rewrite(r: Rewriter, cfg: Value, sprint: Value -> string) returns (out: Value, changed: bool)
    ensures out == Rewritten(cfg, Rewriting(r, sprint))
    ensures changed <==> out != cfg
  {
    var found := Get(cfg, "outbounds");
    if found.None? || !found.value.Arr? { return cfg, false; }
    forall ob ensures Flagged(r, ob) <==> Rewriting(r, sprint)(ob) != ob { FlaggedIff(r, ob, sprint); }
    var obs, edited := RewriteAll(found.value.items, Rewriting(r, sprint), ob => Flagged(r, ob));
    if !edited {
      assert cfg.fields["outbounds" := cfg.fields["outbounds"]] == cfg.fields;
      return cfg, false;
    }
    out, changed := Obj(cfg.fields["outbounds" := Arr(obs)]), true;
    assert Get(out, "outbounds") != Get(cfg, "outbounds");
  }
}
