/** What the controller reaches when no command fails: per inbound, Ensure and teardown end exactly
    where they should or die on the way leaving something a fresh manager can finish. */
module KernelConverge {
  import opened Options
  import opened KernelWorld
  import opened KernelSafety

  /** Commands succeed or the process dies; none fails and lets the process go on. */
  ghost predicate NoFails(e: Env) { forall n :: !e.fate(n).Fails? }

  // ---- FORWARD rules -------------------------------------------------------------------------

  function MineOf(rules: seq<Rule>, id: int): seq<Rule> {
    if rules == [] then [] else (if Mine(rules[0], id) then [rules[0]] else []) + MineOf(rules[1..], id)
  }

  /** The FORWARD chain as everybody but inbound id sees it. */
  function Without(rules: seq<Rule>, id: int): seq<Rule> {
    if rules == [] then [] else (if Mine(rules[0], id) then [] else [rules[0]]) + Without(rules[1..], id)
  }

  /** The tagged rules f asks for, in chain order: inserting at the head reverses them. */
  function WantedRules(id: int, f: Forward): seq<Rule> {
    if f.Via? then [Tagged(id, true, f.egress), Tagged(id, false, f.egress)] else []
  }

  lemma {:induction false} NoneMine(rules: seq<Rule>, id: int)
    ensures MineOf(rules, id) == [] ==> Without(rules, id) == rules
    ensures MineOf(Without(rules, id), id) == []
  {
    if rules != [] {
      NoneMine(rules[1..], id);
      assert [] + Without(rules[1..], id) == Without(rules[1..], id);
      if !Mine(rules[0], id) {
        var w := Without(rules, id);
        assert w[0] == rules[0] && w[1..] == Without(rules[1..], id);
      }
    }
  }

  lemma {:induction false} MineOfWithout(rules: seq<Rule>, id: int, other: int)
    requires id != other
    ensures MineOf(Without(rules, id), other) == MineOf(rules, other)
  {
    if rules != [] {
      MineOfWithout(rules[1..], id, other);
      assert [] + Without(rules[1..], id) == Without(rules[1..], id) && [] + MineOf(rules[1..], other) == MineOf(rules[1..], other);
      if !Mine(rules[0], id) {
        var w := Without(rules, id);
        assert w[0] == rules[0] && w[1..] == Without(rules[1..], id);
      }
    }
  }

  lemma {:induction false} RemoveFirstMine(rules: seq<Rule>, x: Rule, id: int)
    requires Mine(x, id)
    ensures Without(RemoveFirst(rules, x), id) == Without(rules, id)
    ensures MineOf(rules, id) != [] && MineOf(rules, id)[0] == x ==>
              MineOf(RemoveFirst(rules, x), id) == MineOf(rules, id)[1..]
  {
    if rules != [] && rules[0] != x {
      RemoveFirstMine(rules[1..], x, id);
      var w := RemoveFirst(rules, x);
      assert w[0] == rules[0] && w[1..] == RemoveFirst(rules[1..], x);
    }
  }

  lemma {:induction false} DeleteListedClears(e: Env, v: View, id: int, listing: seq<Rule>)
    requires NoFails(e) && MineOf(v.shared.rules, id) == MineOf(listing, id)
    ensures DeleteListed(e, v, id, listing).r == Ok ==>
              DeleteListed(e, v, id, listing).v.shared.rules == Without(v.shared.rules, id)
    decreases |listing|
  {
    if listing == [] {
      NoneMine(v.shared.rules, id);
    } else if Mine(listing[0], id) {
      RemoveFirstMine(v.shared.rules, listing[0], id);
      assert MineOf(listing, id)[0] == listing[0] && MineOf(listing, id)[1..] == MineOf(listing[1..], id);
      var t := SetShared(e, v, v.shared.(rules := RemoveFirst(v.shared.rules, listing[0])));
      if t.r == Ok {
        DeleteListedClears(e, t.v, id, listing[1..]);
      }
    } else {
      assert [] + MineOf(listing[1..], id) == MineOf(listing[1..], id);
      DeleteListedClears(e, v, id, listing[1..]);
    }
  }

  /** Whatever fails, nobody else's rules are touched. */
  lemma {:induction false} DeleteListedSparesOthers(e: Env, v: View, id: int, listing: seq<Rule>)
    ensures Without(DeleteListed(e, v, id, listing).v.shared.rules, id) == Without(v.shared.rules, id)
    decreases |listing|
  {
    if listing != [] {
      if Mine(listing[0], id) {
        RemoveFirstMine(v.shared.rules, listing[0], id);
        DeleteListedSparesOthers(e, SetShared(e, v, v.shared.(rules := RemoveFirst(v.shared.rules, listing[0]))).v, id, listing[1..]);
      } else {
        DeleteListedSparesOthers(e, v, id, listing[1..]);
      }
    }
  }

  lemma SyncSparesOthers(e: Env, v: View, id: int, f: Forward)
    ensures Without(RemoveForwardRules(e, v, id).v.shared.rules, id) == Without(v.shared.rules, id)
    ensures Without(SyncForwardRules(e, v, id, f).v.shared.rules, id) == Without(v.shared.rules, id)
  {
    var t := Cmd(e, v, v);
    DeleteListedSparesOthers(e, t.v, id, t.v.shared.rules);
    InsertSparesOthers(e, RemoveForwardRules(e, v, id).v, id, Accepts(id, f));
  }

  lemma {:induction false} InsertSparesOthers(e: Env, v: View, id: int, rules: seq<Rule>)
    requires forall r :: r in rules ==> Mine(r, id)
    ensures Without(InsertRules(e, v, rules).v.shared.rules, id) == Without(v.shared.rules, id)
    decreases |rules|
  {
    if rules != [] {
      var t := SetShared(e, v, v.shared.(rules := [rules[0]] + v.shared.rules));
      assert rules[0] in rules && ([rules[0]] + v.shared.rules)[1..] == v.shared.rules;
      InsertSparesOthers(e, t.v, id, rules[1..]);
    }
  }

  lemma SyncReaches(e: Env, v: View, id: int, f: Forward)
    requires NoFails(e) && e.iptables
    ensures RemoveForwardRules(e, v, id).r == Ok ==> RemoveForwardRules(e, v, id).v.shared.rules == Without(v.shared.rules, id)
    ensures SyncForwardRules(e, v, id, f).r == Ok ==> MineOf(SyncForwardRules(e, v, id, f).v.shared.rules, id) == WantedRules(id, f)
  {
    var t := Cmd(e, v, v);
    DeleteListedClears(e, t.v, id, t.v.shared.rules);
    NoneMine(v.shared.rules, id);
    var u := RemoveForwardRules(e, v, id);
    if f.Via? && SyncForwardRules(e, v, id, f).r == Ok {
      var a := Tagged(id, false, f.egress);
      var b := Tagged(id, true, f.egress);
      var x := SetShared(e, u.v, u.v.shared.(rules := [a] + u.v.shared.rules)).v;
      var y := SetShared(e, x, x.shared.(rules := [b] + x.shared.rules)).v;
      assert Accepts(id, f)[1..] == [b] && [b][1..] == [];
      assert InsertRules(e, u.v, Accepts(id, f)) == InsertRules(e, x, [b]);
      assert InsertRules(e, x, [b]) == InsertRules(e, y, []);
      assert y.shared.rules[1..] == x.shared.rules && x.shared.rules[1..] == u.v.shared.rules;
    }
  }

  lemma EgressReaches(e: Env, v: View, p: Spec, prev: Forward, natChanged: bool)
    requires NoFails(e)
    ensures
      var out := ApplyEgress(e, v, p, prev, natChanged);
      && out.r != Err
      && Without(out.v.shared.rules, p.id) == Without(v.shared.rules, p.id)
      && (out.r == Ok ==>
            && (prev == p.forward || !e.iptables ==> out.v.shared.rules == v.shared.rules)
            && (prev != p.forward && e.iptables ==> MineOf(out.v.shared.rules, p.id) == WantedRules(p.id, p.forward)))
  {
    var t := if natChanged then ApplyNat(e, v, p.table) else Outcome(v, Ok);
    var u := if p.forward.Via? then SetShared(e, t.v, t.v.shared.(ipForward := true)) else t;
    SyncSparesOthers(e, u.v, p.id, p.forward);
    if e.iptables {
      SyncReaches(e, u.v, p.id, p.forward);
    }
  }

  // ---- one inbound ---------------------------------------------------------------------------

  predicate RulesSettled(e: Env, v: View, id: int) {
    v.slot.entry.Some? && e.iptables ==> MineOf(v.shared.rules, id) == WantedRules(id, v.slot.entry.value.spec.forward)
  }

  /** An inbound whose link, if any, is the panel's, with its record, its key and its entry in order.
      This is what runs without failed commands keep, crashes included. */
  predicate Clean(e: Env, v: View, id: int) {
    && Orderly(e.codec, v.slot, id) && Settled(v.slot) && RulesSettled(e, v, id)
    && (v.slot.entry.Some? ==> Recorded(e.codec, v.slot, id, true))
  }

  /** The part of that which runs with failed commands keep too. */
  predicate Orderly(c: Codec, slot: Slot, id: int) {
    && Sound(c, slot, id, true) && KeyMatch(c, slot)
    && (slot.link.Some? ==> slot.link.value.ours)
    && (slot.file.Missing? || Recorded(c, slot, id, true))
  }

  /** The inbound's FORWARD rules have a record on disk: no teardown has to look for them. */
  predicate RulesRecorded(e: Env, v: View, id: int) {
    e.iptables && MineOf(v.shared.rules, id) != [] ==> Recorded(e.codec, v.slot, id, true)
  }

  function Forget(v: View): View { View(v.slot.(entry := None), v.shared) }

  /** Where Ensure(p) must end. */
  predicate Reached(e: Env, v: View, p: Spec) {
    && Clean(e, v, p.id) && v.slot.entry.Some? && v.slot.entry.value.spec == p && Live(v.slot, p)
    && (p.forward.Via? ==> v.shared.ipForward)
  }

  lemma {:induction false} AddressStepsNeverFail(e: Env, v: View, addresses: seq<string>, mtu: int)
    requires NoFails(e) && v.slot.link.Some?
    ensures RunSteps(e, v, AddressSteps(addresses) + [MtuUpStep(mtu)]).r != Err
    decreases |addresses|
  {
    var steps := AddressSteps(addresses) + [MtuUpStep(mtu)];
    if addresses == [] {
      assert steps == [MtuUpStep(mtu)] && steps[1..] == [];
    } else {
      assert steps[1..] == AddressSteps(addresses[1..]) + [MtuUpStep(mtu)];
      AddressStepsNeverFail(e, RunStep(e, v, steps[0]).v, addresses[1..], mtu);
    }
  }

  lemma CreateNeverFails(e: Env, v: View, p: Spec)
    requires NoFails(e) && v.slot.file == Text(p.conf) && v.slot.link.None? && e.codec.pubkey(p.conf).Some?
    ensures CreateLink(e, v, p).r != Err
    ensures CreateLink(e, v, p).v.shared.rules == v.shared.rules
  {
    var m := if v.shared.moduleLoaded then v else SetShared(e, v, v.shared.(moduleLoaded := true)).v;
    var steps := CreateSteps(p);
    var rest := AddressSteps(p.addresses) + [MtuUpStep(p.mtu)];
    assert steps[1..] == [SetConfStep] + rest && steps[1..][1..] == rest;
    var a := RunStep(e, m, LinkAddStep);
    assert RunSteps(e, m, steps) == if a.r != Ok then a else RunSteps(e, a.v, [SetConfStep] + rest);
    if a.r == Ok {
      var b := RunStep(e, a.v, SetConfStep);
      assert RunSteps(e, a.v, [SetConfStep] + rest) == if b.r != Ok then b else RunSteps(e, b.v, rest);
      if b.r == Ok {
        AddressStepsNeverFail(e, b.v, p.addresses, p.mtu);
      }
    }
  }

  lemma RebuildReaches(e: Env, v: View, p: Spec)
    requires NoFails(e) && Legit(e.codec, p, p.id, true) && Clean(e, v, p.id)
    ensures
      var out := Rebuild(e, v, p);
      && out.r != Err && Without(out.v.shared.rules, p.id) == Without(v.shared.rules, p.id)
      && (out.r == Ok ==> Reached(e, out.v, p))
      && (out.r == Dead ==> Clean(e, Forget(out.v), p.id))
      && (RulesRecorded(e, v, p.id) ==> RulesRecorded(e, out.v, p.id))
  {
    RebuildIsSound(e, v, p, true);
    RebuildKeepsKey(e, v, p);
    var b := ClearAndWrite(e, v, p);
    if b.r == Ok {
      CreateNeverFails(e, b.v, p);
      var c := BuildLink(e, b.v, p);
      if c.r == Ok {
        EgressReaches(e, c.v, p, if v.slot.entry.Some? then v.slot.entry.value.spec.forward else Unknown, true);
        if Rebuild(e, v, p).r == Ok {
          RebuildOkIsLive(e, v, p);
        }
      }
    }
  }

  lemma InPlaceReaches(e: Env, v: View, p: Spec)
    requires NoFails(e) && Legit(e.codec, p, p.id, true) && Lawful(e.codec) && Clean(e, v, p.id) && InPlace(e.codec, v.slot, p)
    ensures
      var out := ConvergeInPlace(e, v, p);
      && out.r != Err && Without(out.v.shared.rules, p.id) == Without(v.shared.rules, p.id)
      && (out.r == Ok ==> Reached(e, out.v, p))
      && (out.r == Dead ==> Clean(e, Forget(out.v), p.id))
      && (RulesRecorded(e, v, p.id) ==> RulesRecorded(e, out.v, p.id))
  {
    InPlaceIsSound(e, v, p, true);
    HonestIsNotStale(e.codec, v.slot, p);
    InPlaceKeepsKey(e, v, p);
    var prev := v.slot.entry.value.spec;
    var t := if prev.conf != p.conf then WriteAndLoad(e, v, p.conf) else Outcome(v, Ok);
    EgressReaches(e, t.v, p, prev.forward, prev.table != p.table);
  }

  lemma AdoptReaches(e: Env, v: View, p: Spec)
    requires NoFails(e) && Legit(e.codec, p, p.id, true) && Lawful(e.codec) && Clean(e, v, p.id) && Adoptable(e.codec, v.slot, p)
    ensures
      var out := Adopt(e, v, p);
      && out.r != Err && Without(out.v.shared.rules, p.id) == Without(v.shared.rules, p.id)
      && (out.r == Ok ==> Reached(e, Manage(out.v, p, true), p))
      && (out.r == Dead ==> Clean(e, Forget(out.v), p.id))
      && (RulesRecorded(e, v, p.id) ==> RulesRecorded(e, out.v, p.id))
  {
    assert e.codec.pubkey(v.slot.file.text) == e.codec.pubkey(p.conf);
    AdoptIsSound(e, v, p, true);
    AdoptKeepsKey(e, v, p);
    EgressReaches(e, WriteAndLoad(e, v, p.conf).v, p, Unknown, true);
  }

  /** Unless the process dies, Ensure succeeds and ends at p; if it dies, what it leaves is clean for
      the next process. Other inbounds' rules are not touched. */
  lemma EnsureReaches(e: Env, v: View, p: Spec)
    requires NoFails(e) && Legit(e.codec, p, p.id, true) && Lawful(e.codec) && Clean(e, v, p.id)
    ensures
      var out := Ensure(e, v, p);
      && out.r != Err && Without(out.v.shared.rules, p.id) == Without(v.shared.rules, p.id)
      && (out.r == Ok ==> Reached(e, out.v, p))
      && (out.r == Dead ==> Clean(e, Forget(out.v), p.id))
      && (RulesRecorded(e, v, p.id) ==> RulesRecorded(e, out.v, p.id))
  {
    var u := if v.slot.link.Some? && v.slot.entry.None? then VerifyLive(e, v, v.slot.file.text).v else v;
    if InPlace(e.codec, u.slot, p) {
      InPlaceReaches(e, u, p);
    } else if Adoptable(e.codec, u.slot, p) {
      AdoptReaches(e, u, p);
    } else {
      RebuildReaches(e, u, p);
    }
  }

  lemma ClearReaches(e: Env, v: View, id: int, found: bool)
    requires NoFails(e) && v.slot.link.None?
    ensures
      var out := Clear(e, v, id, found);
      && out.r != Err && Without(out.v.shared.rules, id) == Without(v.shared.rules, id)
      && (out.r == Ok ==> out.v.slot == Slot(if found then Missing else v.slot.file, None, NoTable, None))
      && (out.r == Ok && e.iptables ==> MineOf(out.v.shared.rules, id) == [])
      && (e.iptables ==> out.v.slot.file == v.slot.file || MineOf(out.v.shared.rules, id) == [])
  {
    var b := ApplyNat(e, v, NoTable);
    SyncSparesOthers(e, b.v, id, NoEgress);
    NoneMine(b.v.shared.rules, id);
    if e.iptables {
      SyncReaches(e, b.v, id, NoEgress);
    }
  }

  lemma StopReaches(e: Env, v: View, id: int)
    requires NoFails(e) && Clean(e, v, id)
    ensures
      var a := StopLink(e, v, ReadOwned(e.codec, v.slot.file, id));
      && a.r != Err && a.v.shared == v.shared.(tick := a.v.shared.tick) && Clean(e, a.v, id)
  {
  }

  lemma TeardownReaches(e: Env, v: View, id: int)
    requires NoFails(e) && Clean(e, v, id)
    ensures
      var out := Teardown(e, v, id);
      && out.r != Err && Without(out.v.shared.rules, id) == Without(v.shared.rules, id)
      && (out.r == Ok ==> out.v.slot == EMPTY_SLOT)
      && (out.r == Ok && e.iptables ==>
            MineOf(out.v.shared.rules, id) == if Recorded(e.codec, v.slot, id, true) then [] else MineOf(v.shared.rules, id))
      && (out.r == Dead ==> Clean(e, Forget(out.v), id))
  {
    TeardownIsSound(e, v, id, true);
    TeardownKeepsKey(e, v, id);
    StopReaches(e, v, id);
    var a := StopLink(e, v, ReadOwned(e.codec, v.slot.file, id));
    if a.r == Ok {
      ClearReaches(e, a.v, id, v.slot.file.Text?);
    }
  }

  /** The rules go before the config. */
  lemma TeardownRecords(e: Env, v: View, id: int)
    requires NoFails(e) && Clean(e, v, id)
    ensures RulesRecorded(e, v, id) ==> RulesRecorded(e, Teardown(e, v, id).v, id)
  {
    StopReaches(e, v, id);
    var a := StopLink(e, v, ReadOwned(e.codec, v.slot.file, id));
    if a.r == Ok {
      ClearReaches(e, a.v, id, v.slot.file.Text?);
    }
  }

  // ---- a second pass changes nothing ---------------------------------------------------------

  predicate SameButTick(a: View, b: View) { a.slot == b.slot && a.shared == b.shared.(tick := a.shared.tick) }

  /** Ensure on an inbound that is already there issues no command that changes anything. */
  lemma EnsureIsIdempotent(e: Env, v: View, p: Spec)
    requires Legit(e.codec, p, p.id, true) && Reached(e, v, p)
    ensures SameButTick(Ensure(e, v, p).v, v)
  {
    assert InPlace(e.codec, v.slot, p) && v.slot.entry.value.(spec := p) == v.slot.entry.value;
  }

  // ---- the stale-entry path is real ----------------------------------------------------------

  /** The first four commands of a rebuild work; everything after them fails without effect. */
  function BreaksAfterKey(v: View): int -> Fate {
    n => if n < v.shared.tick + 4 then Works else Fails(false)
  }

  lemma RebuildBreaks(e: Env, v: View, q: Spec)
    requires v.slot.link.Some? && v.shared.moduleLoaded && e.codec.pubkey(q.conf).Some? && e.fate == BreaksAfterKey(v)
    ensures Rebuild(e, v, q).r == Err
    ensures Rebuild(e, v, q).v.slot == v.slot.(file := Text(q.conf), link := Some(Link(Some(q.conf), {}, e.freshMtu, false, true)))
  {
    var b := ClearAndWrite(e, v, q);
    assert b.r == Ok && b.v.shared.tick == v.shared.tick + 2 && b.v.slot == v.slot.(file := Text(q.conf), link := None);
    var steps := CreateSteps(q);
    var rest := AddressSteps(q.addresses) + [MtuUpStep(q.mtu)];
    assert steps[1..] == [SetConfStep] + rest && steps[1..][1..] == rest;
    var l := RunStep(e, b.v, LinkAddStep);
    var k := RunStep(e, l.v, SetConfStep);
    assert l.r == Ok && k.r == Ok && k.v.shared.tick == v.shared.tick + 4;
    assert RunSteps(e, b.v, steps) == RunSteps(e, l.v, [SetConfStep] + rest);
    assert RunSteps(e, l.v, [SetConfStep] + rest) == RunSteps(e, k.v, rest);
    var last := RunStep(e, k.v, rest[0]);
    assert last.r == Err && last.v.slot == k.v.slot;
    assert RunSteps(e, k.v, rest) == last;
    assert CreateLink(e, b.v, q) == last;
    assert BuildLink(e, b.v, q).r == Err && BuildLink(e, b.v, q).v.slot == k.v.slot;
  }

  /** From a perfectly settled inbound, an Ensure for another key that breaks once the new key is
      loaded leaves the old entry over the new link: going back to the old structure is then stale. */
  lemma StaleEntryIsReachable(e: Env, v: View, p: Spec, q: Spec, back: Spec)
    requires Lawful(e.codec) && Reached(e, v, p) && v.shared.moduleLoaded
    requires Legit(e.codec, q, p.id, true) && e.codec.pubkey(q.conf) != e.codec.pubkey(back.conf)
    requires back.id == p.id && SameStructure(e.codec, p, back) && back.conf != p.conf && !SameStructure(e.codec, p, q)
    ensures
      var t := Ensure(e.(fate := BreaksAfterKey(v)), v, q);
      t.r == Err && StaleGuard(e.codec, t.v.slot, back)
  {
    var f := e.(fate := BreaksAfterKey(v));
    RebuildBreaks(f, v, q);
    assert Ensure(f, v, q) == Rebuild(f, v, q);
  }
}
