/** What survives every fault script: the write-ahead ownership record, the key match that lets a
    fresh manager prove a leftover link is its own, and what a nil error from Ensure means. */
module KernelSafety {
  import opened Options
  import opened KernelWorld

  /** The panel's own config for id is on disk; if `keyed`, with a private key a public key derives from. */
  predicate Recorded(c: Codec, slot: Slot, id: int, keyed: bool) {
    slot.file.Text? && c.owned(slot.file.text, id) && (keyed ==> c.pubkey(slot.file.text).Some?)
  }

  /** A spec as buildSpec makes them (OwnedConfigSections.RenderedSpecIsLegit); buildSpec lets private keys
      through that no public key derives from. */
  predicate Legit(c: Codec, p: Spec, id: int, keyed: bool) {
    p.id == id && id > 0 && c.owned(p.conf, id) && p.forward != Unknown && (keyed ==> c.pubkey(p.conf).Some?)
  }

  /** Write-ahead: a link or table of ours, and any link under management, has an owned config. */
  predicate Wal(c: Codec, slot: Slot, id: int, keyed: bool) {
    (slot.link.Some? && (slot.link.value.ours || slot.entry.Some?)) || slot.table != NoTable ==> Recorded(c, slot, id, keyed)
  }

  predicate EntryLegit(c: Codec, slot: Slot, id: int, keyed: bool) {
    slot.entry.Some? ==> Legit(c, slot.entry.value.spec, id, keyed)
  }

  predicate Keyed(slot: Slot) { slot.link.Some? && slot.link.value.ours && slot.link.value.conf.Some? }

  /** A link of ours is keyless or carries exactly the key of the config on disk. */
  predicate KeyMatch(c: Codec, slot: Slot) {
    Keyed(slot) && slot.file.Text? ==> c.pubkey(slot.link.value.conf.value) == c.pubkey(slot.file.text)
  }

  /** The managed entry still describes the link's key. */
  predicate Honest(c: Codec, slot: Slot) {
    Keyed(slot) && slot.entry.Some? ==>
      c.pubkey(slot.link.value.conf.value) == c.pubkey(slot.entry.value.spec.conf)
  }

  predicate Sound(c: Codec, slot: Slot, id: int, keyed: bool) { Wal(c, slot, id, keyed) && EntryLegit(c, slot, id, keyed) }

  // ---- the write-ahead record ----------------------------------------------------------------

  lemma RebuildIsSound(e: Env, v: View, p: Spec, keyed: bool)
    requires Legit(e.codec, p, p.id, keyed) && Sound(e.codec, v.slot, p.id, keyed)
    ensures Sound(e.codec, Rebuild(e, v, p).v.slot, p.id, keyed)
  {
  }

  lemma AdoptIsSound(e: Env, v: View, p: Spec, keyed: bool)
    requires Legit(e.codec, p, p.id, keyed) && Sound(e.codec, v.slot, p.id, keyed)
    ensures Sound(e.codec, Adopt(e, v, p).v.slot, p.id, keyed)
  {
  }

  lemma InPlaceIsSound(e: Env, v: View, p: Spec, keyed: bool)
    requires InPlace(e.codec, v.slot, p)
    requires Legit(e.codec, p, p.id, keyed) && Sound(e.codec, v.slot, p.id, keyed)
    ensures Sound(e.codec, ConvergeInPlace(e, v, p).v.slot, p.id, keyed)
  {
  }

  lemma ConvergeIsSound(e: Env, v: View, p: Spec, keyed: bool)
    requires Legit(e.codec, p, p.id, keyed) && Sound(e.codec, v.slot, p.id, keyed)
    ensures Sound(e.codec, Converge(e, v, p).v.slot, p.id, keyed)
  {
    if InPlace(e.codec, v.slot, p) {
      InPlaceIsSound(e, v, p, keyed);
    } else if Adoptable(e.codec, v.slot, p) {
      AdoptIsSound(e, v, p, keyed);
      RebuildIsSound(e, Adopt(e, v, p).v, p, keyed);
    } else {
      RebuildIsSound(e, v, p, keyed);
    }
  }

  /** Every crash point and every failure of Ensure leaves the ownership record in place. */
  lemma EnsureIsSound(e: Env, v: View, p: Spec, keyed: bool)
    requires Legit(e.codec, p, p.id, keyed) && Sound(e.codec, v.slot, p.id, keyed)
    ensures Sound(e.codec, Ensure(e, v, p).v.slot, p.id, keyed)
  {
    var owned := ReadOwned(e.codec, v.slot.file, p.id);
    if owned.Found? {
      ConvergeIsSound(e, VerifyLive(e, v, owned.conf).v, p, keyed);
    }
    ConvergeIsSound(e, v, p, keyed);
  }

  lemma TeardownIsSound(e: Env, v: View, id: int, keyed: bool)
    requires Sound(e.codec, v.slot, id, keyed)
    ensures Sound(e.codec, Teardown(e, v, id).v.slot, id, keyed)
  {
    var a := StopLink(e, v, ReadOwned(e.codec, v.slot.file, id));
    assert Sound(e.codec, a.v.slot, id, keyed);
    if a.r == Ok {
      var b := ApplyNat(e, a.v, NoTable);
      assert b.r == Ok ==> b.v.slot == a.v.slot.(table := NoTable);
    }
  }

  // ---- the key match -------------------------------------------------------------------------

  /** The stale-entry path, as a caller can see it before the call: the entry's structure equals the
      wanted one, but the link underneath was keyed from some other spec. */
  predicate StaleGuard(c: Codec, slot: Slot, p: Spec) {
    InPlace(c, slot, p) && slot.entry.value.spec.conf != p.conf && Keyed(slot) &&
    c.pubkey(slot.link.value.conf.value) != c.pubkey(p.conf)
  }

  lemma RebuildKeepsKey(e: Env, v: View, p: Spec)
    requires KeyMatch(e.codec, v.slot)
    ensures KeyMatch(e.codec, Rebuild(e, v, p).v.slot)
  {
  }

  lemma AdoptKeepsKey(e: Env, v: View, p: Spec)
    requires v.slot.file.Text? && KeyMatch(e.codec, v.slot) && e.codec.pubkey(v.slot.file.text) == e.codec.pubkey(p.conf)
    ensures KeyMatch(e.codec, Adopt(e, v, p).v.slot)
  {
  }

  lemma InPlaceKeepsKey(e: Env, v: View, p: Spec)
    requires InPlace(e.codec, v.slot, p) && KeyMatch(e.codec, v.slot) && !StaleGuard(e.codec, v.slot, p)
    ensures KeyMatch(e.codec, ConvergeInPlace(e, v, p).v.slot)
  {
  }

  lemma ConvergeKeepsKey(e: Env, v: View, p: Spec)
    requires Lawful(e.codec) && Legit(e.codec, p, p.id, false) && KeyMatch(e.codec, v.slot) && !StaleGuard(e.codec, v.slot, p)
    requires v.slot.link.Some? && v.slot.entry.None? ==> ReadOwned(e.codec, v.slot.file, p.id).Found?
    ensures KeyMatch(e.codec, Converge(e, v, p).v.slot)
  {
    if InPlace(e.codec, v.slot, p) {
      InPlaceKeepsKey(e, v, p);
    } else if Adoptable(e.codec, v.slot, p) {
      AdoptKeepsKey(e, v, p);
      RebuildKeepsKey(e, Adopt(e, v, p).v, p);
    } else {
      RebuildKeepsKey(e, v, p);
    }
  }

  lemma EnsureKeepsKey(e: Env, v: View, p: Spec)
    requires Lawful(e.codec) && Legit(e.codec, p, p.id, false) && KeyMatch(e.codec, v.slot)
    requires !StaleGuard(e.codec, v.slot, p)
    ensures KeyMatch(e.codec, Ensure(e, v, p).v.slot)
  {
    var owned := ReadOwned(e.codec, v.slot.file, p.id);
    if v.slot.link.Some? && v.slot.entry.None? {
      if owned.Found? {
        ConvergeKeepsKey(e, VerifyLive(e, v, owned.conf).v, p);
      }
    } else {
      ConvergeKeepsKey(e, v, p);
    }
  }

  /** Some fate of the commands makes Ensure leave a link that no fresh manager can verify, exactly when the
      stale-entry guard holds before the call. */
  lemma KeyLostIffStale(e: Env, v: View, p: Spec)
    requires Lawful(e.codec) && Legit(e.codec, p, p.id, false) && KeyMatch(e.codec, v.slot)
    ensures (exists fate :: !KeyMatch(e.codec, Ensure(e.(fate := fate), v, p).v.slot))
        <==> StaleGuard(e.codec, v.slot, p) && !ReadOwned(e.codec, v.slot.file, p.id).Refuse?
  {
    if StaleGuard(e.codec, v.slot, p) && !ReadOwned(e.codec, v.slot.file, p.id).Refuse? {
      var fate := (n: int) => Dies(true);
      assert !KeyMatch(e.codec, Ensure(e.(fate := fate), v, p).v.slot);
    } else if !StaleGuard(e.codec, v.slot, p) {
      forall fate ensures KeyMatch(e.codec, Ensure(e.(fate := fate), v, p).v.slot) {
        EnsureKeepsKey(e.(fate := fate), v, p);
      }
    }
  }

  lemma HonestIsNotStale(c: Codec, slot: Slot, p: Spec)
    requires Lawful(c) && Legit(c, p, p.id, false) && EntryLegit(c, slot, p.id, false) && Honest(c, slot)
    ensures !StaleGuard(c, slot, p)
  {
    if InPlace(c, slot, p) {
      assert c.pubkey(slot.entry.value.spec.conf) == c.pubkey(p.conf);
    }
  }

  lemma RebuildKeepsHonesty(e: Env, v: View, p: Spec)
    requires Honest(e.codec, v.slot)
    ensures
      var t := Rebuild(e, v, p);
      t.r == Ok || v.slot.entry.None? || t.v.slot.link.None? ==> Honest(e.codec, t.v.slot)
  {
    if Rebuild(e, v, p).r == Ok {
      RebuildOkIsLive(e, v, p);
    }
  }

  lemma InPlaceKeepsHonesty(e: Env, v: View, p: Spec)
    requires InPlace(e.codec, v.slot, p) && Honest(e.codec, v.slot)
    requires e.codec.pubkey(v.slot.entry.value.spec.conf) == e.codec.pubkey(p.conf)
    ensures Honest(e.codec, ConvergeInPlace(e, v, p).v.slot)
  {
  }

  lemma ConvergeKeepsHonesty(e: Env, v: View, p: Spec)
    requires Lawful(e.codec) && Legit(e.codec, p, p.id, false) && EntryLegit(e.codec, v.slot, p.id, false) && Honest(e.codec, v.slot)
    ensures
      var t := Converge(e, v, p);
      t.r == Ok || v.slot.entry.None? || InPlace(e.codec, v.slot, p) || t.v.slot.link.None? ==> Honest(e.codec, t.v.slot)
  {
    if InPlace(e.codec, v.slot, p) {
      InPlaceKeepsHonesty(e, v, p);
    } else if Adoptable(e.codec, v.slot, p) {
      RebuildKeepsHonesty(e, Adopt(e, v, p).v, p);
    } else {
      RebuildKeepsHonesty(e, v, p);
    }
  }

  /** Ensure can only spoil an honest entry by failing to rebuild a managed link of another structure
      while a link is left behind. */
  lemma EnsureKeepsHonesty(e: Env, v: View, p: Spec)
    requires Lawful(e.codec) && Legit(e.codec, p, p.id, false) && EntryLegit(e.codec, v.slot, p.id, false) && Honest(e.codec, v.slot)
    ensures
      var t := Ensure(e, v, p);
      t.r == Ok || v.slot.entry.None? || InPlace(e.codec, v.slot, p) || t.v.slot.link.None? ==> Honest(e.codec, t.v.slot)
  {
    var owned := ReadOwned(e.codec, v.slot.file, p.id);
    if owned.Found? && v.slot.entry.None? && v.slot.link.Some? {
      ConvergeKeepsHonesty(e, VerifyLive(e, v, owned.conf).v, p);
    } else {
      ConvergeKeepsHonesty(e, v, p);
    }
  }

  lemma TeardownKeepsKey(e: Env, v: View, id: int)
    requires KeyMatch(e.codec, v.slot)
    ensures KeyMatch(e.codec, Teardown(e, v, id).v.slot)
    ensures Honest(e.codec, v.slot) ==> Honest(e.codec, Teardown(e, v, id).v.slot)
  {
  }

  // ---- clearing a leftover -------------------------------------------------------------------

  /** A fresh process finds a link of the panel's: it can delete it exactly when a public key derives from the
      private key of the config on disk. */
  lemma LeftoverClearableIff(e: Env, v: View, id: int)
    requires Calm(e) && v.slot.entry.None? && v.slot.link.Some? && v.slot.link.value.ours
    requires Recorded(e.codec, v.slot, id, false) && KeyMatch(e.codec, v.slot)
    ensures Teardown(e, v, id).v.slot.link.None? <==> Recorded(e.codec, v.slot, id, true)
  {
    var a := StopLink(e, v, Found(v.slot.file.text));
    assert Recorded(e.codec, v.slot, id, true) ==> a.r == Ok && a.v.slot.link.None?;
  }

  /** Otherwise nothing any later call does, whatever the fate of its commands, changes anything. */
  lemma UnclearableStays(e: Env, v: View, id: int, p: Spec)
    requires v.slot.entry.None? && v.slot.link.Some? && Recorded(e.codec, v.slot, id, false) && !Recorded(e.codec, v.slot, id, true)
    requires p.id == id
    ensures Teardown(e, v, id) == Outcome(v, Err) && Ensure(e, v, p) == Outcome(v, Err)
  {
  }

  /** The first two commands work; everything after them fails without effect. */
  function BreaksBeforeKey(v: View): int -> Fate {
    n => if n < v.shared.tick + 2 then Works else Fails(false)
  }

  /** It happens: the first Ensure of an inbound whose private key no public key derives from fails at setconf,
      and then fails to remove the link again. */
  lemma UnclearableIsReachable(e: Env, v: View, p: Spec)
    requires Legit(e.codec, p, p.id, false) && e.codec.pubkey(p.conf).None? && v.slot == EMPTY_SLOT && v.shared.moduleLoaded
    ensures
      var t := Ensure(e.(fate := BreaksBeforeKey(v)), v, p);
      && t.r == Err && t.v.slot == Slot(Text(p.conf), Some(Link(None, {}, e.freshMtu, false, true)), NoTable, None)
      && Recorded(e.codec, t.v.slot, p.id, false) && !Recorded(e.codec, t.v.slot, p.id, true)
  {
    var f := e.(fate := BreaksBeforeKey(v));
    var b := ClearAndWrite(f, v, p);
    var steps := CreateSteps(p);
    var rest := AddressSteps(p.addresses) + [MtuUpStep(p.mtu)];
    assert steps[1..] == [SetConfStep] + rest && ([SetConfStep] + rest)[0] == SetConfStep;
    var l := RunStep(f, b.v, LinkAddStep);
    assert b.r == Ok && l.r == Ok && l.v.shared.tick == v.shared.tick + 2;
    var k := RunStep(f, l.v, SetConfStep);
    assert RunSteps(f, b.v, steps) == RunSteps(f, l.v, [SetConfStep] + rest) == k;
    assert Rebuild(f, v, p) == BuildLink(f, b.v, p);
  }

  // ---- what a nil error means ----------------------------------------------------------------

  /** The link, its config, addresses and MTU, and the NAT table are exactly what p asks for. */
  predicate Live(slot: Slot, p: Spec) {
    && slot.file == Text(p.conf) && slot.table == p.table
    && slot.link.Some? && slot.link.value.conf == Some(p.conf)
    && slot.link.value.mtu == p.mtu && AsSet(p.addresses) <= slot.link.value.addrs
  }

  predicate Settled(slot: Slot) { slot.entry.Some? && slot.link.Some? ==> Live(slot, slot.entry.value.spec) }

  /** What the in-place branch takes on trust: the parts of p it does not rewrite are already there. */
  predicate Trusted(slot: Slot, p: Spec)
    requires slot.entry.Some? && slot.link.Some?
  {
    var prev := slot.entry.value.spec;
    && (prev.conf == p.conf ==> slot.file == Text(p.conf) && slot.link.value.conf == Some(p.conf))
    && (prev.table == p.table ==> slot.table == p.table)
    && slot.link.value.mtu == p.mtu && AsSet(p.addresses) <= slot.link.value.addrs
  }

  lemma AddressStepsOk(e: Env, v: View, addresses: seq<string>, mtu: int)
    requires v.slot.link.Some? && RunSteps(e, v, AddressSteps(addresses) + [MtuUpStep(mtu)]).r == Ok
    ensures RunSteps(e, v, AddressSteps(addresses) + [MtuUpStep(mtu)]).v.slot.link ==
      Some(v.slot.link.value.(addrs := v.slot.link.value.addrs + AsSet(addresses), mtu := mtu, up := true))
    decreases |addresses|
  {
    var steps := AddressSteps(addresses) + [MtuUpStep(mtu)];
    if addresses == [] {
      assert steps == [MtuUpStep(mtu)] && steps[1..] == [];
      assert RunSteps(e, v, steps) == LinkUp(e, v, mtu);
      assert v.slot.link.value.addrs + AsSet(addresses) == v.slot.link.value.addrs;
    } else {
      assert v.slot.link.value.addrs + AsSet(addresses) == v.slot.link.value.addrs + {addresses[0]} + AsSet(addresses[1..]);
      assert steps[1..] == AddressSteps(addresses[1..]) + [MtuUpStep(mtu)];
      AddressStepsOk(e, RunStep(e, v, steps[0]).v, addresses[1..], mtu);
    }
  }

  lemma CreateOk(e: Env, v: View, p: Spec)
    requires v.slot.file == Text(p.conf) && v.slot.link.None? && CreateLink(e, v, p).r == Ok
    ensures CreateLink(e, v, p).v.slot.link == Some(Link(Some(p.conf), AsSet(p.addresses), p.mtu, true, true))
  {
    var m := if v.shared.moduleLoaded then v else SetShared(e, v, v.shared.(moduleLoaded := true)).v;
    var steps := CreateSteps(p);
    var a := RunStep(e, m, steps[0]).v;
    var rest := AddressSteps(p.addresses) + [MtuUpStep(p.mtu)];
    assert steps[1..] == [SetConfStep] + rest && steps[1..][1..] == rest;
    assert RunSteps(e, m, steps) == RunSteps(e, a, steps[1..]);
    var b := RunStep(e, a, SetConfStep).v;
    assert RunSteps(e, a, steps[1..]) == RunSteps(e, b, rest);
    AddressStepsOk(e, b, p.addresses, p.mtu);
    assert {} + AsSet(p.addresses) == AsSet(p.addresses);
  }

  lemma RebuildOkIsLive(e: Env, v: View, p: Spec)
    requires Rebuild(e, v, p).r == Ok
    ensures Live(Rebuild(e, v, p).v.slot, p) && Rebuild(e, v, p).v.slot.link.value.up
    ensures Rebuild(e, v, p).v.slot.entry.Some? && Rebuild(e, v, p).v.slot.entry.value.spec == p
  {
    CreateOk(e, ClearAndWrite(e, v, p).v, p);
  }

  /** When Ensure returns nil, host and spec agree if and only if the call did not go in place on
      top of something the previous entry no longer described. */
  lemma EnsureOkIsLive(e: Env, v: View, p: Spec)
    requires Ensure(e, v, p).r == Ok
    ensures var t := Ensure(e, v, p).v.slot;
      && t.entry.Some? && t.entry.value.spec == p
      && (Live(t, p) <==> !InPlace(e.codec, v.slot, p) || Trusted(v.slot, p))
  {
    var owned := ReadOwned(e.codec, v.slot.file, p.id);
    var u := if owned.Found? && v.slot.entry.None? && v.slot.link.Some? then VerifyLive(e, v, owned.conf).v else v;
    if !InPlace(e.codec, u.slot, p) {
      var w := if Adoptable(e.codec, u.slot, p) then Adopt(e, u, p) else Outcome(u, Err);
      if w.r != Ok {
        RebuildOkIsLive(e, w.v, p);
      }
    }
  }

  /** Whoever starts from settled entries gets the full agreement back. */
  lemma SettledStaysLive(e: Env, v: View, p: Spec)
    requires Settled(v.slot) && Ensure(e, v, p).r == Ok
    ensures Settled(Ensure(e, v, p).v.slot) && Live(Ensure(e, v, p).v.slot, p)
  {
    EnsureOkIsLive(e, v, p);
  }

  /** linkMatches never looks at the link's administrative state: an adopted link (its traffic baseline still
      pending) or a reconfigured one is up afterwards exactly when it was up before, a rebuilt one always is. */
  lemma EnsureOkIsUpIff(e: Env, v: View, p: Spec)
    requires Ensure(e, v, p).r == Ok
    ensures var t := Ensure(e, v, p).v.slot;
      t.link.Some? && t.entry.Some? &&
      (InPlace(e.codec, v.slot, p) || t.entry.value.pending ==> v.slot.link.Some?) &&
      (t.link.value.up <==> (InPlace(e.codec, v.slot, p) || t.entry.value.pending ==> v.slot.link.value.up))
  {
    var owned := ReadOwned(e.codec, v.slot.file, p.id);
    var u := if owned.Found? && v.slot.entry.None? && v.slot.link.Some? then VerifyLive(e, v, owned.conf).v else v;
    assert u.slot == v.slot && Ensure(e, v, p) == Converge(e, u, p);
    if !InPlace(e.codec, u.slot, p) {
      var w := if Adoptable(e.codec, u.slot, p) then Adopt(e, u, p) else Outcome(u, Err);
      if w.r != Ok {
        RebuildOkIsLive(e, w.v, p);
      }
    }
  }
}
