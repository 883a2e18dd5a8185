/** Runs in which commands fail: what they leave is in order for the next process, FORWARD rules apart, so
    that a restart and one undisturbed Reconcile converge. */
module KernelRestart {
  import opened Options
  import opened KernelWorld
  import opened KernelSafety
  import opened KernelConverge
  import opened KernelRuns
  import opened KernelReconcile

  // ---- one inbound ---------------------------------------------------------------------------

  /** Links are the panel's, and so is every config. */
  predicate Formed(c: Codec, slot: Slot, id: int) {
    && (slot.link.Some? ==> slot.link.value.ours)
    && (slot.file.Missing? || Recorded(c, slot, id, true))
  }

  lemma RebuildIsFormed(e: Env, v: View, p: Spec)
    requires Legit(e.codec, p, p.id, true) && Formed(e.codec, v.slot, p.id)
    ensures Formed(e.codec, Rebuild(e, v, p).v.slot, p.id)
  {
  }

  lemma OthersAreFormed(e: Env, v: View, p: Spec)
    requires Legit(e.codec, p, p.id, true) && Formed(e.codec, v.slot, p.id)
    ensures v.slot.link.Some? ==> Formed(e.codec, Adopt(e, v, p).v.slot, p.id)
    ensures v.slot.entry.Some? && v.slot.link.Some? ==> Formed(e.codec, ConvergeInPlace(e, v, p).v.slot, p.id)
  {
  }

  lemma ConvergeIsFormed(e: Env, v: View, p: Spec)
    requires Legit(e.codec, p, p.id, true) && Formed(e.codec, v.slot, p.id)
    ensures Formed(e.codec, Converge(e, v, p).v.slot, p.id)
  {
    OthersAreFormed(e, v, p);
    if Adoptable(e.codec, v.slot, p) {
      RebuildIsFormed(e, Adopt(e, v, p).v, p);
    }
    RebuildIsFormed(e, v, p);
  }

  /** Off the stale-entry path, an Ensure leaves the inbound in order whatever fails. */
  lemma EnsureIsOrderly(e: Env, v: View, p: Spec)
    requires Lawful(e.codec) && Legit(e.codec, p, p.id, true) && Orderly(e.codec, v.slot, p.id)
    requires !StaleGuard(e.codec, v.slot, p)
    ensures Orderly(e.codec, Ensure(e, v, p).v.slot, p.id)
  {
    EnsureIsSound(e, v, p, true);
    EnsureKeepsKey(e, v, p);
    var owned := ReadOwned(e.codec, v.slot.file, p.id);
    if v.slot.link.Some? && v.slot.entry.None? && owned.Found? {
      ConvergeIsFormed(e, VerifyLive(e, v, owned.conf).v, p);
    } else {
      ConvergeIsFormed(e, v, p);
    }
  }

  lemma TeardownIsFormed(e: Env, v: View, id: int)
    requires Formed(e.codec, v.slot, id)
    ensures Formed(e.codec, Teardown(e, v, id).v.slot, id)
  {
    var a := StopLink(e, v, ReadOwned(e.codec, v.slot.file, id));
    if a.r == Ok {
      var b := ApplyNat(e, a.v, NoTable);
      var c := RemoveForwardRules(e, b.v, id);
    }
  }

  lemma TeardownIsOrderly(e: Env, v: View, id: int)
    requires Orderly(e.codec, v.slot, id)
    ensures Orderly(e.codec, Teardown(e, v, id).v.slot, id)
  {
    TeardownIsSound(e, v, id, true);
    TeardownKeepsKey(e, v, id);
    TeardownIsFormed(e, v, id);
  }

  // ---- all inbounds --------------------------------------------------------------------------

  predicate OrderlyAt(e: Env, w: World, id: int) {
    (Orderly(e.codec, At(w, id), id) || Foreignly(e, At(w, id), id)) && (id <= 0 ==> At(w, id) == EMPTY_SLOT)
  }

  ghost predicate AllOrderly(e: Env, w: World) { forall id :: OrderlyAt(e, w, id) }

  lemma PutIsOrderly(e: Env, w: World, id: int, v: View)
    requires AllOrderly(e, w) && OrderlyAt(e, Put(w, id, v), id)
    ensures AllOrderly(e, Put(w, id, v))
  {
    forall j ensures OrderlyAt(e, Put(w, id, v), j) { assert OrderlyAt(e, w, j); }
  }

  lemma EnsureAtIsOrderly(e: Env, w: World, d: Desired)
    requires Lawful(e.codec) && AllOrderly(e, w) && LegitDesired(e.codec, d, true) && StaleFree(e, w, d)
    ensures AllOrderly(e, EnsureAt(e, w, d).w)
  {
    if d.spec.Some? {
      assert OrderlyAt(e, w, d.id);
      var v := ViewAt(w, d.id);
      if Orderly(e.codec, At(w, d.id), d.id) {
        EnsureIsOrderly(e, v, d.spec.value);
      } else {
        assert Ensure(e, v, d.spec.value) == Outcome(v, Err);
      }
      PutIsOrderly(e, w, d.id, Ensure(e, v, d.spec.value).v);
    }
  }

  lemma TeardownAtIsOrderly(e: Env, w: World, id: int)
    requires AllOrderly(e, w)
    ensures AllOrderly(e, TeardownAt(e, w, id).w)
  {
    assert OrderlyAt(e, w, id);
    var v := ViewAt(w, id);
    if Orderly(e.codec, At(w, id), id) {
      TeardownIsOrderly(e, v, id);
    } else {
      assert Teardown(e, v, id) == Outcome(v, Err);
    }
    PutIsOrderly(e, w, id, Teardown(e, v, id).v);
  }

  lemma {:induction false} TeardownAllIsOrderly(e: Env, w: World, ids: seq<int>)
    requires AllOrderly(e, w)
    ensures AllOrderly(e, TeardownAll(e, w, ids).w)
    decreases |ids|
  {
    if ids != [] {
      TeardownAtIsOrderly(e, w, ids[0]);
      TeardownAllIsOrderly(e, TeardownAt(e, w, ids[0]).w, ids[1..]);
    }
  }

  lemma {:induction false} EnsureAllIsOrderly(e: Env, w: World, ds: seq<Desired>)
    requires Lawful(e.codec) && AllOrderly(e, w) && LegitAll(e.codec, ds, true) && StaleFreeAll(e, w, ds)
    ensures AllOrderly(e, EnsureAll(e, w, ds).w)
    decreases |ds|
  {
    if ds != [] {
      assert ds[0] in ds;
      EnsureAtIsOrderly(e, w, ds[0]);
      EnsureAllIsOrderly(e, EnsureAt(e, w, ds[0]).w, ds[1..]);
    }
  }

  lemma OutsideIsOrderly(e: Env, w: World, id: int, generation: int)
    requires AllOrderly(e, w)
    ensures AllOrderly(e, Restart(w)) && AllOrderly(e, Reboot(w)) && AllOrderly(e, Prime(w, id, generation).0)
    ensures AllOrderly(e, w.(slots := w.slots[id := At(w, id).(link := None)]))
  {
    var p := Prime(w, id, generation).0;
    var l := w.(slots := w.slots[id := At(w, id).(link := None)]);
    forall j ensures OrderlyAt(e, Restart(w), j) && OrderlyAt(e, Reboot(w), j) && OrderlyAt(e, p, j) && OrderlyAt(e, l, j) {
      assert OrderlyAt(e, w, j);
    }
  }

  lemma DoIsOrderly(e: Env, w: World, op: Op)
    requires Lawful(e.codec) && AllOrderly(e, w) && LegitOp(e.codec, op, true) && StaleFreeOp(e, w, op)
    ensures AllOrderly(e, Do(e, w, op))
  {
    match op
    case EnsureOp(d) =>
      EnsureAtIsOrderly(e, w, d);
      OutsideIsOrderly(e, EnsureAt(e, w, d).w, 0, 0);
    case RemoveOp(id) =>
      TeardownAtIsOrderly(e, w, id);
      OutsideIsOrderly(e, TeardownAt(e, w, id).w, 0, 0);
    case ReconcileOp(order, listing, ds) =>
      var t := TeardownAll(e, w, Stale(w, order, ds));
      var u := Recovered(e, w, order, listing, ds);
      TeardownAllIsOrderly(e, w, Stale(w, order, ds));
      if t.r != Dead {
        TeardownAllIsOrderly(e, t.w, Orphans(e, w, t.w, listing, ds));
      }
      EnsureAllIsOrderly(e, u.w, ds);
      OutsideIsOrderly(e, Reconcile(e, w, order, listing, ds).w, 0, 0);
    case StopAllOp(order) =>
      var a := Keep(order, id => Managing(w, id));
      TeardownAllIsOrderly(e, w, a);
      OutsideIsOrderly(e, TeardownAll(e, w, a).w, 0, 0);
    case PrimeOp(id, g) => OutsideIsOrderly(e, w, id, g);
    case LinkLostOp(id) => OutsideIsOrderly(e, w, id, 0);
    case RestartOp => OutsideIsOrderly(e, w, 0, 0);
    case RebootOp => OutsideIsOrderly(e, w, 0, 0);
  }

  /** Whatever fails or dies in it, a run that never calls Ensure under the stale-entry guard leaves every
      inbound in order. */
  lemma {:induction false} RunIsOrderly(e: Env, w: World, ops: seq<Op>)
    requires Lawful(e.codec) && AllOrderly(e, w) && (forall op :: op in ops ==> LegitOp(e.codec, op, true))
    requires StaleFreeRun(e, w, ops)
    ensures AllOrderly(e, Run(e, w, ops))
    decreases |ops|
  {
    if ops != [] {
      RunIsOrderly(e, w, ops[..|ops| - 1]);
      DoIsOrderly(e, Run(e, w, ops[..|ops| - 1]), ops[|ops| - 1]);
    }
  }

  /** A fresh process forgets what failed: from there on the state is tidy. */
  lemma RestartTidies(e: Env, w: World)
    requires AllOrderly(e, w)
    ensures Tidy(e, Restart(w))
  {
    forall j ensures TidyAt(e, Restart(w), j) { assert OrderlyAt(e, w, j); }
  }

  /** So after any such run, failed commands and crashes included, a restart and one undisturbed Reconcile end
      with every wanted inbound that can be built as its spec says, and nothing else of the panel's left but
      FORWARD rules that lost their config. */
  lemma RestartConverges(e: Env, w: World, ops: seq<Op>, calm: Env, order: seq<int>, listing: seq<int>, ds: seq<Desired>)
    requires Lawful(e.codec) && AllOrderly(e, w) && (forall op :: op in ops ==> LegitOp(e.codec, op, true))
    requires StaleFreeRun(e, w, ops)
    requires Calm(calm) && calm.codec == e.codec && calm.iptables == e.iptables && Wellformed(e.codec, ds)
    requires Complete(Restart(Run(e, w, ops)), order, listing)
    ensures
      var a := Restart(Run(e, w, ops));
      var t := Reconcile(calm, a, order, listing, ds);
      && t.r == Ok && Tidy(calm, t.w) && (forall d :: d in ds ==> DoneAt(calm, a, t.w, d))
      && (forall id :: Managing(t.w, id) ==> id in Wanted(ds))
      && (forall id :: id !in Wanted(ds) ==> At(t.w, id) == if Foreignly(calm, At(a, id), id) then At(a, id) else EMPTY_SLOT)
      && (e.iptables ==> forall id :: id !in Wanted(ds) ==>
            MineOf(t.w.shared.rules, id) == if OwnedId(calm, a, id) then [] else MineOf(a.shared.rules, id))
  {
    RunIsOrderly(e, w, ops);
    var a := Run(e, w, ops);
    forall j ensures OrderlyAt(calm, a, j) { assert OrderlyAt(e, a, j); }
    RestartTidies(calm, a);
    ReconcileConverges(calm, Restart(a), order, listing, ds);
  }

  // ---- where runs start ----------------------------------------------------------------------

  /** A host the panel has never touched, whatever FORWARD rules others have, meets every hypothesis the run
      theorems start from. */
  lemma FreshHost(e: Env, shared: Shared)
    requires forall r :: r in shared.rules ==> r.Foreign?
    ensures
      var w := World(map[], shared, []);
      Tidy(e, w) && AllRecorded(e, w) && AllOrderly(e, w) && AllSound(e.codec, w, true) && AllKeys(e.codec, w)
  {
    var w := World(map[], shared, []);
    forall id ensures TidyAt(e, w, id) && RulesRecorded(e, ViewAt(w, id), id) && OrderlyAt(e, w, id) {
      OnlyForeign(shared.rules, id);
    }
  }

  lemma {:induction false} OnlyForeign(rules: seq<Rule>, id: int)
    requires forall r :: r in rules ==> r.Foreign?
    ensures MineOf(rules, id) == []
  {
    if rules != [] {
      assert rules[0] in rules && forall r :: r in rules[1..] ==> r in rules;
      OnlyForeign(rules[1..], id);
    }
  }

  // ---- what failed commands can leave --------------------------------------------------------

  /** Only the commands up to the listing of the FORWARD chain work. */
  function ListingFails(v: View): int -> Fate {
    n => if n == v.shared.tick + 3 then Fails(false) else Works
  }

  /** Removing FORWARD rules is best effort: when listing them fails, a teardown goes on to remove the config and
      succeeds, and the rules stay without anything on disk that a later teardown would find. */
  lemma TeardownCanLeakRules(e: Env, v: View, p: Spec)
    requires e.iptables && Reached(e, v, p) && p.forward.Via?
    ensures
      var t := Teardown(e.(fate := ListingFails(v)), v, p.id);
      && t.r == Ok && t.v.slot == EMPTY_SLOT
      && MineOf(t.v.shared.rules, p.id) == WantedRules(p.id, p.forward) != []
  {
    var f := e.(fate := ListingFails(v));
    var a := StopLink(f, v, Found(v.slot.file.text));
    assert a.r == Ok && a.v.shared == v.shared.(tick := v.shared.tick + 2);
    var b := ApplyNat(f, a.v, NoTable);
    var c := RemoveForwardRules(f, b.v, p.id);
    assert b.r == Ok && c == Outcome(View(b.v.slot, b.v.shared.(tick := b.v.shared.tick + 1)), Ok);
  }
}
