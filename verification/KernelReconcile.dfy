/** Convergence: from any state a run without failed commands can reach, crashes included, a Reconcile
    whose commands succeed ends with exactly the wanted inbounds in place and no residue, and a second
    Reconcile changes nothing. */
module KernelReconcile {
  import opened Options
  import opened KernelWorld
  import opened KernelSafety
  import opened KernelConverge
  import opened KernelRuns

  /** A file the panel did not write sits at the inbound's config path, and nothing of ours exists. */
  predicate Foreignly(e: Env, slot: Slot, id: int) {
    ReadOwned(e.codec, slot.file, id).Refuse? && slot.link.None? && slot.entry.None? && slot.table == NoTable
  }

  predicate TidyAt(e: Env, w: World, id: int) {
    && (Clean(e, ViewAt(w, id), id) || Foreignly(e, At(w, id), id))
    && (id <= 0 ==> At(w, id) == EMPTY_SLOT)
  }

  ghost predicate Tidy(e: Env, w: World) { forall id :: TidyAt(e, w, id) }

  /** Nobody's FORWARD rules are without a config on disk that a teardown would find. */
  ghost predicate AllRecorded(e: Env, w: World) { forall id :: RulesRecorded(e, ViewAt(w, id), id) }

  /** buildSpec accepted the inbound, and no foreign file occupies its config path. */
  predicate Feasible(e: Env, w: World, d: Desired) {
    d.spec.Some? && !ReadOwned(e.codec, At(w, d.id).file, d.id).Refuse?
  }

  /** Every spec is one buildSpec could have made from a usable private key, and no two wanted inbounds share
      an id. */
  predicate Wellformed(c: Codec, ds: seq<Desired>) {
    LegitAll(c, ds, true) && forall i, j :: 0 <= i < j < |ds| ==> ds[i].id != ds[j].id
  }

  // ---- one call leaves the others alone ------------------------------------------------------

  /** Nothing of inbound j changed, and forwarding is still on if it was. */
  predicate Untouched(a: World, b: World, j: int) {
    && At(b, j) == At(a, j) && MineOf(b.shared.rules, j) == MineOf(a.shared.rules, j)
    && (a.shared.ipForward ==> b.shared.ipForward)
  }

  lemma PutSparesOthers(w: World, id: int, v: View, j: int)
    requires j != id && (w.shared.ipForward ==> v.shared.ipForward) && Without(v.shared.rules, id) == Without(w.shared.rules, id)
    ensures Untouched(w, Put(w, id, v), j)
  {
    MineOfWithout(v.shared.rules, id, j);
    MineOfWithout(w.shared.rules, id, j);
  }

  /** What an Ensure of d is to make of world a: the spec in place, or, when it is refused, nothing. */
  predicate DoneAt(e: Env, a: World, b: World, d: Desired) {
    if Feasible(e, a, d) then Reached(e, ViewAt(b, d.id), d.spec.value) else Untouched(a, b, d.id)
  }

  lemma EnsureAtReaches(e: Env, w: World, d: Desired)
    requires NoFails(e) && Lawful(e.codec) && Tidy(e, w) && d.spec.Some? && Legit(e.codec, d.spec.value, d.id, true)
    ensures
      var t := EnsureAt(e, w, d);
      && (forall j :: j != d.id ==> Untouched(w, t.w, j))
      && (t.r == Dead ==> Tidy(e, Restart(t.w)))
      && (t.r != Dead ==> Tidy(e, t.w) && DoneAt(e, w, t.w, d))
      && (AllRecorded(e, w) ==> AllRecorded(e, t.w))
  {
    var t := EnsureAt(e, w, d);
    var v := ViewAt(w, d.id);
    assert TidyAt(e, w, d.id);
    if ReadOwned(e.codec, At(w, d.id).file, d.id).Refuse? {
      assert Ensure(e, v, d.spec.value) == Outcome(v, Err);
    } else {
      EnsureReaches(e, v, d.spec.value);
    }
    forall j | j != d.id ensures Untouched(w, t.w, j) {
      PutSparesOthers(w, d.id, Ensure(e, v, d.spec.value).v, j);
    }
    OthersTidy(e, w, t.w, d.id);
    OthersRecorded(e, w, t.w, d.id);
  }

  lemma OthersTidy(e: Env, w: World, t: World, id: int)
    requires Tidy(e, w) && forall j :: j != id ==> Untouched(w, t, j)
    ensures TidyAt(e, t, id) ==> Tidy(e, t)
    ensures TidyAt(e, Restart(t), id) ==> Tidy(e, Restart(t))
  {
    forall j | j != id ensures TidyAt(e, t, j) && TidyAt(e, Restart(t), j) {
      assert TidyAt(e, w, j) && Untouched(w, t, j);
    }
  }

  lemma OthersRecorded(e: Env, w: World, t: World, id: int)
    requires forall j :: j != id ==> Untouched(w, t, j)
    ensures AllRecorded(e, w) && RulesRecorded(e, ViewAt(t, id), id) ==> AllRecorded(e, t)
  {
    if AllRecorded(e, w) && RulesRecorded(e, ViewAt(t, id), id) {
      forall j ensures RulesRecorded(e, ViewAt(t, j), j) {
        assert RulesRecorded(e, ViewAt(w, j), j);
        assert j != id ==> Untouched(w, t, j);
      }
    }
  }

  lemma {:induction false} TeardownAtReaches(e: Env, w: World, id: int)
    requires NoFails(e) && Tidy(e, w)
    ensures
      var t := TeardownAt(e, w, id);
      && (forall j :: j != id ==> Untouched(w, t.w, j))
      && (t.r == Dead ==> Tidy(e, Restart(t.w)))
      && (t.r != Dead ==> Tidy(e, t.w))
      && (t.r != Dead ==> if Foreignly(e, At(w, id), id) then At(t.w, id) == At(w, id) else At(t.w, id) == EMPTY_SLOT)
      && (t.r != Dead && e.iptables ==> MineOf(t.w.shared.rules, id) == if OwnedId(e, w, id) then [] else MineOf(w.shared.rules, id))
      && (AllRecorded(e, w) ==> AllRecorded(e, t.w))
  {
    var t := TeardownAt(e, w, id);
    assert TidyAt(e, w, id);
    var v := ViewAt(w, id);
    if Foreignly(e, At(w, id), id) {
      assert Teardown(e, v, id) == Outcome(v, Err);
    } else {
      TeardownReaches(e, v, id);
      TeardownRecords(e, v, id);
    }
    forall j | j != id ensures Untouched(w, t.w, j) {
      PutSparesOthers(w, id, Teardown(e, v, id).v, j);
    }
    OthersTidy(e, w, t.w, id);
    OthersRecorded(e, w, t.w, id);
  }

  // ---- the loops -----------------------------------------------------------------------------

  /** What tearing down `ids` does to inbound j. */
  predicate Cleared(e: Env, a: World, b: World, j: int) {
    && At(b, j) == EMPTY_SLOT
    && (e.iptables ==> MineOf(b.shared.rules, j) == if OwnedId(e, a, j) then [] else MineOf(a.shared.rules, j))
  }

  lemma {:induction false} TeardownAllReaches(e: Env, w: World, ids: seq<int>)
    requires NoFails(e) && Tidy(e, w)
    ensures
      var t := TeardownAll(e, w, ids);
      && (t.r == Dead ==> Tidy(e, Restart(t.w)))
      && (t.r != Dead ==> Tidy(e, t.w))
      && (t.r != Dead ==> forall j :: j !in ids || Foreignly(e, At(w, j), j) ==> At(t.w, j) == At(w, j))
      && (t.r != Dead ==> forall j :: j !in ids ==> Untouched(w, t.w, j))
      && (t.r != Dead ==> forall j :: j in ids && !Foreignly(e, At(w, j), j) ==> Cleared(e, w, t.w, j))
      && (AllRecorded(e, w) ==> AllRecorded(e, t.w))
    decreases |ids|
  {
    if ids != [] {
      TeardownAtReaches(e, w, ids[0]);
      var t := TeardownAt(e, w, ids[0]);
      if t.r != Dead {
        TeardownAllReaches(e, t.w, ids[1..]);
        var u := TeardownAll(e, t.w, ids[1..]);
        if u.r != Dead {
          forall j ensures j !in ids || Foreignly(e, At(w, j), j) ==> At(u.w, j) == At(w, j)
                   ensures j !in ids ==> Untouched(w, u.w, j)
                   ensures j in ids && !Foreignly(e, At(w, j), j) ==> Cleared(e, w, u.w, j) {
            assert j != ids[0] ==> Untouched(w, t.w, j);
            assert j in ids <==> j == ids[0] || j in ids[1..];
            if j == ids[0] && !Foreignly(e, At(w, j), j) {
              assert At(t.w, j) == EMPTY_SLOT;
              if j in ids[1..] {
                assert Foreignly(e, At(t.w, j), j) || Cleared(e, t.w, u.w, j);
                TeardownEmptyIsSilent(e, t.w, j, ids[1..]);
              }
            }
          }
        }
      }
    }
  }

  /** Tearing down an inbound with nothing there runs no command. */
  lemma {:induction false} TeardownEmptyIsSilent(e: Env, w: World, j: int, ids: seq<int>)
    requires NoFails(e) && Tidy(e, w) && At(w, j) == EMPTY_SLOT
    ensures TeardownAll(e, w, ids).r != Dead ==> Untouched(w, TeardownAll(e, w, ids).w, j)
    decreases |ids|
  {
    if ids != [] {
      TeardownAtReaches(e, w, ids[0]);
      var t := TeardownAt(e, w, ids[0]);
      if ids[0] == j {
        assert Teardown(e, ViewAt(w, j), j) == Outcome(ViewAt(w, j), Ok);
        assert t.w.shared == w.shared && At(t.w, j) == At(w, j);
      }
      assert Untouched(w, t.w, j);
      if t.r != Dead {
        TeardownEmptyIsSilent(e, t.w, j, ids[1..]);
      }
    }
  }

  lemma EnsureOneReaches(e: Env, w: World, ds: seq<Desired>)
    requires NoFails(e) && Lawful(e.codec) && Tidy(e, w) && Wellformed(e.codec, ds) && ds != []
    ensures
      var t := EnsureAt(e, w, ds[0]);
      && (forall j :: j != ds[0].id ==> Untouched(w, t.w, j))
      && (t.r == Dead ==> Tidy(e, Restart(t.w)))
      && (t.r != Dead ==> Tidy(e, t.w) && DoneAt(e, w, t.w, ds[0]))
      && (AllRecorded(e, w) ==> AllRecorded(e, t.w))
      && Wellformed(e.codec, ds[1..]) && Wanted(ds) == {ds[0].id} + Wanted(ds[1..]) && ds[0].id !in Wanted(ds[1..])
  {
    assert ds[0] in ds && ds == [ds[0]] + ds[1..];
    if ds[0].spec.Some? {
      EnsureAtReaches(e, w, ds[0]);
    }
  }

  lemma {:induction false} EnsureAllReaches(e: Env, w: World, ds: seq<Desired>)
    requires NoFails(e) && Lawful(e.codec) && Tidy(e, w) && Wellformed(e.codec, ds)
    ensures
      var t := EnsureAll(e, w, ds);
      && (t.r == Dead ==> Tidy(e, Restart(t.w)))
      && (t.r != Dead ==> Tidy(e, t.w))
      && (t.r != Dead ==> forall d :: d in ds ==> DoneAt(e, w, t.w, d))
      && (forall j :: j !in Wanted(ds) ==> Untouched(w, t.w, j))
      && (AllRecorded(e, w) ==> AllRecorded(e, t.w))
    decreases |ds|
  {
    if ds != [] {
      EnsureOneReaches(e, w, ds);
      var t := EnsureAt(e, w, ds[0]);
      if t.r != Dead {
        EnsureAllReaches(e, t.w, ds[1..]);
        var u := EnsureAll(e, t.w, ds[1..]);
        assert Untouched(t.w, u.w, ds[0].id);
        forall d | d in ds && u.r != Dead ensures DoneAt(e, w, u.w, d) {
          if d != ds[0] {
            assert d in ds[1..] && d.id in Wanted(ds[1..]) && Untouched(w, t.w, d.id);
            assert DoneAt(e, t.w, u.w, d);
          }
        }
        forall j | j !in Wanted(ds) ensures Untouched(w, u.w, j) {
          assert Untouched(w, t.w, j) && Untouched(t.w, u.w, j);
        }
      }
    } else {
      assert EnsureAll(e, w, ds) == Result(w, Ok);
    }
  }

  // ---- Reconcile -----------------------------------------------------------------------------

  /** `order` lists the managed inbounds and `listing` the config directory, each completely. */
  predicate Complete(w: World, order: seq<int>, listing: seq<int>) {
    forall id :: id in w.slots ==> (Managing(w, id) ==> id in order) && (At(w, id).file != Missing ==> id in listing)
  }

  lemma {:induction false} CalmNeverDies(e: Env, w: World, ids: seq<int>, ds: seq<Desired>)
    requires Calm(e)
    ensures TeardownAll(e, w, ids).r != Dead
    ensures EnsureAll(e, w, ds).r != Dead
    decreases |ids| + |ds|
  {
    if ids != [] {
      CalmTeardownLives(e, ViewAt(w, ids[0]), ids[0]);
      CalmNeverDies(e, TeardownAt(e, w, ids[0]).w, ids[1..], []);
    }
    if ds != [] {
      if ds[0].spec.Some? {
        CalmEnsureLives(e, ViewAt(w, ds[0].id), ds[0].spec.value);
      }
      CalmNeverDies(e, EnsureAt(e, w, ds[0]).w, [], ds[1..]);
    }
  }

  lemma {:induction false} CalmLoops(e: Env, v: View, id: int, listing: seq<Rule>, rules: seq<Rule>, steps: seq<Step>)
    requires Calm(e)
    ensures DeleteListed(e, v, id, listing).r != Dead && InsertRules(e, v, rules).r != Dead && RunSteps(e, v, steps).r != Dead
    decreases |listing| + |rules| + |steps|
  {
    if listing != [] {
      CalmLoops(e, v, id, listing[1..], [], []);
      CalmLoops(e, SetShared(e, v, v.shared.(rules := RemoveFirst(v.shared.rules, listing[0]))).v, id, listing[1..], [], []);
    }
    if rules != [] {
      CalmLoops(e, SetShared(e, v, v.shared.(rules := [rules[0]] + v.shared.rules)).v, id, [], rules[1..], []);
    }
    if steps != [] {
      CalmLoops(e, RunStep(e, v, steps[0]).v, id, [], [], steps[1..]);
    }
  }

  lemma CalmForwardLives(e: Env, v: View, id: int, f: Forward)
    requires Calm(e)
    ensures RemoveForwardRules(e, v, id).r != Dead && SyncForwardRules(e, v, id, f).r != Dead
  {
    var t := Cmd(e, v, v);
    CalmLoops(e, t.v, id, t.v.shared.rules, [], []);
    CalmLoops(e, RemoveForwardRules(e, v, id).v, id, [], Accepts(id, f), []);
  }

  lemma CalmEgressLives(e: Env, v: View, p: Spec, prev: Forward, natChanged: bool)
    requires Calm(e)
    ensures ApplyEgress(e, v, p, prev, natChanged).r != Dead
  {
    var t := if natChanged then ApplyNat(e, v, p.table) else Outcome(v, Ok);
    var u := if p.forward.Via? then SetShared(e, t.v, t.v.shared.(ipForward := true)) else t;
    CalmForwardLives(e, u.v, p.id, p.forward);
  }

  lemma CalmRebuildLives(e: Env, v: View, p: Spec)
    requires Calm(e)
    ensures Rebuild(e, v, p).r != Dead
  {
    var b := ClearAndWrite(e, v, p);
    var m := if b.v.shared.moduleLoaded then b.v else SetShared(e, b.v, b.v.shared.(moduleLoaded := true)).v;
    CalmLoops(e, m, 0, [], [], CreateSteps(p));
    var c := BuildLink(e, b.v, p);
    CalmEgressLives(e, c.v, p, if v.slot.entry.Some? then v.slot.entry.value.spec.forward else Unknown, true);
  }

  lemma CalmEnsureLives(e: Env, v: View, p: Spec)
    requires Calm(e)
    ensures Ensure(e, v, p).r != Dead
  {
    var owned := ReadOwned(e.codec, v.slot.file, p.id);
    var u := if owned.Found? && v.slot.entry.None? && v.slot.link.Some? then VerifyLive(e, v, owned.conf).v else v;
    var t := WriteAndLoad(e, u, p.conf);
    if InPlace(e.codec, u.slot, p) {
      var prev := u.slot.entry.value.spec;
      CalmEgressLives(e, if prev.conf != p.conf then t.v else u, p, prev.forward, prev.table != p.table);
    } else if Adoptable(e.codec, u.slot, p) {
      CalmEgressLives(e, t.v, p, Unknown, true);
      CalmRebuildLives(e, Adopt(e, u, p).v, p);
    } else {
      CalmRebuildLives(e, u, p);
    }
  }

  lemma CalmTeardownLives(e: Env, v: View, id: int)
    requires Calm(e)
    ensures Teardown(e, v, id).r != Dead
  {
    var a := StopLink(e, v, ReadOwned(e.codec, v.slot.file, id));
    var b := ApplyNat(e, a.v, NoTable);
    CalmForwardLives(e, b.v, id, NoEgress);
  }

  lemma {:induction false} LoopsNeverErr(e: Env, w: World, ds: seq<Desired>)
    ensures EnsureAll(e, w, ds).r != Err
    decreases |ds|
  {
    if ds != [] {
      LoopsNeverErr(e, EnsureAt(e, w, ds[0]).w, ds[1..]);
    }
  }

  /** The two teardown loops reach every unwanted inbound the panel left something of. */
  lemma UnwantedIsCleared(e: Env, w: World, order: seq<int>, listing: seq<int>, ds: seq<Desired>, id: int)
    requires Calm(e) && Tidy(e, w) && Complete(w, order, listing) && id !in Wanted(ds)
    ensures
      var u := Recovered(e, w, order, listing, ds).w;
      && At(u, id) == (if Foreignly(e, At(w, id), id) then At(w, id) else EMPTY_SLOT)
      && (e.iptables ==> MineOf(u.shared.rules, id) == if OwnedId(e, w, id) then [] else MineOf(w.shared.rules, id))
  {
    var a := Stale(w, order, ds);
    var t := TeardownAll(e, w, a);
    CalmNeverDies(e, w, a, []);
    TeardownAllReaches(e, w, a);
    var b := Orphans(e, w, t.w, listing, ds);
    CalmNeverDies(e, t.w, b, []);
    TeardownAllReaches(e, t.w, b);
    assert TidyAt(e, w, id) && TidyAt(e, t.w, id);
    if Managing(w, id) {
      assert id in w.slots && id in a && id !in b;
      assert Cleared(e, w, t.w, id) && Untouched(t.w, TeardownAll(e, t.w, b).w, id);
    } else {
      assert id !in a && Untouched(w, t.w, id);
      if OwnedId(e, w, id) {
        assert id in w.slots && id in b;
        assert Cleared(e, t.w, TeardownAll(e, t.w, b).w, id);
      } else {
        assert id !in b;
      }
    }
  }

  /** The teardown loops end in a tidy state and touch no wanted inbound. */
  lemma RecoveredIsTidy(e: Env, w: World, order: seq<int>, listing: seq<int>, ds: seq<Desired>)
    requires NoFails(e) && Tidy(e, w)
    ensures
      var u := Recovered(e, w, order, listing, ds);
      && (u.r == Dead ==> Tidy(e, Restart(u.w)))
      && (u.r != Dead ==> Tidy(e, u.w) && forall d :: d in ds ==> Untouched(w, u.w, d.id))
      && (AllRecorded(e, w) ==> AllRecorded(e, u.w))
  {
    var a := Stale(w, order, ds);
    var t := TeardownAll(e, w, a);
    TeardownAllReaches(e, w, a);
    if t.r != Dead {
      var b := Orphans(e, w, t.w, listing, ds);
      TeardownAllReaches(e, t.w, b);
      forall d | d in ds && TeardownAll(e, t.w, b).r != Dead ensures Untouched(w, TeardownAll(e, t.w, b).w, d.id) {
        assert d.id in Wanted(ds) && d.id !in a && d.id !in b;
        assert Untouched(w, t.w, d.id) && Untouched(t.w, TeardownAll(e, t.w, b).w, d.id);
      }
    }
  }

  /** The wanted inbounds are in place: those that can be. */
  lemma WantedAreDone(e: Env, w: World, order: seq<int>, listing: seq<int>, ds: seq<Desired>)
    requires Calm(e) && Lawful(e.codec) && Tidy(e, w) && Wellformed(e.codec, ds)
    ensures
      var t := Reconcile(e, w, order, listing, ds);
      t.r == Ok && Tidy(e, t.w) && forall d :: d in ds ==> DoneAt(e, w, t.w, d)
  {
    var u := Recovered(e, w, order, listing, ds).w;
    RecoveredIsTidy(e, w, order, listing, ds);
    CalmNeverDies(e, w, Stale(w, order, ds), []);
    var first := TeardownAll(e, w, Stale(w, order, ds)).w;
    CalmNeverDies(e, first, Orphans(e, w, first, listing, ds), []);
    CalmNeverDies(e, u, [], ds);
    EnsureAllReaches(e, u, ds);
    LoopsNeverErr(e, u, ds);
    forall d | d in ds ensures DoneAt(e, w, EnsureAll(e, u, ds).w, d) {
      assert Untouched(w, u, d.id) && DoneAt(e, u, EnsureAll(e, u, ds).w, d);
    }
  }

  /** After an undisturbed Reconcile: every wanted inbound that can be built is managed and exactly as its
      spec says, with its FORWARD rules; one that is refused is as it was; nothing else of the panel's is
      left, FORWARD rules without a config apart. */
  lemma ReconcileConverges(e: Env, w: World, order: seq<int>, listing: seq<int>, ds: seq<Desired>)
    requires Calm(e) && Lawful(e.codec) && Tidy(e, w) && Wellformed(e.codec, ds)
    requires Complete(w, order, listing)
    ensures
      var t := Reconcile(e, w, order, listing, ds);
      && t.r == Ok && Tidy(e, t.w)
      && (forall d :: d in ds ==> DoneAt(e, w, t.w, d))
      && (forall id :: Managing(t.w, id) ==> id in Wanted(ds))
      && (forall id :: id !in Wanted(ds) ==>
            At(t.w, id) == if Foreignly(e, At(w, id), id) then At(w, id) else EMPTY_SLOT)
      && (e.iptables ==> forall id :: id !in Wanted(ds) ==>
            MineOf(t.w.shared.rules, id) == if OwnedId(e, w, id) then [] else MineOf(w.shared.rules, id))
  {
    var u := Recovered(e, w, order, listing, ds).w;
    WantedAreDone(e, w, order, listing, ds);
    RecoveredIsTidy(e, w, order, listing, ds);
    CalmNeverDies(e, w, Stale(w, order, ds), []);
    var first := TeardownAll(e, w, Stale(w, order, ds)).w;
    CalmNeverDies(e, first, Orphans(e, w, first, listing, ds), []);
    EnsureAllReaches(e, u, ds);
    var x := EnsureAll(e, u, ds);
    forall id | id !in Wanted(ds)
      ensures At(x.w, id) == if Foreignly(e, At(w, id), id) then At(w, id) else EMPTY_SLOT
      ensures e.iptables ==> MineOf(x.w.shared.rules, id) == if OwnedId(e, w, id) then [] else MineOf(w.shared.rules, id)
    {
      assert Untouched(u, x.w, id);
      UnwantedIsCleared(e, w, order, listing, ds, id);
    }
  }

  /** No such rules, where AllRecorded holds: nothing of an unwanted inbound is left at all. */
  lemma NoResidue(e: Env, w: World, order: seq<int>, listing: seq<int>, ds: seq<Desired>)
    requires Calm(e) && Lawful(e.codec) && Tidy(e, w) && AllRecorded(e, w) && Wellformed(e.codec, ds)
    requires Complete(w, order, listing)
    ensures
      var t := Reconcile(e, w, order, listing, ds).w;
      && AllRecorded(e, t)
      && (e.iptables ==> forall id :: id !in Wanted(ds) ==> MineOf(t.shared.rules, id) == [])
  {
    ReconcileConverges(e, w, order, listing, ds);
    RecoveredIsTidy(e, w, order, listing, ds);
    var u := Recovered(e, w, order, listing, ds);
    if u.r != Dead {
      EnsureAllReaches(e, u.w, ds);
    }
    forall id ensures !OwnedId(e, w, id) && e.iptables ==> MineOf(w.shared.rules, id) == [] {
      assert RulesRecorded(e, ViewAt(w, id), id) && TidyAt(e, w, id);
    }
  }

  // ---- stability -----------------------------------------------------------------------------

  /** The same world up to the number of commands issued. */
  ghost predicate SameWorld(a: World, b: World) {
    (forall id :: At(b, id) == At(a, id)) && b.shared == a.shared.(tick := b.shared.tick) && b.primed == a.primed
  }

  /** Every wanted inbound is in place or refused. */
  predicate AllDone(e: Env, w: World, ds: seq<Desired>) {
    forall d :: d in ds && Feasible(e, w, d) ==> Reached(e, ViewAt(w, d.id), d.spec.value)
  }

  lemma {:induction false} EnsureAllIsSilent(e: Env, w: World, ds: seq<Desired>)
    requires LegitAll(e.codec, ds, true) && AllDone(e, w, ds)
    ensures SameWorld(w, EnsureAll(e, w, ds).w)
    decreases |ds|
  {
    if ds != [] {
      assert ds[0] in ds;
      if Feasible(e, w, ds[0]) {
        EnsureIsIdempotent(e, ViewAt(w, ds[0].id), ds[0].spec.value);
      }
      var t := EnsureAt(e, w, ds[0]);
      assert SameWorld(w, t.w);
      if t.r != Dead {
        forall d | d in ds[1..] && Feasible(e, t.w, d) ensures Reached(e, ViewAt(t.w, d.id), d.spec.value) {
          assert Feasible(e, w, d) && Reached(e, ViewAt(w, d.id), d.spec.value);
        }
        EnsureAllIsSilent(e, t.w, ds[1..]);
      }
    }
  }

  lemma SettledIsSilent(e: Env, w: World, order: seq<int>, listing: seq<int>, ds: seq<Desired>)
    requires LegitAll(e.codec, ds, true) && AllDone(e, w, ds)
    requires forall id :: Managing(w, id) ==> id in Wanted(ds)
    requires forall id :: id !in Wanted(ds) ==> At(w, id) == EMPTY_SLOT || Foreignly(e, At(w, id), id)
    ensures SameWorld(w, Reconcile(e, w, order, listing, ds).w)
  {
    KeepNone(order, id => Managing(w, id) && id !in Wanted(ds));
    KeepNone(listing, id => OwnedId(e, w, id) && id !in Wanted(ds) && !Managing(w, id));
    assert Recovered(e, w, order, listing, ds) == Result(w, Ok);
    EnsureAllIsSilent(e, w, ds);
  }

  /** Whatever the fate of its commands, a second Reconcile for the same set changes no link, config, table,
      rule or entry. */
  lemma SecondReconcileIsSilent(e: Env, w: World, order: seq<int>, listing: seq<int>, ds: seq<Desired>,
                                fate: int -> Fate, order2: seq<int>, listing2: seq<int>)
    requires Calm(e) && Lawful(e.codec) && Tidy(e, w) && Wellformed(e.codec, ds)
    requires Complete(w, order, listing)
    ensures
      var t := Reconcile(e, w, order, listing, ds).w;
      SameWorld(t, Reconcile(e.(fate := fate), t, order2, listing2, ds).w)
  {
    ReconcileConverges(e, w, order, listing, ds);
    var t, f := Reconcile(e, w, order, listing, ds).w, e.(fate := fate);
    forall d | d in ds && Feasible(f, t, d) ensures Reached(f, ViewAt(t, d.id), d.spec.value) {
      assert DoneAt(e, w, t, d) && Feasible(e, w, d);
    }
    SettledIsSilent(f, t, order2, listing2, ds);
  }

  // ---- where convergence starts from ---------------------------------------------------------

  lemma RestartIsTidy(e: Env, w: World)
    requires Tidy(e, w)
    ensures Tidy(e, Restart(w)) && Tidy(e, Reboot(w))
    ensures AllRecorded(e, w) ==> AllRecorded(e, Restart(w)) && AllRecorded(e, Reboot(w))
  {
    forall j ensures TidyAt(e, Restart(w), j) && TidyAt(e, Reboot(w), j) {
      assert TidyAt(e, w, j);
    }
    if AllRecorded(e, w) {
      forall j ensures RulesRecorded(e, ViewAt(Restart(w), j), j) && RulesRecorded(e, ViewAt(Reboot(w), j), j) {
        assert RulesRecorded(e, ViewAt(w, j), j);
      }
    }
  }

  lemma OutsideIsTidy(e: Env, w: World, id: int, g: int)
    requires Tidy(e, w)
    ensures Tidy(e, Prime(w, id, g).0)
    ensures Tidy(e, w.(slots := w.slots[id := At(w, id).(link := None)]))
    ensures AllRecorded(e, w) ==>
      AllRecorded(e, Prime(w, id, g).0) && AllRecorded(e, w.(slots := w.slots[id := At(w, id).(link := None)]))
  {
    var p := Prime(w, id, g).0;
    var l := w.(slots := w.slots[id := At(w, id).(link := None)]);
    forall j ensures TidyAt(e, p, j) && TidyAt(e, l, j) {
      assert TidyAt(e, w, j);
    }
    if AllRecorded(e, w) {
      forall j ensures RulesRecorded(e, ViewAt(p, j), j) && RulesRecorded(e, ViewAt(l, j), j) {
        assert RulesRecorded(e, ViewAt(w, j), j);
      }
    }
  }

  predicate FairOp(c: Codec, op: Op) { LegitOp(c, op, true) && (op.ReconcileOp? ==> Wellformed(c, op.ds)) }

  lemma RestartRecorded(e: Env, w: World)
    ensures AllRecorded(e, w) ==> AllRecorded(e, Restart(w))
  {
    if AllRecorded(e, w) {
      forall j ensures RulesRecorded(e, ViewAt(Restart(w), j), j) {
        assert RulesRecorded(e, ViewAt(w, j), j);
      }
    }
  }

  lemma DoIsTidy(e: Env, w: World, op: Op)
    requires NoFails(e) && Lawful(e.codec) && Tidy(e, w) && FairOp(e.codec, op)
    ensures Tidy(e, Do(e, w, op)) && (AllRecorded(e, w) ==> AllRecorded(e, Do(e, w, op)))
  {
    match op
    case EnsureOp(d) =>
      if d.spec.Some? {
        EnsureAtReaches(e, w, d);
        RestartRecorded(e, EnsureAt(e, w, d).w);
      }
    case RemoveOp(id) =>
      TeardownAtReaches(e, w, id);
      RestartRecorded(e, TeardownAt(e, w, id).w);
    case ReconcileOp(order, listing, ds) =>
      RecoveredIsTidy(e, w, order, listing, ds);
      var u := Recovered(e, w, order, listing, ds);
      if u.r != Dead { EnsureAllReaches(e, u.w, ds); }
      RestartRecorded(e, Reconcile(e, w, order, listing, ds).w);
    case StopAllOp(order) =>
      TeardownAllReaches(e, w, Keep(order, id => Managing(w, id)));
      RestartRecorded(e, TeardownAll(e, w, Keep(order, id => Managing(w, id))).w);
    case PrimeOp(id, g) => OutsideIsTidy(e, w, id, g);
    case LinkLostOp(id) => OutsideIsTidy(e, w, id, 0);
    case RestartOp => RestartIsTidy(e, w);
    case RebootOp => RestartIsTidy(e, w);
  }

  /** Every state a run without failed commands reaches, however often the process died in it, is one
      that ReconcileConverges starts from. */
  lemma {:induction false} RunIsTidy(e: Env, w: World, ops: seq<Op>)
    requires NoFails(e) && Lawful(e.codec) && Tidy(e, w) && forall op :: op in ops ==> FairOp(e.codec, op)
    ensures Tidy(e, Run(e, w, ops)) && (AllRecorded(e, w) ==> AllRecorded(e, Run(e, w, ops)))
    decreases |ops|
  {
    if ops != [] {
      RunIsTidy(e, w, ops[..|ops| - 1]);
      DoIsTidy(e, Run(e, w, ops[..|ops| - 1]), ops[|ops| - 1]);
    }
  }
}
