/** Traffic generations: within one process no two interfaces ever share one, and the baseline of an
    adopted interface is primed at most once. */
module KernelPriming {
  import opened Options
  import opened KernelWorld
  import opened KernelRuns

  /** Ensure and teardown keep an entry's generation, drop the entry, or issue the next generation. */
  predicate EntryFrom(v: View, o: View) {
    || (o.shared.generation == v.shared.generation &&
        (o.slot.entry.None? ||
         (v.slot.entry.Some? && o.slot.entry.value.generation == v.slot.entry.value.generation
                             && o.slot.entry.value.pending == v.slot.entry.value.pending)))
    || (o.shared.generation == v.shared.generation + 1 && o.slot.entry.Some?
        && o.slot.entry.value.generation == o.shared.generation)
  }

  lemma EgressKeepsGeneration(e: Env, v: View, p: Spec, prev: Forward, natChanged: bool)
    ensures ApplyEgress(e, v, p, prev, natChanged).v.shared.generation == v.shared.generation
  {
  }

  lemma BuildKeepsGeneration(e: Env, v: View, p: Spec)
    ensures BuildLink(e, v, p).v.shared.generation == v.shared.generation
    ensures BuildLink(e, v, p).v.slot.entry == v.slot.entry
  {
  }

  lemma RebuildGeneration(e: Env, v: View, p: Spec)
    ensures EntryFrom(v, Rebuild(e, v, p).v)
  {
    var b := ClearAndWrite(e, v, p);
    BuildKeepsGeneration(e, b.v, p);
    var prev := if v.slot.entry.Some? then v.slot.entry.value.spec.forward else Unknown;
    EgressKeepsGeneration(e, BuildLink(e, b.v, p).v, p, prev, true);
  }

  lemma ConvergeGeneration(e: Env, v: View, p: Spec)
    ensures EntryFrom(v, Converge(e, v, p).v)
  {
    var w := WriteAndLoad(e, v, p.conf).v;
    if InPlace(e.codec, v.slot, p) {
      var prev := v.slot.entry.value.spec;
      EgressKeepsGeneration(e, if prev.conf != p.conf then w else v, p, prev.forward, prev.table != p.table);
    } else if Adoptable(e.codec, v.slot, p) {
      EgressKeepsGeneration(e, w, p, Unknown, true);
      RebuildGeneration(e, Adopt(e, v, p).v, p);
    } else {
      RebuildGeneration(e, v, p);
    }
  }

  lemma EnsureGeneration(e: Env, v: View, p: Spec)
    ensures EntryFrom(v, Ensure(e, v, p).v)
  {
    var owned := ReadOwned(e.codec, v.slot.file, p.id);
    if owned.Found? && v.slot.link.Some? && v.slot.entry.None? {
      ConvergeGeneration(e, VerifyLive(e, v, owned.conf).v, p);
    } else {
      ConvergeGeneration(e, v, p);
    }
  }

  lemma TeardownGeneration(e: Env, v: View, id: int)
    ensures EntryFrom(v, Teardown(e, v, id).v)
  {
    var a := StopLink(e, v, ReadOwned(e.codec, v.slot.file, id));
    assert a.v.slot.entry == v.slot.entry && a.v.shared.generation == v.shared.generation;
  }

  /** Entries hold distinct generations already issued; a pending one has not been primed. */
  ghost predicate Fresh(w: World) {
    && w.shared.generation >= 0
    && (forall id :: Managing(w, id) ==> 0 < At(w, id).entry.value.generation <= w.shared.generation)
    && (forall id, jd :: id != jd && Managing(w, id) && Managing(w, jd) ==>
          At(w, id).entry.value.generation != At(w, jd).entry.value.generation)
    && (forall id :: Managing(w, id) && At(w, id).entry.value.pending ==> At(w, id).entry.value.generation !in w.primed)
    && (forall g :: g in w.primed ==> g <= w.shared.generation)
    && (forall i, j :: 0 <= i < j < |w.primed| ==> w.primed[i] != w.primed[j])
  }

  lemma PutIsFresh(w: World, id: int, v: View)
    requires Fresh(w) && EntryFrom(ViewAt(w, id), v)
    ensures Fresh(Put(w, id, v))
  {
    var u := Put(w, id, v);
    assert forall j :: j != id ==> At(u, j) == At(w, j);
    assert At(u, id) == v.slot;
  }

  lemma {:induction false} TeardownAllIsFresh(e: Env, w: World, ids: seq<int>)
    requires Fresh(w)
    ensures Fresh(TeardownAll(e, w, ids).w)
    decreases |ids|
  {
    if ids != [] {
      TeardownAtIsFresh(e, w, ids[0]);
      TeardownAllIsFresh(e, TeardownAt(e, w, ids[0]).w, ids[1..]);
    }
  }

  lemma {:induction false} EnsureAllIsFresh(e: Env, w: World, ds: seq<Desired>)
    requires Fresh(w)
    ensures Fresh(EnsureAll(e, w, ds).w)
    decreases |ds|
  {
    if ds != [] {
      EnsureAtIsFresh(e, w, ds[0]);
      EnsureAllIsFresh(e, EnsureAt(e, w, ds[0]).w, ds[1..]);
    }
  }

  lemma EnsureAtIsFresh(e: Env, w: World, d: Desired)
    requires Fresh(w)
    ensures Fresh(EnsureAt(e, w, d).w)
  {
    if d.spec.Some? {
      EnsureGeneration(e, ViewAt(w, d.id), d.spec.value);
      PutIsFresh(w, d.id, Ensure(e, ViewAt(w, d.id), d.spec.value).v);
    }
  }

  lemma RestartIsFresh(w: World)
    ensures Fresh(Restart(w)) && Fresh(Reboot(w))
  {
    assert forall j :: !Managing(Restart(w), j) && !Managing(Reboot(w), j);
  }

  lemma PrimeIsFresh(w: World, id: int, g: int)
    requires Fresh(w)
    ensures Fresh(Prime(w, id, g).0)
    ensures Prime(w, id, g).1 ==> g !in w.primed && !Prime(Prime(w, id, g).0, id, g).1
  {
    var u := Prime(w, id, g).0;
    assert forall j :: j != id ==> At(u, j) == At(w, j);
  }

  lemma TeardownAtIsFresh(e: Env, w: World, id: int)
    requires Fresh(w)
    ensures Fresh(TeardownAt(e, w, id).w)
  {
    TeardownGeneration(e, ViewAt(w, id), id);
    PutIsFresh(w, id, Teardown(e, ViewAt(w, id), id).v);
  }

  lemma ReconcileIsFresh(e: Env, w: World, order: seq<int>, listing: seq<int>, ds: seq<Desired>)
    requires Fresh(w)
    ensures Fresh(Reconcile(e, w, order, listing, ds).w)
  {
    var t := TeardownAll(e, w, Stale(w, order, ds));
    TeardownAllIsFresh(e, w, Stale(w, order, ds));
    if t.r != Dead {
      TeardownAllIsFresh(e, t.w, Orphans(e, w, t.w, listing, ds));
    }
    EnsureAllIsFresh(e, Recovered(e, w, order, listing, ds).w, ds);
  }

  lemma DoIsFresh(e: Env, w: World, op: Op)
    requires Fresh(w)
    ensures Fresh(Do(e, w, op))
  {
    match op
    case EnsureOp(d) =>
      EnsureAtIsFresh(e, w, d);
      RestartIsFresh(EnsureAt(e, w, d).w);
    case RemoveOp(id) =>
      TeardownAtIsFresh(e, w, id);
      RestartIsFresh(TeardownAt(e, w, id).w);
    case ReconcileOp(order, listing, ds) =>
      ReconcileIsFresh(e, w, order, listing, ds);
      RestartIsFresh(Reconcile(e, w, order, listing, ds).w);
    case StopAllOp(order) =>
      var a := Keep(order, id => Managing(w, id));
      TeardownAllIsFresh(e, w, a);
      RestartIsFresh(TeardownAll(e, w, a).w);
    case PrimeOp(id, g) => PrimeIsFresh(w, id, g);
    case LinkLostOp(id) => PutIsFresh(w, id, View(At(w, id).(link := None), w.shared));
    case RestartOp => RestartIsFresh(w);
    case RebootOp => RestartIsFresh(w);
  }

  /** Over every run and every fate of its commands, no generation is primed twice. */
  lemma {:induction false} RunPrimesOnce(e: Env, w: World, ops: seq<Op>)
    requires Fresh(w)
    ensures Fresh(Run(e, w, ops))
    decreases |ops|
  {
    if ops != [] {
      RunPrimesOnce(e, w, ops[..|ops| - 1]);
      DoIsFresh(e, Run(e, w, ops[..|ops| - 1]), ops[|ops| - 1]);
    }
  }
}
