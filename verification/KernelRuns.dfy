/** Whole runs of the controller over all inbounds: restarts after every crash, reboots, links that
    vanish, and any interleaving of Ensure, Remove, Reconcile and StopAll. */
module KernelRuns {
  import opened Options
  import opened KernelWorld
  import opened KernelSafety
  import opened KernelConverge

  /** Every inbound's slot (absent ones are empty), the shared part, and the generations primed by
      the current process (a history variable). */
  datatype World = World(slots: map<int, Slot>, shared: Shared, primed: seq<int>)

  function At(w: World, id: int): Slot { if id in w.slots then w.slots[id] else EMPTY_SLOT }

  function ViewAt(w: World, id: int): View { View(At(w, id), w.shared) }

  function Put(w: World, id: int, v: View): World { w.(slots := w.slots[id := v.slot], shared := v.shared) }

  datatype Result = Result(w: World, r: Status)

  function EnsureAt(e: Env, w: World, d: Desired): Result {
    if d.spec.None? then Result(w, Err)
    else
      var out := Ensure(e, ViewAt(w, d.id), d.spec.value);
      Result(Put(w, d.id, out.v), out.r)
  }

  function TeardownAt(e: Env, w: World, id: int): Result {
    var out := Teardown(e, ViewAt(w, id), id);
    Result(Put(w, id, out.v), out.r)
  }

  /** Errors are logged and the loop goes on; only a crash stops it. */
  function TeardownAll(e: Env, w: World, ids: seq<int>): Result
    decreases |ids|
  {
    if ids == [] then Result(w, Ok)
    else
      var t := TeardownAt(e, w, ids[0]);
      if t.r == Dead then t else TeardownAll(e, t.w, ids[1..])
  }

  function EnsureAll(e: Env, w: World, ds: seq<Desired>): Result
    decreases |ds|
  {
    if ds == [] then Result(w, Ok)
    else
      var t := EnsureAt(e, w, ds[0]);
      if t.r == Dead then t else EnsureAll(e, t.w, ds[1..])
  }

  function Wanted(ds: seq<Desired>): set<int> { set d | d in ds :: d.id }

  function Keep(ids: seq<int>, keep: int -> bool): (out: seq<int>)
    ensures forall x :: x in out <==> x in ids && keep(x)
  {
    if ids == [] then [] else (if keep(ids[0]) then [ids[0]] else []) + Keep(ids[1..], keep)
  }

  lemma KeepNone(ids: seq<int>, keep: int -> bool)
    requires forall x :: !keep(x)
    ensures Keep(ids, keep) == []
  {
    if ids != [] {
      KeepNone(ids[1..], keep);
    }
  }

  predicate Managing(w: World, id: int) { At(w, id).entry.Some? }

  /** ownedConfigIDs: a positive id whose config file is an owned one. */
  predicate OwnedId(e: Env, w: World, id: int) { id > 0 && ReadOwned(e.codec, At(w, id).file, id).Found? }

  /** Managed inbounds nobody wants any more, in the iteration order of m.ifaces. */
  function Stale(w: World, order: seq<int>, ds: seq<Desired>): seq<int> {
    Keep(order, id => Managing(w, id) && id !in Wanted(ds))
  }

  /** Owned configs nobody wants, found in directory order and not attempted just now. */
  function Orphans(e: Env, before: World, w: World, listing: seq<int>, ds: seq<Desired>): seq<int> {
    Keep(listing, id => OwnedId(e, w, id) && id !in Wanted(ds) && !Managing(before, id))
  }

  /** The two teardown loops of Reconcile. */
  function Recovered(e: Env, w: World, order: seq<int>, listing: seq<int>, ds: seq<Desired>): Result {
    var t := TeardownAll(e, w, Stale(w, order, ds));
    if t.r == Dead then t else TeardownAll(e, t.w, Orphans(e, w, t.w, listing, ds))
  }

  function Reconcile(e: Env, w: World, order: seq<int>, listing: seq<int>, ds: seq<Desired>): Result {
    var u := Recovered(e, w, order, listing, ds);
    if u.r == Dead then u else EnsureAll(e, u.w, ds)
  }

  /** PrimeAdoptedTrafficBaseline: consumes the pending adoption of exactly this generation. */
  function Prime(w: World, id: int, generation: int): (World, bool) {
    var slot := At(w, id);
    if slot.entry.Some? && slot.entry.value.generation == generation && slot.entry.value.pending && slot.link.Some? then
      (w.(slots := w.slots[id := slot.(entry := Some(slot.entry.value.(pending := false)))], primed := w.primed + [generation]), true)
    else (w, false)
  }

  /** A fresh process: nothing managed, generations start over. */
  function Restart(w: World): World {
    World(map id | id in w.slots :: w.slots[id].(entry := None), w.shared.(generation := 0), [])
  }

  /** A reboot keeps the config directory and nothing else. */
  function Reboot(w: World): World {
    World(map id | id in w.slots :: Slot(w.slots[id].file, None, NoTable, None),
          Shared([], false, false, 0, w.shared.tick), [])
  }

  datatype Op =
    | EnsureOp(d: Desired)
    | RemoveOp(id: int)
    | ReconcileOp(order: seq<int>, listing: seq<int>, ds: seq<Desired>)
    | StopAllOp(order: seq<int>)
    | PrimeOp(id: int, generation: int)
    | LinkLostOp(id: int)
    | RestartOp
    | RebootOp

  function Settle(t: Result): World { if t.r == Dead then Restart(t.w) else t.w }

  function Do(e: Env, w: World, op: Op): World {
    match op
    case EnsureOp(d) => Settle(EnsureAt(e, w, d))
    case RemoveOp(id) => Settle(TeardownAt(e, w, id))
    case ReconcileOp(order, listing, ds) => Settle(Reconcile(e, w, order, listing, ds))
    case StopAllOp(order) => Settle(TeardownAll(e, w, Keep(order, id => Managing(w, id))))
    case PrimeOp(id, g) => Prime(w, id, g).0
    case LinkLostOp(id) => w.(slots := w.slots[id := At(w, id).(link := None)])
    case RestartOp => Restart(w)
    case RebootOp => Reboot(w)
  }

  function Run(e: Env, w: World, ops: seq<Op>): World
    decreases |ops|
  {
    if ops == [] then w else Do(e, Run(e, w, ops[..|ops| - 1]), ops[|ops| - 1])
  }

  // ---- the write-ahead record, over every run ------------------------------------------------

  predicate LegitDesired(c: Codec, d: Desired, keyed: bool) { d.spec.Some? ==> Legit(c, d.spec.value, d.id, keyed) }

  predicate LegitAll(c: Codec, ds: seq<Desired>, keyed: bool) { forall d :: d in ds ==> LegitDesired(c, d, keyed) }

  predicate LegitOp(c: Codec, op: Op, keyed: bool) {
    match op
    case EnsureOp(d) => LegitDesired(c, d, keyed)
    case ReconcileOp(_, _, ds) => LegitAll(c, ds, keyed)
    case _ => true
  }

  ghost predicate AllSound(c: Codec, w: World, keyed: bool) { forall id :: Sound(c, At(w, id), id, keyed) }

  lemma PutIsSound(c: Codec, w: World, id: int, v: View, keyed: bool)
    requires AllSound(c, w, keyed) && Sound(c, v.slot, id, keyed)
    ensures AllSound(c, Put(w, id, v), keyed)
  {
    forall j ensures Sound(c, At(Put(w, id, v), j), j, keyed) {
      assert Sound(c, At(w, j), j, keyed);
    }
  }

  lemma TeardownAtIsSound(e: Env, w: World, id: int, keyed: bool)
    requires AllSound(e.codec, w, keyed)
    ensures AllSound(e.codec, TeardownAt(e, w, id).w, keyed)
  {
    TeardownIsSound(e, ViewAt(w, id), id, keyed);
    PutIsSound(e.codec, w, id, Teardown(e, ViewAt(w, id), id).v, keyed);
  }

  lemma EnsureAtIsSound(e: Env, w: World, d: Desired, keyed: bool)
    requires AllSound(e.codec, w, keyed) && LegitDesired(e.codec, d, keyed)
    ensures AllSound(e.codec, EnsureAt(e, w, d).w, keyed)
  {
    if d.spec.Some? {
      EnsureIsSound(e, ViewAt(w, d.id), d.spec.value, keyed);
      PutIsSound(e.codec, w, d.id, Ensure(e, ViewAt(w, d.id), d.spec.value).v, keyed);
    }
  }

  lemma {:induction false} TeardownAllIsSound(e: Env, w: World, ids: seq<int>, keyed: bool)
    requires AllSound(e.codec, w, keyed)
    ensures AllSound(e.codec, TeardownAll(e, w, ids).w, keyed)
    decreases |ids|
  {
    if ids != [] {
      TeardownAtIsSound(e, w, ids[0], keyed);
      TeardownAllIsSound(e, TeardownAt(e, w, ids[0]).w, ids[1..], keyed);
    }
  }

  lemma {:induction false} EnsureAllIsSound(e: Env, w: World, ds: seq<Desired>, keyed: bool)
    requires AllSound(e.codec, w, keyed) && LegitAll(e.codec, ds, keyed)
    ensures AllSound(e.codec, EnsureAll(e, w, ds).w, keyed)
    decreases |ds|
  {
    if ds != [] {
      assert ds[0] in ds;
      EnsureAtIsSound(e, w, ds[0], keyed);
      EnsureAllIsSound(e, EnsureAt(e, w, ds[0]).w, ds[1..], keyed);
    }
  }

  lemma RestartIsSound(c: Codec, w: World, keyed: bool)
    requires AllSound(c, w, keyed)
    ensures AllSound(c, Restart(w), keyed) && AllSound(c, Reboot(w), keyed)
  {
    forall j ensures Sound(c, At(Restart(w), j), j, keyed) && Sound(c, At(Reboot(w), j), j, keyed) {
      assert Sound(c, At(w, j), j, keyed);
    }
  }

  lemma OutsideIsSound(c: Codec, w: World, id: int, generation: int, keyed: bool)
    requires AllSound(c, w, keyed)
    ensures AllSound(c, Prime(w, id, generation).0, keyed)
    ensures AllSound(c, w.(slots := w.slots[id := At(w, id).(link := None)]), keyed)
  {
    var p := Prime(w, id, generation).0;
    var l := w.(slots := w.slots[id := At(w, id).(link := None)]);
    forall j ensures Sound(c, At(p, j), j, keyed) && Sound(c, At(l, j), j, keyed) {
      assert Sound(c, At(w, j), j, keyed);
    }
  }

  lemma DoIsSound(e: Env, w: World, op: Op, keyed: bool)
    requires AllSound(e.codec, w, keyed) && LegitOp(e.codec, op, keyed)
    ensures AllSound(e.codec, Do(e, w, op), keyed)
  {
    match op
    case EnsureOp(d) =>
      EnsureAtIsSound(e, w, d, keyed);
      RestartIsSound(e.codec, EnsureAt(e, w, d).w, keyed);
    case RemoveOp(id) =>
      TeardownAtIsSound(e, w, id, keyed);
      RestartIsSound(e.codec, TeardownAt(e, w, id).w, keyed);
    case ReconcileOp(order, listing, ds) =>
      var t := TeardownAll(e, w, Stale(w, order, ds));
      var u := Recovered(e, w, order, listing, ds);
      TeardownAllIsSound(e, w, Stale(w, order, ds), keyed);
      if t.r != Dead {
        TeardownAllIsSound(e, t.w, Orphans(e, w, t.w, listing, ds), keyed);
      }
      EnsureAllIsSound(e, u.w, ds, keyed);
      RestartIsSound(e.codec, Reconcile(e, w, order, listing, ds).w, keyed);
    case StopAllOp(order) =>
      var a := Keep(order, id => Managing(w, id));
      TeardownAllIsSound(e, w, a, keyed);
      RestartIsSound(e.codec, TeardownAll(e, w, a).w, keyed);
    case PrimeOp(id, g) => OutsideIsSound(e.codec, w, id, g, keyed);
    case LinkLostOp(id) => OutsideIsSound(e.codec, w, id, 0, keyed);
    case RestartOp => RestartIsSound(e.codec, w, keyed);
    case RebootOp => RestartIsSound(e.codec, w, keyed);
  }

  /** In every run, whatever command fails or kills the process, every link or NAT table the manager made
      has its owned config on disk; with a usable private key, if every spec has one. */
  lemma {:induction false} RunIsSound(e: Env, w: World, ops: seq<Op>, keyed: bool)
    requires AllSound(e.codec, w, keyed) && forall op :: op in ops ==> LegitOp(e.codec, op, keyed)
    ensures AllSound(e.codec, Run(e, w, ops), keyed)
    decreases |ops|
  {
    if ops != [] {
      RunIsSound(e, w, ops[..|ops| - 1], keyed);
      DoIsSound(e, Run(e, w, ops[..|ops| - 1]), ops[|ops| - 1], keyed);
    }
  }

  // ---- the key match, over every run that stays off the stale-entry path ---------------------

  ghost predicate AllKeys(c: Codec, w: World) { forall id :: KeyMatch(c, At(w, id)) }

  predicate StaleFree(e: Env, w: World, d: Desired) {
    d.spec.Some? ==> !StaleGuard(e.codec, At(w, d.id), d.spec.value)
  }

  predicate StaleFreeAll(e: Env, w: World, ds: seq<Desired>)
    decreases |ds|
  {
    ds == [] || (StaleFree(e, w, ds[0]) && StaleFreeAll(e, EnsureAt(e, w, ds[0]).w, ds[1..]))
  }

  /** No Ensure of this operation is called while the stale-entry guard holds. */
  predicate StaleFreeOp(e: Env, w: World, op: Op) {
    match op
    case EnsureOp(d) => StaleFree(e, w, d)
    case ReconcileOp(order, listing, ds) => StaleFreeAll(e, Recovered(e, w, order, listing, ds).w, ds)
    case _ => true
  }

  predicate StaleFreeRun(e: Env, w: World, ops: seq<Op>)
    decreases |ops|
  {
    ops == [] ||
    (var before := ops[..|ops| - 1];
     StaleFreeRun(e, w, before) && StaleFreeOp(e, Run(e, w, before), ops[|ops| - 1]))
  }

  lemma TeardownAtKeepsKeys(e: Env, w: World, id: int)
    requires AllKeys(e.codec, w)
    ensures AllKeys(e.codec, TeardownAt(e, w, id).w)
  {
    TeardownKeepsKey(e, ViewAt(w, id), id);
    PutKeepsKeys(e.codec, w, id, Teardown(e, ViewAt(w, id), id).v);
  }

  lemma PutKeepsKeys(c: Codec, w: World, id: int, v: View)
    requires AllKeys(c, w) && KeyMatch(c, v.slot)
    ensures AllKeys(c, Put(w, id, v))
  {
    forall j ensures KeyMatch(c, At(Put(w, id, v), j)) {
      assert KeyMatch(c, At(w, j));
    }
  }

  lemma EnsureAtKeepsKeys(e: Env, w: World, d: Desired)
    requires Lawful(e.codec) && AllKeys(e.codec, w) && LegitDesired(e.codec, d, false) && StaleFree(e, w, d)
    ensures AllKeys(e.codec, EnsureAt(e, w, d).w)
  {
    if d.spec.Some? {
      EnsureKeepsKey(e, ViewAt(w, d.id), d.spec.value);
      PutKeepsKeys(e.codec, w, d.id, Ensure(e, ViewAt(w, d.id), d.spec.value).v);
    }
  }

  lemma {:induction false} TeardownAllKeepsKeys(e: Env, w: World, ids: seq<int>)
    requires AllKeys(e.codec, w)
    ensures AllKeys(e.codec, TeardownAll(e, w, ids).w)
    decreases |ids|
  {
    if ids != [] {
      TeardownAtKeepsKeys(e, w, ids[0]);
      TeardownAllKeepsKeys(e, TeardownAt(e, w, ids[0]).w, ids[1..]);
    }
  }

  lemma {:induction false} EnsureAllKeepsKeys(e: Env, w: World, ds: seq<Desired>)
    requires Lawful(e.codec) && AllKeys(e.codec, w) && LegitAll(e.codec, ds, false) && StaleFreeAll(e, w, ds)
    ensures AllKeys(e.codec, EnsureAll(e, w, ds).w)
    decreases |ds|
  {
    if ds != [] {
      assert ds[0] in ds;
      EnsureAtKeepsKeys(e, w, ds[0]);
      EnsureAllKeepsKeys(e, EnsureAt(e, w, ds[0]).w, ds[1..]);
    }
  }

  lemma OutsideKeepsKeys(c: Codec, w: World, id: int, generation: int)
    requires AllKeys(c, w)
    ensures AllKeys(c, Restart(w)) && AllKeys(c, Reboot(w)) && AllKeys(c, Prime(w, id, generation).0)
    ensures AllKeys(c, w.(slots := w.slots[id := At(w, id).(link := None)]))
  {
    var p := Prime(w, id, generation).0;
    var l := w.(slots := w.slots[id := At(w, id).(link := None)]);
    forall j ensures KeyMatch(c, At(Restart(w), j)) && KeyMatch(c, At(Reboot(w), j)) && KeyMatch(c, At(p, j)) && KeyMatch(c, At(l, j)) {
      assert KeyMatch(c, At(w, j));
    }
  }

  lemma DoKeepsKeys(e: Env, w: World, op: Op)
    requires Lawful(e.codec) && AllKeys(e.codec, w) && LegitOp(e.codec, op, false) && StaleFreeOp(e, w, op)
    ensures AllKeys(e.codec, Do(e, w, op))
  {
    match op
    case EnsureOp(d) =>
      EnsureAtKeepsKeys(e, w, d);
      OutsideKeepsKeys(e.codec, EnsureAt(e, w, d).w, 0, 0);
    case RemoveOp(id) =>
      TeardownAtKeepsKeys(e, w, id);
      OutsideKeepsKeys(e.codec, TeardownAt(e, w, id).w, 0, 0);
    case ReconcileOp(order, listing, ds) =>
      var t := TeardownAll(e, w, Stale(w, order, ds));
      var u := Recovered(e, w, order, listing, ds);
      TeardownAllKeepsKeys(e, w, Stale(w, order, ds));
      if t.r != Dead {
        TeardownAllKeepsKeys(e, t.w, Orphans(e, w, t.w, listing, ds));
      }
      EnsureAllKeepsKeys(e, u.w, ds);
      OutsideKeepsKeys(e.codec, Reconcile(e, w, order, listing, ds).w, 0, 0);
    case StopAllOp(order) =>
      var a := Keep(order, id => Managing(w, id));
      TeardownAllKeepsKeys(e, w, a);
      OutsideKeepsKeys(e.codec, TeardownAll(e, w, a).w, 0, 0);
    case PrimeOp(id, g) => OutsideKeepsKeys(e.codec, w, id, g);
    case LinkLostOp(id) => OutsideKeepsKeys(e.codec, w, id, 0);
    case RestartOp => OutsideKeepsKeys(e.codec, w, 0, 0);
    case RebootOp => OutsideKeepsKeys(e.codec, w, 0, 0);
  }

  /** In every run that never calls Ensure under the stale-entry guard, every link of ours is keyless
      or carries exactly its config's key. KernelSafety.KeyLostIffStale shows the guard is exact. */
  lemma {:induction false} RunKeepsKeys(e: Env, w: World, ops: seq<Op>)
    requires Lawful(e.codec) && AllKeys(e.codec, w) && (forall op :: op in ops ==> LegitOp(e.codec, op, false))
    requires StaleFreeRun(e, w, ops)
    ensures AllKeys(e.codec, Run(e, w, ops))
    decreases |ops|
  {
    if ops != [] {
      RunKeepsKeys(e, w, ops[..|ops| - 1]);
      DoKeepsKeys(e, Run(e, w, ops[..|ops| - 1]), ops[|ops| - 1]);
    }
  }
}
