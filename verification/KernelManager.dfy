/** The controller as the code runs it: a host whose state every command changes in place, and a
    manager holding the table of managed interfaces. Each method is proved to compute exactly the
    KernelWorld step of the same name, on its own inbound and nothing else. */
module KernelManager {
  import opened Options
  import K = KernelWorld
  import R = KernelRuns

  /** The host as the fake host of the manager's tests has it. `env` fixes the fate of every command;
      commands are counted by `tick`. */
  class Host {
    const env: K.Env
    var disk: map<int, K.File>
    var links: map<int, K.Link>
    var tables: map<int, K.Table>
    var rules: seq<K.Rule>
    var moduleLoaded: bool
    var ipForward: bool
    var tick: int

    constructor (env: K.Env)
      ensures this.env == env && disk == map[] && links == map[] && tables == map[] && rules == []
    {
      this.env := env;
      disk, links, tables, rules := map[], map[], map[], [];
      moduleLoaded, ipForward, tick := false, false, 0;
    }

    function File(id: int): K.File reads this { if id in disk then disk[id] else K.Missing }

    function Link(id: int): Option<K.Link> reads this { if id in links then Some(links[id]) else None }

    function Table(id: int): K.Table reads this { if id in tables then tables[id] else K.NoTable }

    /** Draws the fate of the next command: whether it takes effect and what it returns. */
    method Next() returns (applied: bool, r: K.Status)
      modifies this`tick
      ensures tick == old(tick) + 1
      ensures var fate := env.fate(old(tick));
        && applied == (fate.Works? || fate.applied)
        && r == (if fate.Works? then K.Ok else if fate.Fails? then K.Err else K.Dead)
    {
      var fate := env.fate(tick);
      tick := tick + 1;
      applied := fate.Works? || fate.applied;
      r := if fate.Works? then K.Ok else if fate.Fails? then K.Err else K.Dead;
    }

    method SetFile(id: int, file: K.File) returns (r: K.Status)
      modifies this`tick, this`disk
      ensures tick == old(tick) + 1
      ensures var fate := env.fate(old(tick));
        && r == (if fate.Works? then K.Ok else if fate.Fails? then K.Err else K.Dead)
        && File(id) == (if fate.Works? || fate.applied then file else old(File(id)))
      ensures forall j :: j != id ==> File(j) == old(File(j))
    {
      var applied, s := Next();
      r := s;
      if applied { disk := if file.Missing? then disk - {id} else disk[id := file]; }
    }

    /** One link command: `link` is what it leaves, or what was there if the host refuses it. */
    method SetLink(id: int, accepted: bool, link: Option<K.Link>) returns (r: K.Status)
      modifies this`tick, this`links
      ensures tick == old(tick) + 1
      ensures var fate := env.fate(old(tick));
        && r == (if fate.Dies? then K.Dead else if fate.Works? && accepted then K.Ok else K.Err)
        && Link(id) == (if accepted && (fate.Works? || fate.applied) then link else old(Link(id)))
      ensures forall j :: j != id ==> Link(j) == old(Link(j))
    {
      var applied, s := Next();
      r := if s == K.Ok && !accepted then K.Err else s;
      if applied && accepted { links := if link.None? then links - {id} else links[id := link.value]; }
    }

    method SetTable(id: int, table: K.Table) returns (r: K.Status)
      modifies this`tick, this`tables
      ensures tick == old(tick) + 1
      ensures var fate := env.fate(old(tick));
        && r == (if fate.Works? then K.Ok else if fate.Fails? then K.Err else K.Dead)
        && Table(id) == (if fate.Works? || fate.applied then table else old(Table(id)))
      ensures forall j :: j != id ==> Table(j) == old(Table(j))
    {
      var applied, s := Next();
      r := s;
      if applied { tables := if table.NoTable? then tables - {id} else tables[id := table]; }
    }

    method SetRules(rules: seq<K.Rule>) returns (r: K.Status)
      modifies this`tick, this`rules
      ensures tick == old(tick) + 1
      ensures var fate := env.fate(old(tick));
        && r == (if fate.Works? then K.Ok else if fate.Fails? then K.Err else K.Dead)
        && this.rules == (if fate.Works? || fate.applied then rules else old(this.rules))
    {
      var applied, s := Next();
      r := s;
      if applied { this.rules := rules; }
    }
  }

  class Manager {
    const host: Host
    var ifaces: map<int, K.Managed>
    var generation: int

    /** A fresh manager over whatever the host holds: this is also what follows a crash. */
    constructor (host: Host)
      ensures this.host == host && ifaces == map[] && generation == 0
    {
      this.host := host;
      ifaces, generation := map[], 0;
    }

    function Slot(id: int): K.Slot
      reads this, host
    {
      K.Slot(host.File(id), host.Link(id), host.Table(id), if id in ifaces then Some(ifaces[id]) else None)
    }

    function Shared(): K.Shared
      reads this, host
    {
      K.Shared(host.rules, host.moduleLoaded, host.ipForward, generation, host.tick)
    }

    /** Inbound id's part of host and manager. */
    function View(id: int): K.View
      reads this, host
    {
      K.View(Slot(id), Shared())
    }

    /** The method did to inbound id exactly what `spec` says, and nothing to any other. */
    twostate predicate Did(id: int, r: K.Status, spec: K.Outcome)
      reads this, host
    {
      && K.Outcome(View(id), r) == spec
      && forall j :: j != id ==> Slot(j) == old(Slot(j))
    }

    // ---- commands ----------------------------------------------------------------------------

    method WriteConf(id: int, conf: string) returns (r: K.Status)
      modifies host
      ensures Did(id, r, K.WriteConf(host.env, old(View(id)), conf))
    {
      r := host.SetFile(id, K.Text(conf));
    }

    method RemoveConf(id: int) returns (r: K.Status)
      modifies host
      ensures Did(id, r, K.RemoveConf(host.env, old(View(id))))
    {
      r := host.SetFile(id, K.Missing);
    }

    method ApplyNat(id: int, table: K.Table) returns (r: K.Status)
      modifies host
      ensures Did(id, r, K.ApplyNat(host.env, old(View(id)), table))
    {
      r := host.SetTable(id, table);
    }

    method LinkDel(id: int) returns (r: K.Status)
      modifies host
      ensures Did(id, r, K.LinkDel(host.env, old(View(id))))
    {
      r := host.SetLink(id, id in host.links, None);
    }

    method LoadConf(id: int) returns (r: K.Status)
      modifies host
      ensures Did(id, r, K.LoadConf(host.env, old(View(id))))
    {
      var file, link := host.File(id), host.Link(id);
      if link.Some? && file.Text? && host.env.codec.pubkey(file.text).Some? {
        r := host.SetLink(id, true, Some(link.value.(conf := Some(file.text))));
      } else {
        r := host.SetLink(id, false, link);
      }
    }

    method RunStep(id: int, step: K.Step) returns (r: K.Status)
      modifies host
      ensures Did(id, r, K.RunStep(host.env, old(View(id)), step))
    {
      var link := host.Link(id);
      match step
      case LinkAddStep =>
        r := host.SetLink(id, link.None?, Some(K.Link(None, {}, host.env.freshMtu, false, true)));
      case SetConfStep =>
        r := LoadConf(id);
      case AddressStep(a) =>
        if link.Some? {
          r := host.SetLink(id, true, Some(link.value.(addrs := link.value.addrs + {a})));
        } else {
          r := host.SetLink(id, false, link);
        }
      case MtuUpStep(mtu) =>
        if link.Some? {
          r := host.SetLink(id, true, Some(link.value.(mtu := mtu, up := true)));
        } else {
          r := host.SetLink(id, false, link);
        }
    }

    // ---- FORWARD rules -----------------------------------------------------------------------

    /** The delete loop of removeForwardRules, one command per listed line. */
    method DeleteListed(id: int, listing: seq<K.Rule>) returns (r: K.Status)
      modifies host
      ensures Did(id, r, K.DeleteListed(host.env, old(View(id)), id, listing))
    {
      ghost var start := View(id);
      var i := 0;
      while i < |listing|
        modifies host
        invariant 0 <= i <= |listing|
        invariant K.DeleteListed(host.env, View(id), id, listing[i..]) == K.DeleteListed(host.env, start, id, listing)
        invariant forall j :: j != id ==> Slot(j) == old(Slot(j))
      {
        assert listing[i..][0] == listing[i] && listing[i..][1..] == listing[i + 1..];
        if K.Mine(listing[i], id) {
          r := host.SetRules(K.RemoveFirst(host.rules, listing[i]));
          if r == K.Dead { return; }
        }
        i := i + 1;
      }
      r := K.Ok;
    }

    method RemoveForwardRules(id: int) returns (r: K.Status)
      modifies host
      ensures Did(id, r, K.RemoveForwardRules(host.env, old(View(id)), id))
    {
      if !host.env.iptables { return K.Ok; }
      var _, listed := host.Next();
      if listed == K.Dead { return K.Dead; }
      if listed == K.Err { return K.Ok; }
      r := DeleteListed(id, host.rules);
    }

    /** The insert loop of syncForwardRules. */
    method InsertRules(id: int, rules: seq<K.Rule>) returns (r: K.Status)
      modifies host
      ensures Did(id, r, K.InsertRules(host.env, old(View(id)), rules))
    {
      ghost var start := View(id);
      var i := 0;
      while i < |rules|
        modifies host
        invariant 0 <= i <= |rules|
        invariant K.InsertRules(host.env, View(id), rules[i..]) == K.InsertRules(host.env, start, rules)
        invariant forall j :: j != id ==> Slot(j) == old(Slot(j))
      {
        assert rules[i..][0] == rules[i] && rules[i..][1..] == rules[i + 1..];
        r := host.SetRules([rules[i]] + host.rules);
        if r == K.Dead { return; }
        i := i + 1;
      }
      r := K.Ok;
    }

    method SyncForwardRules(id: int, f: K.Forward) returns (r: K.Status)
      modifies host
      ensures Did(id, r, K.SyncForwardRules(host.env, old(View(id)), id, f))
    {
      if !host.env.iptables { return K.Ok; }
      r := RemoveForwardRules(id);
      if r == K.Dead { return; }
      r := InsertRules(id, K.Accepts(id, f));
    }

    method EnableForwarding(id: int) returns (r: K.Status)
      modifies host
      ensures Did(id, r, K.SetShared(host.env, old(View(id)), old(Shared()).(ipForward := true)))
    {
      var applied, s := host.Next();
      r := s;
      if applied { host.ipForward := true; }
    }

    method ApplyEgress(p: K.Spec, prev: K.Forward, natChanged: bool) returns (r: K.Status)
      modifies host
      ensures Did(p.id, r, K.ApplyEgress(host.env, old(View(p.id)), p, prev, natChanged))
    {
      if natChanged {
        r := ApplyNat(p.id, p.table);
        if r != K.Ok { return; }
      }
      if p.forward.Via? {
        r := EnableForwarding(p.id);
        if r != K.Ok { return; }
      }
      r := K.Ok;
      if prev != p.forward { r := SyncForwardRules(p.id, p.forward); }
    }

    // ---- links -------------------------------------------------------------------------------

    method CreateLink(p: K.Spec) returns (r: K.Status)
      modifies host
      ensures Did(p.id, r, K.CreateLink(host.env, old(View(p.id)), p))
    {
      if !host.moduleLoaded {
        var applied, s := host.Next();
        if applied { host.moduleLoaded := true; }
        if s != K.Ok { return s; }
      }
      var steps := K.CreateSteps(p);
      ghost var start := View(p.id);
      var i := 0;
      while i < |steps|
        modifies host
        invariant 0 <= i <= |steps|
        invariant K.RunSteps(host.env, View(p.id), steps[i..]) == K.RunSteps(host.env, start, steps)
        invariant forall j :: j != p.id ==> Slot(j) == old(Slot(j))
      {
        assert steps[i..][0] == steps[i] && steps[i..][1..] == steps[i + 1..];
        r := RunStep(p.id, steps[i]);
        if r != K.Ok { return; }
        i := i + 1;
      }
      r := K.Ok;
    }

    method DeleteLink(id: int) returns (r: K.Status)
      modifies host
      ensures Did(id, r, K.DeleteLink(host.env, old(View(id))))
    {
      r := LinkDel(id);
      if r != K.Dead { r := if id in host.links then K.Err else K.Ok; }
    }

    method VerifyLive(id: int, conf: string) returns (r: K.Status)
      modifies host
      ensures Did(id, r, K.VerifyLive(host.env, old(View(id)), conf))
    {
      var want := host.env.codec.pubkey(conf);
      if want.None? { return K.Err; }
      var link := host.Link(id);
      var _, s := host.Next();
      r := if s != K.Dead && link.None? then K.Err else s;
      if r == K.Ok && link.value.conf.Some? && host.env.codec.pubkey(link.value.conf.value) != want { r := K.Err; }
    }

    // ---- Ensure ------------------------------------------------------------------------------

    method WriteAndLoad(id: int, conf: string) returns (r: K.Status)
      modifies host
      ensures Did(id, r, K.WriteAndLoad(host.env, old(View(id)), conf))
    {
      r := WriteConf(id, conf);
      if r == K.Ok { r := LoadConf(id); }
    }

    method Reconfigure(prev: K.Spec, p: K.Spec) returns (r: K.Status)
      modifies host
      ensures Did(p.id, r, K.Reconfigure(host.env, old(View(p.id)), prev, p))
    {
      if prev.conf != p.conf {
        r := WriteAndLoad(p.id, p.conf);
        if r != K.Ok { return; }
      }
      r := ApplyEgress(p, prev.forward, prev.table != p.table);
    }

    method Adopt(p: K.Spec) returns (r: K.Status)
      modifies host
      ensures Did(p.id, r, K.Adopt(host.env, old(View(p.id)), p))
    {
      r := WriteAndLoad(p.id, p.conf);
      if r == K.Ok { r := ApplyEgress(p, K.Unknown, true); }
    }

    method BuildLink(p: K.Spec) returns (r: K.Status)
      modifies host
      ensures Did(p.id, r, K.BuildLink(host.env, old(View(p.id)), p))
    {
      r := CreateLink(p);
      if r == K.Err && p.id in host.links {
        r := LinkDel(p.id);
        if r != K.Dead { r := K.Err; }
      }
    }

    method Rebuild(p: K.Spec) returns (r: K.Status)
      modifies this, host
      ensures Did(p.id, r, K.Rebuild(host.env, old(View(p.id)), p))
    {
      if p.id in host.links {
        r := DeleteLink(p.id);
        if r != K.Ok { return; }
      }
      r := WriteConf(p.id, p.conf);
      if r != K.Ok { return; }
      r := BuildLink(p);
      if r != K.Ok { return; }
      r := ApplyEgress(p, if p.id in ifaces then ifaces[p.id].spec.forward else K.Unknown, true);
      if r != K.Ok { return; }
      NewManaged(p, false);
    }

    method NewManaged(p: K.Spec, adopted: bool)
      modifies this
      ensures View(p.id) == K.Manage(old(View(p.id)), p, adopted)
      ensures forall j :: j != p.id ==> Slot(j) == old(Slot(j))
    {
      generation := generation + 1;
      ifaces := ifaces[p.id := K.Managed(p, generation, adopted)];
    }

    method Converge(p: K.Spec) returns (r: K.Status)
      modifies this, host
      ensures Did(p.id, r, K.Converge(host.env, old(View(p.id)), p))
    {
      var slot := Slot(p.id);
      if K.InPlace(host.env.codec, slot, p) {
        r := Reconfigure(slot.entry.value.spec, p);
        if r == K.Ok { ifaces := ifaces[p.id := ifaces[p.id].(spec := p)]; }
        return;
      }
      if K.Adoptable(host.env.codec, slot, p) {
        r := Adopt(p);
        if r == K.Dead { return; }
        if r == K.Ok {
          NewManaged(p, true);
          return;
        }
      }
      r := Rebuild(p);
    }

    /** ensureLocked, for a spec buildSpec produced. */
    method Ensure(p: K.Spec) returns (r: K.Status)
      modifies this, host
      ensures Did(p.id, r, K.Ensure(host.env, old(View(p.id)), p))
    {
      var owned := K.ReadOwned(host.env.codec, host.File(p.id), p.id);
      if owned.Refuse? { return K.Err; }
      if p.id in host.links && p.id !in ifaces {
        if owned.Absent? { return K.Err; }
        r := VerifyLive(p.id, owned.conf);
        if r != K.Ok { return; }
      }
      r := Converge(p);
    }

    // ---- teardown ----------------------------------------------------------------------------

    method StopLink(id: int, owned: K.Read) returns (r: K.Status)
      modifies host
      ensures Did(id, r, K.StopLink(host.env, old(View(id)), owned))
    {
      if id !in host.links { return K.Ok; }
      if owned.Found? {
        r := VerifyLive(id, owned.conf);
        if r != K.Ok { return; }
      }
      r := DeleteLink(id);
    }

    method Teardown(id: int) returns (r: K.Status)
      modifies this, host
      ensures Did(id, r, K.Teardown(host.env, old(View(id)), id))
    {
      var owned := K.ReadOwned(host.env.codec, host.File(id), id);
      if owned.Refuse? { return K.Err; }
      if owned.Absent? && id !in ifaces {
        return if id in host.links then K.Err else K.Ok;
      }
      r := StopLink(id, owned);
      if r == K.Ok { r := Clear(id, owned.Found?); }
    }

    method Clear(id: int, found: bool) returns (r: K.Status)
      modifies this, host
      ensures Did(id, r, K.Clear(host.env, old(View(id)), id, found))
    {
      r := ApplyNat(id, K.NoTable);
      if r != K.Ok { return; }
      r := RemoveForwardRules(id);
      if r == K.Dead { return; }
      if found {
        r := RemoveConf(id);
        if r != K.Ok { return; }
      }
      ifaces := ifaces - {id};
    }

    // ---- Reconcile ---------------------------------------------------------------------------

    /** The abstract world: `w` has exactly this manager's slots and shared state. */
    ghost predicate Shows(w: R.World)
      reads this, host
    {
      w.shared == Shared() && forall id :: R.At(w, id) == Slot(id)
    }

    /** Tears down the given ids in turn; only a crash ends the loop early. */
    method TeardownAll(ids: seq<int>, ghost w: R.World) returns (r: K.Status)
      requires Shows(w)
      modifies this, host
      ensures Shows(R.TeardownAll(host.env, w, ids).w) && r == R.TeardownAll(host.env, w, ids).r
    {
      ghost var now := w;
      var i := 0;
      while i < |ids|
        invariant 0 <= i <= |ids| && Shows(now)
        invariant R.TeardownAll(host.env, now, ids[i..]) == R.TeardownAll(host.env, w, ids)
      {
        assert ids[i..][0] == ids[i] && ids[i..][1..] == ids[i + 1..];
        r := Teardown(ids[i]);
        now := R.TeardownAt(host.env, now, ids[i]).w;
        if r == K.Dead { return; }
        i := i + 1;
      }
      r := K.Ok;
    }

    method EnsureAll(ds: seq<K.Desired>, ghost w: R.World) returns (r: K.Status)
      requires Shows(w)
      requires forall d :: d in ds && d.spec.Some? ==> d.spec.value.id == d.id
      modifies this, host
      ensures Shows(R.EnsureAll(host.env, w, ds).w) && r == R.EnsureAll(host.env, w, ds).r
    {
      ghost var now := w;
      var i := 0;
      while i < |ds|
        invariant 0 <= i <= |ds| && Shows(now)
        invariant R.EnsureAll(host.env, now, ds[i..]) == R.EnsureAll(host.env, w, ds)
      {
        assert ds[i..][0] == ds[i] && ds[i..][1..] == ds[i + 1..];
        if ds[i].spec.Some? {
          r := Ensure(ds[i].spec.value);
          now := R.EnsureAt(host.env, now, ds[i]).w;
          if r == K.Dead { return; }
        }
        i := i + 1;
      }
      r := K.Ok;
    }

    /** `order` and `listing` are the iteration orders of the ifaces map and the config directory. */
    method Reconcile(order: seq<int>, listing: seq<int>, ds: seq<K.Desired>, ghost w: R.World) returns (r: K.Status)
      requires Shows(w)
      requires forall d :: d in ds && d.spec.Some? ==> d.spec.value.id == d.id
      modifies this, host
      ensures Shows(R.Reconcile(host.env, w, order, listing, ds).w) && r == R.Reconcile(host.env, w, order, listing, ds).r
    {
      var want := R.Wanted(ds);
      var managed := ifaces.Keys;
      var stale := R.Keep(order, id => id in managed && id !in want);
      SameKeep(order, id => id in managed && id !in want, id => R.Managing(w, id) && id !in want);
      r := TeardownAll(stale, w);
      if r == K.Dead { return; }
      ghost var t := R.TeardownAll(host.env, w, stale).w;
      var disk, codec := host.disk, host.env.codec;
      var owned := id => id > 0 && K.ReadOwned(codec, if id in disk then disk[id] else K.Missing, id).Found?
                         && id !in want && id !in managed;
      SameKeep(listing, owned, id => R.OwnedId(host.env, t, id) && id !in want && !R.Managing(w, id));
      r := TeardownAll(R.Keep(listing, owned), t);
      if r == K.Dead { return; }
      r := EnsureAll(ds, R.Recovered(host.env, w, order, listing, ds).w);
    }
  }

  lemma SameKeep(ids: seq<int>, f: int -> bool, g: int -> bool)
    requires forall x :: f(x) == g(x)
    ensures R.Keep(ids, f) == R.Keep(ids, g)
  {
    if ids != [] {
      SameKeep(ids[1..], f, g);
    }
  }
}
