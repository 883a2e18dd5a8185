/** Which addresses a peer was seen from lately: the collector's per-peer lists, compacted and updated in
    place, against the plain log of accepted sightings. */
module EndpointWindow {
  import opened TrafficCollector

  datatype Sighting = Sighting(addr: string, seen: int)

  type Endpoints = map<string, seq<Sighting>>

  /** One ObserveEndpoints call; `cutoff` is now minus the window. */
  datatype Observation = Observation(iface: string, stats: seq<PeerStat>, now: int, cutoff: int)

  function Recent(list: seq<Sighting>, cutoff: int): seq<Sighting> {
    if list == [] then [] else (if list[0].seen >= cutoff then [list[0]] else []) + Recent(list[1..], cutoff)
  }

  predicate Accepted(s: PeerStat, o: Observation) { s.host != "" && s.handshake > 0 && o.cutoff <= s.handshake <= o.now }

  function Raised(e: Sighting, addr: string, seen: int): Sighting {
    if e.addr == addr && seen > e.seen then Sighting(addr, seen) else e
  }

  function Raise(list: seq<Sighting>, addr: string, seen: int): seq<Sighting> {
    if list == [] then []
    else [Raised(list[0], addr, seen)] + Raise(list[1..], addr, seen)
  }

  predicate Lists(list: seq<Sighting>, addr: string) { exists i :: 0 <= i < |list| && list[i].addr == addr }

  function Touch(list: seq<Sighting>, addr: string, seen: int): seq<Sighting> {
    Raise(list, addr, seen) + (if Lists(list, addr) then [] else [Sighting(addr, seen)])
  }

  function At(m: Endpoints, k: string): seq<Sighting> { if k in m then m[k] else [] }

  function PruneUnder(m: Endpoints, iface: string, cutoff: int): Endpoints {
    map k | k in m && (Under(k, iface) ==> Recent(m[k], cutoff) != []) :: if Under(k, iface) then Recent(m[k], cutoff) else m[k]
  }

  /** One row of the dump, as the map and as the log take it. */
  function ObserveRow(m: Endpoints, o: Observation, s: PeerStat): Endpoints {
    var k := Key(o.iface, s.publicKey);
    if Accepted(s, o) then m[k := Touch(At(m, k), s.host, s.handshake)] else m
  }

  function LogRow(o: Observation, s: PeerStat, publicKey: string): set<Sighting> {
    if s.publicKey == publicKey && Accepted(s, o) then {Sighting(s.host, s.handshake)} else {}
  }

  function ObserveRows(m: Endpoints, o: Observation, stats: seq<PeerStat>): Endpoints
    decreases |stats|
  {
    if stats == [] then m else ObserveRows(ObserveRow(m, o, stats[0]), o, stats[1..])
  }

  function Observe(m: Endpoints, o: Observation): Endpoints { ObserveRows(PruneUnder(m, o.iface, o.cutoff), o, o.stats) }

  function ObserveAll(m: Endpoints, run: seq<Observation>): Endpoints
    decreases |run|
  {
    if run == [] then m else ObserveAll(Observe(m, run[0]), run[1..])
  }

  // ---- the log -------------------------------------------------------------------------------

  function RowLog(o: Observation, stats: seq<PeerStat>, publicKey: string): set<Sighting> {
    if stats == [] then {}
    else LogRow(o, stats[0], publicKey) + RowLog(o, stats[1..], publicKey)
  }

  /** Every sighting of one peer any observation of its interface accepted. */
  function Log(run: seq<Observation>, iface: string, publicKey: string): set<Sighting> {
    if run == [] then {}
    else (if run[0].iface == iface then RowLog(run[0], run[0].stats, publicKey) else {}) + Log(run[1..], iface, publicKey)
  }

  /** The list shows the log's window: an address is listed exactly when some logged sighting of it is no
      older than the cutoff, once, with its latest handshake. */
  predicate Shows(list: seq<Sighting>, log: set<Sighting>, cutoff: int) {
    OnceEach(list) && Logged(list, log, cutoff) && Latest(list, log) && Complete(list, log, cutoff)
  }

  predicate OnceEach(list: seq<Sighting>) { forall i, j :: 0 <= i < j < |list| ==> list[i].addr != list[j].addr }

  predicate Logged(list: seq<Sighting>, log: set<Sighting>, cutoff: int) {
    forall i :: 0 <= i < |list| ==> list[i] in log && list[i].seen >= cutoff
  }

  predicate Latest(list: seq<Sighting>, log: set<Sighting>) {
    forall i, f :: 0 <= i < |list| && f in log && f.addr == list[i].addr ==> f.seen <= list[i].seen
  }

  predicate Complete(list: seq<Sighting>, log: set<Sighting>, cutoff: int) {
    forall f :: f in log && f.seen >= cutoff ==> Lists(list, f.addr)
  }

  lemma {:induction false} RecentSelects(list: seq<Sighting>, log: set<Sighting>, cutoff: int, next: int)
    requires Shows(list, log, cutoff) && cutoff <= next
    ensures Shows(Recent(list, next), log, next)
  {
    RecentIs(list, next);
    var r := Recent(list, next);
    forall f | f in log && f.seen >= next ensures Lists(r, f.addr) {
      var i :| 0 <= i < |list| && list[i].addr == f.addr;
      assert list[i] in r;
    }
    forall i, j | 0 <= i < j < |r| ensures r[i].addr != r[j].addr {
      assert r[i] in list && r[j] in list;
      RecentDistinct(list, next, i, j);
    }
    forall i | 0 <= i < |r| ensures r[i] in log && r[i].seen >= next {
      assert r[i] in r;
    }
    forall i, f | 0 <= i < |r| && f in log && f.addr == r[i].addr ensures f.seen <= r[i].seen {
      assert r[i] in r;
    }
  }

  lemma {:induction false} RecentIs(list: seq<Sighting>, cutoff: int)
    ensures forall e :: e in Recent(list, cutoff) <==> e in list && e.seen >= cutoff
  {
    if list != [] {
      RecentIs(list[1..], cutoff);
      assert forall e :: e in list <==> e == list[0] || e in list[1..];
    }
  }

  lemma {:induction false} RecentDistinct(list: seq<Sighting>, cutoff: int, i: nat, j: nat)
    requires forall i, j :: 0 <= i < j < |list| ==> list[i].addr != list[j].addr
    requires i < j < |Recent(list, cutoff)|
    ensures Recent(list, cutoff)[i].addr != Recent(list, cutoff)[j].addr
  {
    var rest := Recent(list[1..], cutoff);
    RecentIs(list[1..], cutoff);
    if list[0].seen < cutoff {
      RecentDistinct(list[1..], cutoff, i, j);
    } else if i > 0 {
      RecentDistinct(list[1..], cutoff, i - 1, j - 1);
    } else {
      assert rest[j - 1] in rest;
      var k :| 0 <= k < |list[1..]| && list[1..][k] == rest[j - 1];
      assert list[k + 1] == rest[j - 1];
    }
  }

  lemma {:induction false} RaiseAt(list: seq<Sighting>, addr: string, seen: int)
    ensures |Raise(list, addr, seen)| == |list|
    ensures forall i :: 0 <= i < |list| ==> Raise(list, addr, seen)[i] == Raised(list[i], addr, seen)
  {
    if list != [] {
      RaiseAt(list[1..], addr, seen);
    }
  }

  lemma RaisedKeeps(e: Sighting, addr: string, seen: int)
    ensures
      var r := Raised(e, addr, seen);
      r.addr == e.addr && r.seen >= e.seen && (e.addr == addr ==> r.seen >= seen) && (r == e || r == Sighting(addr, seen))
  {
  }

  lemma RaisePairs(list: seq<Sighting>, addr: string, seen: int)
    ensures
      var t := Raise(list, addr, seen);
      |t| == |list| && forall i :: 0 <= i < |t| ==>
        t[i].addr == list[i].addr && t[i].seen >= list[i].seen && (t[i].addr == addr ==> t[i].seen >= seen)
        && (t[i] == list[i] || t[i] == Sighting(addr, seen))
  {
    RaiseAt(list, addr, seen);
    forall i | 0 <= i < |list| ensures Raise(list, addr, seen)[i] == Raised(list[i], addr, seen) {
      RaisedKeeps(list[i], addr, seen);
    }
  }

  lemma RaiseLatest(list: seq<Sighting>, log: set<Sighting>, addr: string, seen: int)
    requires Latest(list, log)
    ensures Latest(Raise(list, addr, seen), log + {Sighting(addr, seen)})
  {
    var t, logged := Raise(list, addr, seen), log + {Sighting(addr, seen)};
    RaisePairs(list, addr, seen);
    forall i, f | 0 <= i < |t| && f in logged && f.addr == t[i].addr ensures f.seen <= t[i].seen {
      assert f in log ==> f.seen <= list[i].seen;
    }
  }

  lemma RaiseComplete(list: seq<Sighting>, log: set<Sighting>, cutoff: int, addr: string, seen: int)
    requires Complete(list, log, cutoff) && Lists(list, addr)
    ensures Complete(Raise(list, addr, seen), log + {Sighting(addr, seen)}, cutoff)
  {
    var t, logged := Raise(list, addr, seen), log + {Sighting(addr, seen)};
    RaisePairs(list, addr, seen);
    forall f | f in logged && f.seen >= cutoff ensures Lists(t, f.addr) {
      assert Lists(list, f.addr);
      var i :| 0 <= i < |list| && list[i].addr == f.addr;
      assert t[i].addr == f.addr;
    }
  }

  lemma {:induction false} RaiseShows(list: seq<Sighting>, log: set<Sighting>, cutoff: int, addr: string, seen: int)
    requires Shows(list, log, cutoff) && seen >= cutoff && Lists(list, addr)
    ensures Shows(Raise(list, addr, seen), log + {Sighting(addr, seen)}, cutoff)
  {
    RaisePairs(list, addr, seen);
    RaiseLatest(list, log, addr, seen);
    RaiseComplete(list, log, cutoff, addr, seen);
  }

  lemma AppendShows(list: seq<Sighting>, log: set<Sighting>, cutoff: int, e: Sighting)
    requires Shows(list, log, cutoff) && e.seen >= cutoff && !Lists(list, e.addr)
    ensures Shows(list + [e], log + {e}, cutoff)
  {
    var t, logged := list + [e], log + {e};
    assert forall f :: f in log && f.addr == e.addr ==> f.seen < cutoff;
    forall f | f in logged && f.seen >= cutoff ensures Lists(t, f.addr) {
      if f == e {
        assert t[|list|].addr == f.addr;
      } else {
        var i :| 0 <= i < |list| && list[i].addr == f.addr;
        assert t[i].addr == f.addr;
      }
    }
  }

  lemma TouchShows(list: seq<Sighting>, log: set<Sighting>, cutoff: int, addr: string, seen: int)
    requires Shows(list, log, cutoff) && seen >= cutoff
    ensures Shows(Touch(list, addr, seen), log + {Sighting(addr, seen)}, cutoff)
  {
    RaiseAt(list, addr, seen);
    if Lists(list, addr) {
      RaiseShows(list, log, cutoff, addr, seen);
      assert Touch(list, addr, seen) == Raise(list, addr, seen);
    } else {
      AppendShows(list, log, cutoff, Sighting(addr, seen));
      assert Raise(list, addr, seen) == list;
    }
  }

  // ---- the map and the log agree -------------------------------------------------------------

  lemma RowShows(m: Endpoints, o: Observation, s: PeerStat, publicKey: string, log: set<Sighting>)
    requires '/' !in o.iface && Shows(At(m, Key(o.iface, publicKey)), log, o.cutoff)
    ensures Shows(At(ObserveRow(m, o, s), Key(o.iface, publicKey)), log + LogRow(o, s, publicKey), o.cutoff)
  {
    KeyInjective(o.iface, s.publicKey, o.iface, publicKey);
    assert log + {} == log;
    if s.publicKey == publicKey && Accepted(s, o) {
      TouchShows(At(m, Key(o.iface, publicKey)), log, o.cutoff, s.host, s.handshake);
    }
  }

  lemma {:induction false} RowsShow(m: Endpoints, o: Observation, stats: seq<PeerStat>, publicKey: string, log: set<Sighting>)
    requires '/' !in o.iface && Shows(At(m, Key(o.iface, publicKey)), log, o.cutoff)
    ensures Shows(At(ObserveRows(m, o, stats), Key(o.iface, publicKey)), log + RowLog(o, stats, publicKey), o.cutoff)
    decreases |stats|
  {
    if stats == [] {
      assert log + {} == log;
    } else {
      var here, rest := LogRow(o, stats[0], publicKey), RowLog(o, stats[1..], publicKey);
      RowShows(m, o, stats[0], publicKey, log);
      RowsShow(ObserveRow(m, o, stats[0]), o, stats[1..], publicKey, log + here);
      assert (log + here) + rest == log + (here + rest);
    }
  }

  lemma {:induction false} RowsElsewhere(m: Endpoints, o: Observation, stats: seq<PeerStat>, k: string)
    requires !Under(k, o.iface)
    ensures At(ObserveRows(m, o, stats), k) == At(m, k)
    decreases |stats|
  {
    if stats != [] {
      assert Under(Key(o.iface, stats[0].publicKey), o.iface);
      RowsElsewhere(ObserveRow(m, o, stats[0]), o, stats[1..], k);
    }
  }

  /** One interface's windows never move back: a clock that does not go back, and one window. */
  predicate Steady(run: seq<Observation>) {
    && (forall i :: 0 <= i < |run| ==> '/' !in run[i].iface)
    && (forall i, j :: 0 <= i < j < |run| ==> run[i].cutoff <= run[j].cutoff)
  }

  /** The cutoff of the interface's latest observation. */
  function LastCutoff(run: seq<Observation>, iface: string, start: int): int
    decreases |run|
  {
    if run == [] then start else LastCutoff(run[1..], iface, if run[0].iface == iface then run[0].cutoff else start)
  }

  lemma {:induction false} RunShows(m: Endpoints, run: seq<Observation>, iface: string, publicKey: string, log: set<Sighting>, start: int)
    requires '/' !in iface && Steady(run) && Shows(At(m, Key(iface, publicKey)), log, start)
    requires forall i :: 0 <= i < |run| ==> start <= run[i].cutoff
    ensures Shows(At(ObserveAll(m, run), Key(iface, publicKey)), log + Log(run, iface, publicKey), LastCutoff(run, iface, start))
    decreases |run|
  {
    if run == [] {
      assert log + {} == log;
    } else {
      var o, k := run[0], Key(iface, publicKey);
      var here := if o.iface == iface then RowLog(o, o.stats, publicKey) else {};
      var pruned := PruneUnder(m, o.iface, o.cutoff);
      KeyBelongs(iface, publicKey, o.iface);
      if o.iface == iface {
        RecentSelects(At(m, k), log, start, o.cutoff);
        assert At(pruned, k) == Recent(At(m, k), o.cutoff);
        RowsShow(pruned, o, o.stats, publicKey, log);
      } else {
        RowsElsewhere(pruned, o, o.stats, k);
        assert log + {} == log;
      }
      RunShows(Observe(m, o), run[1..], iface, publicKey, log + here, if o.iface == iface then o.cutoff else start);
      assert (log + here) + Log(run[1..], iface, publicKey) == log + (here + Log(run[1..], iface, publicKey));
    }
  }

  /** With a clock that never goes back and one window, the lists a run builds are the log's view at the
      interface's last observation: present exactly if sighted within the window, once, latest handshake. */
  lemma {:induction false} ListsAreTheLogView(run: seq<Observation>, iface: string, publicKey: string, start: int)
    requires '/' !in iface && Steady(run) && forall i :: 0 <= i < |run| ==> start <= run[i].cutoff
    ensures Shows(At(ObserveAll(map[], run), Key(iface, publicKey)), Log(run, iface, publicKey), LastCutoff(run, iface, start))
  {
    RunShows(map[], run, iface, publicKey, {}, start);
    assert {} + Log(run, iface, publicKey) == Log(run, iface, publicKey);
  }
}
