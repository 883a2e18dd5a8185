/** The collector object: four maps changed in place. Every method is proved against the functions
    TrafficCollector and EndpointWindow reason about. */
module KernelCollector {
  import opened Options
  import opened TrafficMeter
  import opened TrafficCollector
  import opened EndpointWindow

  /** Deletes, while ranging over a map, the interface's entries that are not to be kept. */
  method DeleteUnder<T>(m: map<string, T>, iface: string, keep: set<string>) returns (r: map<string, T>)
    ensures r == WithoutUnder(m, iface, keep)
  {
    r := m;
    var keys := m.Keys;
    while keys != {}
      invariant keys <= m.Keys
      invariant forall k :: k in r <==> k in m && (k in keys || (Under(k, iface) ==> k in keep))
      invariant forall k :: k in r ==> r[k] == m[k]
      decreases |keys|
    {
      var k :| k in keys;
      if Under(k, iface) && k !in keep {
        r := r - {k};
      }
      keys := keys - {k};
    }
  }

  /** One row of a poll: what it appends and what it records. */
  lemma DeltasStep(out: seq<Delta>, last: Baselines, iface: string, stats: seq<PeerStat>)
    requires stats != []
    ensures
      var s, k := stats[0], Key(iface, stats[0].publicKey);
      var up, down := Growth(Get(last, k, Rx), s.rx), Growth(Get(last, k, Tx), s.tx);
      out + Deltas(last, iface, stats) ==
      (if up == 0 && down == 0 then out else out + [Delta(s.publicKey, up, down)]) + Deltas(last[k := Counters(s.rx, s.tx)], iface, stats[1..])
  {
    var s, k := stats[0], Key(iface, stats[0].publicKey);
    var row, rest := Delta(s.publicKey, Growth(Get(last, k, Rx), s.rx), Growth(Get(last, k, Tx), s.tx)), Deltas(last[k := Counters(s.rx, s.tx)], iface, stats[1..]);
    assert out + ([row] + rest) == (out + [row]) + rest && [] + rest == rest;
  }

  class Collector {
    var last: Baselines
    var endpoints: Endpoints
    var emails: map<string, string>
    var handshakes: map<string, int>

    constructor ()
      ensures last == map[] && endpoints == map[] && emails == map[] && handshakes == map[]
    {
      last, endpoints, emails, handshakes := map[], map[], map[], map[];
    }

    method Poll(iface: string, stats: seq<PeerStat>) returns (out: seq<Delta>)
      modifies this`last
      ensures out == Deltas(old(last), iface, stats)
      ensures last == Do(old(last), Op.Poll(iface, stats))
    {
      out := [];
      var i := 0;
      while i < |stats|
        invariant 0 <= i <= |stats|
        invariant out + Deltas(last, iface, stats[i..]) == Deltas(old(last), iface, stats)
        invariant Record(last, iface, stats[i..]) == Record(old(last), iface, stats)
      {
        var s := stats[i];
        var k := Key(iface, s.publicKey);
        assert stats[i..][0] == s && stats[i..][1..] == stats[i + 1..];
        DeltasStep(out, last, iface, stats[i..]);
        var up, down := s.rx, s.tx;
        if k in last {
          up := if s.rx < last[k].rx then s.rx else s.rx - last[k].rx;
          down := if s.tx < last[k].tx then s.tx else s.tx - last[k].tx;
        }
        last := last[k := Counters(s.rx, s.tx)];
        if up != 0 || down != 0 {
          out := out + [Delta(s.publicKey, up, down)];
        }
        i := i + 1;
      }
      assert stats[i..] == [] && out + [] == out;
    }

    method Prime(iface: string, stats: seq<PeerStat>)
      modifies this`last
      ensures last == Do(old(last), Op.Prime(iface, stats))
    {
      last := DeleteUnder(last, iface, {});
      ghost var cleared := last;
      var i := 0;
      while i < |stats|
        invariant 0 <= i <= |stats|
        invariant Record(last, iface, stats[i..]) == Record(cleared, iface, stats)
      {
        assert stats[i..][0] == stats[i] && stats[i..][1..] == stats[i + 1..];
        last := last[Key(iface, stats[i].publicKey) := Counters(stats[i].rx, stats[i].tx)];
        i := i + 1;
      }
    }

    method Forget(iface: string)
      modifies this
      ensures last == Do(old(last), Op.Forget(iface))
      ensures endpoints == WithoutUnder(old(endpoints), iface, {})
      ensures emails == WithoutUnder(old(emails), iface, {})
      ensures handshakes == WithoutUnder(old(handshakes), iface, {})
    {
      last := DeleteUnder(last, iface, {});
      endpoints := DeleteUnder(endpoints, iface, {});
      emails := DeleteUnder(emails, iface, {});
      handshakes := DeleteUnder(handshakes, iface, {});
    }

    /** The keys of the peers that have both a public key and an email, with that email. */
    method ActiveEmails(iface: string, byPublicKey: map<string, string>) returns (active: map<string, string>)
      ensures active.Keys == ActiveKeys(iface, byPublicKey)
      ensures forall pk :: pk in byPublicKey && Key(iface, pk) in active ==> active[Key(iface, pk)] == byPublicKey[pk]
    {
      active := map[];
      var peers := byPublicKey.Keys;
      while peers != {}
        invariant peers <= byPublicKey.Keys
        invariant forall pk :: pk in byPublicKey && pk !in peers && pk != "" && byPublicKey[pk] != "" ==>
                                 Key(iface, pk) in active && active[Key(iface, pk)] == byPublicKey[pk]
        invariant forall k :: k in active ==> k in ActiveKeys(iface, byPublicKey)
        decreases |peers|
      {
        var pk :| pk in peers;
        if pk != "" && byPublicKey[pk] != "" {
          forall q | Key(iface, q) == Key(iface, pk) ensures q == pk {
            assert q == Key(iface, q)[|iface| + 1..] && pk == Key(iface, pk)[|iface| + 1..];
          }
          active := active[Key(iface, pk) := byPublicKey[pk]];
        }
        peers := peers - {pk};
      }
      forall pk | pk in byPublicKey && Key(iface, pk) in active ensures active[Key(iface, pk)] == byPublicKey[pk] {
        var q :| q in byPublicKey && q != "" && byPublicKey[q] != "" && Key(iface, q) == Key(iface, pk);
        assert q == Key(iface, q)[|iface| + 1..] && pk == Key(iface, pk)[|iface| + 1..];
      }
    }

    method SetEmails(iface: string, byPublicKey: map<string, string>)
      modifies this
      ensures last == Do(old(last), Op.SetEmails(iface, byPublicKey))
      ensures endpoints == WithoutUnder(old(endpoints), iface, ActiveKeys(iface, byPublicKey))
      ensures handshakes == WithoutUnder(old(handshakes), iface, ActiveKeys(iface, byPublicKey))
      ensures forall k :: !Under(k, iface) ==> (k in emails <==> k in old(emails)) && (k in emails ==> emails[k] == old(emails)[k])
      ensures forall k :: Under(k, iface) ==> (k in emails <==> k in ActiveKeys(iface, byPublicKey))
      ensures forall pk :: pk in byPublicKey && pk != "" && byPublicKey[pk] != "" ==>
                             Key(iface, pk) in emails && emails[Key(iface, pk)] == byPublicKey[pk]
    {
      var active := ActiveEmails(iface, byPublicKey);
      last := DeleteUnder(last, iface, active.Keys);
      endpoints := DeleteUnder(endpoints, iface, active.Keys);
      handshakes := DeleteUnder(handshakes, iface, active.Keys);
      emails := DeleteUnder(emails, iface, active.Keys);
      emails := emails + active;
      assert forall k :: k in active ==> Under(k, iface);
    }

    /** The sightings of one key that are no older than the cutoff, compacted to the front. */
    static method Compact(list: seq<Sighting>, cutoff: int) returns (kept: seq<Sighting>)
      ensures kept == EndpointWindow.Recent(list, cutoff)
    {
      kept := [];
      var i := 0;
      while i < |list|
        invariant 0 <= i <= |list|
        invariant kept + EndpointWindow.Recent(list[i..], cutoff) == EndpointWindow.Recent(list, cutoff)
      {
        assert list[i..][0] == list[i] && list[i..][1..] == list[i + 1..];
        if list[i].seen >= cutoff {
          assert kept + ([list[i]] + EndpointWindow.Recent(list[i + 1..], cutoff)) == (kept + [list[i]]) + EndpointWindow.Recent(list[i + 1..], cutoff);
          kept := kept + [list[i]];
        }
        i := i + 1;
      }
    }

    static method Sight(list: seq<Sighting>, addr: string, seen: int) returns (kept: seq<Sighting>)
      ensures kept == Touch(list, addr, seen)
    {
      kept := [];
      var found := false;
      var i := 0;
      while i < |list|
        invariant 0 <= i <= |list|
        invariant kept + Raise(list[i..], addr, seen) == Raise(list, addr, seen)
        invariant found <==> exists j :: 0 <= j < i && list[j].addr == addr
      {
        assert list[i..][0] == list[i] && list[i..][1..] == list[i + 1..];
        var e := list[i];
        if e.addr == addr {
          if seen > e.seen { e := Sighting(addr, seen); }
          found := true;
        }
        assert kept + ([e] + Raise(list[i + 1..], addr, seen)) == (kept + [e]) + Raise(list[i + 1..], addr, seen);
        kept := kept + [e];
        i := i + 1;
      }
      if !found {
        kept := kept + [Sighting(addr, seen)];
      }
    }

    method PruneEndpoints(iface: string, cutoff: int)
      modifies this`endpoints
      ensures endpoints == PruneUnder(old(endpoints), iface, cutoff)
    {
      var keys := endpoints.Keys;
      while keys != {}
        invariant keys <= old(endpoints).Keys
        invariant forall k :: k in keys ==> k in endpoints && endpoints[k] == old(endpoints)[k]
        invariant forall k :: k !in keys ==>
          (k in endpoints <==> k in PruneUnder(old(endpoints), iface, cutoff))
          && (k in endpoints ==> endpoints[k] == PruneUnder(old(endpoints), iface, cutoff)[k])
        decreases |keys|
      {
        var k :| k in keys;
        if Under(k, iface) {
          var kept := Compact(endpoints[k], cutoff);
          endpoints := if kept == [] then endpoints - {k} else endpoints[k := kept];
        }
        keys := keys - {k};
      }
    }

    method ObserveEndpoints(o: Observation)
      modifies this`endpoints
      ensures endpoints == Observe(old(endpoints), o)
    {
      PruneEndpoints(o.iface, o.cutoff);
      ghost var pruned := endpoints;
      var i := 0;
      while i < |o.stats|
        invariant 0 <= i <= |o.stats|
        invariant ObserveRows(endpoints, o, o.stats[i..]) == ObserveRows(pruned, o, o.stats)
      {
        var s := o.stats[i];
        assert o.stats[i..][0] == s && o.stats[i..][1..] == o.stats[i + 1..];
        if s.host != "" && s.handshake > 0 && o.cutoff <= s.handshake <= o.now {
          var k := Key(o.iface, s.publicKey);
          var kept := Sight(if k in endpoints then endpoints[k] else [], s.host, s.handshake);
          endpoints := endpoints[k := kept];
        }
        i := i + 1;
      }
    }
  }
}
