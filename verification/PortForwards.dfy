/** The port-forward listeners of one embedded interface: which are wanted, who owns a port, and the
    supervisor that opens and closes them. */
module PortForwards {
  import opened Options
  import opened ForwardedPorts

  /** `addr` is the peer's own resolvable tunnel address, if it has one. */
  datatype Peer = Peer(email: string, forwardedPorts: string, addr: Option<string>)

  datatype Proto = Tcp | Udp

  datatype Key = Key(email: string, port: int, proto: Proto)

  // ---- what is wanted ------------------------------------------------------------------------

  /** desiredPeerTargets: by email, the last resolvable peer's address. */
  function Targets(peers: seq<Peer>): map<string, string> {
    if peers == [] then map[]
    else
      var rest, p := Targets(peers[..|peers| - 1]), peers[|peers| - 1];
      if p.email == "" || p.addr.None? then rest else rest[p.email := p.addr.value]
  }

  /** forwardingPeers' gate. */
  predicate Forwards(p: Peer, targets: map<string, string>) { p.email != "" && p.forwardedPorts != "" && p.email in targets }

  /** A forwarding peer with its expanded ports. */
  datatype Forward = Forward(email: string, ports: seq<int>)

  function ForwardOf(p: Peer, targets: map<string, string>): seq<Forward> {
    if Forwards(p, targets) then [Forward(p.email, Expand(p.forwardedPorts, MAX_FORWARDED_PORTS))] else []
  }

  function Forwarding(peers: seq<Peer>, targets: map<string, string>): seq<Forward> {
    if peers == [] then [] else ForwardOf(peers[0], targets) + Forwarding(peers[1..], targets)
  }

  predicate Asks(f: Forward, k: Key) { f.email == k.email && k.port in f.ports }

  /** A listener is wanted for each forwarded port of a forwarding peer, on both protocols. */
  predicate WantedBy(fs: seq<Forward>, k: Key) { exists i :: 0 <= i < |fs| && Asks(fs[i], k) }

  predicate Wanted(peers: seq<Peer>, k: Key) { WantedBy(Forwarding(peers, Targets(peers)), k) }

  lemma {:induction false} TargetsIs(peers: seq<Peer>, email: string)
    ensures email in Targets(peers) <==> exists i :: 0 <= i < |peers| && peers[i].email == email && email != "" && peers[i].addr.Some?
  {
    if peers != [] {
      TargetsIs(peers[..|peers| - 1], email);
    }
  }

  predicate PeerWants(p: Peer, targets: map<string, string>, k: Key) {
    Forwards(p, targets) && p.email == k.email && k.port in Expand(p.forwardedPorts, MAX_FORWARDED_PORTS)
  }

  lemma WantedByCons(f: Forward, fs: seq<Forward>, k: Key)
    ensures WantedBy([f] + fs, k) <==> Asks(f, k) || WantedBy(fs, k)
  {
    var all := [f] + fs;
    if i :| 0 <= i < |fs| && Asks(fs[i], k) { assert all[i + 1] == fs[i]; }
    assert all[0] == f;
  }

  lemma {:induction false} ForwardingIs(peers: seq<Peer>, targets: map<string, string>, k: Key)
    ensures WantedBy(Forwarding(peers, targets), k) <==> exists i :: 0 <= i < |peers| && PeerWants(peers[i], targets, k)
  {
    if peers != [] {
      var p, rest := peers[0], Forwarding(peers[1..], targets);
      ForwardingIs(peers[1..], targets, k);
      WantedByCons(Forward(p.email, Expand(p.forwardedPorts, MAX_FORWARDED_PORTS)), rest, k);
      assert [] + rest == rest;
      if i :| 0 <= i < |peers[1..]| && PeerWants(peers[1..][i], targets, k) { assert PeerWants(peers[i + 1], targets, k); }
      if i :| 1 <= i < |peers| && PeerWants(peers[i], targets, k) { assert PeerWants(peers[1..][i - 1], targets, k); }
    }
  }

  /** Wanted means: an email with a resolvable address and a port spec that covers the port, within the cap. */
  lemma {:induction false} WantedIff(peers: seq<Peer>, k: Key)
    ensures Wanted(peers, k) <==>
      k.email != "" && k.email in Targets(peers) &&
      exists i :: 0 <= i < |peers| && peers[i].email == k.email && k.port in Expand(peers[i].forwardedPorts, MAX_FORWARDED_PORTS)
  {
    var targets := Targets(peers);
    ForwardingIs(peers, targets, k);
    forall i | 0 <= i < |peers| && k.port in Expand(peers[i].forwardedPorts, MAX_FORWARDED_PORTS) ensures peers[i].forwardedPorts != "" {
      assert Expand("", MAX_FORWARDED_PORTS) == [];
    }
    if i :| 0 <= i < |peers| && PeerWants(peers[i], targets, k) { assert peers[i].email == k.email; }
    if k.email != "" && k.email in targets {
      if i :| 0 <= i < |peers| && peers[i].email == k.email && k.port in Expand(peers[i].forwardedPorts, MAX_FORWARDED_PORTS) {
        assert PeerWants(peers[i], targets, k);
      }
    }
  }

  method ForwardPeer(p: Peer, targets: map<string, string>) returns (fs: seq<Forward>)
    ensures fs == ForwardOf(p, targets)
  {
    if p.email == "" || p.forwardedPorts == "" || p.email !in targets { return []; }
    var ports := ExpandLoop(p.forwardedPorts, MAX_FORWARDED_PORTS);
    fs := [Forward(p.email, ports)];
  }

  method ForwardingPeers(peers: seq<Peer>) returns (fs: seq<Forward>)
    ensures fs == Forwarding(peers, Targets(peers))
  {
    var targets := Targets(peers);
    fs := [];
    for i := 0 to |peers|
      invariant fs + Forwarding(peers[i..], targets) == Forwarding(peers, targets)
    {
      assert peers[i..][0] == peers[i] && peers[i..][1..] == peers[i + 1..];
      var one := ForwardPeer(peers[i], targets);
      assert fs + (one + Forwarding(peers[i + 1..], targets)) == (fs + one) + Forwarding(peers[i + 1..], targets);
      fs := fs + one;
    }
    assert peers[|peers|..] == [] && fs + [] == fs;
  }

  /** desiredPortForwardKeys' loops. */
  method DesiredKeys(peers: seq<Peer>) returns (keys: set<Key>)
    ensures forall k :: k in keys <==> Wanted(peers, k)
  {
    var fs := ForwardingPeers(peers);
    keys := {};
    for i := 0 to |fs|
      invariant forall k :: k in keys <==> exists j :: 0 <= j < i && Asks(fs[j], k)
    {
      ghost var before := keys;
      for n := 0 to |fs[i].ports|
        invariant forall k :: k in keys <==> k in before || (k.email == fs[i].email && k.port in fs[i].ports[..n])
      {
        assert fs[i].ports[..n + 1] == fs[i].ports[..n] + [fs[i].ports[n]];
        var email, port := fs[i].email, fs[i].ports[n];
        keys := keys + {Key(email, port, Tcp), Key(email, port, Udp)};
        forall k: Key | k.email == email && k.port == port ensures k in keys {
          match k.proto
          case Tcp => assert k == Key(email, port, Tcp);
          case Udp => assert k == Key(email, port, Udp);
        }
      }
      assert fs[i].ports[..|fs[i].ports|] == fs[i].ports;
      forall k ensures k in keys <==> exists j :: 0 <= j < i + 1 && Asks(fs[j], k) {
        assert k in keys <==> k in before || Asks(fs[i], k);
        if j :| 0 <= j < i + 1 && Asks(fs[j], k) { assert j < i ==> k in before; }
      }
    }
  }

  /** A port has an owner exactly when a listener is wanted for it, and the owner's listeners are. */
  method ForwardedPortOwner(peers: seq<Peer>, port: int) returns (owner: Option<string>)
    ensures owner.Some? <==> exists k :: Wanted(peers, k) && k.port == port
    ensures owner.Some? ==> forall proto :: Wanted(peers, Key(owner.value, port, proto))
  {
    var fs := ForwardingPeers(peers);
    for i := 0 to |fs|
      invariant forall j :: 0 <= j < i ==> port !in fs[j].ports
    {
      if port in fs[i].ports {
        assert Wanted(peers, Key(fs[i].email, port, Tcp));
        return Some(fs[i].email);
      }
    }
    owner := None;
  }

  // ---- the supervisor ------------------------------------------------------------------------

  predicate Injective(m: map<Key, nat>) { forall k, j :: k in m && j in m && m[k] == m[j] ==> k == j }

  predicate HasId(m: map<Key, nat>, id: nat) { exists k :: k in m && m[k] == id }

  /** `ids` are, once each, the listeners that left between `before` and `after`; the others stayed. */
  ghost predicate Withdrawn(before: map<Key, nat>, after: map<Key, nat>, ids: seq<nat>) {
    && Injective(before) && Injective(after) && after.Keys <= before.Keys
    && (forall k :: k in after ==> after[k] == before[k])
    && (forall i, j :: 0 <= i < j < |ids| ==> ids[i] != ids[j])
    && (forall id :: id in ids <==> HasId(before, id) && !HasId(after, id))
  }

  lemma WithdrawNext(before: map<Key, nat>, after: map<Key, nat>, ids: seq<nat>, k: Key)
    requires Withdrawn(before, after, ids) && k in after
    ensures Withdrawn(before, after - {k}, ids + [after[k]])
  {
    Removed(after, k);
    assert HasId(after, after[k]) && HasId(before, after[k]);
    assert after[k] !in ids;
  }

  /** Listeners are numbered in the order they are opened. */
  class PortForwardSet {
    var peerTargets: map<string, string>
    var listeners: map<Key, nat>
    var count: nat
    var closes: nat -> nat       // how often each listener was closed

    /** Every listener ever opened is either in the set, under one key, or was closed exactly once. */
    ghost predicate Valid()
      reads this
    {
      && Injective(listeners)
      && (forall k :: k in listeners ==> listeners[k] < count)
      && (forall id: nat :: closes(id) == if id < count && !HasId(listeners, id) then 1 else 0)
    }

    constructor ()
      ensures Valid() && listeners == map[] && count == 0
    {
      peerTargets, listeners, count, closes := map[], map[], 0, id => 0;
    }

    /** What is not wanted leaves the map. */
    method Withdraw(want: set<Key>) returns (toClose: seq<nat>)
      requires Injective(listeners)
      modifies this`listeners
      ensures listeners.Keys == old(listeners).Keys * want && Withdrawn(old(listeners), listeners, toClose)
    {
      toClose := [];
      var keys := listeners.Keys;
      while keys != {}
        invariant keys <= listeners.Keys && listeners.Keys == old(listeners).Keys * (keys + want)
        invariant Withdrawn(old(listeners), listeners, toClose)
        decreases |keys|
      {
        var k :| k in keys;
        if k !in want {
          WithdrawNext(old(listeners), listeners, toClose, k);
          toClose := toClose + [listeners[k]];
          listeners := listeners - {k};
        }
        keys := keys - {k};
      }
    }

    method CloseAll(toClose: seq<nat>)
      requires forall i, j :: 0 <= i < j < |toClose| ==> toClose[i] != toClose[j]
      modifies this`closes
      ensures forall id: nat :: closes(id) == old(closes)(id) + (if id in toClose then 1 else 0)
    {
      for i := 0 to |toClose|
        invariant forall id: nat :: closes(id) == old(closes)(id) + (if id in toClose[..i] then 1 else 0)
      {
        assert toClose[..i + 1] == toClose[..i] + [toClose[i]];
        var was, one := closes, toClose[i];
        closes := id => was(id) + (if id == one then 1 else 0);
      }
      assert toClose[..|toClose|] == toClose;
    }

    /** What is wanted and not open is opened; a bind that fails only narrows that forward. */
    method OpenMissing(want: set<Key>, fails: Key -> bool)
      requires Valid()
      modifies this`listeners, this`count
      ensures Valid()
      ensures forall k :: k in listeners <==> k in old(listeners) || (k in want && !fails(k))
      ensures forall k :: k in old(listeners) ==> listeners[k] == old(listeners)[k]
    {
      var toOpen := want - listeners.Keys;
      var left := toOpen;
      while left != {}
        invariant left <= toOpen && Valid()
        invariant forall k :: k in listeners <==> k in old(listeners) || (k in toOpen && k !in left && !fails(k))
        invariant forall k :: k in old(listeners) ==> listeners[k] == old(listeners)[k]
        decreases |left|
      {
        var key :| key in left;
        left := left - {key};
        if !fails(key) {
          Added(listeners, key, count);
          listeners, count := listeners[key := count], count + 1;
        }
      }
    }

    /** After Reconcile exactly the wanted keys are open, less those that failed to bind now; listeners still
        wanted are the same ones, and by Valid each one dropped was closed exactly once and no other was. */
    method Reconcile(peers: seq<Peer>, fails: Key -> bool)
      requires Valid()
      modifies this
      ensures Valid() && peerTargets == Targets(peers)
      ensures forall k :: k in listeners <==> Wanted(peers, k) && (k in old(listeners) || !fails(k))
      ensures forall k :: k in listeners && k in old(listeners) ==> listeners[k] == old(listeners)[k]
    {
      var want := DesiredKeys(peers);
      peerTargets := Targets(peers);
      var toClose := Withdraw(want);
      CloseAll(toClose);
      OpenMissing(want, fails);
    }

    /** Close closes every open listener once. */
    method Close()
      requires Valid()
      modifies this
      ensures Valid() && listeners == map[] && count == old(count)
      ensures forall id: nat :: id < count ==> closes(id) == 1
    {
      var toClose := Withdraw({});
      CloseAll(toClose);
      assert listeners == map[];
    }
  }

  lemma Removed(m: map<Key, nat>, k: Key)
    requires Injective(m) && k in m
    ensures Injective(m - {k}) && forall id :: HasId(m - {k}, id) <==> HasId(m, id) && id != m[k]
  {
    forall id | HasId(m, id) && id != m[k] ensures HasId(m - {k}, id) {
      var j :| j in m && m[j] == id;
      assert j in m - {k};
    }
  }

  lemma Added(m: map<Key, nat>, k: Key, id: nat)
    requires Injective(m) && k !in m && !HasId(m, id)
    ensures Injective(m[k := id]) && forall i :: HasId(m[k := id], i) <==> HasId(m, i) || i == id
  {
    var n := m[k := id];
    assert n[k] == id;
    forall i | HasId(m, i) ensures HasId(n, i) {
      var j :| j in m && m[j] == i;
      assert n[j] == i;
    }
  }
}
