/** The kernel traffic collector: maps keyed by interface and peer, changed in place. Each key behaves as
    a meter of its own, whatever happens to the other peers and interfaces. */
module TrafficCollector {
  import opened Options
  import opened TrafficMeter

  datatype Counters = Counters(rx: nat, tx: nat)

  /** One row of the dump; `host` is endpointHost of its endpoint column, "" for none. */
  datatype PeerStat = PeerStat(publicKey: string, host: string, handshake: int, rx: nat, tx: nat)

  datatype Delta = Delta(publicKey: string, up: nat, down: nat)

  // ---- keys ----------------------------------------------------------------------------------

  function Key(iface: string, publicKey: string): string { iface + "/" + publicKey }

  predicate Under(k: string, iface: string) { iface + "/" <= k }

  /** Interface names hold no slash, so a key belongs to exactly one interface and one peer. */
  lemma KeyBelongs(iface: string, publicKey: string, other: string)
    requires '/' !in iface && '/' !in other
    ensures Under(Key(iface, publicKey), other) <==> iface == other
  {
    var k := Key(iface, publicKey);
    assert k[|iface|] == '/';
    if Under(k, other) {
      assert k[|other|] == (other + "/")[|other|] == '/';
      assert forall j :: 0 <= j < |iface| ==> k[j] == iface[j] && iface[j] in iface;
      assert forall j :: 0 <= j < |other| ==> k[j] == other[j] && other[j] in other;
      assert iface == k[..|iface|] && other == k[..|other|];
    }
  }

  lemma KeyInjective(iface: string, publicKey: string, other: string, otherKey: string)
    requires '/' !in iface && '/' !in other
    ensures Key(iface, publicKey) == Key(other, otherKey) <==> iface == other && publicKey == otherKey
  {
    if Key(iface, publicKey) == Key(other, otherKey) {
      assert Under(Key(other, otherKey), iface);
      KeyBelongs(other, otherKey, iface);
      assert publicKey == Key(iface, publicKey)[|iface| + 1..] && otherKey == Key(other, otherKey)[|other| + 1..];
    }
  }

  // ---- what the operations do to the baselines -----------------------------------------------

  type Baselines = map<string, Counters>

  function Record(last: Baselines, iface: string, stats: seq<PeerStat>): Baselines
    decreases |stats|
  {
    if stats == [] then last
    else Record(last[Key(iface, stats[0].publicKey) := Counters(stats[0].rx, stats[0].tx)], iface, stats[1..])
  }

  datatype Side = Rx | Tx

  function Of(c: Counters, side: Side): nat { if side == Rx then c.rx else c.tx }

  function Get(last: Baselines, k: string, side: Side): Option<nat> {
    if k in last then Some(Of(last[k], side)) else None
  }

  /** The rows Delta returns. */
  function Deltas(last: Baselines, iface: string, stats: seq<PeerStat>): seq<Delta>
    decreases |stats|
  {
    if stats == [] then []
    else
      var s, k := stats[0], Key(iface, stats[0].publicKey);
      var up, down := Growth(Get(last, k, Rx), s.rx), Growth(Get(last, k, Tx), s.tx);
      (if up == 0 && down == 0 then [] else [Delta(s.publicKey, up, down)])
      + Deltas(last[k := Counters(s.rx, s.tx)], iface, stats[1..])
  }

  function WithoutUnder<T>(m: map<string, T>, iface: string, keep: set<string>): map<string, T> {
    map k | k in m && (Under(k, iface) ==> k in keep) :: m[k]
  }

  datatype Op =
    | Poll(iface: string, stats: seq<PeerStat>)               // Delta
    | Prime(iface: string, stats: seq<PeerStat>)
    | Forget(iface: string)
    | SetEmails(iface: string, emails: map<string, string>)   // public key to client

  /** Keys of the peers that have both a public key and an email. */
  function ActiveKeys(iface: string, emails: map<string, string>): set<string> {
    set pk | pk in emails && pk != "" && emails[pk] != "" :: Key(iface, pk)
  }

  function Do(last: Baselines, op: Op): Baselines {
    match op
    case Poll(iface, stats) => Record(last, iface, stats)
    case Prime(iface, stats) => Record(WithoutUnder(last, iface, {}), iface, stats)
    case Forget(iface) => WithoutUnder(last, iface, {})
    case SetEmails(iface, emails) => WithoutUnder(last, iface, ActiveKeys(iface, emails))
  }

  /** What one peer is charged by the rows of a poll. */
  function ChargedTo(rows: seq<Delta>, publicKey: string, side: Side): nat {
    if rows == [] then 0
    else
      (if rows[0].publicKey != publicKey then 0 else if side == Rx then rows[0].up else rows[0].down)
      + ChargedTo(rows[1..], publicKey, side)
  }

  function RunCharge(last: Baselines, ops: seq<Op>, iface: string, publicKey: string, side: Side): nat
    decreases |ops|
  {
    if ops == [] then 0
    else
      (if ops[0].Poll? && ops[0].iface == iface then ChargedTo(Deltas(last, iface, ops[0].stats), publicKey, side) else 0)
      + RunCharge(Do(last, ops[0]), ops[1..], iface, publicKey, side)
  }

  // ---- the projection on one peer ------------------------------------------------------------

  function Readings(stats: seq<PeerStat>, publicKey: string, side: Side, base: bool): seq<Event> {
    if stats == [] then []
    else
      var n := if side == Rx then stats[0].rx else stats[0].tx;
      (if stats[0].publicKey == publicKey then [if base then Base(n) else Read(n)] else [])
      + Readings(stats[1..], publicKey, side, base)
  }

  /** What an operation means for one peer of one interface. */
  function Project(op: Op, iface: string, publicKey: string, side: Side): seq<Event> {
    if op.iface != iface then []
    else
      match op
      case Poll(_, stats) => Readings(stats, publicKey, side, false)
      case Prime(_, stats) => [Clear] + Readings(stats, publicKey, side, true)
      case Forget(_) => [Clear]
      case SetEmails(_, emails) => if publicKey != "" && publicKey in emails && emails[publicKey] != "" then [] else [Clear]
  }

  function ProjectAll(ops: seq<Op>, iface: string, publicKey: string, side: Side): seq<Event> {
    if ops == [] then [] else Project(ops[0], iface, publicKey, side) + ProjectAll(ops[1..], iface, publicKey, side)
  }

  predicate Slashless(ops: seq<Op>) { forall i :: 0 <= i < |ops| ==> '/' !in ops[i].iface }

  lemma {:induction false} RecordOther(last: Baselines, iface: string, stats: seq<PeerStat>, k: string)
    requires !Under(k, iface)
    ensures (k in Record(last, iface, stats) <==> k in last) && (k in last ==> Record(last, iface, stats)[k] == last[k])
    decreases |stats|
  {
    if stats != [] {
      var key := Key(iface, stats[0].publicKey);
      assert Under(key, iface);
      RecordOther(last[key := Counters(stats[0].rx, stats[0].tx)], iface, stats[1..], k);
    }
  }

  /** Forget, Prime, SetEmails and Delta of one interface leave every other interface's baselines alone. */
  lemma OthersUntouched(last: Baselines, op: Op, iface: string, publicKey: string)
    requires '/' !in iface && '/' !in op.iface && iface != op.iface
    ensures
      var k := Key(iface, publicKey);
      (k in Do(last, op) <==> k in last) && (k in last ==> Do(last, op)[k] == last[k])
  {
    var k := Key(iface, publicKey);
    KeyBelongs(iface, publicKey, op.iface);
    if op.Poll? {
      RecordOther(last, op.iface, op.stats, k);
    } else if op.Prime? {
      RecordOther(WithoutUnder(last, op.iface, {}), op.iface, op.stats, k);
    }
  }

  lemma {:induction false} RecordProjects(last: Baselines, iface: string, stats: seq<PeerStat>, publicKey: string, side: Side, base: bool)
    requires '/' !in iface
    ensures
      var k := Key(iface, publicKey);
      Get(Record(last, iface, stats), k, side) == Baseline(Get(last, k, side), Readings(stats, publicKey, side, base))
    decreases |stats|
  {
    if stats != [] {
      var s, k, key := stats[0], Key(iface, publicKey), Key(iface, stats[0].publicKey);
      var next := last[key := Counters(s.rx, s.tx)];
      KeyInjective(iface, publicKey, iface, s.publicKey);
      RecordProjects(next, iface, stats[1..], publicKey, side, base);
      var rest := Readings(stats[1..], publicKey, side, base);
      var n := if side == Rx then s.rx else s.tx;
      var e := if base then Base(n) else Read(n);
      assert ([e] + rest)[1..] == rest && [] + rest == rest;
    }
  }

  lemma ChargedToCons(row: Delta, rows: seq<Delta>, publicKey: string, side: Side)
    ensures ChargedTo([row] + rows, publicKey, side) ==
      (if row.publicKey != publicKey then 0 else if side == Rx then row.up else row.down) + ChargedTo(rows, publicKey, side)
  {
    assert ([row] + rows)[1..] == rows;
  }

  lemma ChargedCons(prev: Option<nat>, n: nat, rest: seq<Event>)
    ensures Charged(prev, [Read(n)] + rest) == Growth(prev, n) + Charged(Some(n), rest)
  {
    assert ([Read(n)] + rest)[1..] == rest;
  }

  /** The first row of a poll, as it charges one peer. */
  lemma DeltasHead(last: Baselines, iface: string, stats: seq<PeerStat>, publicKey: string, side: Side)
    requires stats != []
    ensures
      var s, key := stats[0], Key(iface, stats[0].publicKey);
      ChargedTo(Deltas(last, iface, stats), publicKey, side) ==
      (if s.publicKey == publicKey then Growth(Get(last, key, side), Of(Counters(s.rx, s.tx), side)) else 0)
      + ChargedTo(Deltas(last[key := Counters(s.rx, s.tx)], iface, stats[1..]), publicKey, side)
  {
    var s, key := stats[0], Key(iface, stats[0].publicKey);
    var rows := Deltas(last[key := Counters(s.rx, s.tx)], iface, stats[1..]);
    ChargedToCons(Delta(s.publicKey, Growth(Get(last, key, Rx), s.rx), Growth(Get(last, key, Tx), s.tx)), rows, publicKey, side);
    assert [] + rows == rows;
  }

  lemma ReadingsHead(prev: Option<nat>, stats: seq<PeerStat>, publicKey: string, side: Side)
    requires stats != []
    ensures
      var n, rest := Of(Counters(stats[0].rx, stats[0].tx), side), Readings(stats[1..], publicKey, side, false);
      Charged(prev, Readings(stats, publicKey, side, false)) ==
      if stats[0].publicKey == publicKey then Growth(prev, n) + Charged(Some(n), rest) else Charged(prev, rest)
  {
    var n, rest := Of(Counters(stats[0].rx, stats[0].tx), side), Readings(stats[1..], publicKey, side, false);
    ChargedCons(prev, n, rest);
    assert [] + rest == rest;
  }

  lemma {:induction false} DeltasProject(last: Baselines, iface: string, stats: seq<PeerStat>, publicKey: string, side: Side)
    requires '/' !in iface
    ensures
      var k := Key(iface, publicKey);
      ChargedTo(Deltas(last, iface, stats), publicKey, side) == Charged(Get(last, k, side), Readings(stats, publicKey, side, false))
    decreases |stats|
  {
    if stats != [] {
      var s, k, key := stats[0], Key(iface, publicKey), Key(iface, stats[0].publicKey);
      KeyInjective(iface, publicKey, iface, s.publicKey);
      DeltasProject(last[key := Counters(s.rx, s.tx)], iface, stats[1..], publicKey, side);
      DeltasHead(last, iface, stats, publicKey, side);
      ReadingsHead(Get(last, k, side), stats, publicKey, side);
    }
  }

  /** An operation moves a peer's baseline exactly as its projection moves the meter. */
  lemma DoProjects(last: Baselines, op: Op, iface: string, publicKey: string, side: Side)
    requires '/' !in iface && '/' !in op.iface
    ensures
      var k := Key(iface, publicKey);
      Get(Do(last, op), k, side) == Baseline(Get(last, k, side), Project(op, iface, publicKey, side))
  {
    var k := Key(iface, publicKey);
    if op.iface != iface {
      OthersUntouched(last, op, iface, publicKey);
    } else {
      KeyBelongs(iface, publicKey, iface);
      match op
      case Poll(_, stats) => RecordProjects(last, iface, stats, publicKey, side, false);
      case Prime(_, stats) =>
        RecordProjects(WithoutUnder(last, iface, {}), iface, stats, publicKey, side, true);
        assert ([Clear] + Readings(stats, publicKey, side, true))[1..] == Readings(stats, publicKey, side, true);
      case Forget(_) =>
      case SetEmails(_, emails) => ActiveKeysIff(iface, emails, publicKey);
    }
  }

  lemma ActiveKeysIff(iface: string, emails: map<string, string>, publicKey: string)
    requires '/' !in iface
    ensures Key(iface, publicKey) in ActiveKeys(iface, emails) <==> publicKey != "" && publicKey in emails && emails[publicKey] != ""
  {
    if Key(iface, publicKey) in ActiveKeys(iface, emails) {
      var pk :| pk in emails && pk != "" && emails[pk] != "" && Key(iface, pk) == Key(iface, publicKey);
      KeyInjective(iface, pk, iface, publicKey);
    }
  }

  lemma {:induction false} PrimingIsFree(prev: Option<nat>, stats: seq<PeerStat>, publicKey: string, side: Side)
    ensures Charged(prev, Readings(stats, publicKey, side, true)) == 0
    decreases |stats|
  {
    if stats != [] {
      var n := if side == Rx then stats[0].rx else stats[0].tx;
      var rest := Readings(stats[1..], publicKey, side, true);
      assert ([Base(n)] + rest)[1..] == rest && [] + rest == rest;
      PrimingIsFree(prev, stats[1..], publicKey, side);
      PrimingIsFree(Some(n), stats[1..], publicKey, side);
    }
  }

  /** The collector is a product of independent meters: what a run charges one peer depends only on that
      peer's own readings and baseline drops. */
  lemma {:induction false} RunIsMeter(last: Baselines, ops: seq<Op>, iface: string, publicKey: string, side: Side)
    requires '/' !in iface && Slashless(ops)
    ensures RunCharge(last, ops, iface, publicKey, side) ==
      Charged(Get(last, Key(iface, publicKey), side), ProjectAll(ops, iface, publicKey, side))
    decreases |ops|
  {
    if ops != [] {
      var op, prev := ops[0], Get(last, Key(iface, publicKey), side);
      DoProjects(last, op, iface, publicKey, side);
      RunIsMeter(Do(last, op), ops[1..], iface, publicKey, side);
      ChargedAppend(prev, Project(op, iface, publicKey, side), ProjectAll(ops[1..], iface, publicKey, side));
      if op.iface == iface {
        match op
        case Poll(_, stats) => DeltasProject(last, iface, stats, publicKey, side);
        case Prime(_, stats) =>
          ChargedAppend(prev, [Clear], Readings(stats, publicKey, side, true));
          assert [Clear][1..] == [];
          PrimingIsFree(None, stats, publicKey, side);
        case _ => assert [Clear][1..] == [];
      }
    }
  }

  /** The whole account of one peer, over any run of polls, primings, forgets and email syncs: what its counter
      carried, plus what dropped baselines charge again, less what priming waives and resets hide. */
  lemma {:induction false} CollectorAccount(ops: seq<Op>, iface: string, publicKey: string, side: Side, lives: seq<Life>)
    requires '/' !in iface && Slashless(ops) && AllRise(lives)
    requires ProjectAll(ops, iface, publicKey, side) == History(lives)
    ensures RunCharge(map[], ops, iface, publicKey, side) ==
      Carried(lives) + AllExcess(lives) - AllWaived(lives) - AllHidden(None, lives)
    ensures AllWaived(lives) >= 0
  {
    RunIsMeter(map[], ops, iface, publicKey, side);
    Account(None, lives);
  }

  /** No run is outside that account. */
  lemma EveryRunHasLives(ops: seq<Op>, iface: string, publicKey: string, side: Side) returns (lives: seq<Life>)
    ensures AllRise(lives) && ProjectAll(ops, iface, publicKey, side) == History(lives)
  {
    lives := HasLives(ProjectAll(ops, iface, publicKey, side));
  }

  /** A peer is charged more than its counter carried exactly when what dropped baselines charge again outweighs
      what priming waives and resets hide. In particular never while no baseline is dropped in a life the
      counter goes on in; then it is charged all that was not primed exactly when no reset hides. */
  lemma {:induction false} CollectorNeverOvercharges(ops: seq<Op>, iface: string, publicKey: string, side: Side, lives: seq<Life>)
    requires '/' !in iface && Slashless(ops) && AllRise(lives)
    requires ProjectAll(ops, iface, publicKey, side) == History(lives)
    ensures RunCharge(map[], ops, iface, publicKey, side) > Carried(lives) <==>
      AllExcess(lives) > AllWaived(lives) + AllHidden(None, lives)
    ensures (forall i :: 0 <= i < |lives| ==> !Redrops(lives[i])) ==>
      && RunCharge(map[], ops, iface, publicKey, side) <= Carried(lives) - AllWaived(lives)
      && (RunCharge(map[], ops, iface, publicKey, side) == Carried(lives) - AllWaived(lives) <==> AllHidden(None, lives) == 0)
  {
    CollectorAccount(ops, iface, publicKey, side, lives);
    NoExcessIff(lives);
  }

  /** And it happens: a client leaves the wanted set while its kernel peer stays, is back by the next tick, and is
      charged its whole counter again. */
  lemma {:induction false} ReturningClientIsRecharged(iface: string, pk: string, first: nat, second: nat) returns (ops: seq<Op>)
    requires '/' !in iface && pk != "" && 0 < first <= second
    ensures ops == [Poll(iface, [PeerStat(pk, "", 0, first, 0)]), SetEmails(iface, map[]), Poll(iface, [PeerStat(pk, "", 0, second, 0)])]
    ensures ProjectAll(ops, iface, pk, Rx) == [Read(first), Clear, Read(second)]
    ensures RunCharge(map[], ops, iface, pk, Rx) == first + second > second
  {
    var p, gone, q := Poll(iface, [PeerStat(pk, "", 0, first, 0)]), SetEmails(iface, map[]), Poll(iface, [PeerStat(pk, "", 0, second, 0)]);
    ops := [p, gone, q];
    assert ops[1..] == [gone, q] && [gone, q][1..] == [q] && [q][1..] == [];
    OneReading(iface, pk, first);
    OneReading(iface, pk, second);
    assert ProjectAll([q], iface, pk, Rx) == [Read(second)] + [];
    assert ProjectAll([gone, q], iface, pk, Rx) == [Clear] + [Read(second)];
    assert ProjectAll(ops, iface, pk, Rx) == [Read(first)] + [Clear, Read(second)];
    RunIsMeter(map[], ops, iface, pk, Rx);
    ChargedCons(None, first, [Clear, Read(second)]);
    assert [Clear, Read(second)][1..] == [Read(second)];
    ChargedCons(None, second, []);
  }

  lemma OneReading(iface: string, pk: string, n: nat)
    ensures Project(Poll(iface, [PeerStat(pk, "", 0, n, 0)]), iface, pk, Rx) == [Read(n)]
  {
    var stats := [PeerStat(pk, "", 0, n, 0)];
    assert stats[1..] == [] && Readings(stats[1..], pk, Rx, false) == [];
    assert Readings(stats, pk, Rx, false) == [Read(n)] + Readings(stats[1..], pk, Rx, false);
  }
}
