/** Traffic of the side processes (mtg) and user-space AWG interfaces: a collector that snapshots a
    baseline, scrapes off-lock and writes the new baseline back, while restarts, reloads and peer syncs
    go on under it. */
module SidecarTraffic {
  import opened Options

  /** A reading and the client's total at the time: `at` is history, never read by the collector. */
  datatype Mark = Mark(n: nat, at: nat)

  type Marks = map<string, Mark>

  /** Idle; holding the baseline it copied; holding the baseline it is about to write back. */
  datatype Phase = Idle | Snapped(last: Marks) | Scraped(next: Marks)

  /** One inbound, one direction. `counters` is what the running process or interface reports per client,
      `entry` the manager's baseline (None while the inbound is unmanaged; AWG's haveLast == false is the
      empty map), `total` and `charged` the bytes ever reported and ever charged per client. */
  datatype State = State(running: bool, counters: map<string, nat>, entry: Option<Marks>, collectors: seq<Phase>,
                         total: map<string, nat>, charged: map<string, nat>)

  function Val(m: map<string, nat>, e: string): nat { if e in m then m[e] else 0 }

  datatype Step =
    | Grow(e: string, bytes: nat)      // traffic
    | Reset(e: string)              // the client's counter starts over: added, re-keyed, quota reset
    | Leave(e: string)              // the client is no longer reported
    | Die                           // the process exits; the entry stays
    | Stop                          // Remove, or the first half of a restart
    | Start                         // ensureLocked: fresh process, empty baseline
    | Sync                          // AWG peer sync: the baseline is cleared, the interface stays
    | Snapshot(c: nat)
    | Scrape(c: nat)
    | ScrapeFails(c: nat)
    | WriteBack(c: nat)

  function In(s: State, c: nat): Phase
    requires c < |s.collectors|
  {
    s.collectors[c]
  }

  predicate Enabled(s: State, step: Step) {
    match step
    case Grow(e, _) => s.running && e in s.counters
    case Reset(_) => s.running
    case Leave(_) => s.running
    case Die => s.running
    case Stop => s.entry.Some?
    case Start => s.entry.None?
    case Sync => s.running && s.entry.Some?
    case Snapshot(c) => c < |s.collectors| && In(s, c).Idle? && s.running && s.entry.Some?
    case Scrape(c) => c < |s.collectors| && In(s, c).Snapped? && s.running
    case ScrapeFails(c) => c < |s.collectors| && In(s, c).Snapped?
    case WriteBack(c) => c < |s.collectors| && In(s, c).Scraped?
  }

  /** The charge of one client: only against a baseline, and never below zero. */
  function Charge(last: Marks, users: map<string, nat>, e: string): nat {
    if e in users && e in last then Above(users[e], last[e].n) else 0
  }

  function Above(now: nat, prev: nat): nat { if now > prev then now - prev else 0 }

  function NewLast(users: map<string, nat>, total: map<string, nat>): Marks {
    map e | e in users :: Mark(users[e], Val(total, e))
  }

  function AddCharges(charged: map<string, nat>, last: Marks, users: map<string, nat>): map<string, nat> {
    map e | e in charged.Keys + users.Keys :: Val(charged, e) + Charge(last, users, e)
  }

  function SetPhase(s: State, c: nat, p: Phase): State
    requires c < |s.collectors|
  {
    s.(collectors := s.collectors[c := p])
  }

  function Do(s: State, step: Step): State
    requires Enabled(s, step)
  {
    match step
    case Grow(e, bytes) => s.(counters := s.counters[e := s.counters[e] + bytes], total := s.total[e := Val(s.total, e) + bytes])
    case Reset(e) => s.(counters := s.counters[e := 0])
    case Leave(e) => s.(counters := s.counters - {e})
    case Die => s.(running := false, counters := map[])
    case Stop => s.(running := false, counters := map[], entry := None)
    case Start => s.(running := true, counters := map[], entry := Some(map[]))
    case Sync => s.(entry := Some(map[]))
    case Snapshot(c) => SetPhase(s, c, Snapped(s.entry.value))
    case Scrape(c) =>
      SetPhase(s, c, Scraped(NewLast(s.counters, s.total))).(charged := AddCharges(s.charged, In(s, c).last, s.counters))
    case ScrapeFails(c) => SetPhase(s, c, Idle)
    case WriteBack(c) => SetPhase(s, c, Idle).(entry := if s.entry.Some? then Some(In(s, c).next) else None)
  }

  function Init(collectors: nat): State {
    State(false, map[], None, seq(collectors, i => Idle), map[], map[])
  }

  predicate Runs(s: State, steps: seq<Step>)
    decreases |steps|
  {
    steps == [] || (Enabled(s, steps[0]) && Runs(Do(s, steps[0]), steps[1..]))
  }

  function After(s: State, steps: seq<Step>): State
    requires Runs(s, steps)
    decreases |steps|
  {
    if steps == [] then s else After(Do(s, steps[0]), steps[1..])
  }

  // ---- one collector never overcharges -------------------------------------------------------

  /** A baseline from whatever life of the counter: since it was taken, the counter has gained no more
      than the client's total has. */
  predicate Covers(s: State, m: Mark, e: string) {
    m.at <= Val(s.total, e) && (e in s.counters ==> s.counters[e] - m.n <= Val(s.total, e) - m.at)
  }

  predicate AllCover(s: State, marks: Marks) { forall e :: e in marks ==> Covers(s, marks[e], e) }

  /** No more has been charged than was reported when the baseline was taken. */
  predicate Settled(s: State, marks: Marks) { forall e :: e in marks ==> Val(s.charged, e) <= marks[e].at }

  predicate Inv(s: State) {
    && |s.collectors| == 1
    && (forall e :: e in s.counters ==> s.counters[e] <= Val(s.total, e))
    && (forall e :: e in s.charged ==> s.charged[e] <= Val(s.total, e))
    && (s.entry.Some? ==> AllCover(s, s.entry.value))
    && match s.collectors[0]
       case Idle => s.entry.Some? ==> Settled(s, s.entry.value)
       case Snapped(last) => AllCover(s, last) && Settled(s, last) && (s.entry.Some? ==> Settled(s, s.entry.value))
       case Scraped(next) => AllCover(s, next) && Settled(s, next)
  }

  lemma CountersKeepInv(s: State, step: Step)
    requires Inv(s) && Enabled(s, step) && (step.Grow? || step.Reset? || step.Leave?)
    ensures Inv(Do(s, step))
  {
    var t := Do(s, step);
    forall m: Mark, e | Covers(s, m, e) ensures Covers(t, m, e) {
    }
  }

  lemma LifeKeepsInv(s: State, step: Step)
    requires Inv(s) && Enabled(s, step) && (step.Die? || step.Stop? || step.Start? || step.Sync?)
    ensures Inv(Do(s, step))
  {
    var t := Do(s, step);
    forall m: Mark, e | Covers(s, m, e) ensures Covers(t, m, e) {
    }
  }

  lemma StepKeepsInv(s: State, step: Step)
    requires Inv(s) && Enabled(s, step)
    ensures Inv(Do(s, step))
  {
    if step.Scrape? {
      ScrapeKeepsInv(s);
    } else if step.Grow? || step.Reset? || step.Leave? {
      CountersKeepInv(s, step);
    } else if step.Die? || step.Stop? || step.Start? || step.Sync? {
      LifeKeepsInv(s, step);
    }
  }

  lemma ScrapeKeepsInv(s: State)
    requires Inv(s) && Enabled(s, Scrape(0))
    ensures Inv(Do(s, Scrape(0)))
  {
    var t, last := Do(s, Scrape(0)), s.collectors[0].last;
    forall e | e in t.charged ensures t.charged[e] <= Val(t.total, e) {
      assert e in last ==> Covers(s, last[e], e);
    }
  }

  lemma {:induction false} RunKeepsInv(s: State, steps: seq<Step>)
    requires Inv(s) && Runs(s, steps)
    ensures Inv(After(s, steps))
    decreases |steps|
  {
    if steps != [] {
      StepKeepsInv(s, steps[0]);
      RunKeepsInv(Do(s, steps[0]), steps[1..]);
    }
  }

  /** One collector, any interleaving with restarts, reloads, crashes and peer syncs: no client is ever
      charged more than was reported for it, stale baselines written back included. */
  lemma NeverOvercharged(steps: seq<Step>, e: string)
    requires Runs(Init(1), steps)
    ensures Val(After(Init(1), steps).charged, e) <= Val(After(Init(1), steps).total, e)
  {
    RunKeepsInv(Init(1), steps);
  }

  lemma {:induction false} SteadyGrowth(s: State, steps: seq<Step>, e: string)
    requires Runs(s, steps) && e in s.counters && forall i :: 0 <= i < |steps| ==> steps[i].Grow?
    ensures
      var t := After(s, steps);
      && e in t.counters && t.counters[e] >= s.counters[e] && t.counters[e] - s.counters[e] == Val(t.total, e) - Val(s.total, e)
      && t.collectors == s.collectors && t.entry == s.entry && t.running == s.running && t.charged == s.charged
    decreases |steps|
  {
    if steps != [] {
      SteadyGrowth(Do(s, steps[0]), steps[1..], e);
    }
  }

  lemma PollCharges(t: State, e: string)
    requires t.collectors == [Idle] && t.running && t.entry.Some?
    ensures Enabled(t, Snapshot(0)) && Enabled(Do(t, Snapshot(0)), Scrape(0))
    ensures Val(Do(Do(t, Snapshot(0)), Scrape(0)).charged, e) == Val(t.charged, e) + Charge(t.entry.value, t.counters, e)
  {
  }

  /** Nothing is lost either: while only traffic has moved since a baseline was written, the next poll
      charges exactly what was reported since. */
  lemma {:induction false} SteadyPollIsExact(s: State, steps: seq<Step>, e: string)
    requires s.collectors == [Idle] && s.running && s.entry == Some(NewLast(s.counters, s.total)) && e in s.counters
    requires Runs(s, steps) && forall i :: 0 <= i < |steps| ==> steps[i].Grow?
    ensures
      var t := After(s, steps);
      Enabled(t, Snapshot(0)) && Enabled(Do(t, Snapshot(0)), Scrape(0)) &&
      Val(Do(Do(t, Snapshot(0)), Scrape(0)).charged, e) - Val(s.charged, e) == Val(t.total, e) - Val(s.total, e)
  {
    SteadyGrowth(s, steps, e);
    PollCharges(After(s, steps), e);
  }

  ghost predicate Reachable(s: State, collectors: nat) {
    exists steps :: Runs(Init(collectors), steps) && After(Init(collectors), steps) == s
  }

  lemma {:induction false} RunExtends(s: State, steps: seq<Step>, step: Step)
    requires Runs(s, steps) && Enabled(After(s, steps), step)
    ensures Runs(s, steps + [step]) && After(s, steps + [step]) == Do(After(s, steps), step)
    decreases |steps|
  {
    if steps == [] {
      assert steps + [step] == [step] && [step][1..] == [];
    } else {
      RunExtends(Do(s, steps[0]), steps[1..], step);
      assert (steps + [step])[1..] == steps[1..] + [step];
    }
  }

  lemma Next(s: State, step: Step, collectors: nat) returns (t: State)
    requires Reachable(s, collectors) && Enabled(s, step)
    ensures t == Do(s, step) && Reachable(t, collectors)
  {
    t := Do(s, step);
    var steps :| Runs(Init(collectors), steps) && After(Init(collectors), steps) == s;
    RunExtends(Init(collectors), steps, step);
  }

  // ---- the scrape loops ----------------------------------------------------------------------

  datatype Use = Use(up: nat, down: nat)

  datatype Row = Row(client: string, up: nat, down: nat)

  /** The bytes the rows charge one client, up or down. */
  function RowSum(rows: seq<Row>, client: string, up: bool): nat {
    if rows == [] then 0
    else (if rows[0].client != client then 0 else if up then rows[0].up else rows[0].down) + RowSum(rows[1..], client, up)
  }

  lemma {:induction false} RowSumAppend(rows: seq<Row>, r: Row, client: string, up: bool)
    ensures RowSum(rows + [r], client, up) ==
      RowSum(rows, client, up) + (if r.client != client then 0 else if up then r.up else r.down)
  {
    if rows == [] {
      assert rows + [r] == [r] && [r][1..] == [];
    } else {
      assert (rows + [r])[1..] == rows[1..] + [r];
      RowSumAppend(rows[1..], r, client, up);
    }
  }

  function Side(u: Use, up: bool): nat { if up then u.up else u.down }

  /** Charge, in one direction of a two-way baseline. */
  function SideCharge(last: map<string, Use>, users: map<string, Use>, e: string, up: bool): nat {
    if e in users && e in last then Above(Side(users[e], up), Side(last[e], up)) else 0
  }

  /** The state machine's charge is each direction of the loops' charge. */
  lemma SideChargeIs(last: map<string, Use>, users: map<string, Use>, marks: Marks, counters: map<string, nat>, e: string, up: bool)
    requires marks.Keys == last.Keys && forall k :: k in last ==> marks[k].n == Side(last[k], up)
    requires counters.Keys == users.Keys && forall k :: k in users ==> counters[k] == Side(users[k], up)
    ensures SideCharge(last, users, e, up) == Charge(marks, counters, e)
  {
    assert e in last <==> e in marks.Keys;
    assert e in users <==> e in counters.Keys;
  }

  /** mtg's loop over the scraped users, in whatever order the map yields them. */
  method CollectUsers(last: map<string, Use>, users: map<string, Use>) returns (next: map<string, Use>, rows: seq<Row>)
    ensures next == users
    ensures forall e, up :: RowSum(rows, e, up) == SideCharge(last, users, e, up)
    ensures forall i :: 0 <= i < |rows| ==> rows[i].up > 0 || rows[i].down > 0
  {
    next, rows := map[], [];
    var left := users.Keys;
    while left != {}
      invariant left <= users.Keys && next.Keys == users.Keys - left && forall e :: e in next ==> next[e] == users[e]
      invariant forall e, up :: RowSum(rows, e, up) == if e in left then 0 else SideCharge(last, users, e, up)
      invariant forall i :: 0 <= i < |rows| ==> rows[i].up > 0 || rows[i].down > 0
      decreases |left|
    {
      var email :| email in left;
      var u := users[email];
      left, next := left - {email}, next[email := u];
      if email in last {
        var r := Row(email, Above(u.up, last[email].up), Above(u.down, last[email].down));
        if r.up > 0 || r.down > 0 {
          forall e, up ensures RowSum(rows + [r], e, up) == if e in left then 0 else SideCharge(last, users, e, up) {
            RowSumAppend(rows, r, e, up);
          }
          rows := rows + [r];
        }
      }
    }
  }

  datatype PeerUse = PeerUse(publicKey: string, rx: nat, tx: nat)

  function Total(rows: seq<Row>, up: bool): nat {
    if rows == [] then 0 else (if up then rows[0].up else rows[0].down) + Total(rows[1..], up)
  }

  lemma {:induction false} TotalAppend(rows: seq<Row>, r: Row, up: bool)
    ensures Total(rows + [r], up) == Total(rows, up) + (if up then r.up else r.down)
  {
    if rows == [] {
      assert rows + [r] == [r] && [r][1..] == [];
    } else {
      assert (rows + [r])[1..] == rows[1..] + [r];
      TotalAppend(rows[1..], r, up);
    }
  }

  function Users(peers: seq<PeerUse>): map<string, Use> {
    map k | k in (set i | 0 <= i < |peers| :: peers[i].publicKey) :: UseOf(peers, k)
  }

  function UseOf(peers: seq<PeerUse>, k: string): Use {
    if peers == [] then Use(0, 0)
    else if peers[0].publicKey == k then Use(peers[0].rx, peers[0].tx) else UseOf(peers[1..], k)
  }

  predicate DistinctPeers(peers: seq<PeerUse>) { forall i, j :: 0 <= i < j < |peers| ==> peers[i].publicKey != peers[j].publicKey }

  lemma {:induction false} UseOfPeer(peers: seq<PeerUse>, i: nat)
    requires i < |peers| && DistinctPeers(peers)
    ensures UseOf(peers, peers[i].publicKey) == Use(peers[i].rx, peers[i].tx)
  {
    if i > 0 {
      UseOfPeer(peers[1..], i - 1);
    }
  }

  /** AWG's loop over the scraped peers: the inbound's delta is the sum of its peers' deltas, each peer is
      charged like an mtg user, and nothing is charged without a baseline. */
  method CollectPeers(haveLast: bool, last: map<string, Use>, peers: seq<PeerUse>)
    returns (next: map<string, Use>, rows: seq<Row>, inboundUp: nat, inboundDown: nat)
    requires DistinctPeers(peers)
    ensures next == Users(peers)
    ensures inboundUp == Total(rows, true) && inboundDown == Total(rows, false)
    ensures forall e, up :: RowSum(rows, e, up) == if haveLast then SideCharge(last, Users(peers), e, up) else 0
  {
    next, rows, inboundUp, inboundDown := map[], [], 0, 0;
    var i := 0;
    while i < |peers|
      invariant 0 <= i <= |peers| && Seen(peers, i, next)
      invariant inboundUp == Total(rows, true) && inboundDown == Total(rows, false)
      invariant forall e, up :: RowSum(rows, e, up) == if haveLast then SideCharge(last, next, e, up) else 0
    {
      var p := peers[i];
      if haveLast && p.publicKey in last {
        var r := Row(p.publicKey, Above(p.rx, last[p.publicKey].up), Above(p.tx, last[p.publicKey].down));
        inboundUp, inboundDown := inboundUp + r.up, inboundDown + r.down;
        RowCharges(last, next, rows, r, Use(p.rx, p.tx));
        if r.up > 0 || r.down > 0 {
          TotalAppend(rows, r, true);
          TotalAppend(rows, r, false);
          rows := rows + [r];
        }
      }
      next := next[p.publicKey := Use(p.rx, p.tx)];
      i := i + 1;
    }
    forall k | k in next ensures next[k] == UseOf(peers, k) {
      var j :| 0 <= j < |peers| && peers[j].publicKey == k;
      UseOfPeer(peers, j);
    }
    assert next.Keys == Users(peers).Keys;
  }

  /** The first i peers of the dump, as the new baseline. */
  ghost predicate Seen(peers: seq<PeerUse>, i: nat, next: map<string, Use>)
    requires i <= |peers|
  {
    && (forall k :: k in next <==> exists j :: 0 <= j < i && peers[j].publicKey == k)
    && (forall j :: 0 <= j < i ==> next[peers[j].publicKey] == Use(peers[j].rx, peers[j].tx))
  }

  /** One more peer, one more row unless it is empty. */
  lemma RowCharges(last: map<string, Use>, next: map<string, Use>, rows: seq<Row>, r: Row, u: Use)
    requires r.client in last && r.client !in next
    requires r == Row(r.client, Above(u.up, last[r.client].up), Above(u.down, last[r.client].down))
    requires forall e, up :: RowSum(rows, e, up) == SideCharge(last, next, e, up)
    ensures
      var after := if r.up > 0 || r.down > 0 then rows + [r] else rows;
      forall e, up :: RowSum(after, e, up) == SideCharge(last, next[r.client := u], e, up)
  {
    forall e, up ensures RowSum(rows + [r], e, up) == SideCharge(last, next[r.client := u], e, up) {
      RowSumAppend(rows, r, e, up);
    }
    if r.up == 0 && r.down == 0 {
      forall e, up ensures RowSum(rows, e, up) == RowSum(rows + [r], e, up) {
        RowSumAppend(rows, r, e, up);
      }
    }
  }
}
