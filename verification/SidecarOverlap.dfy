/** Several sidecar collectors at once: how often overlapping snapshots and stale write-backs can charge the
    same byte. n collectors charge no byte more than 1 + 2 + ... + n times. */
module SidecarOverlap {
  import opened Options
  import opened SidecarTraffic

  /** 1 + 2 + ... + n. */
  function Tri(n: nat): nat { if n == 0 then 0 else n + Tri(n - 1) }

  lemma {:induction false} TriGrows(m: nat, n: nat)
    requires m <= n
    ensures Tri(m) <= Tri(n) && n <= Tri(n)
    decreases n
  {
    if n > 0 {
      TriGrows(if m < n then m else n - 1, n - 1);
    }
  }

  // ---- counting collectors -------------------------------------------------------------------

  function Count(cs: seq<Phase>, f: Phase -> bool): nat { if cs == [] then 0 else (if f(cs[0]) then 1 else 0) + Count(cs[1..], f) }

  lemma {:induction false} CountUpdate(cs: seq<Phase>, c: nat, p: Phase, f: Phase -> bool)
    requires c < |cs|
    ensures Count(cs[c := p], f) + (if f(cs[c]) then 1 else 0) == Count(cs, f) + (if f(p) then 1 else 0)
  {
    if c == 0 {
      assert cs[0 := p][1..] == cs[1..];
    } else {
      assert cs[c := p][1..] == cs[1..][c - 1 := p];
      CountUpdate(cs[1..], c - 1, p, f);
    }
  }

  lemma {:induction false} CountLess(cs: seq<Phase>, f: Phase -> bool, g: Phase -> bool)
    requires forall p :: f(p) ==> g(p)
    ensures Count(cs, f) <= Count(cs, g)
  {
    if cs != [] {
      CountLess(cs[1..], f, g);
    }
  }

  lemma {:induction false} CountApart(cs: seq<Phase>, f: Phase -> bool, g: Phase -> bool)
    requires forall p :: !(f(p) && g(p))
    ensures Count(cs, f) + Count(cs, g) <= |cs|
  {
    if cs != [] {
      CountApart(cs[1..], f, g);
    }
  }

  // ---- the potential of one byte -------------------------------------------------------------

  /** Client e's u-th byte came after the baseline was taken. */
  predicate Low(m: Marks, e: string, u: nat) { e in m && m[e].at < u }

  predicate LowEntry(s: State, e: string, u: nat) { s.entry.Some? && Low(s.entry.value, e, u) }

  /** A stale baseline still to be written back. */
  predicate Reserve(p: Phase, e: string, u: nat) { p.Scraped? && Low(p.next, e, u) }

  /** The collector may charge the byte before the manager's baseline next moves past it. */
  predicate Ready(p: Phase, e: string, u: nat, low: bool) { (p.Snapped? && (low || Low(p.last, e, u))) || (p.Idle? && low) }

  function Reserves(cs: seq<Phase>, e: string, u: nat): nat { Count(cs, p => Reserve(p, e, u)) }

  function Readies(cs: seq<Phase>, e: string, u: nat, low: bool): nat { Count(cs, p => Ready(p, e, u, low)) }

  lemma Bounds(cs: seq<Phase>, e: string, u: nat, low: bool)
    ensures Readies(cs, e, u, low) + Reserves(cs, e, u) <= |cs|
  {
    CountApart(cs, p => Ready(p, e, u, low), p => Reserve(p, e, u));
  }

  /** How often the byte may still be charged. */
  function Potential(cs: seq<Phase>, e: string, u: nat, low: bool): int {
    Bounds(cs, e, u, low);
    Readies(cs, e, u, low) + Tri(|cs|) - Tri(|cs| - Reserves(cs, e, u))
  }

  function Phi(s: State, e: string, u: nat): int { Potential(s.collectors, e, u, LowEntry(s, e, u)) }

  lemma PhiBounds(s: State, e: string, u: nat)
    ensures 0 <= Phi(s, e, u) <= Tri(|s.collectors|)
  {
    var cs, n := s.collectors, |s.collectors|;
    Bounds(cs, e, u, LowEntry(s, e, u));
    TriGrows(n - Reserves(cs, e, u), n);
  }

  /** One collector changes phase, keeping the manager's baseline, and is no readier than before. */
  lemma PhaseChange(cs: seq<Phase>, c: nat, p: Phase, e: string, u: nat, low: bool)
    requires c < |cs| && !Reserve(cs[c], e, u) && !Reserve(p, e, u) && (Ready(p, e, u, low) ==> Ready(cs[c], e, u, low))
    ensures Potential(cs[c := p], e, u, low) + (if Ready(cs[c], e, u, low) && !Ready(p, e, u, low) then 1 else 0) == Potential(cs, e, u, low)
  {
    CountUpdate(cs, c, p, q => Ready(q, e, u, low));
    CountUpdate(cs, c, p, q => Reserve(q, e, u));
  }

  lemma Lowered(cs: seq<Phase>, e: string, u: nat, low: bool)
    ensures Potential(cs, e, u, false) <= Potential(cs, e, u, low)
  {
    CountLess(cs, p => Ready(p, e, u, false), p => Ready(p, e, u, low));
  }

  /** A stale baseline written back: one reserve fewer, and everybody else may be ready again. */
  lemma Released(cs: seq<Phase>, c: nat, e: string, u: nat, low: bool, after: bool)
    requires c < |cs| && Reserve(cs[c], e, u)
    ensures Potential(cs[c := Idle], e, u, after) <= Potential(cs, e, u, low)
  {
    var ds := cs[c := Idle];
    CountUpdate(cs, c, Idle, p => Reserve(p, e, u));
    Bounds(ds, e, u, after);
    Bounds(cs, e, u, low);
    assert Tri(|cs| - Reserves(ds, e, u)) == |cs| - Reserves(ds, e, u) + Tri(|cs| - Reserves(cs, e, u));
  }

  lemma WrittenBack(s: State, c: nat, e: string, u: nat)
    requires Enabled(s, WriteBack(c))
    ensures Phi(Do(s, WriteBack(c)), e, u) <= Phi(s, e, u)
  {
    var t, low := Do(s, WriteBack(c)), LowEntry(s, e, u);
    if Reserve(In(s, c), e, u) {
      Released(s.collectors, c, e, u, low, LowEntry(t, e, u));
    } else {
      assert !LowEntry(t, e, u);
      PhaseChange(s.collectors, c, Idle, e, u, false);
      Lowered(s.collectors, e, u, low);
    }
  }

  /** Whether this step charges the byte. */
  predicate Charges(s: State, step: Step, e: string, u: nat)
    requires Enabled(s, step)
  {
    step.Scrape? && Low(In(s, step.c).last, e, u)
  }

  /** No step makes a byte already reported more chargeable, and charging it uses it up once. */
  lemma StepSpends(s: State, step: Step, e: string, u: nat)
    requires Enabled(s, step) && u <= Val(s.total, e)
    ensures Phi(Do(s, step), e, u) + (if Charges(s, step, e, u) then 1 else 0) <= Phi(s, e, u)
  {
    var t, low := Do(s, step), LowEntry(s, e, u);
    match step
    case Snapshot(c) => PhaseChange(s.collectors, c, Snapped(s.entry.value), e, u, low);
    case Scrape(c) => PhaseChange(s.collectors, c, Scraped(NewLast(s.counters, s.total)), e, u, low);
    case ScrapeFails(c) => PhaseChange(s.collectors, c, Idle, e, u, low);
    case WriteBack(c) => WrittenBack(s, c, e, u);
    case _ => Lowered(s.collectors, e, u, low);
  }

  // ---- all bytes -----------------------------------------------------------------------------

  function Sum(s: State, e: string, k: nat): int { if k == 0 then 0 else Sum(s, e, k - 1) + Phi(s, e, k) }

  lemma {:induction false} SumSpends(s: State, step: Step, e: string, k: nat, a: nat)
    requires Enabled(s, step) && a <= k <= Val(s.total, e)
    requires forall u: nat :: a < u <= k ==> Charges(s, step, e, u)
    ensures Sum(Do(s, step), e, k) + (k - a) <= Sum(s, e, k)
    decreases k
  {
    if k > 0 {
      StepSpends(s, step, e, k);
      SumSpends(s, step, e, k - 1, if a < k then a else k - 1);
    }
  }

  lemma {:induction false} SumNew(s: State, e: string, k: nat, more: nat)
    ensures Sum(s, e, k + more) <= Sum(s, e, k) + Tri(|s.collectors|) * more
    decreases more
  {
    if more > 0 {
      SumNew(s, e, k, more - 1);
      PhiBounds(s, e, k + more);
      assert Tri(|s.collectors|) * more == Tri(|s.collectors|) * (more - 1) + Tri(|s.collectors|);
    }
  }

  lemma {:induction false} SumIsPositive(s: State, e: string, k: nat)
    ensures Sum(s, e, k) >= 0
  {
    if k > 0 {
      SumIsPositive(s, e, k - 1);
      PhiBounds(s, e, k);
    }
  }

  // ---- the bound -----------------------------------------------------------------------------

  /** Every baseline anywhere covers what its counter has gained since. */
  predicate Covered(s: State) {
    && (forall e :: e in s.counters ==> s.counters[e] <= Val(s.total, e))
    && (s.entry.Some? ==> AllCover(s, s.entry.value))
    && (forall c :: 0 <= c < |s.collectors| ==> PhaseCovers(s, s.collectors[c]))
  }

  predicate PhaseCovers(s: State, p: Phase) {
    match p
    case Idle => true
    case Snapped(last) => AllCover(s, last)
    case Scraped(next) => AllCover(s, next)
  }

  lemma StepCovers(s: State, step: Step)
    requires Covered(s) && Enabled(s, step)
    ensures Covered(Do(s, step)) && |Do(s, step).collectors| == |s.collectors|
  {
    var t := Do(s, step);
    forall m: Mark, e | Covers(s, m, e) ensures Covers(t, m, e) {
    }
    forall c | 0 <= c < |t.collectors| ensures PhaseCovers(t, t.collectors[c]) {
      assert PhaseCovers(s, s.collectors[c]);
    }
  }

  predicate Within(s: State, e: string) { Val(s.charged, e) + Sum(s, e, Val(s.total, e)) <= Tri(|s.collectors|) * Val(s.total, e) }

  lemma ScrapeWithin(s: State, c: nat, e: string)
    requires Covered(s) && Enabled(s, Scrape(c)) && Within(s, e)
    ensures Within(Do(s, Scrape(c)), e)
  {
    var t, last, k := Do(s, Scrape(c)), In(s, c).last, Val(s.total, e);
    assert PhaseCovers(s, s.collectors[c]);
    assert Val(t.charged, e) == Val(s.charged, e) + Charge(last, s.counters, e);
    if e in last {
      assert Covers(s, last[e], e);
      SumSpends(s, Scrape(c), e, k, last[e].at);
    } else {
      SumSpends(s, Scrape(c), e, k, k);
    }
  }

  lemma StepWithin(s: State, step: Step, e: string)
    requires Covered(s) && Enabled(s, step) && Within(s, e)
    ensures Within(Do(s, step), e)
  {
    var t, k := Do(s, step), Val(s.total, e);
    if step.Scrape? {
      ScrapeWithin(s, step.c, e);
    } else {
      Moves(s, step, e);
      SumSpends(s, step, e, k, k);
      SumNew(t, e, k, Val(t.total, e) - k);
      Distributes(Tri(|s.collectors|), k, Val(t.total, e) - k);
    }
  }

  lemma Moves(s: State, step: Step, e: string)
    requires Enabled(s, step) && !step.Scrape?
    ensures Do(s, step).charged == s.charged && |Do(s, step).collectors| == |s.collectors|
    ensures Val(Do(s, step).total, e) >= Val(s.total, e)
  {
  }

  lemma Distributes(a: nat, k: nat, more: nat)
    ensures a * (k + more) == a * k + a * more
  {
  }

  lemma {:induction false} RunWithin(s: State, steps: seq<Step>, e: string)
    requires Covered(s) && Within(s, e) && Runs(s, steps)
    ensures Covered(After(s, steps)) && Within(After(s, steps), e) && |After(s, steps).collectors| == |s.collectors|
    decreases |steps|
  {
    if steps != [] {
      StepCovers(s, steps[0]);
      StepWithin(s, steps[0], e);
      RunWithin(Do(s, steps[0]), steps[1..], e);
    }
  }

  /** n collectors, interleaved in any way with each other and with everything else, charge a client at most
      1 + 2 + ... + n times what was reported for it. */
  lemma OverlapBound(n: nat, steps: seq<Step>, e: string)
    requires Runs(Init(n), steps)
    ensures Val(After(Init(n), steps).charged, e) <= Tri(n) * Val(After(Init(n), steps).total, e)
  {
    RunWithin(Init(n), steps, e);
    var t := After(Init(n), steps);
    SumIsPositive(t, e, Val(t.total, e));
  }
  // ---- the bound is met ----------------------------------------------------------------------

  const ME := "a"

  function Mine(n: nat): Marks { map[ME := Mark(n, n)] }

  /** n reachable collectors of a running process that reports b bytes for the one client. */
  ghost predicate Stands(s: State, n: nat, b: nat, entry: Marks, phases: seq<Phase>, charged: nat) {
    && Reachable(s, n) && s.running && s.counters == map[ME := b] && Val(s.total, ME) == b && s.entry == Some(entry)
    && s.collectors == phases && Val(s.charged, ME) == charged
  }

  function Rep(p: Phase, n: nat): seq<Phase> { seq(n, i => p) }

  /** Of the first k collectors, i have moved from p to q. */
  function Half(i: nat, k: nat, p: Phase, q: Phase, rest: seq<Phase>): seq<Phase>
    requires i <= k
  {
    Rep(q, i) + Rep(p, k - i) + rest
  }

  lemma HalfStep(i: nat, k: nat, p: Phase, q: Phase, rest: seq<Phase>)
    requires i < k
    ensures i < |Half(i, k, p, q, rest)| && Half(i, k, p, q, rest)[i] == p && Half(i, k, p, q, rest)[i := q] == Half(i + 1, k, p, q, rest)
  {
  }

  lemma Whole(k: nat, p: Phase, q: Phase, rest: seq<Phase>)
    ensures Half(0, k, p, q, rest) == Rep(p, k) + rest && Half(k, k, p, q, rest) == Rep(q, k) + rest
  {
  }

  lemma {:induction false} SnapshotAll(s: State, n: nat, b: nat, i: nat, k: nat, rest: seq<Phase>, charged: nat) returns (t: State)
    requires i <= k && Stands(s, n, b, Mine(0), Half(i, k, Idle, Snapped(Mine(0)), rest), charged)
    ensures Stands(t, n, b, Mine(0), Half(k, k, Idle, Snapped(Mine(0)), rest), charged)
    decreases k - i
  {
    t := s;
    if i < k {
      HalfStep(i, k, Idle, Snapped(Mine(0)), rest);
      t := Next(s, Snapshot(i), n);
      t := SnapshotAll(t, n, b, i + 1, k, rest, charged);
    }
  }

  lemma ScrapeOne(s: State, n: nat, b: nat, i: nat, phases: seq<Phase>, charged: nat) returns (t: State)
    requires i < |phases| && phases[i] == Snapped(Mine(0)) && Stands(s, n, b, Mine(0), phases, charged)
    ensures Stands(t, n, b, Mine(0), phases[i := Scraped(Mine(b))], charged + b)
  {
    t := Next(s, Scrape(i), n);
    assert NewLast(s.counters, s.total) == Mine(b);
  }

  lemma {:induction false} ScrapeAll(s: State, n: nat, b: nat, i: nat, k: nat, rest: seq<Phase>, charged: nat) returns (t: State)
    requires i <= k && Stands(s, n, b, Mine(0), Half(i, k, Snapped(Mine(0)), Scraped(Mine(b)), rest), charged)
    ensures Stands(t, n, b, Mine(0), Half(k, k, Snapped(Mine(0)), Scraped(Mine(b)), rest), charged + (k - i) * b)
    decreases k - i
  {
    t := s;
    if i < k {
      HalfStep(i, k, Snapped(Mine(0)), Scraped(Mine(b)), rest);
      t := ScrapeOne(s, n, b, i, s.collectors, charged);
      t := ScrapeAll(t, n, b, i + 1, k, rest, charged + b);
      assert (k - i) * b == (k - (i + 1)) * b + b;
    }
  }

  lemma {:induction false} WriteAll(s: State, n: nat, b: nat, i: nat, k: nat, rest: seq<Phase>, charged: nat, entry: Marks) returns (t: State, last: Marks)
    requires i <= k && Stands(s, n, b, entry, Half(i, k, Scraped(Mine(b)), Idle, rest), charged)
    ensures Stands(t, n, b, last, Half(k, k, Scraped(Mine(b)), Idle, rest), charged)
    decreases k - i
  {
    t, last := s, entry;
    if i < k {
      HalfStep(i, k, Scraped(Mine(b)), Idle, rest);
      t := Next(s, WriteBack(i), n);
      t, last := WriteAll(t, n, b, i + 1, k, rest, charged, Mine(b));
    }
  }

  /** The k-th stale baseline comes back, and the first k collectors all poll on it. */
  lemma {:induction false} Round(s: State, n: nat, b: nat, k: nat, charged: nat, entry: Marks) returns (t: State, last: Marks)
    requires 1 <= k <= n && Stands(s, n, b, entry, Rep(Idle, k - 1) + Rep(Scraped(Mine(0)), n - k + 1), charged)
    ensures Stands(t, n, b, last, Rep(Idle, k) + Rep(Scraped(Mine(0)), n - k), charged + k * b)
  {
    var rest := Rep(Scraped(Mine(0)), n - k);
    assert s.collectors[k - 1] == Scraped(Mine(0)) && s.collectors[k - 1 := Idle] == Rep(Idle, k) + rest;
    t := Next(s, WriteBack(k - 1), n);
    Whole(k, Idle, Snapped(Mine(0)), rest);
    t := SnapshotAll(t, n, b, 0, k, rest, charged);
    Whole(k, Snapped(Mine(0)), Scraped(Mine(b)), rest);
    t := ScrapeAll(t, n, b, 0, k, rest, charged);
    Whole(k, Scraped(Mine(b)), Idle, rest);
    t, last := WriteAll(t, n, b, 0, k, rest, charged + k * b, Mine(0));
  }

  lemma {:induction false} Rounds(s: State, n: nat, b: nat, k: nat) returns (t: State, last: Marks)
    requires k <= n && Stands(s, n, b, map[], Rep(Scraped(Mine(0)), n), 0)
    ensures Stands(t, n, b, last, Rep(Idle, k) + Rep(Scraped(Mine(0)), n - k), Tri(k) * b)
  {
    if k == 0 {
      t, last := s, map[];
      assert Rep(Idle, 0) + Rep(Scraped(Mine(0)), n) == Rep(Scraped(Mine(0)), n);
    } else {
      t, last := Rounds(s, n, b, k - 1);
      t, last := Round(t, n, b, k, Tri(k - 1) * b, last);
      Distributes(b, Tri(k - 1), k);
    }
  }

  lemma {:induction false} FirstPolls(s: State, n: nat, i: nat) returns (t: State)
    requires i <= n && Stands(s, n, 0, map[], Half(i, n, Idle, Scraped(Mine(0)), []), 0)
    ensures Stands(t, n, 0, map[], Half(n, n, Idle, Scraped(Mine(0)), []), 0)
    decreases n - i
  {
    t := s;
    if i < n {
      HalfStep(i, n, Idle, Scraped(Mine(0)), []);
      var u := Next(s, Snapshot(i), n);
      t := Next(u, Scrape(i), n);
      assert NewLast(u.counters, u.total) == Mine(0);
      assert t.collectors == s.collectors[i := Scraped(Mine(0))];
      t := FirstPolls(t, n, i + 1);
    }
  }

  lemma Opening(n: nat, b: nat) returns (s: State)
    ensures Stands(s, n, b, map[], Rep(Scraped(Mine(0)), n), 0)
  {
    assert Reachable(Init(n), n) by { assert Runs(Init(n), []) && After(Init(n), []) == Init(n); }
    s := Next(Init(n), Start, n);
    s := Next(s, Reset(ME), n);
    Whole(n, Idle, Scraped(Mine(0)), []);
    assert s.collectors == Rep(Idle, n) + [];
    s := FirstPolls(s, n, 0);
    assert Rep(Scraped(Mine(0)), n) + [] == Rep(Scraped(Mine(0)), n);
    s := Next(s, Grow(ME, b), n);
  }

  /** And some run of n collectors does charge every byte that often: one stale baseline is written back after
      the other, and every collector that is free polls on each. */
  lemma OverlapBoundIsMet(n: nat, b: nat) returns (s: State)
    ensures Reachable(s, n) && Val(s.total, ME) == b && Val(s.charged, ME) == Tri(n) * b
  {
    var first := Opening(n, b);
    var last;
    s, last := Rounds(first, n, b, n);
  }
}
