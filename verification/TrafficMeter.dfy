/** One peer's kernel counter seen through polls: what the collector charges against what was carried,
    across resets, primed baselines and forgotten baselines. */
module TrafficMeter {
  import opened Options

  /** What happens to one counter's baseline: a poll reads it, the entry is dropped, or it is primed. */
  datatype Event = Read(n: nat) | Clear | Base(n: nat)

  /** Delta's arithmetic: the growth, or the whole reading when there is no baseline or it went down. */
  function Growth(prev: Option<nat>, n: nat): nat {
    if prev.Some? && n >= prev.value then n - prev.value else n
  }

  function Next(prev: Option<nat>, e: Event): Option<nat> {
    match e
    case Read(n) => Some(n)
    case Base(n) => Some(n)
    case Clear => None
  }

  function Charge(prev: Option<nat>, e: Event): nat {
    if e.Read? then Growth(prev, e.n) else 0
  }

  /** Everything charged over a list of events, starting from a baseline. */
  function Charged(prev: Option<nat>, events: seq<Event>): nat
    decreases |events|
  {
    if events == [] then 0 else Charge(prev, events[0]) + Charged(Next(prev, events[0]), events[1..])
  }

  function Baseline(prev: Option<nat>, events: seq<Event>): Option<nat>
    decreases |events|
  {
    if events == [] then prev else Baseline(Next(prev, events[0]), events[1..])
  }

  lemma {:induction false} ChargedAppend(prev: Option<nat>, a: seq<Event>, b: seq<Event>)
    ensures Charged(prev, a + b) == Charged(prev, a) + Charged(Baseline(prev, a), b)
    ensures Baseline(prev, a + b) == Baseline(Baseline(prev, a), b)
    decreases |a|
  {
    if a == [] {
      assert a + b == b;
    } else {
      assert (a + b)[1..] == a[1..] + b;
      ChargedAppend(Next(prev, a[0]), a[1..], b);
    }
  }

  // ---- lives of a counter --------------------------------------------------------------------

  /** One life of the counter, from a reset to the next, as the collector meets it: polls, primings and dropped
      baselines in any order, or none at all. Within a life the counter only grows. */
  type Life = seq<Event>

  predicate Rises(life: Life) {
    forall i, j :: 0 <= i <= j < |life| && !life[i].Clear? && !life[j].Clear? ==> life[i].n <= life[j].n
  }

  predicate AllRise(lives: seq<Life>) { forall i :: 0 <= i < |lives| ==> Rises(lives[i]) }

  function Level(o: Option<nat>): nat { if o.Some? then o.value else 0 }

  /** The last value the collector saw of the counter. */
  function Top(life: Life): Option<nat> {
    if life == [] then None
    else if Top(life[1..]).Some? || life[0].Clear? then Top(life[1..])
    else Some(life[0].n)
  }

  /** Bytes charged again because a baseline was dropped and the counter was seen once more in the same life. */
  function Excess(b: Option<nat>, life: Life): nat
    decreases |life|
  {
    if life == [] then 0
    else (if life[0].Clear? && Top(life[1..]).Some? then Level(b) else 0) + Excess(Next(b, life[0]), life[1..])
  }

  /** Bytes a priming takes as already accounted for. */
  function Waived(b: Option<nat>, life: Life): int
    decreases |life|
  {
    if life == [] then 0
    else (if life[0].Base? then life[0].n - Level(b) else 0) + Waived(Next(b, life[0]), life[1..])
  }

  /** Bytes a reset hides: the baseline of an earlier life that the first reading is not below. */
  function Hidden(prev: Option<nat>, life: Life): nat {
    if life != [] && life[0].Read? && prev.Some? && life[0].n >= prev.value then prev.value else 0
  }

  function History(lives: seq<Life>): seq<Event> { if lives == [] then [] else lives[0] + History(lives[1..]) }

  /** The bytes the counter reported: each life's last value. */
  function Carried(lives: seq<Life>): nat { if lives == [] then 0 else Level(Top(lives[0])) + Carried(lives[1..]) }

  function AllExcess(lives: seq<Life>): nat { if lives == [] then 0 else Excess(None, lives[0]) + AllExcess(lives[1..]) }

  function AllWaived(lives: seq<Life>): int { if lives == [] then 0 else Waived(None, lives[0]) + AllWaived(lives[1..]) }

  function AllHidden(prev: Option<nat>, lives: seq<Life>): nat
    decreases |lives|
  {
    if lives == [] then 0 else Hidden(prev, lives[0]) + AllHidden(Baseline(prev, lives[0]), lives[1..])
  }

  /** The baseline is from this life, and so not above any value to come. */
  predicate Own(b: Option<nat>, life: Life) {
    b.Some? ==> forall i :: 0 <= i < |life| && !life[i].Clear? ==> b.value <= life[i].n
  }

  /** What one life is charged: its last value, plus what is charged again, less what priming waives. */
  lemma {:induction false} LifeCharge(b: Option<nat>, life: Life)
    requires Rises(life) && Own(b, life)
    ensures Charged(b, life) == (if Top(life).Some? then Top(life).value - Level(b) else 0) + Excess(b, life) - Waived(b, life)
    ensures Waived(b, life) >= 0
    decreases |life|
  {
    if life != [] {
      var e, rest := life[0], life[1..];
      assert forall i :: 0 <= i < |rest| ==> rest[i] == life[i + 1];
      LifeCharge(Next(b, e), rest);
    }
  }

  lemma EntryHides(prev: Option<nat>, life: Life)
    ensures Charged(prev, life) == Charged(None, life) - Hidden(prev, life)
    ensures life != [] ==> Baseline(prev, life) == Baseline(None, life)
  {
  }

  /** The whole account, for every run: any polls, primings and dropped baselines over any lives. */
  lemma {:induction false} Account(prev: Option<nat>, lives: seq<Life>)
    requires AllRise(lives)
    ensures Charged(prev, History(lives)) == Carried(lives) + AllExcess(lives) - AllWaived(lives) - AllHidden(prev, lives)
    ensures AllWaived(lives) >= 0
    decreases |lives|
  {
    if lives != [] {
      ChargedAppend(prev, lives[0], History(lives[1..]));
      EntryHides(prev, lives[0]);
      LifeCharge(None, lives[0]);
      Account(Baseline(prev, lives[0]), lives[1..]);
    }
  }

  // ---- never too much ------------------------------------------------------------------------

  /** A baseline is dropped after a positive value, and the counter is seen again in the same life. */
  ghost predicate Redrops(life: Life) { exists i, j, k :: RedropsAt(life, i, j, k) }

  predicate RedropsAt(life: Life, i: int, j: int, k: int) {
    0 <= i < j < k < |life| && !life[i].Clear? && life[i].n > 0 && life[j].Clear? && !life[k].Clear?
  }

  lemma {:induction false} TopIff(life: Life)
    ensures Top(life).Some? <==> exists k :: 0 <= k < |life| && !life[k].Clear?
  {
    if life != [] {
      TopIff(life[1..]);
      if k :| 0 <= k < |life| && !life[k].Clear? {
        assert k > 0 ==> !life[1..][k - 1].Clear?;
      }
      if Top(life[1..]).Some? {
        var k :| 0 <= k < |life[1..]| && !life[1..][k].Clear?;
        assert !life[k + 1].Clear?;
      }
    }
  }

  /** A positive baseline is dropped here or later, and the counter is seen after that. */
  ghost predicate Owes(b: Option<nat>, life: Life) {
    Redrops(life) || (Level(b) > 0 && exists j, k :: DropsAt(life, j, k))
  }

  predicate DropsAt(life: Life, j: int, k: int) { 0 <= j < k < |life| && life[j].Clear? && !life[k].Clear? }

  lemma ShiftDrops(life: Life, j: int, k: int)
    requires life != []
    ensures DropsAt(life[1..], j, k) == (j >= 0 && DropsAt(life, j + 1, k + 1))
  {
  }

  lemma ShiftRedrops(life: Life, i: int, j: int, k: int)
    requires life != []
    ensures RedropsAt(life[1..], i, j, k) == (i >= 0 && RedropsAt(life, i + 1, j + 1, k + 1))
  {
  }

  /** Owing goes over to the rest, unless the drop is the first event. */
  lemma OwesStep(b: Option<nat>, life: Life)
    requires life != [] && Rises(life) && Own(b, life)
    ensures Owes(b, life) <==> (life[0].Clear? && Top(life[1..]).Some? && Level(b) > 0) || Owes(Next(b, life[0]), life[1..])
  {
    var rest, c := life[1..], Next(b, life[0]);
    TopIff(rest);
    if Owes(b, life) {
      if i, j, k :| RedropsAt(life, i, j, k) {
        ShiftRedrops(life, i - 1, j - 1, k - 1);
        ShiftDrops(life, j - 1, k - 1);
        if i == 0 { assert DropsAt(rest, j - 1, k - 1); } else { assert RedropsAt(rest, i - 1, j - 1, k - 1); }
      } else {
        var j, k :| DropsAt(life, j, k);
        ShiftDrops(life, j - 1, k - 1);
        if j == 0 { assert !rest[k - 1].Clear?; } else { OwesLater(b, life, j, k); }
      }
    }
    if life[0].Clear? && Top(rest).Some? && Level(b) > 0 {
      var k :| 0 <= k < |rest| && !rest[k].Clear?;
      assert DropsAt(life, 0, k + 1);
    }
    if Owes(c, rest) {
      if i, j, k :| RedropsAt(rest, i, j, k) {
        ShiftRedrops(life, i, j, k);
        assert RedropsAt(life, i + 1, j + 1, k + 1);
      } else {
        var j, k :| DropsAt(rest, j, k);
        ShiftDrops(life, j, k);
        assert RedropsAt(life, 0, j + 1, k + 1);
      }
    }
  }

  lemma OwesLater(b: Option<nat>, life: Life, j: int, k: int)
    requires life != [] && Rises(life) && Own(b, life) && Level(b) > 0 && j > 0 && DropsAt(life, j, k)
    ensures (life[0].Clear? && Top(life[1..]).Some?) || Owes(Next(b, life[0]), life[1..])
  {
    ShiftDrops(life, j - 1, k - 1);
    TopIff(life[1..]);
    if life[0].Clear? {
      assert !life[1..][k - 1].Clear?;
    } else {
      assert life[0].n >= Level(b) && DropsAt(life[1..], j - 1, k - 1);
    }
  }

  lemma {:induction false} ExcessIff(b: Option<nat>, life: Life)
    requires Rises(life) && Own(b, life)
    ensures Excess(b, life) > 0 <==> Owes(b, life)
    decreases |life|
  {
    if life != [] {
      assert forall i :: 0 <= i < |life[1..]| ==> life[1..][i] == life[i + 1];
      ExcessIff(Next(b, life[0]), life[1..]);
      OwesStep(b, life);
    }
  }

  lemma {:induction false} NoExcessIff(lives: seq<Life>)
    requires AllRise(lives)
    ensures AllExcess(lives) == 0 <==> forall i :: 0 <= i < |lives| ==> !Redrops(lives[i])
  {
    if lives != [] {
      NoExcessIff(lives[1..]);
      ExcessIff(None, lives[0]);
      assert forall i :: 0 <= i < |lives[1..]| ==> lives[1..][i] == lives[i + 1];
      if forall i :: 0 <= i < |lives| ==> !Redrops(lives[i]) {
        assert !Redrops(lives[0]);
      }
      if AllExcess(lives) == 0 {
        forall i | 0 <= i < |lives| ensures !Redrops(lives[i]) {
          assert i > 0 ==> !Redrops(lives[1..][i - 1]);
        }
      }
    }
  }

  /** A counter the collector meets fresh is charged more than it carried exactly when what dropped baselines
      charge again outweighs what priming waives and resets hide. */
  lemma OverchargedIff(lives: seq<Life>)
    requires AllRise(lives)
    ensures Charged(None, History(lives)) > Carried(lives) <==> AllExcess(lives) > AllWaived(lives) + AllHidden(None, lives)
  {
    Account(None, lives);
  }

  /** While no baseline is dropped in a life the counter goes on in, it is never charged more than it carried
      beyond its primed baselines, and exactly that when no reset hides. */
  lemma NeverOvercharged(lives: seq<Life>)
    requires AllRise(lives) && forall i :: 0 <= i < |lives| ==> !Redrops(lives[i])
    ensures 0 <= AllWaived(lives) && Charged(None, History(lives)) <= Carried(lives) - AllWaived(lives)
    ensures Charged(None, History(lives)) == Carried(lives) - AllWaived(lives) <==> AllHidden(None, lives) == 0
  {
    Account(None, lives);
    NoExcessIff(lives);
  }

  /** Within one unprimed life, the counter is overcharged exactly when a baseline is dropped after a positive
      value and the counter is seen again. */
  lemma DroppedBaselineOvercharges(life: Life)
    requires Rises(life) && forall i :: 0 <= i < |life| ==> !life[i].Base?
    ensures Charged(None, life) > Level(Top(life)) <==> Redrops(life)
  {
    LifeCharge(None, life);
    Unprimed(None, life);
    ExcessIff(None, life);
  }

  lemma {:induction false} Unprimed(b: Option<nat>, life: Life)
    requires forall i :: 0 <= i < |life| ==> !life[i].Base?
    ensures Waived(b, life) == 0
    decreases |life|
  {
    if life != [] {
      Unprimed(Next(b, life[0]), life[1..]);
    }
  }

  lemma RisesAround(before: Life, e: Event, after: Life)
    requires Rises(before + [e] + after) && !e.Clear?
    ensures Rises(before) && Rises(after) && Own(Some(e.n), after)
  {
    var life, m := before + [e] + after, |before|;
    assert life[m] == e;
    forall i, j | 0 <= i <= j < |before| && !before[i].Clear? && !before[j].Clear? ensures before[i].n <= before[j].n {
      assert life[i] == before[i] && life[j] == before[j];
    }
    forall i, j | 0 <= i <= j < |after| && !after[i].Clear? && !after[j].Clear? ensures e.n <= after[i].n <= after[j].n {
      assert life[m + 1 + i] == after[i] && life[m + 1 + j] == after[j];
    }
  }

  /** Priming in the middle of a life waives everything the counter had carried by then that was not charged
      yet: the life is charged for what came after, and for what had been charged before. */
  lemma PrimedIsChargedFromBaseline(before: Life, base: nat, after: Life)
    requires Rises(before + [Base(base)] + after)
    requires (forall i :: 0 <= i < |before| ==> before[i].Read?) && (forall i :: 0 <= i < |after| ==> after[i].Read?)
    ensures Charged(None, before + [Base(base)] + after) ==
      Level(Top(before)) + (if Top(after).Some? then Top(after).value - base else 0)
  {
    RisesAround(before, Base(base), after);
    ChargedAppend(None, before + [Base(base)], after);
    ChargedAppend(None, before, [Base(base)]);
    assert [Base(base)][1..] == [];
    LifeCharge(None, before);
    LifeCharge(Some(base), after);
    Unprimed(None, before);
    Unprimed(Some(base), after);
    Undropped(None, before);
    Undropped(Some(base), after);
  }

  lemma {:induction false} Undropped(b: Option<nat>, life: Life)
    requires forall i :: 0 <= i < |life| ==> !life[i].Clear?
    ensures Excess(b, life) == 0
    decreases |life|
  {
    if life != [] {
      Undropped(Next(b, life[0]), life[1..]);
    }
  }

  /** Every list of events is the history of some lives. */
  lemma {:induction false} HasLives(events: seq<Event>) returns (lives: seq<Life>)
    ensures AllRise(lives) && History(lives) == events
  {
    lives := [];
    if events != [] {
      var rest := HasLives(events[1..]);
      lives := [[events[0]]] + rest;
      assert lives[1..] == rest;
    }
  }
}
