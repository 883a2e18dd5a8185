/** The notification rate limiter: a map pruned in place at most once per cooldown, against the plain
    rule it stands for: an event is held back exactly when one of its key went out less than a cooldown
    before. */
module EventFilter {
  import opened Options

  /** One Allow call: its key and the clock reading. */
  datatype Call = Call(key: string, now: int)

  /** `lastPrune` is None while it holds Go's zero time, from which any cooldown has elapsed. */
  datatype Limiter = Limiter(lastSent: map<string, int>, lastPrune: Option<int>)

  const NEW := Limiter(map[], None)

  function Recent(sent: map<string, int>, now: int, cooldown: int): map<string, int> {
    map k | k in sent && now - sent[k] < cooldown :: sent[k]
  }

  function Prune(l: Limiter, now: int, cooldown: int): Limiter {
    if l.lastPrune.Some? && now - l.lastPrune.value < cooldown then l
    else Limiter(Recent(l.lastSent, now, cooldown), Some(now))
  }

  predicate Held(sent: map<string, int>, c: Call, cooldown: int) { c.key in sent && c.now - sent[c.key] < cooldown }

  function Allowed(l: Limiter, c: Call, cooldown: int): Limiter {
    var p := Prune(l, c.now, cooldown);
    if Held(p.lastSent, c, cooldown) then p else p.(lastSent := p.lastSent[c.key := c.now])
  }

  predicate Answer(l: Limiter, c: Call, cooldown: int) { !Held(Prune(l, c.now, cooldown).lastSent, c, cooldown) }

  /** The answers of a limiter to a sequence of calls. */
  function Answers(l: Limiter, calls: seq<Call>, cooldown: int): (r: seq<bool>)
    ensures |r| == |calls|
    decreases |calls|
  {
    if calls == [] then []
    else [Answer(l, calls[0], cooldown)] + Answers(Allowed(l, calls[0], cooldown), calls[1..], cooldown)
  }

  predicate Clocked(calls: seq<Call>) { forall i, j :: 0 <= i < j < |calls| ==> calls[i].now <= calls[j].now }

  /** Call i went out, and is too close before call j of the same key. */
  predicate Blocks(calls: seq<Call>, answers: seq<bool>, i: nat, j: nat, cooldown: int)
    requires i < |calls| == |answers| && j < |calls|
  {
    i < j && answers[i] && calls[i].key == calls[j].key && calls[j].now - calls[i].now < cooldown
  }

  // ---- the simulation ------------------------------------------------------------------------

  /** What the map still has to know after the calls so far: every key sent within a cooldown of `now`. */
  ghost predicate Remembers(sent: map<string, int>, calls: seq<Call>, answers: seq<bool>, now: int, cooldown: int)
    requires |calls| == |answers|
  {
    && (forall k :: k in sent ==> exists i :: Sent(calls, answers, i, k) && calls[i].now == sent[k])
    && (forall k, i :: Sent(calls, answers, i, k) && now - calls[i].now < cooldown ==> k in sent && calls[i].now <= sent[k])
  }

  predicate Sent(calls: seq<Call>, answers: seq<bool>, i: int, k: string)
    requires |calls| == |answers|
  {
    0 <= i < |calls| && answers[i] && calls[i].key == k
  }

  lemma PruneRemembers(l: Limiter, calls: seq<Call>, answers: seq<bool>, prior: int, now: int, cooldown: int)
    requires |calls| == |answers| && Remembers(l.lastSent, calls, answers, prior, cooldown) && prior <= now
    ensures Remembers(Prune(l, now, cooldown).lastSent, calls, answers, now, cooldown)
  {
    var p := Prune(l, now, cooldown).lastSent;
    forall k, i | Sent(calls, answers, i, k) && now - calls[i].now < cooldown ensures k in p && calls[i].now <= p[k] {
      assert prior - calls[i].now < cooldown;
    }
  }

  lemma CallRemembers(l: Limiter, calls: seq<Call>, answers: seq<bool>, prior: int, c: Call, cooldown: int)
    requires |calls| == |answers| && Remembers(l.lastSent, calls, answers, prior, cooldown) && prior <= c.now
    requires forall i :: 0 <= i < |calls| ==> calls[i].now <= c.now
    ensures Answer(l, c, cooldown) <==> forall i :: Sent(calls, answers, i, c.key) ==> c.now - calls[i].now >= cooldown
    ensures Remembers(Allowed(l, c, cooldown).lastSent, calls + [c], answers + [Answer(l, c, cooldown)], c.now, cooldown)
  {
    PruneRemembers(l, calls, answers, prior, c.now, cooldown);
    var p := Prune(l, c.now, cooldown).lastSent;
    var q, cs, said := Allowed(l, c, cooldown).lastSent, calls + [c], answers + [Answer(l, c, cooldown)];
    forall k | k in q ensures exists i :: Sent(cs, said, i, k) && cs[i].now == q[k] {
      if k == c.key && Answer(l, c, cooldown) {
        assert Sent(cs, said, |calls|, k);
      } else {
        var i :| Sent(calls, answers, i, k) && calls[i].now == p[k];
        assert Sent(cs, said, i, k);
      }
    }
    forall k, i | Sent(cs, said, i, k) && c.now - cs[i].now < cooldown ensures k in q && cs[i].now <= q[k] {
      assert i < |calls| ==> Sent(calls, answers, i, k);
    }
  }

  lemma {:induction false} AnswersExtend(l: Limiter, done: seq<Call>, answers: seq<bool>, rest: seq<Call>, prior: int, cooldown: int)
    requires |done| == |answers| && Remembers(l.lastSent, done, answers, prior, cooldown) && Clocked(done + rest)
    requires forall i :: 0 <= i < |rest| ==> prior <= rest[i].now
    requires forall j :: 0 <= j < |done| ==> RuleAt(done, answers, j, cooldown)
    ensures
      var all := answers + Answers(l, rest, cooldown);
      forall j :: 0 <= j < |done + rest| ==> RuleAt(done + rest, all, j, cooldown)
    decreases |rest|
  {
    if rest == [] {
      assert done + rest == done && answers + Answers(l, rest, cooldown) == answers;
    } else {
      var c := rest[0];
      var ok := Answer(l, c, cooldown);
      var next, told := done + [c], answers + [ok];
      assert next + rest[1..] == done + rest;
      assert told + Answers(Allowed(l, c, cooldown), rest[1..], cooldown) == answers + Answers(l, rest, cooldown);
      LaterCalls(done, rest);
      CallRemembers(l, done, answers, prior, c, cooldown);
      forall j | 0 <= j < |next| ensures RuleAt(next, told, j, cooldown) {
        RuleExtends(done, answers, c, ok, j, cooldown);
      }
      AnswersExtend(Allowed(l, c, cooldown), next, told, rest[1..], c.now, cooldown);
    }
  }

  lemma LaterCalls(done: seq<Call>, rest: seq<Call>)
    requires Clocked(done + rest) && rest != []
    ensures forall i :: 0 <= i < |done| ==> done[i].now <= rest[0].now
    ensures forall i :: 0 <= i < |rest[1..]| ==> rest[0].now <= rest[1..][i].now
  {
    var all, m := done + rest, |done|;
    assert all[m] == rest[0];
    forall i | 0 <= i < |done| ensures done[i].now <= rest[0].now { assert all[i] == done[i]; }
    forall i | 0 <= i < |rest[1..]| ensures rest[0].now <= rest[1..][i].now { assert all[m + 1 + i] == rest[1..][i]; }
  }

  /** The rule, at call j. */
  predicate RuleAt(calls: seq<Call>, answers: seq<bool>, j: nat, cooldown: int)
    requires |calls| == |answers| && j < |calls|
  {
    answers[j] <==> forall i: nat :: i < j ==> !Blocks(calls, answers, i, j, cooldown)
  }

  lemma RuleExtends(calls: seq<Call>, answers: seq<bool>, c: Call, ok: bool, j: nat, cooldown: int)
    requires |calls| == |answers| && j <= |calls|
    requires j < |calls| ==> RuleAt(calls, answers, j, cooldown)
    requires j == |calls| ==> (ok <==> forall i :: Sent(calls, answers, i, c.key) ==> c.now - calls[i].now >= cooldown)
    ensures RuleAt(calls + [c], answers + [ok], j, cooldown)
  {
    var cs, said := calls + [c], answers + [ok];
    if j < |calls| {
      forall i: nat | i < j ensures Blocks(cs, said, i, j, cooldown) == Blocks(calls, answers, i, j, cooldown) {
      }
    } else {
      forall i: nat | i < j ensures Blocks(cs, said, i, j, cooldown) <==> Sent(calls, answers, i, c.key) && c.now - calls[i].now < cooldown {
      }
    }
  }

  /** On a clock that never goes back, pruning changes no answer: a call is refused exactly when one of
      the same key was allowed less than a cooldown before. */
  lemma PruningChangesNothing(calls: seq<Call>, cooldown: int, j: nat)
    requires Clocked(calls) && j < |calls|
    ensures
      var answers := Answers(NEW, calls, cooldown);
      answers[j] <==> forall i: nat :: i < j ==> !Blocks(calls, answers, i, j, cooldown)
  {
    assert [] + calls == calls && [] + Answers(NEW, calls, cooldown) == Answers(NEW, calls, cooldown);
    var first := if calls == [] then 0 else calls[0].now;
    AnswersExtend(NEW, [], [], calls, first, cooldown);
    assert RuleAt(calls, Answers(NEW, calls, cooldown), j, cooldown);
  }

  /** Two notifications of one key are at least a cooldown apart. */
  lemma AllowedAreSpaced(calls: seq<Call>, cooldown: int, i: nat, j: nat)
    requires Clocked(calls) && i < j < |calls| && calls[i].key == calls[j].key
    requires Answers(NEW, calls, cooldown)[i] && Answers(NEW, calls, cooldown)[j]
    ensures calls[j].now - calls[i].now >= cooldown
  {
    PruningChangesNothing(calls, cooldown, j);
    assert !Blocks(calls, Answers(NEW, calls, cooldown), i, j, cooldown);
  }

  /** PruningChangesNothing needs its hypothesis: on a clock that could go back (Go's own cannot, within one
      process), any two keys make a prune forget what an earlier reading would hold back. */
  lemma BackwardClockForgets(k: string, l: string, cooldown: int)
    requires k != l && cooldown > 0
    ensures
      var calls := [Call(k, 0), Call(l, cooldown), Call(k, cooldown - 1)];
      var answers := Answers(NEW, calls, cooldown);
      answers == [true, true, true] && Blocks(calls, answers, 0, 2, cooldown)
  {
    var calls := [Call(k, 0), Call(l, cooldown), Call(k, cooldown - 1)];
    var l1 := Allowed(NEW, calls[0], cooldown);
    assert l1 == Limiter(map[k := 0], Some(0));
    var l2 := Allowed(l1, calls[1], cooldown);
    assert l2.lastSent == map[l := cooldown] && l2.lastPrune == Some(cooldown);
    assert calls[1..] == [calls[1], calls[2]] && calls[1..][1..] == [calls[2]];
    assert Answers(l2, [calls[2]], cooldown) == [true] + Answers(Allowed(l2, calls[2], cooldown), [], cooldown);
  }

  // ---- the limiter as the code writes it -----------------------------------------------------

  class RateLimiter {
    const cooldown: int
    var lastSent: map<string, int>
    var lastPrune: Option<int>

    ghost function View(): Limiter
      reads this
    {
      Limiter(lastSent, lastPrune)
    }

    constructor (cooldown: int)
      ensures View() == NEW && this.cooldown == cooldown
    {
      this.cooldown := cooldown;
      lastSent, lastPrune := map[], None;
    }

    /** Deletes from the map while ranging over it. */
    method PruneLocked(now: int)
      modifies this
      ensures View() == Prune(old(View()), now, cooldown)
      ensures lastPrune == Some(now) ==> old(lastPrune) == Some(now) || forall k :: k in lastSent ==> now - lastSent[k] < cooldown
    {
      if lastPrune.Some? && now - lastPrune.value < cooldown { return; }
      lastPrune := Some(now);
      var keys := lastSent.Keys;
      while keys != {}
        invariant keys <= lastSent.Keys && lastPrune == Some(now)
        invariant forall k :: k in lastSent <==> k in old(lastSent) && (k in keys || now - old(lastSent)[k] < cooldown)
        invariant forall k :: k in lastSent ==> lastSent[k] == old(lastSent)[k]
        decreases |keys|
      {
        var k :| k in keys;
        if now - lastSent[k] >= cooldown {
          lastSent := lastSent - {k};
        }
        keys := keys - {k};
      }
      assert lastSent == Recent(old(lastSent), now, cooldown);
    }

    method Allow(c: Call) returns (ok: bool)
      modifies this
      ensures ok == Answer(old(View()), c, cooldown) && View() == Allowed(old(View()), c, cooldown)
    {
      PruneLocked(c.now);
      if c.key in lastSent && c.now - lastSent[c.key] < cooldown { return false; }
      lastSent := lastSent[c.key := c.now];
      ok := true;
    }
  }
}
