/** The bus as the code writes it: an object whose locked sections loop over the subscriber list, each
    proved to be the step, or the run of steps, EventBus reasons about. */
module EventBusLoops {
  import opened EventBus

  lemma {:induction false} RunExtends(s: State, steps: seq<Step>, step: Step)
    requires Runs(s, steps) && Enabled(After(s, steps), step)
    ensures Runs(s, steps + [step]) && After(s, steps + [step]) == Do(After(s, steps), step)
    decreases |steps|
  {
    if steps == [] {
      assert steps + [step] == [step] && [step][1..] == [];
    } else {
      RunExtends(Do(s, steps[0]), steps[1..], step);
      assert (steps + [step])[1..] == steps[1..] + [step];
    }
  }

  /** The lock and n offers. */
  function Offers(n: nat): (steps: seq<Step>)
    ensures |steps| == n + 1
  {
    if n == 0 then [LockRead] else Offers(n - 1) + [Offer]
  }

  /** One whole fan-out over n subscribers. */
  function FanOutSteps(n: nat): seq<Step> { Offers(n) + [UnlockRead] }

  /** `v` is the state a fan-out of `e` from `s` is in after i offers. */
  predicate Midway(s: State, e: nat, i: nat, v: State) {
    && Runs(s, Offers(i)) && v == After(s, Offers(i)) && Inv(v)
    && v.dispatcher == Dispatcher.FanOut(e, i) && v.subs == s.subs
  }

  lemma OfferNext(s: State, e: nat, i: nat, v: State)
    requires Midway(s, e, i, v) && i < |v.subs|
    ensures v.subs[i] < |v.workers| && Midway(s, e, i + 1, Do(v, Offer))
  {
    assert SubOk(v, i);
    StepKeepsInv(v, Offer);
    RunExtends(s, Offers(i), Offer);
  }

  const DEFAULT_BUFFER_SIZE := 256

  class Bus {
    const cap: nat
    var ch: seq<nat>
    var workers: seq<Worker>
    var subs: seq<nat>
    var dispatcher: Dispatcher
    var stop: Stopping
    var published: nat            // this and the two below only record history
    var dispatched: seq<nat>
    var audiences: seq<seq<nat>>

    ghost function View(): State
      reads this
    {
      State(cap, ch, published, workers, subs, dispatcher, stop, dispatched, audiences)
    }

    constructor (bufSize: int)
      ensures View() == Init(if bufSize <= 0 then DEFAULT_BUFFER_SIZE else bufSize)
    {
      cap := if bufSize <= 0 then DEFAULT_BUFFER_SIZE else bufSize;
      ch, workers, subs, dispatcher, stop := [], [], [], Idle, Up;
      published, dispatched, audiences := 0, [], [];
    }

    /** The loop over b.subs that stops at the first match. */
    method CloseAndDrop(id: string)
      requires Listed(View())
      modifies this
      ensures View() == Remove(old(View()), id)
    {
      var i := 0;
      while i < |subs|
        invariant 0 <= i <= |subs| && View() == old(View())
        invariant forall k :: 0 <= k < i ==> workers[subs[k]].id != id
      {
        var w := subs[i];
        if workers[w].id == id {
          workers := workers[w := workers[w].(quits := workers[w].quits + 1)];
          subs := subs[..i] + subs[i + 1..];
          return;
        }
        i := i + 1;
      }
    }

    method Subscribe(id: string)
      requires Inv(View()) && Enabled(View(), Step.Subscribe(id))
      modifies this
      ensures View() == Do(old(View()), Step.Subscribe(id)) && Inv(View())
    {
      StepKeepsInv(View(), Step.Subscribe(id));
      if stop != Up { return; }
      CloseAndDrop(id);
      workers, subs :=
        workers + [Worker(id, [], [], 0, true, false, |dispatched|, |dispatched|, {}, [])], subs + [|workers|];
    }

    method Unsubscribe(id: string)
      requires Inv(View()) && Enabled(View(), Step.Unsubscribe(id))
      modifies this
      ensures View() == Do(old(View()), Step.Unsubscribe(id)) && Inv(View())
    {
      StepKeepsInv(View(), Step.Unsubscribe(id));
      CloseAndDrop(id);
    }

    /** The non-blocking send to the bus's own buffer. */
    method Publish()
      requires Inv(View())
      modifies this
      ensures View() == Do(old(View()), Step.Publish) && Inv(View())
    {
      StepKeepsInv(View(), Step.Publish);
      if |ch| < cap {
        ch := ch + [published];
      }
      published := published + 1;
    }

    /** select { case s.queue <- e: default: }, with its outcome noted. */
    static method Send(v: Worker, e: nat) returns (u: Worker)
      ensures u == Offered(v, e)
    {
      u := v.(seen := v.seen + 1, before := v.before + [|v.handled|]);
      if |v.queue| < QUEUE_CAP {
        u := u.(queue := v.queue + [e]);
      } else {
        u := u.(drops := v.drops + {v.seen});
      }
    }

    /** The non-blocking send to one subscriber's queue. */
    method OfferTo(w: nat, e: nat, i: nat)
      requires Inv(View()) && dispatcher == Dispatcher.FanOut(e, i) && i < |subs| && w == subs[i] && w < |workers|
      modifies this
      ensures Enabled(old(View()), Offer) && View() == Do(old(View()), Offer) && Inv(View())
    {
      StepKeepsInv(View(), Offer);
      var v := Send(workers[w], e);
      workers := workers[w := v];
      dispatcher := Dispatcher.FanOut(e, i + 1);
    }

    method LockForReading(e: nat)
      requires Inv(View()) && dispatcher == Got(e)
      modifies this
      ensures Midway(old(View()), e, 0, View())
    {
      StepKeepsInv(View(), LockRead);
      RunExtends(View(), [], LockRead);
      dispatched, audiences := dispatched + [e], audiences + [subs];
      dispatcher := Dispatcher.FanOut(e, 0);
    }

    method Unlock(ghost s: State, e: nat)
      requires Midway(s, e, |subs|, View())
      modifies this
      ensures Runs(s, FanOutSteps(old(|subs|))) && View() == After(s, FanOutSteps(old(|subs|)))
      ensures Inv(View()) && dispatcher == Idle
    {
      StepKeepsInv(View(), UnlockRead);
      RunExtends(s, Offers(|subs|), UnlockRead);
      dispatcher := Idle;
    }

    /** dispatch's loop body once it has an event: lock, offer it to every subscriber in turn, unlock. */
    method FanOut()
      requires Inv(View()) && dispatcher.Got?
      modifies this
      ensures Runs(old(View()), FanOutSteps(old(|subs|))) && View() == After(old(View()), FanOutSteps(old(|subs|)))
      ensures Inv(View()) && dispatcher == Idle
    {
      ghost var s := View();
      var e := dispatcher.e;
      LockForReading(e);
      var i := 0;
      while i < |subs|
        invariant 0 <= i <= |subs| && Midway(s, e, i, View())
      {
        OfferNext(s, e, i, View());
        OfferTo(subs[i], e, i);
        i := i + 1;
      }
      Unlock(s, e);
    }
  }
}
