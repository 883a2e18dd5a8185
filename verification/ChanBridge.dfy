/** The in-memory listener that hands layer-4 connections to an HTTP server: handlers, accept loops,
    HTTP-side closes, listener closes and re-registrations, interleaved one atomic action at a time. */
module ChanBridge {
  const QUEUE_CAP := 128

  /** Listener.Close runs once: close(done), then the registry clean-up under the lock. */
  datatype Stage = Open | Dying | Gone

  datatype Listener = Listener(name: string, queue: seq<nat>, stage: Stage) {
    predicate Dead() { stage != Open }
  }

  /** Where a Handle call stands.
      Refused: no such listener; Failed: the listener closed before the send (both return an error).
      Noticed: it took the `done` branch; Draining: it read accepted as set; Releasing: as unset. */
  datatype Pc = Refused | Offering | Failed | Waiting | Noticed | Draining | Releasing | Released | Returned

  /** The bridged connection: not offered, in the queue, taken by Accept (flag not stored yet), handed on. */
  datatype Place = Nowhere | Queued | Taken | Delivered

  /** One Handle call with its bridgeConn. `shut` is the wrapped Close, `done` the channel; httpShut and
      handlerShut record who called Close. */
  datatype Call = Call(listener: nat, pc: Pc, place: Place, accepted: bool,
                       shut: bool, done: bool, httpShut: bool, handlerShut: bool)

  datatype State = State(live: map<string, nat>, listeners: seq<Listener>, calls: seq<Call>)

  const INIT := State(map[], [], [])

  datatype Step =
    | Register(name: string)      // newChanListener
    | CloseDone(l: nat)           // chanListener.Close: close(l.done)
    | CloseUnregister(l: nat)     //   ... and the locked delete
    | Arrive(name: string)        // Handle: the registry read
    | Send(h: nat)                //   l.conns <- bc
    | Fail(h: nat)                //   <-l.done, in the first select
    | Wake(h: nat)                //   <-bc.done, in the second select
    | Notice(h: nat)              //   <-l.done, in the second select
    | Load(h: nat)                //   accepted.Load()
    | Drained(h: nat)             //   <-bc.done
    | ReleaseShut(h: nat)         //   bc.Close: the wrapped Close
    | ReleaseDone(h: nat)         //   bc.Close: close(c.done)
    | Take(l: nat)                // Accept: <-l.conns
    | Store(h: nat)               //   accepted.Store(true)
    | HttpShut(h: nat)            // the HTTP server's Close: the wrapped Close
    | HttpDone(h: nat)            //   close(c.done), once

  predicate At(s: State, h: nat, pc: Pc) { h < |s.calls| && s.calls[h].pc == pc }

  predicate Dead(s: State, l: nat) { l < |s.listeners| && s.listeners[l].Dead() }

  predicate Enabled(s: State, step: Step) {
    match step
    case Register(name) => name != ""
    case CloseDone(l) => l < |s.listeners| && s.listeners[l].stage == Open
    case CloseUnregister(l) => l < |s.listeners| && s.listeners[l].stage == Dying
    case Arrive(name) => true
    case Send(h) => At(s, h, Offering) && s.calls[h].listener < |s.listeners| && |s.listeners[s.calls[h].listener].queue| < QUEUE_CAP
    case Fail(h) => At(s, h, Offering) && Dead(s, s.calls[h].listener)
    case Wake(h) => At(s, h, Waiting) && s.calls[h].done
    case Notice(h) => At(s, h, Waiting) && Dead(s, s.calls[h].listener)
    case Load(h) => At(s, h, Noticed)
    case Drained(h) => At(s, h, Draining) && s.calls[h].done
    case ReleaseShut(h) => At(s, h, Releasing)
    case ReleaseDone(h) => At(s, h, Released)
    case Take(l) => l < |s.listeners| && s.listeners[l].queue != [] && s.listeners[l].queue[0] < |s.calls|
    case Store(h) => h < |s.calls| && s.calls[h].place == Taken
    case HttpShut(h) => h < |s.calls| && s.calls[h].place == Delivered
    case HttpDone(h) => h < |s.calls| && s.calls[h].httpShut
  }

  function SetCall(s: State, h: nat, c: Call): State
    requires h < |s.calls|
  {
    s.(calls := s.calls[h := c])
  }

  function SetListener(s: State, l: nat, v: Listener): State
    requires l < |s.listeners|
  {
    s.(listeners := s.listeners[l := v])
  }

  function DropOwn(live: map<string, nat>, name: string, l: nat): map<string, nat> {
    if name in live && live[name] == l then live - {name} else live
  }

  function Fresh(live: map<string, nat>, name: string): Call {
    Call(if name in live then live[name] else 0, if name in live then Offering else Refused, Nowhere, false, false, false, false, false)
  }

  function Do(s: State, step: Step): State
    requires Enabled(s, step)
  {
    match step
    case Register(name) => State(s.live[name := |s.listeners|], s.listeners + [Listener(name, [], Open)], s.calls)
    case CloseDone(l) => SetListener(s, l, s.listeners[l].(stage := Dying))
    case CloseUnregister(l) =>
      SetListener(s, l, s.listeners[l].(stage := Gone)).(live := DropOwn(s.live, s.listeners[l].name, l))
    case Arrive(name) => s.(calls := s.calls + [Fresh(s.live, name)])
    case Send(h) =>
      var l := s.calls[h].listener;
      SetCall(SetListener(s, l, s.listeners[l].(queue := s.listeners[l].queue + [h])), h, s.calls[h].(pc := Waiting, place := Queued))
    case Fail(h) => SetCall(s, h, s.calls[h].(pc := Failed))
    case Wake(h) => SetCall(s, h, s.calls[h].(pc := Returned))
    case Notice(h) => SetCall(s, h, s.calls[h].(pc := Noticed))
    case Load(h) => SetCall(s, h, s.calls[h].(pc := if s.calls[h].accepted then Draining else Releasing))
    case Drained(h) => SetCall(s, h, s.calls[h].(pc := Returned))
    case ReleaseShut(h) => SetCall(s, h, s.calls[h].(pc := Released, shut := true, handlerShut := true))
    case ReleaseDone(h) => SetCall(s, h, s.calls[h].(pc := Returned, done := true))
    case Take(l) =>
      var h := s.listeners[l].queue[0];
      SetCall(SetListener(s, l, s.listeners[l].(queue := s.listeners[l].queue[1..])), h, s.calls[h].(place := Taken))
    case Store(h) => SetCall(s, h, s.calls[h].(place := Delivered, accepted := true))
    case HttpShut(h) => SetCall(s, h, s.calls[h].(shut := true, httpShut := true))
    case HttpDone(h) => SetCall(s, h, s.calls[h].(done := true))
  }

  /** The states a list of steps leads through; a run is a list whose every step is enabled in turn. */
  predicate Runs(s: State, steps: seq<Step>)
    decreases |steps|
  {
    steps == [] || (Enabled(s, steps[0]) && Runs(Do(s, steps[0]), steps[1..]))
  }

  function After(s: State, steps: seq<Step>): State
    requires Runs(s, steps)
    decreases |steps|
  {
    if steps == [] then s else After(Do(s, steps[0]), steps[1..])
  }

  // ---- the invariant -------------------------------------------------------------------------

  /** What one call knows, whatever the others do. */
  predicate CallOk(c: Call, listeners: nat) {
    && (c.pc.Refused? || c.listener < listeners)
    && (c.pc in {Refused, Offering, Failed} <==> c.place == Nowhere)
    && (c.accepted <==> c.place == Delivered)
    && (c.done ==> c.shut)
    && (c.shut ==> c.httpShut || c.handlerShut)
    && (c.httpShut ==> c.shut && c.place == Delivered)
    && (c.handlerShut ==> c.shut && c.pc in {Released, Returned})
    && (c.pc == Draining ==> c.accepted)
    && (c.pc == Released ==> c.handlerShut)
    && (c.pc == Returned ==> c.done)
  }

  predicate ListenerOk(s: State, l: nat)
    requires l < |s.listeners|
  {
    var q := s.listeners[l].queue;
    && |q| <= QUEUE_CAP
    && (forall i :: 0 <= i < |q| ==> q[i] < |s.calls| && s.calls[q[i]].listener == l && s.calls[q[i]].place == Queued)
    && (forall i, j :: 0 <= i < j < |q| ==> q[i] != q[j])
  }

  predicate InQueue(s: State, h: nat)
    requires h < |s.calls|
  {
    s.calls[h].place == Queued ==> s.calls[h].listener < |s.listeners| && h in s.listeners[s.calls[h].listener].queue
  }

  predicate Registered(s: State, name: string)
    requires name in s.live
  {
    s.live[name] < |s.listeners| && s.listeners[s.live[name]].name == name && s.listeners[s.live[name]].stage != Gone
  }

  predicate Inv(s: State) {
    && (forall h :: 0 <= h < |s.calls| ==> CallOk(s.calls[h], |s.listeners|))
    && (forall l :: 0 <= l < |s.listeners| ==> ListenerOk(s, l))
    && (forall h :: 0 <= h < |s.calls| ==> InQueue(s, h))
    && (forall name :: name in s.live ==> Registered(s, name))
  }

  /** The step changes one call and not its place. */
  predicate Local(step: Step) {
    step.Fail? || step.Wake? || step.Notice? || step.Load? || step.Drained? || step.ReleaseShut? || step.ReleaseDone?
    || step.HttpShut? || step.HttpDone?
  }

  /** A step of one call. */
  lemma LocalKeepsInv(s: State, step: Step)
    requires Inv(s) && Enabled(s, step) && Local(step)
    ensures Inv(Do(s, step))
  {
    var c := Do(s, step).calls[step.h];
    assert CallOk(s.calls[step.h], |s.listeners|);
    CallKeepsInv(s, step.h, c);
  }

  lemma CallKeepsInv(s: State, h: nat, c: Call)
    requires Inv(s) && h < |s.calls| && CallOk(c, |s.listeners|) && c.place == s.calls[h].place && c.listener == s.calls[h].listener
    ensures Inv(SetCall(s, h, c))
  {
    var t := SetCall(s, h, c);
    forall l | 0 <= l < |t.listeners| ensures ListenerOk(t, l) {
      assert ListenerOk(s, l);
    }
    forall g | 0 <= g < |t.calls| ensures InQueue(t, g) && CallOk(t.calls[g], |t.listeners|) {
      assert InQueue(s, g) && CallOk(s.calls[g], |s.listeners|);
    }
    forall name | name in t.live ensures Registered(t, name) {
      assert Registered(s, name);
    }
  }

  lemma ListenersKeepInv(s: State, step: Step)
    requires Inv(s) && Enabled(s, step) && (step.Register? || step.CloseDone? || step.CloseUnregister?)
    ensures Inv(Do(s, step))
  {
    var t := Do(s, step);
    forall l | 0 <= l < |t.listeners| ensures ListenerOk(t, l) {
      assert l < |s.listeners| ==> ListenerOk(s, l);
    }
    forall h | 0 <= h < |t.calls| ensures CallOk(t.calls[h], |t.listeners|) && InQueue(t, h) {
      assert CallOk(s.calls[h], |s.listeners|) && InQueue(s, h);
    }
    forall name | name in t.live ensures Registered(t, name) {
      assert name in s.live ==> Registered(s, name);
    }
  }

  lemma ArriveKeepsInv(s: State, name: string)
    requires Inv(s)
    ensures Inv(Do(s, Arrive(name)))
  {
    var t := Do(s, Arrive(name));
    assert name in s.live ==> Registered(s, name);
    forall l | 0 <= l < |t.listeners| ensures ListenerOk(t, l) {
      assert ListenerOk(s, l);
    }
    forall h | 0 <= h < |t.calls| ensures InQueue(t, h) {
      assert h < |s.calls| ==> InQueue(s, h);
    }
    forall n | n in t.live ensures Registered(t, n) {
      assert Registered(s, n);
    }
  }

  lemma SendKeepsInv(s: State, h: nat)
    requires Inv(s) && Enabled(s, Send(h))
    ensures Inv(Do(s, Send(h)))
  {
    var t := Do(s, Send(h));
    forall l | 0 <= l < |t.listeners| ensures ListenerOk(t, l) {
      assert ListenerOk(s, l);
      assert h !in s.listeners[l].queue;
    }
    forall g | 0 <= g < |t.calls| ensures InQueue(t, g) {
      assert InQueue(s, g);
    }
    forall name | name in t.live ensures Registered(t, name) {
      assert Registered(s, name);
    }
  }

  lemma TakeKeepsInv(s: State, l: nat)
    requires Inv(s) && Enabled(s, Take(l))
    ensures Inv(Do(s, Take(l)))
  {
    var t, q := Do(s, Take(l)), s.listeners[l].queue;
    var h := q[0];
    assert ListenerOk(s, l) && q == [h] + q[1..];
    forall k | 0 <= k < |t.listeners| ensures ListenerOk(t, k) {
      assert ListenerOk(s, k);
      assert h !in t.listeners[k].queue;
    }
    forall g | 0 <= g < |t.calls| ensures InQueue(t, g) {
      assert InQueue(s, g);
    }
    forall name | name in t.live ensures Registered(t, name) {
      assert Registered(s, name);
    }
  }

  lemma StoreKeepsInv(s: State, h: nat)
    requires Inv(s) && Enabled(s, Store(h))
    ensures Inv(Do(s, Store(h)))
  {
    var t := Do(s, Store(h));
    forall l | 0 <= l < |t.listeners| ensures ListenerOk(t, l) {
      assert ListenerOk(s, l);
    }
    forall g | 0 <= g < |t.calls| ensures InQueue(t, g) {
      assert InQueue(s, g);
    }
    forall name | name in t.live ensures Registered(t, name) {
      assert Registered(s, name);
    }
  }

  lemma StepKeepsInv(s: State, step: Step)
    requires Inv(s) && Enabled(s, step)
    ensures Inv(Do(s, step))
  {
    if Local(step) {
      LocalKeepsInv(s, step);
    } else {
      match step
      case Send(h) => SendKeepsInv(s, h);
      case Take(l) => TakeKeepsInv(s, l);
      case Store(h) => StoreKeepsInv(s, h);
      case Arrive(name) => ArriveKeepsInv(s, name);
      case _ => ListenersKeepInv(s, step);
    }
  }

  lemma {:induction false} RunKeepsInv(s: State, steps: seq<Step>)
    requires Inv(s) && Runs(s, steps)
    ensures Inv(After(s, steps))
    decreases |steps|
  {
    if steps != [] {
      StepKeepsInv(s, steps[0]);
      RunKeepsInv(Do(s, steps[0]), steps[1..]);
    }
  }

  /** Reachable in some interleaving. */
  ghost predicate Reachable(s: State) { exists steps :: Runs(INIT, steps) && After(INIT, steps) == s }

  lemma ReachableInv(s: State)
    requires Reachable(s)
    ensures Inv(s)
  {
    var steps :| Runs(INIT, steps) && After(INIT, steps) == s;
    RunKeepsInv(INIT, steps);
  }

  // ---- what the handler promises -------------------------------------------------------------

  /** Handle returns nil only once its connection is closed, and when it closed it itself the HTTP side
      had not been seen to accept it: a call that read the flag as set never closes. */
  lemma HandlerPromises(s: State, h: nat)
    requires Reachable(s) && h < |s.calls|
    ensures s.calls[h].pc == Returned ==> s.calls[h].done && s.calls[h].shut
    ensures s.calls[h].pc == Draining ==> !s.calls[h].handlerShut && s.calls[h].accepted
    ensures s.calls[h].shut && !s.calls[h].handlerShut ==> s.calls[h].httpShut && s.calls[h].place == Delivered
  {
    ReachableInv(s);
  }

  /** Draining is for good: whatever happens next, a call that saw the flag set never closes. */
  lemma {:induction false} SeenAcceptedNeverClosed(s: State, steps: seq<Step>, h: nat)
    requires Inv(s) && Runs(s, steps) && h < |s.calls|
    requires s.calls[h].pc in {Draining, Returned} && !s.calls[h].handlerShut
    ensures
      var t := After(s, steps);
      h < |t.calls| && t.calls[h].pc in {Draining, Returned} && !t.calls[h].handlerShut
    decreases |steps|
  {
    if steps != [] {
      StepKeepsInv(s, steps[0]);
      SeenAcceptedNeverClosed(Do(s, steps[0]), steps[1..], h);
    }
  }

  /** The step belongs to call h's own goroutine. */
  predicate OwnStep(step: Step, h: nat) {
    step in {Send(h), Fail(h), Wake(h), Notice(h), Load(h), Drained(h), ReleaseShut(h), ReleaseDone(h)}
  }

  ghost predicate Blocked(s: State, h: nat) { forall step :: OwnStep(step, h) ==> !Enabled(s, step) }

  predicate Finished(pc: Pc) { pc in {Refused, Failed, Returned} }

  /** Exactly when a handler cannot move: it is done, the live listener's queue is full, it waits on a live
      listener, or it waits for the HTTP server that owns its connection. */
  predicate BlockedBy(s: State, h: nat)
    requires h < |s.calls|
  {
    var c := s.calls[h];
    || Finished(c.pc)
    || (c.pc == Offering && !Dead(s, c.listener) && c.listener < |s.listeners| && |s.listeners[c.listener].queue| == QUEUE_CAP)
    || (c.pc == Waiting && !c.done && !Dead(s, c.listener))
    || (c.pc == Draining && !c.done && c.place == Delivered)
  }

  lemma BlockedIsBy(s: State, h: nat)
    requires Inv(s) && h < |s.calls| && Blocked(s, h)
    ensures BlockedBy(s, h)
  {
    var c := s.calls[h];
    assert CallOk(c, |s.listeners|);
    assert c.listener < |s.listeners| ==> ListenerOk(s, c.listener);
    match c.pc
    case Offering => assert OwnStep(Send(h), h) && OwnStep(Fail(h), h);
    case Waiting => assert OwnStep(Wake(h), h) && OwnStep(Notice(h), h);
    case Noticed => assert OwnStep(Load(h), h);
    case Draining => assert OwnStep(Drained(h), h);
    case Releasing => assert OwnStep(ReleaseShut(h), h);
    case Released => assert OwnStep(ReleaseDone(h), h);
    case _ =>
  }

  lemma ByIsBlocked(s: State, h: nat)
    requires h < |s.calls| && BlockedBy(s, h)
    ensures Blocked(s, h)
  {
  }

  lemma BlockedIff(s: State, h: nat)
    requires Reachable(s) && h < |s.calls|
    ensures Blocked(s, h) <==> BlockedBy(s, h)
  {
    ReachableInv(s);
    if Blocked(s, h) { BlockedIsBy(s, h); }
    if BlockedBy(s, h) { ByIsBlocked(s, h); }
  }

  /** No queued connection outlives a dead listener: once its handler has nothing left to do, a queued
      connection whose listener died is closed. */
  lemma QueuedDoesNotOutlive(s: State, h: nat)
    requires Reachable(s) && h < |s.calls| && Blocked(s, h)
    requires s.calls[h].place == Queued && Dead(s, s.calls[h].listener)
    ensures s.calls[h].done && s.calls[h].pc == Returned
  {
    ReachableInv(s);
    BlockedIff(s, h);
  }

  /** And the handler gets there alone: at most four of its own steps, none of which waits for anyone. */
  function Rest(pc: Pc, h: nat): seq<Step> {
    match pc
    case Waiting => [Notice(h), Load(h), ReleaseShut(h), ReleaseDone(h)]
    case Noticed => [Load(h), ReleaseShut(h), ReleaseDone(h)]
    case Releasing => [ReleaseShut(h), ReleaseDone(h)]
    case Released => [ReleaseDone(h)]
    case _ => []
  }

  lemma RunsOne(s: State, step: Step, rest: seq<Step>)
    requires Enabled(s, step)
    ensures Runs(s, [step] + rest) == Runs(Do(s, step), rest)
    ensures Runs(Do(s, step), rest) ==> After(s, [step] + rest) == After(Do(s, step), rest)
  {
    assert ([step] + rest)[1..] == rest;
  }

  lemma {:induction false} QueuedIsReleased(s: State, h: nat)
    requires Inv(s) && h < |s.calls| && s.calls[h].place == Queued && Dead(s, s.calls[h].listener)
    ensures Runs(s, Rest(s.calls[h].pc, h))
    ensures
      var t := After(s, Rest(s.calls[h].pc, h));
      h < |t.calls| && t.calls[h].pc == Returned && t.calls[h].done
    decreases |Rest(s.calls[h].pc, h)|
  {
    var steps := Rest(s.calls[h].pc, h);
    if steps != [] {
      var t := Do(s, steps[0]);
      StepKeepsInv(s, steps[0]);
      assert steps == [steps[0]] + steps[1..];
      RunsOne(s, steps[0], steps[1..]);
      if s.calls[h].pc != Released {
        assert steps[1..] == Rest(t.calls[h].pc, h);
        QueuedIsReleased(t, h);
      }
    }
  }

  // ---- the gap between taking a connection and marking it ------------------------------------

  /** A run with the states it goes through. */
  ghost predicate Path(states: seq<State>, steps: seq<Step>) {
    && |states| == |steps| + 1
    && forall k :: 0 <= k < |steps| ==> Goes(states[k], steps[k], states[k + 1])
  }

  predicate Goes(s: State, step: Step, t: State) { Enabled(s, step) && Do(s, step) == t }

  /** Every run has one. */
  lemma {:induction false} RunHasPath(s: State, steps: seq<Step>) returns (states: seq<State>)
    requires Runs(s, steps)
    ensures Path(states, steps) && states[0] == s && states[|steps|] == After(s, steps)
    decreases |steps|
  {
    states := [s];
    if steps != [] {
      var rest := RunHasPath(Do(s, steps[0]), steps[1..]);
      states := [s] + rest;
      forall k | 0 <= k < |steps| ensures Goes(states[k], steps[k], states[k + 1]) {
        assert k > 0 ==> steps[k] == steps[1..][k - 1] && Goes(rest[k - 1], steps[1..][k - 1], rest[k]);
      }
    }
  }

  /** The step is an Accept dequeuing call h. */
  predicate Takes(s: State, step: Step, h: nat) {
    step.Take? && step.l < |s.listeners| && s.listeners[step.l].queue != [] && s.listeners[step.l].queue[0] == h
  }

  ghost predicate TakenBy(states: seq<State>, steps: seq<Step>, k: nat, h: nat)
    requires k <= |steps| < |states|
  {
    exists j :: 0 <= j < k && Takes(states[j], steps[j], h)
  }

  /** Handle reads the flag of call h, and no Accept has stored it before. */
  predicate LoadsUnset(steps: seq<Step>, i: nat, h: nat)
    requires i < |steps|
  {
    steps[i] == Load(h) && Store(h) !in steps[..i]
  }

  ghost predicate LoadedUnset(steps: seq<Step>, k: nat, h: nat)
    requires k <= |steps|
  {
    exists i :: 0 <= i < k && LoadsUnset(steps, i, h)
  }

  /** What the steps so far say about call h. */
  ghost predicate Told(states: seq<State>, steps: seq<Step>, k: nat, h: nat)
    requires k <= |steps| < |states|
  {
    && (TakenBy(states, steps, k, h) <==> Dequeued(states[k], h))
    && (Store(h) in steps[..k] <==> Stored(states[k], h))
    && (Closing(states[k], h) ==> LoadedUnset(steps, k, h))
  }

  lemma StepTold(states: seq<State>, steps: seq<Step>, k: nat, h: nat)
    requires k < |steps| < |states| && Goes(states[k], steps[k], states[k + 1]) && Inv(states[k]) && Told(states, steps, k, h)
    ensures Told(states, steps, k + 1, h)
  {
    var s, t, step := states[k], states[k + 1], steps[k];
    assert steps[..k + 1] == steps[..k] + [step];
    assert TakenBy(states, steps, k + 1, h) <==> TakenBy(states, steps, k, h) || Takes(s, step, h);
    assert LoadedUnset(steps, k + 1, h) <==> LoadedUnset(steps, k, h) || LoadsUnset(steps, k, h);
    StepTells(s, step, h);
  }

  predicate Dequeued(s: State, h: nat) { h < |s.calls| && s.calls[h].place in {Taken, Delivered} }

  predicate Stored(s: State, h: nat) { h < |s.calls| && s.calls[h].accepted }

  predicate Closing(s: State, h: nat) { h < |s.calls| && (s.calls[h].pc in {Releasing, Released} || s.calls[h].handlerShut) }

  /** The only steps that make a call dequeued, marked, or on its way to being closed by its handler. */
  lemma StepTells(s: State, step: Step, h: nat)
    requires Inv(s) && Enabled(s, step)
    ensures Dequeued(Do(s, step), h) <==> Dequeued(s, h) || Takes(s, step, h)
    ensures Stored(Do(s, step), h) <==> Stored(s, h) || step == Store(h)
    ensures Closing(Do(s, step), h) ==> Closing(s, h) || (step == Load(h) && !Stored(s, h))
  {
    if h < |s.calls| {
      assert CallOk(s.calls[h], |s.listeners|);
    }
    if step.Take? {
      assert ListenerOk(s, step.l);
    }
  }

  lemma {:induction false} PathTold(states: seq<State>, steps: seq<Step>, k: nat, h: nat)
    requires Path(states, steps) && states[0] == INIT && k <= |steps|
    ensures Inv(states[k]) && Told(states, steps, k, h)
  {
    if k > 0 {
      PathTold(states, steps, k - 1, h);
      assert Goes(states[k - 1], steps[k - 1], states[k]);
      StepKeepsInv(states[k - 1], steps[k - 1]);
      StepTold(states, steps, k - 1, h);
    }
  }

  /** At step k Handle closes call h, which an Accept has already dequeued. */
  predicate ClosesDequeued(states: seq<State>, steps: seq<Step>, k: nat, h: nat)
    requires k < |steps| < |states|
  {
    steps[k] == ReleaseShut(h) && Dequeued(states[k], h)
  }

  /** In every run: Handle closes a connection an Accept has already dequeued exactly when the dequeue comes
      before the close and the flag is read before the store. Whether the dequeue or the flag read comes first
      does not matter. */
  lemma ClosesDequeuedIff(states: seq<State>, steps: seq<Step>, k: nat, h: nat)
    requires Path(states, steps) && states[0] == INIT && k < |steps|
    ensures ClosesDequeued(states, steps, k, h) <==>
      steps[k] == ReleaseShut(h) && TakenBy(states, steps, k, h) && LoadedUnset(steps, k, h)
  {
    PathTold(states, steps, k, h);
    assert Goes(states[k], steps[k], states[k + 1]);
  }

  /** And a flag read after the store is never followed by a close. */
  lemma ClosesOnlyUnset(states: seq<State>, steps: seq<Step>, i: nat, k: nat, h: nat)
    requires Path(states, steps) && states[0] == INIT && i < |steps| && k < |steps|
    requires steps[i] == Load(h) && Store(h) in steps[..i]
    ensures steps[k] != ReleaseShut(h)
  {
    PathTold(states, steps, i, h);
    PathTold(states, steps, k, h);
    assert Goes(states[i], steps[i], states[i + 1]);
    if steps[k] == ReleaseShut(h) {
      assert Goes(states[k], steps[k], states[k + 1]) && LoadedUnset(steps, k, h);
      var j :| 0 <= j < k && LoadsUnset(steps, j, h);
      assert j < i;
      PastNotice(states, steps, j, i, h);
    }
  }

  /** The flag is read once. */
  lemma {:induction false} PastNotice(states: seq<State>, steps: seq<Step>, i: nat, j: nat, h: nat)
    requires Path(states, steps) && states[0] == INIT && i < j <= |steps| && steps[i] == Load(h)
    ensures h < |states[j].calls| && states[j].calls[h].pc in {Draining, Releasing, Released, Returned}
  {
    PathTold(states, steps, j - 1, h);
    assert Goes(states[j - 1], steps[j - 1], states[j]);
    if i < j - 1 {
      PastNotice(states, steps, i, j - 1, h);
    }
  }

  lemma {:induction false} RunExtends(s: State, steps: seq<Step>, step: Step)
    requires Runs(s, steps) && Enabled(After(s, steps), step)
    ensures Runs(s, steps + [step]) && After(s, steps + [step]) == Do(After(s, steps), step)
    decreases |steps|
  {
    if steps == [] {
      assert steps + [step] == [step] && [step] == [step] + [];
      RunsOne(s, step, []);
    } else {
      RunExtends(Do(s, steps[0]), steps[1..], step);
      assert steps + [step] == [steps[0]] + (steps[1..] + [step]);
      RunsOne(s, steps[0], steps[1..] + [step]);
    }
  }

  lemma ReachableStep(s: State, step: Step)
    requires Reachable(s) && Enabled(s, step)
    ensures Reachable(Do(s, step))
  {
    var steps :| Runs(INIT, steps) && After(INIT, steps) == s;
    RunExtends(INIT, steps, step);
  }

  const ONE := map["a" := 0]
  const WAITING := Call(0, Waiting, Nowhere, false, false, false, false, false)

  /** A listener is registered and a connection queued. */
  lemma QueueOpens()
    ensures Reachable(State(ONE, [Listener("a", [0], Open)], [WAITING.(place := Queued)]))
  {
    var c := WAITING.(pc := Offering);
    assert [] + [0] == [0];
    assert Reachable(INIT) by { assert Runs(INIT, []) && After(INIT, []) == INIT; }
    ReachableStep(INIT, Register("a"));
    ReachableStep(State(ONE, [Listener("a", [], Open)], []), Arrive("a"));
    ReachableStep(State(ONE, [Listener("a", [], Open)], [c]), Send(0));
  }

  /** The connection is taken; then the listener dies. */
  lemma GapOpens()
    ensures Reachable(State(ONE, [Listener("a", [], Dying)], [WAITING.(place := Taken)]))
  {
    QueueOpens();
    assert [0][1..] == [];
    ReachableStep(State(ONE, [Listener("a", [0], Open)], [WAITING.(place := Queued)]), Take(0));
    ReachableStep(State(ONE, [Listener("a", [], Open)], [WAITING.(place := Taken)]), CloseDone(0));
  }

  lemma LoadsInGap()
    ensures Reachable(State(ONE, [Listener("a", [], Dying)], [WAITING.(pc := Releasing, place := Taken)]))
  {
    var ls, c := [Listener("a", [], Dying)], WAITING.(place := Taken);
    GapOpens();
    ReachableStep(State(ONE, ls, [c]), Notice(0));
    ReachableStep(State(ONE, ls, [c.(pc := Noticed)]), Load(0));
  }

  /** That interleaving exists: the HTTP server is handed a connection its handler closes under it. */
  lemma AcceptedCanBeClosed() returns (s: State)
    ensures Reachable(s) && s.calls != []
    ensures s.calls[0].place == Delivered && s.calls[0].accepted && s.calls[0].handlerShut && !s.calls[0].httpShut
  {
    var ls := [Listener("a", [], Dying)];
    var c := WAITING.(place := Taken);
    var d := c.(pc := Releasing, place := Delivered, accepted := true);
    LoadsInGap();
    ReachableStep(State(ONE, ls, [c.(pc := Releasing)]), Store(0));
    ReachableStep(State(ONE, ls, [d]), ReleaseShut(0));
    s := State(ONE, ls, [d.(pc := Released, shut := true, handlerShut := true)]);
  }

  lemma GoesOn(states: seq<State>, steps: seq<Step>, step: Step, t: State)
    requires Path(states, steps) && Goes(states[|steps|], step, t)
    ensures Path(states + [t], steps + [step])
  {
    var ss, ps := states + [t], steps + [step];
    forall k | 0 <= k < |ps| ensures Goes(ss[k], ps[k], ss[k + 1]) {
      assert k < |steps| ==> Goes(states[k], steps[k], states[k + 1]);
    }
  }

  lemma QueuedIsNoticed()
    ensures Reachable(State(ONE, [Listener("a", [0], Dying)], [WAITING.(pc := Noticed, place := Queued)]))
  {
    QueueOpens();
    ReachableStep(State(ONE, [Listener("a", [0], Open)], [WAITING.(place := Queued)]), CloseDone(0));
    ReachableStep(State(ONE, [Listener("a", [0], Dying)], [WAITING.(place := Queued)]), Notice(0));
  }

  /** The other interleaving exists too: the flag is read while the connection is still queued, and the dead
      listener's Accept dequeues it before the close. */
  lemma QueuedCanBeClosed() returns (states: seq<State>, steps: seq<Step>)
    ensures Path(states, steps) && |steps| == 4 && steps[0] == Load(0)
    ensures Reachable(states[0]) && states[0].calls != [] && states[0].calls[0].place == Queued
    ensures var c := states[4].calls;
      c != [] && c[0].place == Delivered && c[0].accepted && c[0].handlerShut && !c[0].httpShut
  {
    QueuedIsNoticed();
    var s := State(ONE, [Listener("a", [0], Dying)], [WAITING.(pc := Noticed, place := Queued)]);
    var ls := [Listener("a", [], Dying)];
    var c := WAITING.(pc := Releasing);
    assert [0][1..] == [];
    var s1 := State(ONE, s.listeners, [c.(place := Queued)]);
    var s2, s3 := State(ONE, ls, [c.(place := Taken)]), State(ONE, ls, [c.(place := Delivered, accepted := true)]);
    var s4 := State(ONE, ls, [s3.calls[0].(pc := Released, shut := true, handlerShut := true)]);
    GoesOn([s], [], Load(0), s1);
    GoesOn([s, s1], [Load(0)], Take(0), s2);
    GoesOn([s, s1, s2], [Load(0), Take(0)], Store(0), s3);
    GoesOn([s, s1, s2, s3], [Load(0), Take(0), Store(0)], ReleaseShut(0), s4);
    states, steps := [s, s1, s2, s3, s4], [Load(0), Take(0), Store(0), ReleaseShut(0)];
    assert states == [s, s1, s2, s3] + [s4] && steps == [Load(0), Take(0), Store(0)] + [ReleaseShut(0)];
  }

  // ---- re-registration -----------------------------------------------------------------------

  /** A registration stands until that same listener is closed or the name is registered again: closing an
      older listener, or any other step, never takes it away. */
  lemma {:induction false} RegistrationStands(s: State, steps: seq<Step>, name: string)
    requires Inv(s) && Runs(s, steps) && name in s.live
    requires forall i :: 0 <= i < |steps| ==> steps[i] != CloseUnregister(s.live[name]) && steps[i] != Register(name)
    ensures name in After(s, steps).live && After(s, steps).live[name] == s.live[name]
    decreases |steps|
  {
    if steps != [] {
      StepKeepsInv(s, steps[0]);
      var t := Do(s, steps[0]);
      assert name in t.live && t.live[name] == s.live[name];
      RegistrationStands(t, steps[1..], name);
    }
  }

  /** A name is gone from the registry, or held by a listener whose Close has not finished. */
  lemma ClosedIsUnregistered(s: State, l: nat)
    requires Reachable(s) && l < |s.listeners| && s.listeners[l].stage == Gone
    ensures forall name :: name in s.live ==> s.live[name] != l
  {
    ReachableInv(s);
    forall name | name in s.live ensures s.live[name] != l {
      assert Registered(s, name);
    }
  }
}
