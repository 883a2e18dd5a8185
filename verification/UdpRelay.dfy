/** The UDP relay's session map: handlers that look up, dial off-lock and publish, one reply pump per
    session, and Close sweeping the map under the lock, interleaved one critical section at a time. */
module UdpRelay {
  type Source = int

  /** A pump: not started; reading; its read failed; off the map, about to close; done. */
  datatype Pump = Unborn | Reading | Retiring | Closing | Finished

  /** A dialled SOCKS5 association. `owner` is the Handle call that dialled it, `pumps` how many pumps were
      ever started on it. */
  datatype Session = Session(src: Source, owner: nat, published: bool, closed: bool, pump: Pump, pumps: nat)

  /** Where one Handle call stands. */
  datatype Pc =
    | Dialling                                // no session was published for its source
    | Holding(own: nat)                     // dialled, about to take the lock
    | Spawning(own: nat)                    // published, about to start the pump
    | Losing(own: nat, existing: nat)       // somebody else published first: about to close its own
    | Sending(via: nat)
    | Gone                                    // sent, or the dial failed

  datatype Handler = Handler(src: Source, pc: Pc)

  /** The mutex: only Close holds it across several actions; Swept(k) is between closing and deleting k. */
  datatype Lock = Free | Sweeping | Swept(k: Source)

  datatype State = State(live: map<Source, nat>, sessions: seq<Session>, handlers: seq<Handler>, mutex: Lock)

  const INIT := State(map[], [], [], Free)

  datatype Step =
    | Arrive(src: Source)            // Handle: the locked lookup
    | DialFails(h: nat)
    | Dial(h: nat)
    | Publish(h: nat)                // the second locked section: publish, or find that another did
    | CloseLoser(h: nat)
    | Spawn(h: nat)                  // go u.pump
    | Send(h: nat)
    | ReadFails(id: nat)             // pump: receive returns an error
    | Retire(id: nat)                // pump: the deferred locked delete
    | ClosePumped(id: nat)           // pump: sess.Close()
    | CloseLock | CloseSession(k: Source) | CloseDelete | CloseUnlock

  predicate AtSession(s: State, id: nat, p: Pump) { id < |s.sessions| && s.sessions[id].pump == p }

  predicate Enabled(s: State, step: Step) {
    match step
    case Arrive(src) => s.mutex.Free?
    case DialFails(h) => h < |s.handlers| && s.handlers[h].pc.Dialling?
    case Dial(h) => h < |s.handlers| && s.handlers[h].pc.Dialling?
    case Publish(h) => s.mutex.Free? && h < |s.handlers| && s.handlers[h].pc.Holding? && s.handlers[h].pc.own < |s.sessions|
    case CloseLoser(h) => h < |s.handlers| && s.handlers[h].pc.Losing? && s.handlers[h].pc.own < |s.sessions|
    case Spawn(h) => h < |s.handlers| && s.handlers[h].pc.Spawning? && s.handlers[h].pc.own < |s.sessions|
    case Send(h) => h < |s.handlers| && s.handlers[h].pc.Sending?
    case ReadFails(id) => AtSession(s, id, Reading)
    case Retire(id) => s.mutex.Free? && AtSession(s, id, Retiring)
    case ClosePumped(id) => AtSession(s, id, Closing)
    case CloseLock => s.mutex.Free?
    case CloseSession(k) => s.mutex.Sweeping? && k in s.live && s.live[k] < |s.sessions|
    case CloseDelete => s.mutex.Swept?
    case CloseUnlock => s.mutex.Sweeping? && s.live == map[]
  }

  function SetPc(s: State, h: nat, pc: Pc): State
    requires h < |s.handlers|
  {
    s.(handlers := s.handlers[h := s.handlers[h].(pc := pc)])
  }

  function SetSession(s: State, id: nat, v: Session): State
    requires id < |s.sessions|
  {
    s.(sessions := s.sessions[id := v])
  }

  function Start(s: State, src: Source): Handler {
    Handler(src, if src in s.live then Sending(s.live[src]) else Dialling)
  }

  function DoPublish(s: State, h: nat): State
    requires Enabled(s, Publish(h))
  {
    var src, own := s.handlers[h].src, s.handlers[h].pc.own;
    if src in s.live then SetPc(s, h, Losing(own, s.live[src]))
    else SetPc(SetSession(s, own, s.sessions[own].(published := true)), h, Spawning(own)).(live := s.live[src := own])
  }

  function DropOwn(live: map<Source, nat>, src: Source, id: nat): map<Source, nat> {
    if src in live && live[src] == id then live - {src} else live
  }

  function Do(s: State, step: Step): State
    requires Enabled(s, step)
  {
    match step
    case Arrive(src) => s.(handlers := s.handlers + [Start(s, src)])
    case DialFails(h) => SetPc(s, h, Gone)
    case Dial(h) =>
      SetPc(s, h, Holding(|s.sessions|)).(sessions := s.sessions + [Session(s.handlers[h].src, h, false, false, Unborn, 0)])
    case Publish(h) => DoPublish(s, h)
    case CloseLoser(h) =>
      var own := s.handlers[h].pc.own;
      SetPc(SetSession(s, own, s.sessions[own].(closed := true)), h, Sending(s.handlers[h].pc.existing))
    case Spawn(h) =>
      var own := s.handlers[h].pc.own;
      SetPc(SetSession(s, own, s.sessions[own].(pump := Reading, pumps := s.sessions[own].pumps + 1)), h, Sending(own))
    case Send(h) => SetPc(s, h, Gone)
    case ReadFails(id) => SetSession(s, id, s.sessions[id].(pump := Retiring))
    case Retire(id) =>
      SetSession(s, id, s.sessions[id].(pump := Closing)).(live := DropOwn(s.live, s.sessions[id].src, id))
    case ClosePumped(id) => SetSession(s, id, s.sessions[id].(closed := true, pump := Finished))
    case CloseLock => s.(mutex := Sweeping)
    case CloseSession(k) => SetSession(s, s.live[k], s.sessions[s.live[k]].(closed := true)).(mutex := Swept(k))
    case CloseDelete => s.(live := s.live - {s.mutex.k}, mutex := Sweeping)
    case CloseUnlock => s.(mutex := Free)
  }

  predicate Runs(s: State, steps: seq<Step>)
    decreases |steps|
  {
    steps == [] || (Enabled(s, steps[0]) && Runs(Do(s, steps[0]), steps[1..]))
  }

  function After(s: State, steps: seq<Step>): State
    requires Runs(s, steps)
    decreases |steps|
  {
    if steps == [] then s else After(Do(s, steps[0]), steps[1..])
  }

  // ---- the invariant -------------------------------------------------------------------------

  /** The handler has dialled `id` and not yet handed it over. */
  predicate Keeps(pc: Pc, id: nat) { pc == Holding(id) || (pc.Losing? && pc.own == id) }

  predicate Mapped(live: map<Source, nat>, src: Source, id: nat) { src in live && live[src] == id }

  /** A session and the handler that dialled it. */
  predicate Owned(v: Session, owner: Handler, id: nat) {
    && owner.src == v.src
    && (!v.published ==> (!v.closed <==> Keeps(owner.pc, id)))
    && (v.published ==> !Keeps(owner.pc, id))
    && (v.published && v.pump == Unborn <==> owner.pc == Spawning(id))
  }

  /** A session and the map. */
  predicate Placed(v: Session, live: map<Source, nat>, mutex: Lock, id: nat) {
    && (!v.published ==> v.pump == Unborn && !Mapped(live, v.src, id))
    && v.pumps == (if v.pump == Unborn then 0 else 1)
    && (v.published && !v.closed && v.pump != Closing ==> Mapped(live, v.src, id))
    && (v.closed && Mapped(live, v.src, id) ==> mutex == Swept(v.src))
    && (v.pump in {Closing, Finished} ==> !Mapped(live, v.src, id))
    && (v.pump == Finished ==> v.closed)
  }

  predicate SessionOk(s: State, id: nat)
    requires id < |s.sessions|
  {
    && s.sessions[id].owner < |s.handlers|
    && Owned(s.sessions[id], s.handlers[s.sessions[id].owner], id)
    && Placed(s.sessions[id], s.live, s.mutex, id)
  }

  predicate Refers(s: State, src: Source, id: nat) { id < |s.sessions| && s.sessions[id].src == src && s.sessions[id].published }

  predicate Dialled(s: State, h: nat, id: nat) { id < |s.sessions| && s.sessions[id].owner == h }

  predicate HandlerOk(s: State, h: nat)
    requires h < |s.handlers|
  {
    match s.handlers[h].pc
    case Holding(own) => Dialled(s, h, own)
    case Spawning(own) => Dialled(s, h, own)
    case Losing(own, existing) => Dialled(s, h, own) && Refers(s, s.handlers[h].src, existing)
    case Sending(via) => Refers(s, s.handlers[h].src, via)
    case _ => true
  }

  predicate MutexOk(s: State) { s.mutex.Swept? ==> s.mutex.k in s.live && s.live[s.mutex.k] < |s.sessions| && s.sessions[s.live[s.mutex.k]].closed }

  predicate Inv(s: State) {
    && (forall id :: 0 <= id < |s.sessions| ==> SessionOk(s, id))
    && (forall h :: 0 <= h < |s.handlers| ==> HandlerOk(s, h))
    && (forall k :: k in s.live ==> Refers(s, k, s.live[k]))
    && MutexOk(s)
  }

  lemma ArriveKeepsInv(s: State, src: Source)
    requires Inv(s) && Enabled(s, Arrive(src))
    ensures Inv(Do(s, Arrive(src)))
  {
    var t := Do(s, Arrive(src));
    forall id | 0 <= id < |t.sessions| ensures SessionOk(t, id) { assert SessionOk(s, id); }
    forall h | 0 <= h < |t.handlers| ensures HandlerOk(t, h) { assert h < |s.handlers| ==> HandlerOk(s, h); }
  }

  lemma DialKeepsInv(s: State, step: Step)
    requires Inv(s) && Enabled(s, step) && (step.Dial? || step.DialFails? || step.Send?)
    ensures Inv(Do(s, step))
  {
    var t := Do(s, step);
    assert HandlerOk(s, step.h);
    forall id | 0 <= id < |t.sessions| ensures SessionOk(t, id) { assert id < |s.sessions| ==> SessionOk(s, id); }
    forall h | 0 <= h < |t.handlers| ensures HandlerOk(t, h) { assert HandlerOk(s, h); }
  }

  lemma PublishKeepsInv(s: State, h: nat)
    requires Inv(s) && Enabled(s, Publish(h))
    ensures Inv(Do(s, Publish(h)))
  {
    var t := Do(s, Publish(h));
    assert HandlerOk(s, h) && SessionOk(s, s.handlers[h].pc.own);
    forall id | 0 <= id < |t.sessions| ensures SessionOk(t, id) { assert SessionOk(s, id); }
    forall g | 0 <= g < |t.handlers| ensures HandlerOk(t, g) { assert HandlerOk(s, g); }
  }

  lemma HandoverKeepsInv(s: State, step: Step)
    requires Inv(s) && Enabled(s, step) && (step.CloseLoser? || step.Spawn?)
    ensures Inv(Do(s, step))
  {
    var t := Do(s, step);
    assert HandlerOk(s, step.h) && SessionOk(s, s.handlers[step.h].pc.own);
    forall id | 0 <= id < |t.sessions| ensures SessionOk(t, id) { assert SessionOk(s, id); }
    forall g | 0 <= g < |t.handlers| ensures HandlerOk(t, g) { assert HandlerOk(s, g); }
  }

  lemma PumpKeepsInv(s: State, step: Step)
    requires Inv(s) && Enabled(s, step) && (step.ReadFails? || step.Retire? || step.ClosePumped?)
    ensures Inv(Do(s, step))
  {
    var t := Do(s, step);
    assert SessionOk(s, step.id);
    forall id | 0 <= id < |t.sessions| ensures SessionOk(t, id) { assert SessionOk(s, id); }
    forall g | 0 <= g < |t.handlers| ensures HandlerOk(t, g) { assert HandlerOk(s, g); }
  }

  lemma SweepKeepsInv(s: State, step: Step)
    requires Inv(s) && Enabled(s, step) && (step.CloseLock? || step.CloseSession? || step.CloseDelete? || step.CloseUnlock?)
    ensures Inv(Do(s, step))
  {
    var t := Do(s, step);
    forall id | 0 <= id < |t.sessions| ensures SessionOk(t, id) { assert SessionOk(s, id); }
    forall g | 0 <= g < |t.handlers| ensures HandlerOk(t, g) { assert HandlerOk(s, g); }
  }

  lemma StepKeepsInv(s: State, step: Step)
    requires Inv(s) && Enabled(s, step)
    ensures Inv(Do(s, step))
  {
    match step
    case Arrive(src) => ArriveKeepsInv(s, src);
    case DialFails(_) => DialKeepsInv(s, step);
    case Dial(_) => DialKeepsInv(s, step);
    case Send(_) => DialKeepsInv(s, step);
    case Publish(h) => PublishKeepsInv(s, h);
    case CloseLoser(_) => HandoverKeepsInv(s, step);
    case Spawn(_) => HandoverKeepsInv(s, step);
    case ReadFails(_) => PumpKeepsInv(s, step);
    case Retire(_) => PumpKeepsInv(s, step);
    case ClosePumped(_) => PumpKeepsInv(s, step);
    case _ => SweepKeepsInv(s, step);
  }

  lemma {:induction false} RunKeepsInv(s: State, steps: seq<Step>)
    requires Inv(s) && Runs(s, steps)
    ensures Inv(After(s, steps))
    decreases |steps|
  {
    if steps != [] {
      StepKeepsInv(s, steps[0]);
      RunKeepsInv(Do(s, steps[0]), steps[1..]);
    }
  }

  ghost predicate Reachable(s: State) { exists steps :: Runs(INIT, steps) && After(INIT, steps) == s }

  lemma ReachableInv(s: State)
    requires Reachable(s)
    ensures Inv(s)
  {
    var steps :| Runs(INIT, steps) && After(INIT, steps) == s;
    RunKeepsInv(INIT, steps);
  }

  // ---- what holds in every interleaving ------------------------------------------------------

  /** A published session has exactly one pump: started, or owed by the one handler about to start it. */
  lemma OnePumpEach(s: State, id: nat)
    requires Reachable(s) && id < |s.sessions|
    ensures s.sessions[id].pumps <= 1
    ensures !s.sessions[id].published ==> s.sessions[id].pumps == 0
    ensures s.sessions[id].published ==>
      (s.sessions[id].pumps == 0 <==>
       s.sessions[id].owner < |s.handlers| && s.handlers[s.sessions[id].owner].pc == Spawning(id))
    ensures forall h :: 0 <= h < |s.handlers| && s.handlers[h].pc == Spawning(id) ==> h == s.sessions[id].owner
  {
    ReachableInv(s);
    assert SessionOk(s, id);
    forall h | 0 <= h < |s.handlers| && s.handlers[h].pc == Spawning(id) ensures h == s.sessions[id].owner {
      assert HandlerOk(s, h);
    }
  }

  /** With the lock free, no session in the map is closed, and each sits under its own source. */
  lemma MapHoldsOpenSessions(s: State, src: Source)
    requires Reachable(s) && s.mutex.Free? && src in s.live
    ensures Refers(s, src, s.live[src]) && !s.sessions[s.live[src]].closed
  {
    ReachableInv(s);
    assert Refers(s, src, s.live[src]) && SessionOk(s, s.live[src]);
  }

  /** Every session ever dialled is published, closed, or still in the hands of the call that dialled it. */
  lemma NoSessionIsLost(s: State, id: nat)
    requires Reachable(s) && id < |s.sessions|
    ensures s.sessions[id].owner < |s.handlers|
    ensures !s.sessions[id].published && !s.sessions[id].closed <==> Keeps(s.handlers[s.sessions[id].owner].pc, id)
  {
    ReachableInv(s);
    assert SessionOk(s, id);
  }

  /** A pump takes at most its own session off the map. */
  lemma RetireIsOwn(s: State, id: nat)
    requires Reachable(s) && Enabled(s, Retire(id))
    ensures
      var t := Do(s, Retire(id));
      && (forall k :: k in t.live ==> k in s.live && t.live[k] == s.live[k])
      && (forall k :: k in s.live ==> (k !in t.live <==> s.live[k] == id))
  {
    ReachableInv(s);
    forall k | k in s.live ensures s.live[k] == id ==> s.sessions[id].src == k {
      assert Refers(s, k, s.live[k]);
    }
  }

  /** Datagrams of a source leave through a session of that source. */
  lemma SendsThroughOwnSession(s: State, h: nat)
    requires Reachable(s) && h < |s.handlers| && s.handlers[h].pc.Sending?
    ensures Refers(s, s.handlers[h].src, s.handlers[h].pc.via)
  {
    ReachableInv(s);
    assert HandlerOk(s, h);
  }

  // ---- shutdown ------------------------------------------------------------------------------

  /** No Handle call is under way. */
  predicate Quiet(s: State) { forall h :: 0 <= h < |s.handlers| ==> s.handlers[h].pc.Gone? }

  /** Closed, or its pump's next action closes it. */
  predicate Dropped(v: Session) { v.closed || v.pump == Closing }

  predicate AllDropped(s: State) { forall id :: 0 <= id < |s.sessions| ==> Dropped(s.sessions[id]) }

  /** With the map empty, the sessions left open are exactly those a late Handle call still holds, and
      those whose pump's next action closes them. */
  lemma LeftOpenIff(s: State, id: nat)
    requires Reachable(s) && s.live == map[] && id < |s.sessions|
    ensures s.sessions[id].owner < |s.handlers|
    ensures !Dropped(s.sessions[id]) <==> Keeps(s.handlers[s.sessions[id].owner].pc, id)
  {
    ReachableInv(s);
    assert SessionOk(s, id);
  }

  predicate NoArrivals(steps: seq<Step>) { forall i :: 0 <= i < |steps| ==> !steps[i].Arrive? }

  lemma {:induction false} QuietRun(s: State, steps: seq<Step>)
    requires Inv(s) && Quiet(s) && Runs(s, steps) && NoArrivals(steps)
    ensures Inv(After(s, steps)) && Quiet(After(s, steps))
    ensures s.live == map[] ==> After(s, steps).live == map[]
    decreases |steps|
  {
    if steps != [] {
      StepKeepsInv(s, steps[0]);
      assert Quiet(Do(s, steps[0]));
      QuietRun(Do(s, steps[0]), steps[1..]);
    }
  }

  lemma {:induction false} SweptRun(s: State, steps: seq<Step>)
    requires Inv(s) && Quiet(s) && Runs(s, steps) && NoArrivals(steps) && CloseUnlock in steps
    ensures After(s, steps).live == map[]
    decreases |steps|
  {
    StepKeepsInv(s, steps[0]);
    var t := Do(s, steps[0]);
    assert Quiet(t);
    if steps[0] == CloseUnlock {
      QuietRun(t, steps[1..]);
    } else {
      SweptRun(t, steps[1..]);
    }
  }

  /** Once delivery has stopped, a Close closes everything: from then on every session ever dialled is
      closed, or off the map with its pump about to close it. */
  lemma {:induction false} ShutdownClosesAll(s: State, steps: seq<Step>)
    requires Reachable(s) && Quiet(s) && Runs(s, steps) && NoArrivals(steps) && CloseUnlock in steps
    ensures AllDropped(After(s, steps)) && After(s, steps).live == map[]
  {
    ReachableInv(s);
    QuietRun(s, steps);
    SweptRun(s, steps);
    var t := After(s, steps);
    forall id | 0 <= id < |t.sessions| ensures Dropped(t.sessions[id]) {
      assert SessionOk(t, id);
    }
  }

  lemma RunsOne(s: State, step: Step, rest: seq<Step>)
    requires Enabled(s, step)
    ensures Runs(s, [step] + rest) == Runs(Do(s, step), rest)
    ensures Runs(Do(s, step), rest) ==> After(s, [step] + rest) == After(Do(s, step), rest)
  {
    assert ([step] + rest)[1..] == rest;
  }

  lemma Prepend(s: State, step: Step, t: State, rest: seq<Step>, end: State) returns (steps: seq<Step>)
    requires Enabled(s, step) && t == Do(s, step) && Runs(t, rest) && After(t, rest) == end
    ensures steps == [step] + rest && Runs(s, steps) && After(s, steps) == end
  {
    steps := [step] + rest;
    RunsOne(s, step, rest);
  }

  /** The sweep of an empty map while one call is dialling, and that call's publication. */
  lemma LatePublish(waiting: State, end: State) returns (steps: seq<Step>)
    requires waiting == State(map[], [], [Handler(1, Dialling)], Free)
    requires end == State(map[1 := 0], [Session(1, 0, true, false, Unborn, 0)], [Handler(1, Spawning(0))], Free)
    ensures Runs(waiting, steps) && After(waiting, steps) == end && steps == [CloseLock, CloseUnlock, Dial(0), Publish(0)]
  {
    var dialled := State(map[], [Session(1, 0, false, false, Unborn, 0)], [Handler(1, Holding(0))], Free);
    assert Do(waiting, Dial(0)) == dialled && Do(dialled, Publish(0)) == end;
    assert Runs(end, []) && After(end, []) == end;
    steps := Prepend(dialled, Publish(0), end, [], end);
    steps := Prepend(waiting, Dial(0), dialled, steps, end);
    steps := Prepend(waiting.(mutex := Sweeping), CloseUnlock, waiting, steps, end);
    steps := Prepend(waiting, CloseLock, waiting.(mutex := Sweeping), steps, end);
  }

  /** Delivery has to stop first: a Handle call that was dialling while Close ran publishes afterwards,
      and its session stays open on the map. */
  lemma LateHandleStaysOpen() returns (steps: seq<Step>, t: State)
    ensures Runs(INIT, steps) && t == After(INIT, steps)
    ensures exists i :: 0 <= i < |steps| && steps[i] == CloseUnlock && NoArrivals(steps[i..])
    ensures 1 in t.live && Refers(t, 1, t.live[1]) && !t.sessions[t.live[1]].closed
  {
    var waiting := State(map[], [], [Handler(1, Dialling)], Free);
    t := State(map[1 := 0], [Session(1, 0, true, false, Unborn, 0)], [Handler(1, Spawning(0))], Free);
    var late := LatePublish(waiting, t);
    assert Do(INIT, Arrive(1)) == waiting;
    steps := Prepend(INIT, Arrive(1), waiting, late, t);
    assert steps[2] == CloseUnlock && NoArrivals(steps[2..]);
  }
}
