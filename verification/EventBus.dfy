/** The in-process event bus: publishers, the fan-out loop, one worker per subscriber, subscription
    changes and Stop, interleaved at every channel operation and every locked section. */
module EventBus {
  const QUEUE_CAP := 64

  /** One subscriber and its worker. An event is the serial number of its Publish call. `since` and `seen`
      bound the dispatches it was offered, `drops` are those it lost, all as positions in `dispatched`;
      `before[p - since]` is how many events it had taken off its queue when position p was offered. */
  datatype Worker = Worker(id: string, queue: seq<nat>, handled: seq<nat>, quits: nat, running: bool, busy: bool,
                           since: nat, seen: nat, drops: set<nat>, before: seq<nat>)

  /** The dispatch loop: waiting; it took an event and waits for the read lock; it holds the read lock and
      offers the event to subs[at..]; returned. */
  datatype Dispatcher = Idle | Got(e: nat) | FanOut(e: nat, at: nat) | Exited

  datatype Stopping = Up | Marked | Closed | Returned

  /** `audiences` snapshots the subscriber list at each dispatch. */
  datatype State = State(cap: nat, ch: seq<nat>, published: nat, workers: seq<Worker>, subs: seq<nat>,
                         dispatcher: Dispatcher, stop: Stopping, dispatched: seq<nat>, audiences: seq<seq<nat>>)

  function Init(cap: nat): State { State(cap, [], 0, [], [], Idle, Up, [], []) }

  datatype Step =
    | Publish
    | Subscribe(id: string)
    | Unsubscribe(id: string)
    | Dequeue                      // dispatch: <-b.ch
    | LockRead                     //   b.mu.RLock()
    | Offer                        //   the non-blocking send to one subscriber
    | UnlockRead                   //   b.mu.RUnlock()
    | DispatcherExit               //   <-b.done
    | Deliver(w: nat)              // runWorker: <-s.queue, the handler starts
    | HandlerReturns(w: nat)
    | WorkerQuit(w: nat)           //   <-s.quit
    | WorkerDone(w: nat)           //   <-b.done
    | StopMark                     // Stop: the locked flag
    | StopClose                    //   close(b.done)
    | StopReturn                   //   b.wg.Wait()

  /** The write lock is free: no fan-out is under way. */
  predicate Writable(s: State) { !s.dispatcher.FanOut? }

  predicate DoneClosed(s: State) { s.stop in {Closed, Returned} }

  predicate AtRest(s: State, w: nat) { w < |s.workers| && s.workers[w].running && !s.workers[w].busy }

  predicate Listed(s: State) { forall j :: 0 <= j < |s.subs| ==> s.subs[j] < |s.workers| }

  predicate AllStopped(s: State) { s.dispatcher == Exited && forall w :: 0 <= w < |s.workers| ==> !s.workers[w].running }

  predicate Enabled(s: State, step: Step) {
    match step
    case Publish => true
    case Subscribe(_) => Writable(s) && Listed(s)
    case Unsubscribe(_) => Writable(s) && Listed(s)
    case Dequeue => s.dispatcher.Idle? && s.ch != []
    case LockRead => s.dispatcher.Got?
    case Offer => s.dispatcher.FanOut? && s.dispatcher.at < |s.subs| && s.subs[s.dispatcher.at] < |s.workers|
    case UnlockRead => s.dispatcher.FanOut? && s.dispatcher.at >= |s.subs|
    case DispatcherExit => s.dispatcher.Idle? && DoneClosed(s)
    case Deliver(w) => AtRest(s, w) && s.workers[w].queue != []
    case HandlerReturns(w) => w < |s.workers| && s.workers[w].busy
    case WorkerQuit(w) => AtRest(s, w) && s.workers[w].quits > 0
    case WorkerDone(w) => AtRest(s, w) && DoneClosed(s)
    case StopMark => s.stop.Up? && Writable(s)
    case StopClose => s.stop.Marked?
    case StopReturn => s.stop.Closed? && AllStopped(s)
  }

  /** The first position in subs whose worker carries `id`, or |subs|. */
  function FindId(workers: seq<Worker>, subs: seq<nat>, id: string): (j: nat)
    requires forall i :: 0 <= i < |subs| ==> subs[i] < |workers|
    ensures j <= |subs| && (j < |subs| ==> workers[subs[j]].id == id)
    ensures forall i :: 0 <= i < j ==> workers[subs[i]].id != id
  {
    if subs == [] || workers[subs[0]].id == id then 0
    else
      assert forall i :: 0 <= i < |subs[1..]| ==> subs[1..][i] == subs[i + 1];
      1 + FindId(workers, subs[1..], id)
  }

  /** The loop both Subscribe and Unsubscribe run: close the match's quit channel and drop it from the list. */
  function Remove(s: State, id: string): State
    requires Listed(s)
  {
    var j := FindId(s.workers, s.subs, id);
    if j == |s.subs| then s
    else
      var w := s.subs[j];
      s.(workers := s.workers[w := s.workers[w].(quits := s.workers[w].quits + 1)], subs := s.subs[..j] + s.subs[j + 1..])
  }

  function Add(s: State, id: string): State {
    s.(workers := s.workers + [Worker(id, [], [], 0, true, false, |s.dispatched|, |s.dispatched|, {}, [])], subs := s.subs + [|s.workers|])
  }

  function SetWorker(s: State, w: nat, v: Worker): State
    requires w < |s.workers|
  {
    s.(workers := s.workers[w := v])
  }

  function Offered(v: Worker, e: nat): Worker {
    var u := v.(seen := v.seen + 1, before := v.before + [|v.handled|]);
    if |v.queue| < QUEUE_CAP then u.(queue := v.queue + [e]) else u.(drops := v.drops + {v.seen})
  }

  function Do(s: State, step: Step): State
    requires Enabled(s, step)
  {
    match step
    case Publish => s.(published := s.published + 1, ch := if |s.ch| < s.cap then s.ch + [s.published] else s.ch)
    case Subscribe(id) => if s.stop != Up then s else Add(Remove(s, id), id)
    case Unsubscribe(id) => Remove(s, id)
    case Dequeue => s.(dispatcher := Got(s.ch[0]), ch := s.ch[1..])
    case LockRead =>
      s.(dispatcher := FanOut(s.dispatcher.e, 0), dispatched := s.dispatched + [s.dispatcher.e], audiences := s.audiences + [s.subs])
    case Offer =>
      var w := s.subs[s.dispatcher.at];
      SetWorker(s, w, Offered(s.workers[w], s.dispatcher.e)).(dispatcher := FanOut(s.dispatcher.e, s.dispatcher.at + 1))
    case UnlockRead => s.(dispatcher := Idle)
    case DispatcherExit => s.(dispatcher := Exited)
    case Deliver(w) =>
      var v := s.workers[w];
      SetWorker(s, w, v.(queue := v.queue[1..], handled := v.handled + [v.queue[0]], busy := true))
    case HandlerReturns(w) => SetWorker(s, w, s.workers[w].(busy := false))
    case WorkerQuit(w) => SetWorker(s, w, s.workers[w].(running := false))
    case WorkerDone(w) => SetWorker(s, w, s.workers[w].(running := false))
    case StopMark => s.(stop := Marked)
    case StopClose => s.(stop := Closed)
    case StopReturn => s.(stop := Returned)
  }

  predicate Runs(s: State, steps: seq<Step>)
    decreases |steps|
  {
    steps == [] || (Enabled(s, steps[0]) && Runs(Do(s, steps[0]), steps[1..]))
  }

  function After(s: State, steps: seq<Step>): State
    requires Runs(s, steps)
    decreases |steps|
  {
    if steps == [] then s else After(Do(s, steps[0]), steps[1..])
  }

  // ---- the log view of a subscriber ----------------------------------------------------------

  /** The events dispatched at positions from..to, without the dropped ones. */
  function Kept(dispatched: seq<nat>, from: nat, end: nat, drops: set<nat>): seq<nat>
    requires end <= |dispatched|
    decreases end
  {
    if from >= end then []
    else Kept(dispatched, from, end - 1, drops) + (if end - 1 in drops then [] else [dispatched[end - 1]])
  }

  lemma {:induction false} KeptOf(d: seq<nat>, d': seq<nat>, from: nat, end: nat, drops: set<nat>, drops': set<nat>)
    requires end <= |d| && d <= d' && forall p :: p < end ==> (p in drops <==> p in drops')
    ensures Kept(d, from, end, drops) == Kept(d', from, end, drops')
    decreases end
  {
    if from < end {
      KeptOf(d, d', from, end - 1, drops, drops');
    }
  }

  predicate Increasing(s: seq<nat>) { forall i, j :: 0 <= i < j < |s| ==> s[i] < s[j] }

  /** Kept is an in-order, duplicate-free selection of the dispatched events. */
  lemma {:induction false} KeptIncreases(d: seq<nat>, from: nat, end: nat, drops: set<nat>)
    requires end <= |d| && Increasing(d)
    ensures Increasing(Kept(d, from, end, drops))
    ensures forall e :: e in Kept(d, from, end, drops) ==> exists p :: from <= p < end && p !in drops && d[p] == e
    ensures forall p :: from <= p < end && p !in drops ==> d[p] in Kept(d, from, end, drops)
    decreases end
  {
    if from < end {
      KeptIncreases(d, from, end - 1, drops);
      var kept := Kept(d, from, end - 1, drops);
      forall i | 0 <= i < |kept| ensures kept[i] < d[end - 1] {
        assert kept[i] in kept;
      }
    }
  }

  // ---- the invariant -------------------------------------------------------------------------

  /** Everything from the first dispatched event to the last buffered one. */
  function Line(s: State): seq<nat> { s.dispatched + (if s.dispatcher.Got? then [s.dispatcher.e] else []) + s.ch }

  predicate LineOk(s: State) {
    && |s.ch| <= s.cap && |s.audiences| == |s.dispatched|
    && Increasing(Line(s)) && (forall i :: 0 <= i < |Line(s)| ==> Line(s)[i] < s.published)
    && (s.dispatcher.FanOut? ==> s.dispatched != [] && s.dispatched[|s.dispatched| - 1] == s.dispatcher.e
                                 && s.audiences[|s.audiences| - 1] == s.subs && s.dispatcher.at <= |s.subs|)
  }

  /** The length of the worker's queue when position p was offered: what it had been given before, less what
      it had taken off. */
  function QueuedAt(v: Worker, dispatched: seq<nat>, p: nat): int
    requires p <= |dispatched| && v.since <= p && p - v.since < |v.before|
  {
    |Kept(dispatched, v.since, p, v.drops)| - v.before[p - v.since]
  }

  /** Position p was dropped exactly on a full queue. */
  predicate OfferOk(v: Worker, dispatched: seq<nat>, p: nat)
    requires p <= |dispatched| && v.since <= p && p - v.since < |v.before|
  {
    0 <= QueuedAt(v, dispatched, p) <= QUEUE_CAP && (p in v.drops <==> QueuedAt(v, dispatched, p) == QUEUE_CAP)
  }

  /** What one worker has, whatever the others do. */
  predicate WorkerOk(v: Worker, dispatched: seq<nat>) {
    && |v.queue| <= QUEUE_CAP && v.quits <= 1 && v.since <= v.seen <= |dispatched|
    && v.handled + v.queue == Kept(dispatched, v.since, v.seen, v.drops)
    && |v.before| == v.seen - v.since && (forall p :: p in v.drops ==> v.since <= p < v.seen)
    && (forall p :: v.since <= p < v.seen ==> OfferOk(v, dispatched, p))
    && (v.busy ==> v.running)
  }

  /** The dispatches the subscriber at position j is still owed: the current one, until its turn. */
  function Behind(s: State, j: nat): nat { if s.dispatcher.FanOut? && j >= s.dispatcher.at then 1 else 0 }

  predicate SubOk(s: State, j: nat)
    requires j < |s.subs|
  {
    var w := s.subs[j];
    w < |s.workers| && s.workers[w].quits == 0 && s.workers[w].seen + Behind(s, j) == |s.dispatched|
  }

  predicate UniqueIds(workers: seq<Worker>, subs: seq<nat>) {
    && (forall i :: 0 <= i < |subs| ==> subs[i] < |workers|)
    && (forall i, k :: 0 <= i < k < |subs| ==> subs[i] != subs[k] && workers[subs[i]].id != workers[subs[k]].id)
  }

  predicate SubsOk(s: State) {
    && (forall j :: 0 <= j < |s.subs| ==> SubOk(s, j)) && UniqueIds(s.workers, s.subs)
    && (forall w :: 0 <= w < |s.workers| && s.workers[w].quits == 0 ==> w in s.subs)
  }

  /** A worker was in the audience of a dispatch exactly from its subscription to its removal. */
  predicate Attended(s: State, w: nat, p: nat)
    requires w < |s.workers| && p < |s.audiences|
  {
    w in s.audiences[p] <==> s.workers[w].since <= p && (p < s.workers[w].seen || w in s.subs)
  }

  predicate AudienceOk(s: State) {
    && (forall w, p {:trigger Attended(s, w, p)} :: 0 <= w < |s.workers| && 0 <= p < |s.audiences| ==> Attended(s, w, p))
    && (forall p, w :: 0 <= p < |s.audiences| && w in s.audiences[p] ==> w < |s.workers|)
  }

  predicate Inv(s: State) {
    && LineOk(s) && SubsOk(s) && AudienceOk(s)
    && (forall w :: 0 <= w < |s.workers| ==> WorkerOk(s.workers[w], s.dispatched))
    && (s.stop == Returned ==> AllStopped(s))
  }

  // ---- each step keeps it --------------------------------------------------------------------

  lemma WorkersFollow(s: State, t: State)
    requires (forall w :: 0 <= w < |s.workers| ==> WorkerOk(s.workers[w], s.dispatched))
    requires s.dispatched <= t.dispatched && t.workers == s.workers
    ensures forall w :: 0 <= w < |t.workers| ==> WorkerOk(t.workers[w], t.dispatched)
  {
    forall w | 0 <= w < |t.workers| ensures WorkerOk(t.workers[w], t.dispatched) {
      var v := s.workers[w];
      assert WorkerOk(v, s.dispatched);
      KeptOf(s.dispatched, t.dispatched, v.since, v.seen, v.drops, v.drops);
      forall p | v.since <= p < v.seen ensures OfferOk(v, t.dispatched, p) {
        KeptOf(s.dispatched, t.dispatched, v.since, p, v.drops, v.drops);
        assert OfferOk(v, s.dispatched, p);
      }
    }
  }

  lemma BufferKeepsInv(s: State, step: Step)
    requires Inv(s) && Enabled(s, step) && (step.Publish? || step.Dequeue?)
    ensures Inv(Do(s, step))
  {
    var t := Do(s, step);
    WorkersFollow(s, t);
    if step.Dequeue? {
      assert Line(t) == Line(s);
    } else {
      assert Line(t) == Line(s) || Line(t) == Line(s) + [s.published];
    }
    forall j | 0 <= j < |t.subs| ensures SubOk(t, j) { assert SubOk(s, j); }
    forall w: nat, p: nat | w < |t.workers| && p < |t.audiences| ensures Attended(t, w, p) { assert Attended(s, w, p); }
  }

  lemma LockReadKeepsInv(s: State)
    requires Inv(s) && Enabled(s, LockRead)
    ensures Inv(Do(s, LockRead))
  {
    var t := Do(s, LockRead);
    WorkersFollow(s, t);
    assert Line(t) == Line(s);
    forall j | 0 <= j < |t.subs| ensures SubOk(t, j) { assert SubOk(s, j); }
    forall w: nat, p: nat | w < |t.workers| && p < |t.audiences| ensures Attended(t, w, p) {
      assert p < |s.audiences| ==> Attended(s, w, p);
      assert WorkerOk(s.workers[w], s.dispatched);
    }
    forall w | w in s.subs ensures w < |s.workers| {
      var j :| 0 <= j < |s.subs| && s.subs[j] == w;
      assert SubOk(s, j);
    }
  }

  lemma DispatcherKeepsInv(s: State, step: Step)
    requires Inv(s) && Enabled(s, step) && (step.UnlockRead? || step.DispatcherExit? || step.StopMark? || step.StopClose? || step.StopReturn?)
    ensures Inv(Do(s, step))
  {
    var t := Do(s, step);
    WorkersFollow(s, t);
    assert Line(t) == Line(s);
    forall j | 0 <= j < |t.subs| ensures SubOk(t, j) { assert SubOk(s, j); }
    forall w: nat, p: nat | w < |t.workers| && p < |t.audiences| ensures Attended(t, w, p) { assert Attended(s, w, p); }
  }

  /** What was offered before stays as it was told. */
  lemma EarlierOffers(v: Worker, u: Worker, dispatched: seq<nat>)
    requires WorkerOk(v, dispatched) && u.since == v.since && v.before <= u.before
    requires forall p :: p < v.seen ==> (p in u.drops <==> p in v.drops)
    ensures forall p :: v.since <= p < v.seen ==> OfferOk(u, dispatched, p)
    ensures Kept(dispatched, v.since, v.seen, u.drops) == v.handled + v.queue
  {
    forall p | v.since <= p < v.seen ensures OfferOk(u, dispatched, p) {
      KeptOf(dispatched, dispatched, v.since, p, v.drops, u.drops);
      assert OfferOk(v, dispatched, p);
    }
    KeptOf(dispatched, dispatched, v.since, v.seen, v.drops, u.drops);
  }

  /** The offer is recorded with the queue's length at that moment. */
  lemma OfferRecords(v: Worker, dispatched: seq<nat>)
    requires WorkerOk(v, dispatched) && v.seen < |dispatched|
    ensures QueuedAt(Offered(v, dispatched[v.seen]), dispatched, v.seen) == |v.queue|
  {
    EarlierOffers(v, Offered(v, dispatched[v.seen]), dispatched);
  }

  /** The non-blocking send gives the worker the next dispatched event, or drops it on a full queue. */
  lemma OfferedOk(v: Worker, dispatched: seq<nat>)
    requires WorkerOk(v, dispatched) && v.seen < |dispatched|
    ensures WorkerOk(Offered(v, dispatched[v.seen]), dispatched)
  {
    var e := dispatched[v.seen];
    var u := Offered(v, e);
    EarlierOffers(v, u, dispatched);
    OfferRecords(v, dispatched);
    assert u.handled + (v.queue + [e]) == (v.handled + v.queue) + [e];
    forall p | u.since <= p < u.seen ensures OfferOk(u, dispatched, p) {
      assert p < v.seen || p == v.seen;
    }
  }

  lemma LineFollows(s: State, t: State)
    requires LineOk(s) && !s.dispatcher.Got? && !t.dispatcher.Got?
    requires t.cap == s.cap && t.ch == s.ch && t.published == s.published && t.dispatched == s.dispatched && t.audiences == s.audiences
    requires t.dispatcher.FanOut? ==>
      s.dispatcher.FanOut? && t.dispatcher.e == s.dispatcher.e && t.subs == s.subs && t.dispatcher.at <= |t.subs|
    ensures LineOk(t)
  {
    assert Line(t) == Line(s);
  }

  /** Neither list changed, nor any worker's identity; `seen` moved only for listed workers. */
  predicate SameListing(s: State, t: State) {
    && |t.workers| == |s.workers| && t.subs == s.subs && t.audiences == s.audiences
    && forall w :: 0 <= w < |s.workers| ==>
         && t.workers[w].since == s.workers[w].since && t.workers[w].id == s.workers[w].id
         && t.workers[w].quits == s.workers[w].quits
         && (w in s.subs || t.workers[w].seen == s.workers[w].seen)
  }

  lemma ListingFollows(s: State, t: State)
    requires SubsOk(s) && AudienceOk(s) && SameListing(s, t) && forall j :: 0 <= j < |t.subs| ==> SubOk(t, j)
    requires forall w :: 0 <= w < |s.workers| ==> WorkerOk(s.workers[w], s.dispatched) && WorkerOk(t.workers[w], t.dispatched)
    requires forall w :: 0 <= w < |s.workers| ==> s.workers[w].seen <= t.workers[w].seen
    ensures SubsOk(t) && AudienceOk(t)
  {
    forall w: nat, p: nat | w < |t.workers| && p < |t.audiences| ensures Attended(t, w, p) { assert Attended(s, w, p); }
    forall j | 0 <= j < |s.subs| ensures s.subs[j] < |s.workers| { assert SubOk(s, j); }
  }

  lemma OfferSubs(s: State)
    requires SubsOk(s) && Enabled(s, Offer)
    ensures forall j :: 0 <= j < |s.subs| ==> SubOk(Do(s, Offer), j)
  {
    var t := Do(s, Offer);
    forall j | 0 <= j < |t.subs| ensures SubOk(t, j) {
      assert SubOk(s, j) && SubOk(s, s.dispatcher.at);
    }
  }

  lemma OfferWorkers(s: State)
    requires Inv(s) && Enabled(s, Offer)
    ensures SameListing(s, Do(s, Offer))
    ensures
      var t := Do(s, Offer);
      forall w :: 0 <= w < |s.workers| ==> WorkerOk(t.workers[w], t.dispatched) && s.workers[w].seen <= t.workers[w].seen
  {
    var t, at := Do(s, Offer), s.dispatcher.at;
    var w := s.subs[at];
    var v := s.workers[w];
    assert SubOk(s, at) && WorkerOk(v, s.dispatched) && w in s.subs;
    OfferedOk(v, s.dispatched);
    assert t.dispatched == s.dispatched && t.workers[w] == Offered(v, s.dispatched[v.seen]);
    forall x | 0 <= x < |s.workers| ensures WorkerOk(t.workers[x], t.dispatched) && s.workers[x].seen <= t.workers[x].seen {
      if x != w {
        assert t.workers[x] == s.workers[x] && WorkerOk(s.workers[x], s.dispatched);
      }
    }
  }

  lemma OfferKeepsInv(s: State)
    requires Inv(s) && Enabled(s, Offer)
    ensures Inv(Do(s, Offer))
  {
    var t := Do(s, Offer);
    OfferSubs(s);
    OfferWorkers(s);
    LineFollows(s, t);
    ListingFollows(s, t);
  }

  /** Nothing about a worker's offers changed, and its events only moved from queue to handler. */
  lemma RecordKept(v: Worker, u: Worker, dispatched: seq<nat>)
    requires WorkerOk(v, dispatched) && u.since == v.since && u.seen == v.seen && u.drops == v.drops && u.before == v.before
    requires u.handled + u.queue == v.handled + v.queue && |u.queue| <= |v.queue| && u.quits <= 1 && (u.busy ==> u.running)
    ensures WorkerOk(u, dispatched)
  {
    forall p | u.since <= p < u.seen ensures OfferOk(u, dispatched, p) {
      assert OfferOk(v, dispatched, p);
    }
  }

  lemma DeliveredOk(v: Worker, dispatched: seq<nat>)
    requires WorkerOk(v, dispatched) && v.queue != [] && v.running
    ensures WorkerOk(v.(queue := v.queue[1..], handled := v.handled + [v.queue[0]], busy := true), dispatched)
  {
    assert (v.handled + [v.queue[0]]) + v.queue[1..] == v.handled + v.queue;
    RecordKept(v, v.(queue := v.queue[1..], handled := v.handled + [v.queue[0]], busy := true), dispatched);
  }

  lemma WorkerKeepsInv(s: State, w: nat, v: Worker)
    requires Inv(s) && w < |s.workers| && WorkerOk(v, s.dispatched) && s.workers[w].running
    requires
      var u := s.workers[w];
      v == u.(queue := v.queue, handled := v.handled, running := v.running, busy := v.busy)
    ensures Inv(SetWorker(s, w, v))
  {
    var t := SetWorker(s, w, v);
    forall j | 0 <= j < |t.subs| ensures SubOk(t, j) { assert SubOk(s, j); }
    assert Line(t) == Line(s);
    ListingFollows(s, t);
  }

  lemma WorkerStepKeepsInv(s: State, step: Step)
    requires Inv(s) && Enabled(s, step) && (step.Deliver? || step.HandlerReturns? || step.WorkerQuit? || step.WorkerDone?)
    ensures Inv(Do(s, step))
  {
    var v := s.workers[step.w];
    assert WorkerOk(v, s.dispatched);
    if step.Deliver? {
      DeliveredOk(v, s.dispatched);
    } else {
      RecordKept(v, Do(s, step).workers[step.w], s.dispatched);
    }
    WorkerKeepsInv(s, step.w, Do(s, step).workers[step.w]);
  }

  /** The list without position j. */
  lemma Without(subs: seq<nat>, j: nat)
    requires j < |subs| && forall i, k :: 0 <= i < k < |subs| ==> subs[i] != subs[k]
    ensures
      var rest := subs[..j] + subs[j + 1..];
      && (forall i :: 0 <= i < |rest| ==> rest[i] == subs[if i < j then i else i + 1])
      && (forall x :: x in rest <==> x in subs && x != subs[j])
  {
    var rest := subs[..j] + subs[j + 1..];
    forall x | x in subs && x != subs[j] ensures x in rest {
      var i :| 0 <= i < |subs| && subs[i] == x;
      assert rest[if i < j then i else i - 1] == x;
    }
  }

  lemma RemoveKeepsSubOk(s: State, id: string)
    requires SubsOk(s) && Writable(s) && Listed(s)
    ensures forall i :: 0 <= i < |Remove(s, id).subs| ==> SubOk(Remove(s, id), i)
  {
    var j, t := FindId(s.workers, s.subs, id), Remove(s, id);
    if j < |s.subs| {
      Without(s.subs, j);
      forall i | 0 <= i < |t.subs| ensures SubOk(t, i) {
        assert SubOk(s, if i < j then i else i + 1);
      }
    } else {
      forall i | 0 <= i < |t.subs| ensures SubOk(t, i) { assert SubOk(s, i); }
    }
  }

  lemma WithoutId(workers: seq<Worker>, subs: seq<nat>, j: nat)
    requires UniqueIds(workers, subs) && j < |subs|
    ensures
      var rest := subs[..j] + subs[j + 1..];
      UniqueIds(workers, rest) && forall i :: 0 <= i < |rest| ==> workers[rest[i]].id != workers[subs[j]].id
  {
    Without(subs, j);
    var rest := subs[..j] + subs[j + 1..];
    forall i | 0 <= i < |rest| ensures rest[i] < |workers| && workers[rest[i]].id != workers[subs[j]].id {
      var k := if i < j then i else i + 1;
      assert k < j ==> workers[subs[k]].id != workers[subs[j]].id;
      assert k > j ==> workers[subs[j]].id != workers[subs[k]].id;
    }
  }

  lemma SameIds(a: seq<Worker>, b: seq<Worker>, subs: seq<nat>)
    requires UniqueIds(a, subs) && |a| == |b| && forall w :: 0 <= w < |a| ==> a[w].id == b[w].id
    ensures UniqueIds(b, subs)
  {
  }

  /** Ids are unique, so the first match is the only one. */
  lemma RemoveKeepsIds(s: State, id: string)
    requires SubsOk(s) && Listed(s)
    ensures
      var t := Remove(s, id);
      UniqueIds(t.workers, t.subs) && forall i :: 0 <= i < |t.subs| ==> t.workers[t.subs[i]].id != id
  {
    var j, t := FindId(s.workers, s.subs, id), Remove(s, id);
    if j < |s.subs| {
      WithoutId(s.workers, s.subs, j);
      SameIds(s.workers, t.workers, t.subs);
    }
  }

  lemma RemoveKeepsSubs(s: State, id: string)
    requires SubsOk(s) && Writable(s) && Listed(s)
    ensures SubsOk(Remove(s, id)) && Listed(Remove(s, id))
    ensures forall j :: 0 <= j < |Remove(s, id).subs| ==> Remove(s, id).workers[Remove(s, id).subs[j]].id != id
  {
    var j, t := FindId(s.workers, s.subs, id), Remove(s, id);
    RemoveKeepsSubOk(s, id);
    RemoveKeepsIds(s, id);
    forall i | 0 <= i < |t.subs| ensures t.subs[i] < |t.workers| { assert SubOk(t, i); }
    if j < |s.subs| {
      Without(s.subs, j);
    }
  }

  lemma RemoveKeepsAudience(s: State, id: string)
    requires SubsOk(s) && AudienceOk(s) && Writable(s) && Listed(s)
    requires forall w :: 0 <= w < |s.workers| ==> WorkerOk(s.workers[w], s.dispatched)
    requires |s.audiences| == |s.dispatched|
    ensures AudienceOk(Remove(s, id))
  {
    var j, t := FindId(s.workers, s.subs, id), Remove(s, id);
    if j < |s.subs| {
      Without(s.subs, j);
      assert SubOk(s, j);
      forall x: nat, p: nat | x < |t.workers| && p < |t.audiences| ensures Attended(t, x, p) {
        assert Attended(s, x, p);
      }
    }
  }

  lemma RemoveKeepsInv(s: State, id: string)
    requires Inv(s) && Writable(s) && Listed(s)
    ensures Inv(Remove(s, id)) && Listed(Remove(s, id)) && Remove(s, id).stop == s.stop && Writable(Remove(s, id))
    ensures forall j :: 0 <= j < |Remove(s, id).subs| ==> Remove(s, id).workers[Remove(s, id).subs[j]].id != id
  {
    var j, t := FindId(s.workers, s.subs, id), Remove(s, id);
    RemoveKeepsSubs(s, id);
    RemoveKeepsAudience(s, id);
    assert Line(t) == Line(s);
    if j < |s.subs| {
      var w := s.subs[j];
      assert SubOk(s, j) && WorkerOk(s.workers[w], s.dispatched);
      RecordKept(s.workers[w], t.workers[w], s.dispatched);
    }
  }

  lemma AddKeepsInv(s: State, id: string)
    requires Inv(s) && Writable(s) && Listed(s) && s.stop == Up
    requires forall j :: 0 <= j < |s.subs| ==> s.workers[s.subs[j]].id != id
    ensures Inv(Add(s, id))
  {
    var t, w := Add(s, id), |s.workers|;
    assert Line(t) == Line(s);
    forall i | 0 <= i < |t.subs| ensures SubOk(t, i) { assert i < |s.subs| ==> SubOk(s, i); }
    forall x: nat, p: nat | x < |t.workers| && p < |t.audiences| ensures Attended(t, x, p) {
      assert x < w ==> Attended(s, x, p);
    }
    forall x: nat | x < |t.workers| && t.workers[x].quits == 0 ensures x in t.subs {
      assert t.subs[|s.subs|] == w;
      assert x < w ==> x in s.subs;
    }
  }

  lemma StepKeepsInv(s: State, step: Step)
    requires Inv(s) && Enabled(s, step)
    ensures Inv(Do(s, step))
  {
    match step
    case Publish => BufferKeepsInv(s, step);
    case Dequeue => BufferKeepsInv(s, step);
    case LockRead => LockReadKeepsInv(s);
    case Offer => OfferKeepsInv(s);
    case Deliver(_) => WorkerStepKeepsInv(s, step);
    case HandlerReturns(_) => WorkerStepKeepsInv(s, step);
    case WorkerQuit(_) => WorkerStepKeepsInv(s, step);
    case WorkerDone(_) => WorkerStepKeepsInv(s, step);
    case Unsubscribe(id) => RemoveKeepsInv(s, id);
    case Subscribe(id) =>
      if s.stop == Up {
        RemoveKeepsInv(s, id);
        AddKeepsInv(Remove(s, id), id);
      }
    case _ => DispatcherKeepsInv(s, step);
  }

  lemma {:induction false} RunKeepsInv(s: State, steps: seq<Step>)
    requires Inv(s) && Runs(s, steps)
    ensures Inv(After(s, steps))
    decreases |steps|
  {
    if steps != [] {
      StepKeepsInv(s, steps[0]);
      RunKeepsInv(Do(s, steps[0]), steps[1..]);
    }
  }

  ghost predicate Reachable(s: State) { exists cap, steps :: Runs(Init(cap), steps) && After(Init(cap), steps) == s }

  lemma ReachableInv(s: State)
    requires Reachable(s)
    ensures Inv(s)
  {
    var cap, steps :| Runs(Init(cap), steps) && After(Init(cap), steps) == s;
    RunKeepsInv(Init(cap), steps);
  }

  // ---- what every run guarantees -------------------------------------------------------------

  /** Handled plus queued, against the dispatch log: increasing serials, so in order and never twice, and
      an event is there exactly when the worker was in its audience, the fan-out has reached it, and the
      worker's own queue was not full when it did. */
  lemma DeliveryIsFaithful(s: State, w: nat, p: nat)
    requires Reachable(s) && w < |s.workers| && p < |s.dispatched|
    ensures |s.audiences| == |s.dispatched|
    ensures
      var v := s.workers[w];
      && Increasing(v.handled + v.queue)
      && (forall e :: e in v.handled + v.queue ==> e in s.dispatched)
      && (w in s.audiences[p] && p < v.seen ==> v.since <= p && p - v.since < |v.before| && 0 <= QueuedAt(v, s.dispatched, p) <= QUEUE_CAP)
      && (s.dispatched[p] in v.handled + v.queue <==>
            w in s.audiences[p] && p < v.seen && QueuedAt(v, s.dispatched, p) < QUEUE_CAP)
  {
    ReachableInv(s);
    var v := s.workers[w];
    assert WorkerOk(v, s.dispatched) && Attended(s, w, p);
    DispatchedIncreases(s);
    GivenIs(v, s.dispatched, p);
  }

  lemma DispatchedIncreases(s: State)
    requires LineOk(s)
    ensures Increasing(s.dispatched)
  {
    assert forall i :: 0 <= i < |s.dispatched| ==> Line(s)[i] == s.dispatched[i];
  }

  /** What a worker has been given, position by position. */
  lemma GivenIs(v: Worker, dispatched: seq<nat>, p: nat)
    requires WorkerOk(v, dispatched) && Increasing(dispatched) && p < |dispatched|
    ensures Increasing(v.handled + v.queue) && forall e :: e in v.handled + v.queue ==> e in dispatched
    ensures v.since <= p < v.seen ==> 0 <= QueuedAt(v, dispatched, p) <= QUEUE_CAP
    ensures dispatched[p] in v.handled + v.queue <==> v.since <= p < v.seen && QueuedAt(v, dispatched, p) < QUEUE_CAP
  {
    KeptIncreases(dispatched, v.since, v.seen, v.drops);
    assert v.since <= p < v.seen ==> OfferOk(v, dispatched, p);
    if dispatched[p] in v.handled + v.queue {
      var q :| v.since <= q < v.seen && q !in v.drops && dispatched[q] == dispatched[p];
      assert q == p;
    }
  }

  /** The fan-out is late by at most the dispatch in progress, and only for those not offered it yet. */
  lemma FanOutIsCurrent(s: State, j: nat)
    requires Reachable(s) && j < |s.subs|
    ensures s.subs[j] < |s.workers|
    ensures s.workers[s.subs[j]].seen == |s.dispatched| - Behind(s, j)
  {
    ReachableInv(s);
    assert SubOk(s, j);
  }

  /** A worker loses an event exactly when its own queue was full as the event was offered. */
  lemma DropsNeedFullQueue(s: State, w: nat, p: nat)
    requires Reachable(s) && w < |s.workers| && s.workers[w].since <= p < s.workers[w].seen
    ensures s.workers[w].seen <= |s.dispatched| && |s.workers[w].before| == s.workers[w].seen - s.workers[w].since
    ensures
      var v := s.workers[w];
      p in v.drops <==> QueuedAt(v, s.dispatched, p) == QUEUE_CAP
  {
    ReachableInv(s);
    assert WorkerOk(s.workers[w], s.dispatched) && OfferOk(s.workers[w], s.dispatched, p);
  }

  /** That length is the real one: the moment the fan-out offers an event to a worker, what is recorded for the
      offer is the length of the worker's queue. */
  lemma LengthIsRecorded(s: State)
    requires Reachable(s) && Enabled(s, Offer)
    ensures
      var w, t := s.subs[s.dispatcher.at], Do(s, Offer);
      var p := s.workers[w].seen;
      && p == |s.dispatched| - 1 && t.workers[w].since <= p && p - t.workers[w].since < |t.workers[w].before|
      && QueuedAt(t.workers[w], t.dispatched, p) == |s.workers[w].queue|
  {
    ReachableInv(s);
    var w := s.subs[s.dispatcher.at];
    assert SubOk(s, s.dispatcher.at) && WorkerOk(s.workers[w], s.dispatched);
    OfferRecords(s.workers[w], s.dispatched);
  }

  /** And no later step changes it. */
  lemma {:induction false} RecordStands(s: State, steps: seq<Step>, w: nat, p: nat)
    requires Inv(s) && Runs(s, steps) && w < |s.workers| && s.workers[w].since <= p < s.workers[w].seen
    ensures
      var v, t := s.workers[w], After(s, steps);
      && w < |t.workers| && t.workers[w].since == v.since && v.before <= t.workers[w].before && s.dispatched <= t.dispatched
      && |v.before| == v.seen - v.since && v.seen <= |s.dispatched|
      && QueuedAt(t.workers[w], t.dispatched, p) == QueuedAt(v, s.dispatched, p)
    decreases |steps|
  {
    assert WorkerOk(s.workers[w], s.dispatched);
    if steps != [] {
      var t := Do(s, steps[0]);
      StepKeepsInv(s, steps[0]);
      StepRecords(s, steps[0], w);
      RecordStands(t, steps[1..], w, p);
      KeptOf(s.dispatched, t.dispatched, s.workers[w].since, p, s.workers[w].drops, t.workers[w].drops);
    }
  }

  /** Worker w's record only grows. */
  ghost predicate Grows(v: Worker, u: Worker) {
    u.since == v.since && v.seen <= u.seen && v.before <= u.before && forall p :: p < v.seen ==> (p in u.drops <==> p in v.drops)
  }

  lemma OfferGrows(v: Worker, e: nat)
    ensures Grows(v, Offered(v, e))
  {
  }

  lemma ListGrows(s: State, id: string, w: nat)
    requires Listed(s) && w < |s.workers|
    ensures w < |Remove(s, id).workers| && Grows(s.workers[w], Remove(s, id).workers[w]) && Remove(s, id).dispatched == s.dispatched
    ensures w < |Add(Remove(s, id), id).workers| && Grows(s.workers[w], Add(Remove(s, id), id).workers[w])
  {
  }

  lemma StepRecords(s: State, step: Step, w: nat)
    requires Inv(s) && Enabled(s, step) && w < |s.workers|
    ensures w < |Do(s, step).workers| && Grows(s.workers[w], Do(s, step).workers[w]) && s.dispatched <= Do(s, step).dispatched
  {
    match step
    case Offer => OfferGrows(s.workers[w], s.dispatcher.e);
    case Subscribe(id) => ListGrows(s, id, w);
    case Unsubscribe(id) => ListGrows(s, id, w);
    case _ =>
  }

  /** Buffer and queues stay within bounds, and no quit channel is closed twice; it is closed exactly when the
      subscriber has left the list. */
  lemma BusIsBounded(s: State, w: nat)
    requires Reachable(s)
    ensures |s.ch| <= s.cap
    ensures w < |s.workers| ==> |s.workers[w].queue| <= QUEUE_CAP && s.workers[w].quits <= 1
    ensures w < |s.workers| ==> (s.workers[w].quits == 0 <==> w in s.subs)
  {
    ReachableInv(s);
    if w < |s.workers| {
      assert WorkerOk(s.workers[w], s.dispatched);
      if w in s.subs {
        var k :| 0 <= k < |s.subs| && s.subs[k] == w;
        assert SubOk(s, k);
      }
    }
  }

  /** Ids stay unique. */
  lemma IdsStayUnique(s: State, i: nat, j: nat)
    requires Reachable(s) && i < j < |s.subs|
    ensures s.subs[i] < |s.workers| && s.subs[j] < |s.workers| && s.workers[s.subs[i]].id != s.workers[s.subs[j]].id
  {
    ReachableInv(s);
  }

  /** From the moment Stop has set its flag no worker is ever added, and once it has returned the loop
      and every worker stay stopped: nothing is handled any more. */
  lemma {:induction false} StopIsFinal(s: State, steps: seq<Step>)
    requires Inv(s) && Runs(s, steps) && s.stop != Up
    ensures |After(s, steps).workers| == |s.workers| && After(s, steps).stop != Up
    ensures s.stop == Returned ==> AllStopped(After(s, steps))
    ensures s.stop == Returned ==> forall w :: 0 <= w < |s.workers| ==> After(s, steps).workers[w].handled == s.workers[w].handled
    decreases |steps|
  {
    if steps != [] {
      StepKeepsInv(s, steps[0]);
      StopIsFinal(Do(s, steps[0]), steps[1..]);
    }
  }
}
