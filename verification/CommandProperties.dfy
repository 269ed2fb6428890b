/** What callers of the command api may rely on, for every interleaving. */
module CommandProperties {
  import opened Seqs
  import opened CommandSystem
  import opened CommandInvariant

  /** A command that was really appended to the queue, or answered at once by its handler. */
  predicate Accepted(s: State, r: Ref) { r in s.pushed || r in s.stored }

  predicate HasResult(s: State, r: Ref) { IdOf(r) in s.results && s.results[IdOf(r)] == r }

  // ---- one state ----

  lemma IdIsRef(s: State, r: Ref)
    requires Good(s) && s.allocs < WRAP && Accepted(s, r)
    ensures IdOf(r) == r && r != 0
  {
  }

  /** No gap: a command under way is always to be found. */
  lemma NoGap(s: State, r: Ref)
    requires Reachable(s) && s.allocs < WRAP
    requires Accepted(s, r) && r !in s.failed && r !in s.fetched
    ensures r in s.queue || HasResult(s, r)
  {
    ReachableSound(s);
    IdIsRef(s, r);
  }

  /** Every accepted command is pending, waiting as a result, fetched or failed. It is in one of
      these places, except in the worker's window between the end of the work and the removal. */
  lemma Conservation(s: State, r: Ref)
    requires Reachable(s) && s.allocs < WRAP && Accepted(s, r)
    ensures r in s.queue || HasResult(s, r) || r in s.fetched || r in s.failed
    ensures !(HasResult(s, r) && r in s.fetched)
    ensures !(HasResult(s, r) && r in s.failed)
    ensures !(r in s.fetched && r in s.failed)
    ensures r in s.queue && (HasResult(s, r) || r in s.fetched || r in s.failed) <==> s.worker == Removing(r)
  {
    ReachableSound(s);
    IdIsRef(s, r);
    if Hand(s.worker) != [] { HandQueued(s); }
    assert r in s.started ==> r in s.removed || r in Hand(s.worker);
    if r in s.failed { assert r in s.started; }
  }

  /** No lost wakeup: the worker sleeps unnotified only with waiting on and nothing to do. */
  lemma NoLostWakeup(s: State)
    requires Reachable(s) && s.worker.Asleep?
    ensures s.blocking && s.queue == []
  {
    ReachableGood(s);
  }

  /** The queue is a stack of urgent commands on a FIFO of normal ones, apart from the command in
      hand, and the normal commands started so far are the oldest of those pushed. */
  lemma QueueShape(s: State)
    requires Reachable(s)
    ensures Waiting(s.queue, Hand(s.worker))
         == Reversed(Pending(s.pushed, s.started, s.urgent, true)) + Pending(s.pushed, s.started, s.urgent, false)
    ensures OfClass(s.started, s.urgent, false) <= OfClass(s.pushed, s.urgent, false)
  {
    ReachableGood(s);
  }

  /** `remove` takes out the command that was processed, wherever urgent pushes have moved it. */
  lemma RemoveTakesTheHand(s: State)
    requires Reachable(s) && s.worker.Removing?
    ensures s.worker.ref in s.queue
    ensures var k := IndexOf(s.queue, s.worker.ref);
      Apply(s, Worker(WRemove)).queue == s.queue[..k] + s.queue[k + 1..]
  {
    ReachableGood(s);
    HandQueued(s);
    WithoutAt(s.queue, IndexOf(s.queue, s.worker.ref));
  }

  // ---- exactly once ----

  datatype Event = Pushed(r: Ref) | Processed(r: Ref) | Stored(r: Ref) | Removed(r: Ref) | Done(r: Ref)

  /** The action `a` in state `s` is the event `e`. */
  predicate Is(s: State, a: Action, e: Event)
    requires Enabled(s, a)
  {
    match e
    case Pushed(r) => a.Handler? && a.h.Push? && s.enabled && s.handlers[a.t].ref == r
    case Processed(r) => a.Worker? && a.w.WProcess? && s.worker.ref == r
    case Stored(r) => || (a.Worker? && a.w.WInsert? && s.worker.ref == r)
                      || (a.Handler? && a.h.Answer? && s.handlers[a.t].ref == r)
    case Removed(r) => a.Worker? && a.w.WRemove? && s.worker.ref == r
    case Done(r) => a.Handler? && a.h.Fetch? && a.h.id in s.results && s.results[a.h.id] == r
  }

  /** How often `e` happens in a run. */
  ghost function Tally(s: State, acts: seq<Action>, e: Event): nat
    requires IsRun(s, acts)
    decreases acts
  {
    if acts == [] then 0 else (if Is(s, acts[0], e) then 1 else 0) + Tally(Apply(s, acts[0]), acts[1..], e)
  }

  /** What the histories say of `e`. */
  predicate Noted(s: State, e: Event) {
    match e
    case Pushed(r) => r in s.pushed
    case Processed(r) => r in s.started && s.worker != Holding(r)
    case Stored(r) => r in s.stored
    case Removed(r) => r in s.removed
    case Done(r) => r in s.fetched
  }

  /** What a handler action adds to the histories. */
  predicate HandlerEffect(s: State, t: Tid, h: HandlerAction, s': State)
    requires HandlerEnabled(s, t, h)
  {
    && s'.removed == s.removed && s'.started == s.started && s'.failed == s.failed
    && (s'.worker == s.worker || s'.worker == Notify(s.worker))
    && s'.pushed == (if h.Push? && s.enabled then s.pushed + [s.handlers[t].ref] else s.pushed)
    && s'.stored == (if h.Answer? then s.stored + [s.handlers[t].ref] else s.stored)
    && s'.fetched == (if h.Fetch? && h.id in s.results then s.fetched + [s.results[h.id]] else s.fetched)
  }

  lemma HandlerHistory(s: State, t: Tid, h: HandlerAction)
    requires HandlerEnabled(s, t, h)
    ensures HandlerEffect(s, t, h, HandlerStep(s, t, h))
  {
    match h
    case Alloc(_) =>
    case Classify(_) =>
    case Push =>
    case Answer =>
    case Fetch(_) =>
    case Scan =>
    case ListQueue =>
    case ListResults =>
  }

  /** What a worker action adds to the histories. */
  predicate WorkerEffect(s: State, w: WorkerAction, s': State)
    requires WorkerEnabled(s, w)
  {
    && s'.pushed == s.pushed && s'.fetched == s.fetched
    && s'.started == (if w.WFront? && s.queue != [] then s.started + [s.queue[0]] else s.started)
    && s'.removed == (if w.WRemove? then s.removed + [s.worker.ref] else s.removed)
    && s'.stored == (if w.WInsert? then s.stored + [s.worker.ref] else s.stored)
    && s'.failed == (if w.WProcess? && w.threw then s.failed + {s.worker.ref} else s.failed)
    && (s'.worker.Holding? <==> w.WFront? && s.queue != [])
    && (s'.worker.Holding? ==> s'.worker.ref == s.queue[0])
  }

  lemma WorkerHistory(s: State, w: WorkerAction)
    requires WorkerEnabled(s, w)
    ensures WorkerEffect(s, w, WorkerStep(s, w))
  {
    match w
    case WEnableWait =>
    case WTest =>
    case WFront =>
    case WWake =>
    case WProcess(_) =>
    case WInsert =>
    case WRemove =>
    case WIdle =>
  }

  lemma ControlHistory(s: State, c: ControlAction)
    requires ControlEnabled(s, c)
    ensures var s' := ControlStep(s, c);
      && s'.pushed == s.pushed && s'.started == s.started && s'.removed == s.removed
      && s'.stored == s.stored && s'.failed == s.failed && s'.fetched == s.fetched
  {
  }

  lemma NotedStepControl(s: State, c: ControlAction, e: Event)
    requires Controlled(s) && ControlEnabled(s, c)
    ensures Noted(ControlStep(s, c), e) <==> Noted(s, e)
  {
  }

  lemma NotedStepHandler(s: State, t: Tid, h: HandlerAction, e: Event, s': State)
    requires Private(s.handlers, s.pushed, s.stored, s.allocs) && Delivered(s.results, s.stored, s.fetched)
    requires HandlerEnabled(s, t, h) && HandlerEffect(s, t, h, s')
    ensures Is(s, Handler(t, h), e) ==> !Noted(s, e)
    ensures Noted(s', e) <==> Noted(s, e) || Is(s, Handler(t, h), e)
  {
    match e
    case Pushed(_) =>
    case Processed(_) =>
    case Stored(_) =>
    case Removed(_) =>
    case Done(_) =>
  }

  lemma NotedStepWorker(s: State, w: WorkerAction, e: Event, s': State)
    requires Queued(s.queue, s.pushed, s.started, s.removed, Hand(s.worker))
    requires Staged(s.worker, s.pushed, s.started, s.removed, s.stored, s.failed)
    requires WorkerEnabled(s, w) && WorkerEffect(s, w, s')
    ensures Is(s, Worker(w), e) ==> !Noted(s, e)
    ensures Noted(s', e) <==> Noted(s, e) || Is(s, Worker(w), e)
  {
    if Hand(s.worker) != [] { HandQueued(s); }
    if w.WFront? && s.queue != [] { assert s.queue[0] in s.queue && s.started == s.removed; }
    match e
    case Pushed(_) =>
    case Processed(_) =>
    case Stored(_) =>
    case Removed(_) =>
    case Done(_) =>
  }

  lemma {:induction false} TallyNoted(s: State, acts: seq<Action>, e: Event)
    requires Sound(s) && IsRun(s, acts) && Exec(s, acts).allocs < WRAP
    ensures (if Noted(s, e) then 1 else 0) + Tally(s, acts, e) == if Noted(Exec(s, acts), e) then 1 else 0
    decreases acts
  {
    if acts != [] {
      AllocsGrow(s, acts);
      KeepsSound(s, acts[0]);
      match acts[0] {
        case Control(c) => NotedStepControl(s, c, e);
        case Handler(t, h) =>
          HandlerHistory(s, t, h);
          NotedStepHandler(s, t, h, e, HandlerStep(s, t, h));
        case Worker(w) =>
          WorkerHistory(s, w);
          NotedStepWorker(s, w, e, WorkerStep(s, w));
      }
      TallyNoted(Apply(s, acts[0]), acts[1..], e);
    }
  }

  /** Exactly once: over a whole run a command is pushed, processed by the worker, given a result,
      removed and answered "done" at most once each; and a removed command was pushed once,
      processed once, and given one result unless its work threw. */
  lemma ExactlyOnce(acts: seq<Action>, r: Ref)
    requires IsRun(Init(), acts) && Exec(Init(), acts).allocs < WRAP
    ensures forall e :: Tally(Init(), acts, e) <= 1
    ensures var s := Exec(Init(), acts);
      r in s.removed ==>
        && Tally(Init(), acts, Removed(r)) == 1
        && Tally(Init(), acts, Pushed(r)) == 1
        && Tally(Init(), acts, Processed(r)) == 1
        && Tally(Init(), acts, Stored(r)) == if r in s.failed then 0 else 1
  {
    InitGood();
    RunSound(Init(), acts);
    var s := Exec(Init(), acts);
    forall e ensures Tally(Init(), acts, e) == if Noted(s, e) then 1 else 0 {
      TallyNoted(Init(), acts, e);
    }
    if r in s.removed { RemovedNoted(s, r); }
  }

  lemma RemovedNoted(s: State, r: Ref)
    requires Queued(s.queue, s.pushed, s.started, s.removed, Hand(s.worker))
    requires Staged(s.worker, s.pushed, s.started, s.removed, s.stored, s.failed)
    requires r in s.removed
    ensures Noted(s, Pushed(r)) && Noted(s, Processed(r)) && (Noted(s, Stored(r)) <==> r !in s.failed)
  {
    var k := IndexOf(s.removed, r);
    assert s.started[k] == r;
    if Hand(s.worker) != [] { HandQueued(s); }
  }
}
