/** Normal service: a queued command is served after a computable number of worker steps. */
module CommandProgress {
  import opened Seqs
  import opened CommandSystem
  import opened CommandInvariant
  import opened CommandReaders
  import opened CommandOrder
  import opened CommandShutdown

  /** Nobody calls `stop`. */
  predicate NoStop(acts: seq<Action>) {
    forall i :: 0 <= i < |acts| ==> acts[i] != Control(StopClear)
  }

  /** Worker steps to the end of the pass through the loop that is under way. */
  function StepsInPass(w: WorkerPc): nat {
    match w
    case NoThread => 0
    case Entering => 1
    case Testing => 0
    case AtFront => 4
    case Asleep => 5
    case Notified => 4
    case Holding(_) => 3
    case Storing(_) => 2
    case Removing(_) => 1
    case FoundNothing => 1
  }

  /** Commands ahead of `r`, without the one in hand, which the pass under way completes. */
  function AheadOf(queue: seq<Ref>, hand: seq<Ref>, r: Ref): nat
    requires r in queue && |hand| <= 1
  {
    var i := IndexOf(queue, r);
    if hand != [] && IndexOf(queue, hand[0]) < i then i - 1 else i
  }

  /** Worker steps until `r` is removed when no urgent command comes in between: five for each
      command ahead of it and for itself, and what is left of the pass under way. */
  function Steps(queue: seq<Ref>, w: WorkerPc, r: Ref): nat
    requires r in queue
  {
    if w.AtFront? || w.Notified? then 4 + 5 * IndexOf(queue, r)
    else if Hand(w) == [r] then StepsInPass(w)
    else StepsInPass(w) + 5 * (AheadOf(queue, Hand(w), r) + 1)
  }

  function StepsToRemoval(s: State, r: Ref): nat
    requires r in s.queue
  {
    Steps(s.queue, s.worker, r)
  }

  /** In service: nothing stops the worker from getting to `r`. */
  ghost predicate InService(s: State, r: Ref) {
    Good(s) && s.running && r in s.queue
  }

  lemma AheadOfPush(queue: seq<Ref>, hand: seq<Ref>, x: Ref, r: Ref)
    requires r in queue && x !in queue && |hand| <= 1 && (hand != [] ==> hand[0] in queue)
    ensures IndexOf([x] + queue, r) == IndexOf(queue, r) + 1
    ensures AheadOf([x] + queue, hand, r) == AheadOf(queue, hand, r) + 1
    ensures IndexOf(queue + [x], r) == IndexOf(queue, r)
    ensures AheadOf(queue + [x], hand, r) == AheadOf(queue, hand, r)
  {
    IndexPrepend(queue, x, r);
    IndexAppend(queue, x, r);
    if hand != [] {
      IndexPrepend(queue, x, hand[0]);
      IndexAppend(queue, x, hand[0]);
    }
  }

  lemma StepsAfterPush(queue: seq<Ref>, w: WorkerPc, x: Ref, r: Ref)
    requires r in queue && x !in queue && (Hand(w) != [] ==> w.ref in queue)
    ensures Steps([x] + queue, w, r) <= Steps(queue, w, r) + 5
    ensures Steps(queue + [x], w, r) == Steps(queue, w, r)
  {
    AheadOfPush(queue, Hand(w), x, r);
  }

  lemma PushEffect(s: State, t: Tid)
    requires HandlerEnabled(s, t, Push) && !s.worker.Asleep?
    ensures var s', x := HandlerStep(s, t, Push), s.handlers[t].ref;
      && s'.running == s.running && s'.worker == s.worker
      && s'.queue == (if !s.enabled then s.queue else if s.handlers[t].urgent then [x] + s.queue else s.queue + [x])
  {
  }

  lemma ServedPush(s: State, t: Tid, r: Ref)
    requires s.running && r in s.queue && HandlerEnabled(s, t, Push)
    requires s.handlers[t].ref !in s.queue && !s.worker.Asleep?
    requires Hand(s.worker) != [] ==> s.worker.ref in s.queue
    ensures var s' := HandlerStep(s, t, Push);
      && s'.running && r in s'.queue
      && StepsToRemoval(s', r) <= StepsToRemoval(s, r) + if IsFrontPush(s, Handler(t, Push)) then 5 else 0
  {
    PushEffect(s, t);
    StepsAfterPush(s.queue, s.worker, s.handlers[t].ref, r);
  }

  lemma ServedStart(s: State, r: Ref)
    requires r in s.queue && WorkerEnabled(s, WFront)
    ensures r in WorkerStep(s, WFront).queue
    ensures StepsToRemoval(WorkerStep(s, WFront), r) < StepsToRemoval(s, r)
  {
    assert IndexOf(s.queue, s.queue[0]) == 0;
  }

  lemma AheadOfRemove(queue: seq<Ref>, x: Ref, r: Ref)
    requires Distinct(queue) && r in queue && x in queue && x != r
    ensures r in Without(queue, x) && IndexOf(Without(queue, x), r) == AheadOf(queue, [x], r)
  {
    WithoutIndex(queue, x, r);
  }

  lemma ServedRemove(s: State, r: Ref)
    requires r in s.queue && Distinct(s.queue) && WorkerEnabled(s, WRemove) && s.worker.ref in s.queue
    ensures var s' := WorkerStep(s, WRemove);
      if s.worker.ref == r then r in s'.removed
      else r in s'.queue && StepsToRemoval(s', r) < StepsToRemoval(s, r)
  {
    if s.worker.ref != r {
      AheadOfRemove(s.queue, s.worker.ref, r);
    }
  }

  /** The program counter moves on within a pass, with the same command in hand or none. */
  predicate MovesOn(w: WorkerPc, w': WorkerPc) {
    match w
    case Entering => w'.Testing?
    case Testing => w'.AtFront?
    case Holding(x) => w' == Storing(x) || w' == Removing(x)
    case Storing(x) => w' == Removing(x)
    case FoundNothing => w'.Testing?
    case _ => false
  }

  lemma StepsAfterMove(queue: seq<Ref>, w: WorkerPc, w': WorkerPc, r: Ref)
    requires r in queue && MovesOn(w, w')
    ensures Steps(queue, w', r) < Steps(queue, w, r)
  {
  }

  /** The worker actions that leave the queue and the command in hand alone. */
  lemma PlainEffect(s: State, w: WorkerAction)
    requires s.running && WorkerEnabled(s, w) && !w.WFront? && !w.WRemove? && !w.WWake?
    ensures var s' := WorkerStep(s, w);
      s'.running && s'.queue == s.queue && MovesOn(s.worker, s'.worker)
  {
    match w
    case WEnableWait =>
    case WTest =>
    case WProcess(_) =>
    case WInsert =>
    case WIdle =>
  }

  lemma ServedPlain(s: State, w: WorkerAction, r: Ref)
    requires r in s.queue && s.running
    requires WorkerEnabled(s, w) && !w.WFront? && !w.WRemove? && !w.WWake?
    ensures var s' := WorkerStep(s, w);
      s'.running && r in s'.queue && StepsToRemoval(s', r) < StepsToRemoval(s, r)
  {
    PlainEffect(s, w);
    StepsAfterMove(s.queue, s.worker, WorkerStep(s, w).worker, r);
  }

  lemma ServedWorker(s: State, w: WorkerAction, r: Ref)
    requires InService(s, r) && WorkerEnabled(s, w)
    ensures var s' := WorkerStep(s, w);
      r in s'.removed || (s'.running && r in s'.queue && StepsToRemoval(s', r) < StepsToRemoval(s, r))
  {
    if w.WFront? {
      ServedStart(s, r);
    } else if w.WRemove? {
      HandQueued(s);
      ServedRemove(s, r);
    } else {
      ServedPlain(s, w, r);
    }
  }

  lemma ServedControl(s: State, c: ControlAction, r: Ref)
    requires InService(s, r) && ControlEnabled(s, c) && !c.StopClear?
    ensures var s' := ControlStep(s, c);
      s'.running && r in s'.queue && StepsToRemoval(s', r) == StepsToRemoval(s, r)
  {
  }

  lemma HandlerAlone(s: State, t: Tid, h: HandlerAction)
    requires HandlerEnabled(s, t, h) && !h.Push?
    ensures var s' := HandlerStep(s, t, h);
      s'.queue == s.queue && s'.worker == s.worker && s'.running == s.running
  {
    match h
    case Alloc(_) =>
    case Classify(_) =>
    case Answer =>
    case Fetch(_) =>
    case Scan =>
    case ListQueue =>
    case ListResults =>
  }

  lemma ServedHandler(s: State, t: Tid, h: HandlerAction, r: Ref)
    requires InService(s, r) && HandlerEnabled(s, t, h)
    ensures var s' := HandlerStep(s, t, h);
      && s'.running && r in s'.queue
      && StepsToRemoval(s', r) <= StepsToRemoval(s, r) + if IsFrontPush(s, Handler(t, h)) then 5 else 0
  {
    if h.Push? {
      if Hand(s.worker) != [] { HandQueued(s); }
      ServedPush(s, t, r);
    } else {
      HandlerAlone(s, t, h);
    }
  }

  /** One action of any thread: the worker's bring `r` nearer, an urgent push costs five steps. */
  lemma ServedStep(s: State, a: Action, r: Ref)
    requires InService(s, r) && Enabled(s, a) && a != Control(StopClear)
    ensures var s' := Apply(s, a);
      r in s'.removed
      || (s'.running && r in s'.queue
          && (if a.Worker? then 1 else 0) + StepsToRemoval(s', r)
             <= StepsToRemoval(s, r) + if IsFrontPush(s, a) then 5 else 0)
  {
    match a
    case Control(c) => ServedControl(s, c, r);
    case Handler(t, h) => ServedHandler(s, t, h, r);
    case Worker(w) => ServedWorker(s, w, r);
  }

  lemma {:induction false} ServedRun(s: State, acts: seq<Action>, r: Ref)
    requires InService(s, r) && IsRun(s, acts) && NoStop(acts)
    ensures var e := Exec(s, acts);
      r in e.removed
      || (InService(e, r)
          && WorkerSteps(acts) + StepsToRemoval(e, r) <= StepsToRemoval(s, r) + 5 * FrontPushes(s, acts))
    decreases acts
  {
    if acts != [] {
      var s1 := Apply(s, acts[0]);
      KeepsGood(s, acts[0]);
      ServedStep(s, acts[0], r);
      if r in s1.removed {
        HistoryGrows(s1, acts[1..], r);
      } else {
        ServedRun(s1, acts[1..], r);
      }
    }
  }

  lemma StepsBound(s: State, r: Ref)
    requires InService(s, r)
    ensures 1 <= StepsToRemoval(s, r) <= 8 + 5 * IndexOf(s.queue, r)
  {
    if Hand(s.worker) != [] { HandQueued(s); }
  }

  /** Progress: while nobody calls `stop`, a queued command is removed at the latest when the worker
      has taken `StepsToRemoval` steps, and five more for every urgent command pushed meanwhile.
      That is at most eight and five times its position. Until then the worker is awake and has a
      step to take. */
  lemma QueuedIsServed(s: State, acts: seq<Action>, r: Ref)
    requires Reachable(s) && s.running && r in s.queue
    requires IsRun(s, acts) && NoStop(acts)
    ensures StepsToRemoval(s, r) <= 8 + 5 * IndexOf(s.queue, r)
    ensures var e := Exec(s, acts);
      && (WorkerSteps(acts) >= StepsToRemoval(s, r) + 5 * FrontPushes(s, acts) ==> r in e.removed)
      && (r !in e.removed ==>
            !e.worker.NoThread? && !e.worker.Asleep? && Enabled(e, Worker(NextStep(e.worker))))
  {
    ReachableGood(s);
    StepsBound(s, r);
    ServedRun(s, acts, r);
    var e := Exec(s, acts);
    if r !in e.removed { StepsBound(e, r); }
  }
}
