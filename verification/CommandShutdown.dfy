/** `WSApiWorker::stop`, and what the queue's flags do to it. */
module CommandShutdown {
  import opened CommandSystem
  import opened CommandInvariant
  import opened CommandProperties

  /** Nobody but the worker itself turns waiting back on. */
  predicate LeavesWaitingOff(acts: seq<Action>) {
    forall i :: 0 <= i < |acts| ==> acts[i] != Control(EnableWait)
  }

  predicate NoRestart(acts: seq<Action>) {
    forall i :: 0 <= i < |acts| ==> acts[i] != Control(Run)
  }

  /** `stop` has cleared isRunning and disabled waiting. The worker may still turn waiting on once,
      at the very start of its thread, and then it sees isRunning cleared. */
  predicate Halting(s: State) {
    && !s.running && !s.worker.Asleep?
    && (s.blocking ==> s.worker.Testing? || s.worker.NoThread?)
  }

  /** Worker steps to the end of the thread when nothing holds it up. */
  function StepsLeft(w: WorkerPc): nat {
    match w
    case NoThread => 0
    case Testing => 1
    case Entering => 2
    case FoundNothing => 2
    case Removing(_) => 2
    case Storing(_) => 3
    case Holding(_) => 4
    case AtFront => 5
    case Notified => 5
    case Asleep => 6
  }

  function WorkerSteps(acts: seq<Action>): nat {
    if acts == [] then 0 else (if acts[0].Worker? then 1 else 0) + WorkerSteps(acts[1..])
  }

  lemma DisableWaitHalts(s: State)
    requires Reachable(s) && s.stopper.Clearing?
    ensures Halting(Apply(s, Control(StopDisableWait)))
  {
    ReachableGood(s);
  }

  lemma HaltingControl(s: State, c: ControlAction)
    requires Halting(s) && ControlEnabled(s, c) && !c.Run? && !c.EnableWait?
    ensures Halting(ControlStep(s, c)) && StepsLeft(ControlStep(s, c).worker) == StepsLeft(s.worker)
  {
  }

  lemma HaltingHandler(s: State, t: Tid, h: HandlerAction)
    requires Halting(s) && HandlerEnabled(s, t, h)
    ensures Halting(HandlerStep(s, t, h)) && StepsLeft(HandlerStep(s, t, h).worker) == StepsLeft(s.worker)
  {
  }

  lemma HaltingWorker(s: State, w: WorkerAction)
    requires Halting(s) && WorkerEnabled(s, w)
    ensures Halting(WorkerStep(s, w)) && StepsLeft(WorkerStep(s, w).worker) < StepsLeft(s.worker)
  {
  }

  lemma {:induction false} HaltingRun(s: State, acts: seq<Action>)
    requires Halting(s) && IsRun(s, acts) && NoRestart(acts) && LeavesWaitingOff(acts)
    ensures Halting(Exec(s, acts))
    ensures WorkerSteps(acts) + StepsLeft(Exec(s, acts).worker) <= StepsLeft(s.worker)
    decreases acts
  {
    if acts != [] {
      var a := acts[0];
      match a {
        case Control(c) => HaltingControl(s, c);
        case Handler(t, h) => HaltingHandler(s, t, h);
        case Worker(w) => HaltingWorker(s, w);
      }
      HaltingRun(Apply(s, a), acts[1..]);
    }
  }

  /** The worker step that is due at each point of the thread. */
  function NextStep(w: WorkerPc): WorkerAction
    requires !w.NoThread?
  {
    match w
    case Entering => WEnableWait
    case Testing => WTest
    case AtFront => WFront
    case Notified => WFront
    case Asleep => WWake
    case Holding(_) => WProcess(false)
    case Storing(_) => WInsert
    case Removing(_) => WRemove
    case FoundNothing => WIdle
  }

  /** About to evaluate the predicate of `front` on an empty queue. */
  predicate AtEmptyFront(s: State) {
    (s.worker.AtFront? || s.worker.Notified?) && s.queue == []
  }

  /** isRunning is cleared and the worker has no reason to sleep, whatever the flags. */
  predicate Calm(s: State) {
    !s.running && !s.worker.Asleep? && !AtEmptyFront(s)
  }

  lemma CalmControl(s: State, c: ControlAction)
    requires Calm(s) && ControlEnabled(s, c) && !c.Run?
    ensures Calm(ControlStep(s, c)) && StepsLeft(ControlStep(s, c).worker) == StepsLeft(s.worker)
  {
  }

  lemma CalmHandler(s: State, t: Tid, h: HandlerAction)
    requires Calm(s) && HandlerEnabled(s, t, h)
    ensures Calm(HandlerStep(s, t, h)) && StepsLeft(HandlerStep(s, t, h).worker) == StepsLeft(s.worker)
  {
    match h
    case Alloc(_) =>
    case Classify(_) =>
    case Push =>
    case Answer =>
    case Fetch(_) =>
    case Scan =>
    case ListQueue =>
    case ListResults =>
  }

  lemma CalmWorker(s: State, w: WorkerAction)
    requires Calm(s) && WorkerEnabled(s, w)
    ensures Calm(WorkerStep(s, w)) && StepsLeft(WorkerStep(s, w).worker) < StepsLeft(s.worker)
  {
  }

  lemma {:induction false} CalmRun(s: State, acts: seq<Action>)
    requires Calm(s) && IsRun(s, acts) && NoRestart(acts)
    ensures Calm(Exec(s, acts))
    ensures WorkerSteps(acts) + StepsLeft(Exec(s, acts).worker) <= StepsLeft(s.worker)
    decreases acts
  {
    if acts != [] {
      var a := acts[0];
      match a {
        case Control(c) => CalmControl(s, c);
        case Handler(t, h) => CalmHandler(s, t, h);
        case Worker(w) => CalmWorker(s, w);
      }
      CalmRun(Apply(s, a), acts[1..]);
    }
  }

  /** Shutdown terminates: from the moment `stop` has disabled waiting, whatever the handlers do,
      the worker takes at most five more steps, needs no wakeup, and is never stuck before the end
      of its thread; then the join goes through, and the worker may be run again. This includes a stop that overtakes the worker's
      own `enableWait`. It needs that nobody else turns waiting back on, or else that the worker was
      not just then about to look at an empty queue. */
  lemma ShutdownTerminates(s: State, acts: seq<Action>)
    requires Reachable(s) && s.stopper.Clearing?
    requires var s1 := Apply(s, Control(StopDisableWait));
      IsRun(s1, acts) && NoRestart(acts) && (LeavesWaitingOff(acts) || !AtEmptyFront(s1))
    ensures var e := Exec(Apply(s, Control(StopDisableWait)), acts);
      && WorkerSteps(acts) + StepsLeft(e.worker) <= 5
      && (e.worker.NoThread? || (!e.worker.Asleep? && Enabled(e, Worker(NextStep(e.worker)))))
      && (e.worker.NoThread? && e.stopper.Joining? ==>
            Enabled(e, Control(StopJoin)) && Enabled(Apply(e, Control(StopJoin)), Control(Run)))
  {
    var s1 := Apply(s, Control(StopDisableWait));
    DisableWaitHalts(s);
    if LeavesWaitingOff(acts) {
      HaltingRun(s1, acts);
    } else {
      CalmRun(s1, acts);
    }
  }

  /** Exactly when the join can hang: with all threads free to act, and only `run` not called again,
      the worker can fall asleep after `stop` has disabled waiting if and only if it was at that
      moment about to look at an empty queue. */
  lemma ShutdownCanHang(s: State)
    requires Reachable(s) && s.stopper.Clearing?
    ensures var s1 := Apply(s, Control(StopDisableWait));
      (exists acts :: IsRun(s1, acts) && NoRestart(acts) && Exec(s1, acts).worker.Asleep?) <==> AtEmptyFront(s1)
  {
    var s1 := Apply(s, Control(StopDisableWait));
    DisableWaitHalts(s);
    if AtEmptyFront(s1) {
      HangingRun(s1);
    } else {
      forall acts | IsRun(s1, acts) && NoRestart(acts) ensures !Exec(s1, acts).worker.Asleep? {
        CalmRun(s1, acts);
      }
    }
  }

  /** The run that puts the worker to sleep: somebody enables waiting, the worker looks. */
  const HANG: seq<Action> := [Control(EnableWait), Worker(WFront)]

  lemma HangingRun(s: State)
    requires AtEmptyFront(s)
    ensures IsRun(s, HANG) && NoRestart(HANG)
    ensures Exec(s, HANG) == s.(blocking := true, worker := Asleep)
  {
    var s1 := Apply(s, HANG[0]);
    var s2 := Apply(s1, HANG[1]);
    assert HANG[1..] == [Worker(WFront)] && HANG[1..][1..] == [];
    assert IsRun(s2, []) && IsRun(s1, HANG[1..]) && Exec(s1, HANG[1..]) == s2;
  }

  /** A worker that is never run does nothing: whatever the handlers and the flags do, and however
      often `stop` is called, no command is started and no `stop` gets past its first step. */
  lemma {:induction false} NeverRun(s: State, acts: seq<Action>)
    requires IsRun(s, acts) && NoRestart(acts)
    requires s.worker.NoThread? && s.stopper.NotStopping? && !s.running
    ensures var e := Exec(s, acts);
      && e.worker.NoThread? && e.stopper.NotStopping? && !e.running
      && e.started == s.started && e.removed == s.removed && |s.queue| <= |e.queue|
    decreases acts
  {
    if acts != [] {
      var a := acts[0];
      match a {
        case Control(c) =>
        case Handler(t, h) => IdleHandler(s, t, h);
        case Worker(w) =>
      }
      NeverRun(Apply(s, a), acts[1..]);
    }
  }

  lemma IdleHandler(s: State, t: Tid, h: HandlerAction)
    requires HandlerEnabled(s, t, h) && s.worker.NoThread?
    ensures var s' := HandlerStep(s, t, h);
      && s'.worker == s.worker && s'.stopper == s.stopper && s'.running == s.running
      && s'.started == s.started && s'.removed == s.removed && |s.queue| <= |s'.queue|
  {
    match h
    case Alloc(_) =>
    case Classify(_) =>
    case Push =>
    case Answer =>
    case Fetch(_) =>
    case Scan =>
    case ListQueue =>
    case ListResults =>
  }

  /** 1 when the worker can still reach a removal without looking at isRunning again. */
  function Credit(w: WorkerPc): nat {
    if w.NoThread? || w.Testing? || w.Entering? || w.FoundNothing? then 0 else 1
  }

  lemma CreditStep(s: State, a: Action)
    requires Enabled(s, a) && !s.running && a != Control(Run)
    ensures !Apply(s, a).running
    ensures |Apply(s, a).removed| + Credit(Apply(s, a).worker) <= |s.removed| + Credit(s.worker)
  {
    match a
    case Control(c) =>
    case Handler(t, h) => CreditHandler(s, t, h);
    case Worker(w) =>
  }

  lemma CreditHandler(s: State, t: Tid, h: HandlerAction)
    requires HandlerEnabled(s, t, h)
    ensures var s' := HandlerStep(s, t, h);
      s'.running == s.running && s'.removed == s.removed && Credit(s'.worker) == Credit(s.worker)
  {
    match h
    case Alloc(_) =>
    case Classify(_) =>
    case Push =>
    case Answer =>
    case Fetch(_) =>
    case Scan =>
    case ListQueue =>
    case ListResults =>
  }

  /** After isRunning is cleared the worker completes at most one more command. */
  lemma {:induction false} AtMostOneMore(s: State, acts: seq<Action>)
    requires !s.running && IsRun(s, acts) && NoRestart(acts)
    ensures |Exec(s, acts).removed| + Credit(Exec(s, acts).worker) <= |s.removed| + Credit(s.worker)
    ensures |Exec(s, acts).removed| <= |s.removed| + 1
    ensures !Exec(s, acts).running
    decreases acts
  {
    if acts != [] {
      CreditStep(s, acts[0]);
      AtMostOneMore(Apply(s, acts[0]), acts[1..]);
    }
  }

  lemma PushedStep(s: State, a: Action)
    requires Enabled(s, a)
    ensures s.pushed <= Apply(s, a).pushed
  {
    match a
    case Control(c) => ControlHistory(s, c);
    case Handler(t, h) => HandlerHistory(s, t, h);
    case Worker(w) => WorkerHistory(s, w);
  }

  lemma {:induction false} PushedGrows(s: State, acts: seq<Action>)
    requires IsRun(s, acts)
    ensures s.pushed <= Exec(s, acts).pushed
    decreases acts
  {
    if acts != [] {
      PushedStep(s, acts[0]);
      PushedGrows(Apply(s, acts[0]), acts[1..]);
    }
  }

  /** While the stopper joins, nothing but an accepted push or a spurious wakeup ends the worker's
      sleep: no flag change does, and no push that is rejected. */
  lemma {:induction false} SleepsForever(s: State, acts: seq<Action>)
    requires s.worker.Asleep? && s.stopper.Joining? && IsRun(s, acts)
    requires Worker(WWake) !in acts && Exec(s, acts).pushed == s.pushed
    ensures Exec(s, acts).worker.Asleep? && Exec(s, acts).stopper.Joining?
    decreases acts
  {
    if acts != [] {
      var a, s1 := acts[0], Apply(s, acts[0]);
      assert a in acts;
      PushedStep(s, a);
      PushedGrows(s1, acts[1..]);
      assert s1.pushed == s.pushed;
      match a {
        case Control(c) =>
        case Handler(t, h) => AsleepHandler(s, t, h);
        case Worker(w) =>
      }
      SleepsForever(s1, acts[1..]);
    }
  }

  lemma AsleepHandler(s: State, t: Tid, h: HandlerAction)
    requires HandlerEnabled(s, t, h) && HandlerStep(s, t, h).pushed == s.pushed
    ensures HandlerStep(s, t, h).worker == s.worker && HandlerStep(s, t, h).stopper == s.stopper
  {
    match h
    case Alloc(_) =>
    case Classify(_) =>
    case Push =>
    case Answer =>
    case Fetch(_) =>
    case Scan =>
    case ListQueue =>
    case ListResults =>
  }

  /** The argument of the last `enable` call of a run, or `on` when there is none. */
  function LastEnable(acts: seq<Action>, on: bool): bool {
    if acts == [] then on
    else LastEnable(acts[1..], if acts[0].Control? && acts[0].c.Enable? then acts[0].c.on else on)
  }

  lemma EnabledStep(s: State, a: Action)
    requires Enabled(s, a)
    ensures Apply(s, a).enabled == if a.Control? && a.c.Enable? then a.c.on else s.enabled
  {
    match a
    case Control(c) =>
    case Handler(t, h) => EnabledHandler(s, t, h);
    case Worker(w) =>
  }

  lemma EnabledHandler(s: State, t: Tid, h: HandlerAction)
    requires HandlerEnabled(s, t, h)
    ensures HandlerStep(s, t, h).enabled == s.enabled
  {
    match h
    case Alloc(_) =>
    case Classify(_) =>
    case Push =>
    case Answer =>
    case Fetch(_) =>
    case Scan =>
    case ListQueue =>
    case ListResults =>
  }

  lemma {:induction false} EnabledFollows(s: State, acts: seq<Action>)
    requires IsRun(s, acts)
    ensures Exec(s, acts).enabled == LastEnable(acts, s.enabled)
    decreases acts
  {
    if acts != [] {
      EnabledStep(s, acts[0]);
      EnabledFollows(Apply(s, acts[0]), acts[1..]);
    }
  }

  /** The last call of a run that switched waiting on or off, or `on` when there is none. */
  function LastWait(acts: seq<Action>, on: bool): bool {
    if acts == [] then on else LastWait(acts[1..], WaitAfter(acts[0], on))
  }

  function WaitAfter(a: Action, on: bool): bool {
    match a
    case Control(c) => if c.StopDisableWait? then false else c.EnableWait? || on
    case Handler(_, _) => on
    case Worker(w) => w.WEnableWait? || on
  }

  lemma WaitHandler(s: State, t: Tid, h: HandlerAction)
    requires HandlerEnabled(s, t, h)
    ensures HandlerStep(s, t, h).blocking == s.blocking
    ensures HandlerStep(s, t, h).worker == s.worker || HandlerStep(s, t, h).worker == Notify(s.worker)
  {
  }

  lemma WaitStep(s: State, a: Action)
    requires Enabled(s, a)
    ensures Apply(s, a).blocking == WaitAfter(a, s.blocking)
  {
    match a
    case Control(c) =>
    case Handler(t, h) => WaitHandler(s, t, h);
    case Worker(w) =>
  }

  lemma {:induction false} WaitFollows(s: State, acts: seq<Action>)
    requires IsRun(s, acts)
    ensures Exec(s, acts).blocking == LastWait(acts, s.blocking)
    decreases acts
  {
    if acts != [] {
      WaitStep(s, acts[0]);
      WaitFollows(Apply(s, acts[0]), acts[1..]);
    }
  }

  /** No busy polling: until a `stop` disables waiting, a worker that has still to enable it, in
      its first thread or in a later one, never leaves `front` with nothing. */
  lemma {:induction false} SleepsInsteadOfPolling(s: State, acts: seq<Action>)
    requires IsRun(s, acts) && forall i :: 0 <= i < |acts| ==> acts[i] != Control(StopDisableWait)
    requires s.worker.NoThread? || s.worker.Entering? || (s.blocking && !s.worker.FoundNothing?)
    ensures !Exec(s, acts).worker.FoundNothing?
    decreases acts
  {
    if acts != [] {
      var a := acts[0];
      match a {
        case Control(c) =>
        case Handler(t, h) => WaitHandler(s, t, h);
        case Worker(w) =>
      }
      SleepsInsteadOfPolling(Apply(s, a), acts[1..]);
    }
  }

  /** A push is accepted exactly when the last `enable` call before it switched the queue on; any
      other push is lost. */
  lemma AcceptedIffEnabled(s: State, acts: seq<Action>, k: nat)
    requires IsRun(s, acts) && k < |acts| && acts[k].Handler? && acts[k].h.Push?
    ensures IsRun(s, acts[..k])
    ensures var m := Exec(s, acts[..k]);
      && Enabled(m, acts[k])
      && Apply(m, acts[k]).pushed
         == m.pushed + if LastEnable(acts[..k], s.enabled) then [m.handlers[acts[k].t].ref] else []
  {
    ExecSplit(s, acts, k);
    assert acts[k..][0] == acts[k];
    EnabledFollows(s, acts[..k]);
  }

  /** Only `enable(true)` makes the queue accept anything, and the command worker never calls it:
      as long as no thread does, every scheduled command is lost. */
  lemma {:induction false} NothingAcceptedUnlessEnabled(s: State, acts: seq<Action>)
    requires IsRun(s, acts) && !s.enabled
    requires forall i :: 0 <= i < |acts| ==> acts[i] != Control(Enable(true))
    ensures !Exec(s, acts).enabled && Exec(s, acts).pushed == s.pushed
    decreases acts
  {
    if acts != [] {
      var a := acts[0];
      match a {
        case Control(c) =>
        case Handler(t, h) => NothingPushed(s, t, h);
        case Worker(w) =>
      }
      NothingAcceptedUnlessEnabled(Apply(s, a), acts[1..]);
    }
  }

  lemma NothingPushed(s: State, t: Tid, h: HandlerAction)
    requires HandlerEnabled(s, t, h) && !s.enabled
    ensures !HandlerStep(s, t, h).enabled && HandlerStep(s, t, h).pushed == s.pushed
  {
  }
}
