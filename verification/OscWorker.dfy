/** osc_worker.cpp: one `run`, one `stop`, any number of threads that push messages. The runner
    itself opens its queue, and the stopper closes it; neither waits for the other to do so. */
module OscWorker {
  import opened Seqs
  import opened LockedQueue

  /** A message, by the identity of its shared pointer. */
  type Msg = nat

  datatype RunnerPc =
    | NotStarted | Opening | Entering | Testing | AtFront | Asleep | Notified
    | Sending(m: Msg) | Removing(m: Msg) | FoundNothing | Finished

  datatype StopPc = NotStopping | Unblocking | Closing | Joining | Joined

  datatype State = State(
    queue: seq<Msg>, enabled: bool, blocking: bool, running: bool,
    runner: RunnerPc, stopper: StopPc,
    accepted: seq<Msg>, sent: seq<Msg>, removed: seq<Msg>) // history

  function Init(): State { State([], false, true, false, NotStarted, NotStopping, [], [], []) }

  datatype Action =
    | Run | StopClear | StopUnblock | StopClose | Join
    | REnable | REnableWait | RTest | RFront | RWake | RSend | RRemove | RIdle
    | Push(m: Msg) | EnableWait

  predicate Enabled(s: State, a: Action) {
    match a
    case Run => s.runner.NotStarted? && s.stopper.NotStopping?
    case StopClear => s.stopper.NotStopping? && s.running
    case StopUnblock => s.stopper.Unblocking?
    case StopClose => s.stopper.Closing?
    case Join => s.stopper.Joining? && s.runner.Finished?
    case REnable => s.runner.Opening?
    case REnableWait => s.runner.Entering?
    case RTest => s.runner.Testing?
    case RFront => s.runner.AtFront? || s.runner.Notified?
    case RWake => s.runner.Asleep?
    case RSend => s.runner.Sending?
    case RRemove => s.runner.Removing?
    case RIdle => s.runner.FoundNothing?
    case Push(_) => true
    case EnableWait => true
  }

  function Notify(r: RunnerPc): RunnerPc { if r.Asleep? then Notified else r }

  function Apply(s: State, a: Action): State
    requires Enabled(s, a)
  {
    match a
    case Run => s.(running := true, runner := Opening)
    case StopClear => s.(running := false, stopper := Unblocking)
    case StopUnblock => s.(blocking := false, runner := Notify(s.runner), stopper := Closing)
    case StopClose => s.(enabled := false, stopper := Joining)
    case Join => s.(stopper := Joined)
    case REnable => s.(enabled := true, runner := Entering)
    case REnableWait => s.(blocking := true, runner := Testing)
    case RTest => s.(runner := if s.running then AtFront else Finished)
    case RFront =>
      if s.queue != [] then s.(runner := Sending(s.queue[0]))
      else s.(runner := if s.blocking then Asleep else FoundNothing)
    case RWake => s.(runner := Notified)
    case RSend => s.(sent := s.sent + [s.runner.m], runner := Removing(s.runner.m))
    case RRemove => s.(queue := Without(s.queue, s.runner.m), removed := s.removed + [s.runner.m], runner := Testing)
    case RIdle => s.(runner := Testing)
    case Push(m) =>
      if !s.enabled then s
      else s.(queue := s.queue + [m], accepted := s.accepted + [m], runner := Notify(s.runner))
    case EnableWait => s.(blocking := true)
  }

  ghost predicate IsRun(s: State, acts: seq<Action>)
    decreases acts
  {
    acts == [] || (Enabled(s, acts[0]) && IsRun(Apply(s, acts[0]), acts[1..]))
  }

  ghost function Exec(s: State, acts: seq<Action>): State
    requires IsRun(s, acts)
    decreases acts
  {
    if acts == [] then s else Exec(Apply(s, acts[0]), acts[1..])
  }

  // ---- open or closed ----

  predicate HasOpened(s: State) { !s.runner.NotStarted? && !s.runner.Opening? }
  predicate HasClosed(s: State) { s.stopper.Joining? || s.stopper.Joined? }

  /** Between two writes of the flag the last one counts. */
  ghost predicate FlagFollows(s: State, acts: seq<Action>)
    requires IsRun(s, acts)
  {
    var e := Exec(s, acts);
    var opens, closes := IndexOf(acts, REnable), IndexOf(acts, StopClose);
    && (REnable in acts <==> !HasOpened(s) && HasOpened(e))
    && (StopClose in acts <==> !HasClosed(s) && HasClosed(e))
    && (e.enabled <==>
          if REnable in acts && StopClose in acts then opens > closes
          else if REnable in acts then true
          else if StopClose in acts then false
          else s.enabled)
  }

  lemma StepFlag(s: State, a: Action)
    requires Enabled(s, a)
    ensures a == REnable <==> !HasOpened(s) && HasOpened(Apply(s, a))
    ensures a == StopClose <==> !HasClosed(s) && HasClosed(Apply(s, a))
    ensures HasOpened(s) ==> HasOpened(Apply(s, a))
    ensures HasClosed(s) ==> HasClosed(Apply(s, a))
    ensures Apply(s, a).enabled <==> (a == REnable || (s.enabled && a != StopClose))
  {
  }

  lemma {:induction false} FlagHistory(s: State, acts: seq<Action>)
    requires IsRun(s, acts)
    ensures FlagFollows(s, acts)
    ensures HasOpened(s) ==> HasOpened(Exec(s, acts))
    ensures HasClosed(s) ==> HasClosed(Exec(s, acts))
    decreases acts
  {
    if acts != [] {
      var s1 := Apply(s, acts[0]);
      StepFlag(s, acts[0]);
      FlagHistory(s1, acts[1..]);
      assert acts == [acts[0]] + acts[1..];
    }
  }

  /** After the join the queue is still open exactly when the runner's `enable()` came after the
      stopper's `enable(false)`. Open, it keeps every later push, for nobody; closed, no later push
      changes it. */
  lemma OpenAfterStop(acts: seq<Action>, later: seq<Action>)
    requires IsRun(Init(), acts) && Exec(Init(), acts).stopper.Joined?
    requires IsRun(Exec(Init(), acts), later)
    ensures REnable in acts && StopClose in acts
    ensures Exec(Init(), acts).enabled <==> IndexOf(acts, REnable) > IndexOf(acts, StopClose)
    ensures Exec(Exec(Init(), acts), later).queue
         == Exec(Init(), acts).queue + if IndexOf(acts, REnable) > IndexOf(acts, StopClose) then Pushes(later) else []
  {
    FlagHistory(Init(), acts);
    JoinedFinished(Init(), acts);
    AfterJoin(Exec(Init(), acts), later);
  }

  function Pushes(acts: seq<Action>): seq<Msg> {
    if acts == [] then [] else (if acts[0].Push? then [acts[0].m] else []) + Pushes(acts[1..])
  }

  lemma {:induction false} JoinedFinished(s: State, acts: seq<Action>)
    requires IsRun(s, acts) && (s.stopper.Joined? ==> s.runner.Finished?)
    ensures Exec(s, acts).stopper.Joined? ==> Exec(s, acts).runner.Finished?
    decreases acts
  {
    if acts != [] { JoinedFinished(Apply(s, acts[0]), acts[1..]); }
  }

  lemma AfterJoinStep(s: State, a: Action)
    requires Enabled(s, a) && s.stopper.Joined? && s.runner.Finished?
    ensures var s1 := Apply(s, a);
      && s1.stopper.Joined? && s1.runner.Finished? && s1.enabled == s.enabled
      && s1.queue == s.queue + if s.enabled && a.Push? then [a.m] else []
  {
  }

  lemma PushesFirst(acts: seq<Action>)
    requires acts != []
    ensures Pushes(acts) == (if acts[0].Push? then [acts[0].m] else []) + Pushes(acts[1..])
  {
  }

  lemma {:induction false} AfterJoin(s: State, later: seq<Action>)
    requires IsRun(s, later) && s.stopper.Joined? && s.runner.Finished?
    ensures Exec(s, later).queue == s.queue + if s.enabled then Pushes(later) else []
    decreases later
  {
    if later != [] {
      var s1 := Apply(s, later[0]);
      AfterJoinStep(s, later[0]);
      AfterJoin(s1, later[1..]);
      PushesFirst(later);
    }
  }

  lemma RunCons(s: State, a: Action, rest: seq<Action>)
    requires Enabled(s, a) && IsRun(Apply(s, a), rest)
    ensures IsRun(s, [a] + rest) && Exec(s, [a] + rest) == Exec(Apply(s, a), rest)
  {
    assert ([a] + rest)[1..] == rest;
  }

  /** A stop that overtakes the runner's first step does leave the queue open. */
  lemma StopCanLeaveQueueOpen()
    ensures exists acts :: IsRun(Init(), acts) && Exec(Init(), acts).stopper.Joined? && Exec(Init(), acts).enabled
  {
    var s := Init().(running := true, runner := Opening);
    var s1 := s.(running := false, stopper := Unblocking);
    var s2 := s1.(blocking := false, stopper := Closing);
    var s3 := s2.(stopper := Joining);
    var s4 := s3.(enabled := true, runner := Entering);
    var s5 := s4.(blocking := true, runner := Testing);
    var s6 := s5.(runner := Finished);
    RunCons(s6, Join, []);
    RunCons(s5, RTest, [Join] + []);
    RunCons(s4, REnableWait, [RTest] + ([Join] + []));
    RunCons(s3, REnable, [REnableWait] + ([RTest] + ([Join] + [])));
    var a3 := [REnable] + ([REnableWait] + ([RTest] + ([Join] + [])));
    RunCons(s2, StopClose, a3);
    RunCons(s1, StopUnblock, [StopClose] + a3);
    RunCons(s, StopClear, [StopUnblock] + ([StopClose] + a3));
    RunCons(Init(), Run, [StopClear] + ([StopUnblock] + ([StopClose] + a3)));
  }

  // ---- every accepted message once, in order ----

  ghost predicate InOrder(s: State) {
    && s.accepted == s.removed + s.queue
    && s.sent == s.removed + (if s.runner.Removing? then [s.runner.m] else [])
    && (s.runner.Sending? || s.runner.Removing? ==> s.queue != [] && s.queue[0] == s.runner.m)
    && (s.runner.Asleep? ==> s.blocking && s.queue == [])
  }

  lemma RemoveHead(accepted: seq<Msg>, removed: seq<Msg>, queue: seq<Msg>)
    requires accepted == removed + queue && queue != [] && Distinct(accepted)
    ensures Without(queue, queue[0]) == queue[1..]
    ensures accepted == removed + [queue[0]] + queue[1..]
  {
    assert forall i :: 0 <= i < |queue| ==> queue[i] == accepted[|removed| + i];
    WithoutAt(queue, 0);
  }

  lemma InOrderStep(s: State, a: Action)
    requires Enabled(s, a) && InOrder(s) && Distinct(s.accepted)
    ensures InOrder(Apply(s, a))
  {
    if a.RRemove? { RemoveHead(s.accepted, s.removed, s.queue); }
  }

  lemma AcceptedGrows(s: State, a: Action)
    requires Enabled(s, a)
    ensures s.accepted <= Apply(s, a).accepted
  {
  }

  lemma {:induction false} InOrderRun(s: State, acts: seq<Action>)
    requires IsRun(s, acts) && InOrder(s) && Distinct(Exec(s, acts).accepted)
    ensures InOrder(Exec(s, acts))
    ensures s.accepted <= Exec(s, acts).accepted
    decreases acts
  {
    if acts != [] {
      var s1 := Apply(s, acts[0]);
      AcceptedPrefix(s1, acts[1..]);
      AcceptedGrows(s, acts[0]);
      assert Distinct(s.accepted);
      InOrderStep(s, acts[0]);
      InOrderRun(s1, acts[1..]);
    }
  }

  lemma {:induction false} AcceptedPrefix(s: State, acts: seq<Action>)
    requires IsRun(s, acts)
    ensures s.accepted <= Exec(s, acts).accepted
    decreases acts
  {
    if acts != [] {
      AcceptedGrows(s, acts[0]);
      AcceptedPrefix(Apply(s, acts[0]), acts[1..]);
    }
  }

  /** Delivery: as long as no message object is pushed twice, the messages handed to send_message
      so far are the oldest accepted ones, each once and in push order. All but the one in hand
      have left the queue, none has left it unsent, and the rest is still queued. */
  lemma DeliveredInOrder(acts: seq<Action>)
    requires IsRun(Init(), acts) && Distinct(Exec(Init(), acts).accepted)
    ensures var s := Exec(Init(), acts);
      && s.removed <= s.sent <= s.accepted
      && |s.sent| <= |s.removed| + 1
      && s.accepted == s.removed + s.queue
      && (s.runner.Asleep? ==> s.blocking && s.sent == s.accepted)
  {
    InOrderRun(Init(), acts);
    var s := Exec(Init(), acts);
    if s.runner.Removing? { assert s.queue == [s.runner.m] + s.queue[1..]; }
  }

  // ---- the worker over the real queue ----

  const RUNNER: nat := 0

  class OSCWorker {
    const msgq: Queue<Msg>
    var isRunning: bool
    var runner: RunnerPc
    var stopper: StopPc
    ghost var accepted: seq<Msg>
    ghost var removed: seq<Msg>
    var sent: seq<Msg> // the messages handed to the server

    ghost predicate Valid()
      reads this, msgq
    {
      && msgq.Valid()
      && msgq.sleepers == if runner.Asleep? then {RUNNER} else {}
    }

    ghost function Abs(): State
      reads this, msgq
    {
      State(msgq.iqueue, msgq.isRunning, msgq.isBlocking, isRunning, runner, stopper, accepted, sent, removed)
    }

    constructor ()
      ensures Valid() && fresh(msgq)
      ensures Abs() == Init()
    {
      msgq := new Queue<Msg>();
      isRunning, runner, stopper := false, NotStarted, NotStopping;
      accepted, sent, removed := [], [], [];
    }

    /** `run` and the three steps of `stop`, with the join. */
    method Control(a: Action)
      requires Valid() && Enabled(Abs(), a)
      requires a.Run? || a.StopClear? || a.StopUnblock? || a.StopClose? || a.Join?
      modifies this, msgq
      ensures Valid() && Abs() == Apply(old(Abs()), a)
    {
      match a
      case Run => isRunning, runner := true, Opening;
      case StopClear => isRunning, stopper := false, Unblocking;
      case StopUnblock =>
        msgq.DisableWait();
        stopper := Closing;
        if runner.Asleep? { runner := Notified; }
      case StopClose =>
        msgq.Enable(false);
        stopper := Joining;
      case Join => stopper := Joined;
    }

    /** One critical section of `runner`; `front` may put the thread to sleep. */
    method RunnerStep()
      requires Valid() && !runner.NotStarted? && !runner.Finished?
      modifies this, msgq
      ensures Valid() && Enabled(old(Abs()), Due(old(runner))) && Abs() == Apply(old(Abs()), Due(old(runner)))
    {
      match runner
      case Opening =>
        msgq.Enable(true);
        runner := Entering;
      case Entering =>
        msgq.EnableWait();
        runner := Testing;
      case Testing => runner := if isRunning then AtFront else Finished;
      case AtFront => TakeFront();
      case Notified => TakeFront();
      case Asleep =>
        msgq.Wake(RUNNER);
        runner := Notified;
      case Sending(m) =>
        sent := sent + [m];
        runner := Removing(m);
      case Removing(m) =>
        msgq.Remove(m);
        removed := removed + [m];
        runner := Testing;
      case FoundNothing => runner := Testing;
    }

    method TakeFront()
      requires Valid() && Enabled(Abs(), RFront)
      modifies this, msgq
      ensures Valid() && Abs() == Apply(old(Abs()), RFront)
    {
      var r := msgq.Front(RUNNER);
      runner := match r case MustWait => Asleep case NothingThere => FoundNothing case Item(m) => Sending(m);
    }

    method PushMessage(m: Msg)
      requires Valid()
      modifies this, msgq
      ensures Valid() && Abs() == Apply(old(Abs()), Action.Push(m))
    {
      var accepts := msgq.isRunning;
      msgq.Push(m);
      if accepts {
        accepted := accepted + [m];
        if runner.Asleep? { runner := Notified; }
      }
    }
  }

  function Due(r: RunnerPc): Action
    requires !r.NotStarted? && !r.Finished?
  {
    match r
    case Opening => REnable
    case Entering => REnableWait
    case Testing => RTest
    case AtFront => RFront
    case Notified => RFront
    case Asleep => RWake
    case Sending(_) => RSend
    case Removing(_) => RRemove
    case FoundNothing => RIdle
  }
}
