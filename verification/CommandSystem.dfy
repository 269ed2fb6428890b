/** The command lifecycle as a transition system: any number of handler threads
    (wsapi_handler.cpp), one worker and one stopper (wsapi_worker.cpp), and any other thread that
    flips the queue's flags. One action is one critical section, one atomic or one flag access,
    except that `Run` is the exchange of isRunning and the start of the thread in one, and that
    nobody calls `run` while a `stop` is under way. */
module CommandSystem {
  import opened Seqs

  type Tid = nat

  /** A command object, named by the running number of its id allocation: 1, 2, 3, ... */
  type Ref = nat

  const WRAP: nat := 0x1_0000_0000

  /** The uint32 id given out by the `n`-th increment of the counter, which starts at 0. */
  function IdOf(n: Ref): nat { n % WRAP }

  datatype HandlerPc =
    | Allocated(ref: Ref, urgent: bool)  // id taken, the command's own process() not called yet
    | Scheduling(ref: Ref, urgent: bool) // process() answered CMD_SCHEDULED
    | Answering(ref: Ref)                // process() answered anything else
    | Missed(id: nat)                    // get: nothing fetched, the queue not scanned yet
    | Listed(requests: seq<Ref>)         // list: the queue scanned, the results not yet

  datatype Outcome = Scheduled | Immediate | Throws

  datatype WorkerPc =
    | NoThread
    | Entering            // before enableWait
    | Testing             // before `while (isRunning)`
    | AtFront             // about to evaluate the predicate of front's wait
    | Asleep              // in the wait set, not notified
    | Notified            // out of the wait set, about to evaluate the predicate again
    | Holding(ref: Ref)   // front gave an item, work->process() not called yet
    | Storing(ref: Ref)   // process() returned, result not inserted yet
    | Removing(ref: Ref)  // inserted, or an exception caught; item still queued
    | FoundNothing        // front gave nothing

  datatype StopperPc = NotStopping | Clearing | Joining

  datatype State = State(
    queue: seq<Ref>, enabled: bool, blocking: bool,
    results: map<nat, Ref>,
    allocs: nat, running: bool,
    worker: WorkerPc, stopper: StopperPc, handlers: map<Tid, HandlerPc>,
    // history: in the order it happened
    pushed: seq<Ref>, urgent: set<Ref>, started: seq<Ref>, removed: seq<Ref>,
    stored: seq<Ref>, failed: set<Ref>, fetched: seq<Ref>)

  function Init(): State {
    State([], false, true, map[], 0, false, NoThread, NotStopping, map[], [], {}, [], [], [], {}, [])
  }

  /** Threads other than handlers and worker: whoever flips the queue's flags, and run/stop. */
  datatype ControlAction =
    | Enable(on: bool) | EnableWait
    | Run | StopClear | StopDisableWait | StopJoin

  datatype HandlerAction =
    | Alloc(urgent: bool) | Classify(outcome: Outcome) | Push | Answer
    | Fetch(id: nat) | Scan
    | ListQueue | ListResults

  datatype WorkerAction =
    | WEnableWait | WTest | WFront | WWake | WProcess(threw: bool) | WInsert | WRemove | WIdle

  datatype Action =
    | Control(c: ControlAction)
    | Handler(t: Tid, h: HandlerAction)
    | Worker(w: WorkerAction)

  predicate Enabled(s: State, a: Action) {
    match a
    case Control(c) => ControlEnabled(s, c)
    case Handler(t, h) => HandlerEnabled(s, t, h)
    case Worker(w) => WorkerEnabled(s, w)
  }

  function Apply(s: State, a: Action): State
    requires Enabled(s, a)
  {
    match a
    case Control(c) => ControlStep(s, c)
    case Handler(t, h) => HandlerStep(s, t, h)
    case Worker(w) => WorkerStep(s, w)
  }

  // ---- flags, run() and stop() ----

  predicate ControlEnabled(s: State, c: ControlAction) {
    match c
    case Enable(_) => true
    case EnableWait => true
    case Run => s.stopper.NotStopping?
    case StopClear => s.stopper.NotStopping?
    case StopDisableWait => s.stopper.Clearing?
    case StopJoin => s.stopper.Joining? && s.worker.NoThread?
  }

  function ControlStep(s: State, c: ControlAction): State
    requires ControlEnabled(s, c)
  {
    match c
    case Enable(on) => s.(enabled := on)
    case EnableWait => s.(blocking := true)
    case Run => if s.running then s else s.(running := true, worker := Entering)
    case StopClear => if s.running then s.(running := false, stopper := Clearing) else s
    case StopDisableWait => s.(blocking := false, worker := Notify(s.worker), stopper := Joining)
    case StopJoin => s.(stopper := NotStopping)
  }

  /** `notify_all`: the worker is the only thread that calls `front` on this queue. */
  function Notify(w: WorkerPc): WorkerPc { if w.Asleep? then Notified else w }

  // ---- the handlers ----

  predicate HandlerEnabled(s: State, t: Tid, h: HandlerAction) {
    match h
    case Alloc(_) => t !in s.handlers
    case Classify(_) => t in s.handlers && s.handlers[t].Allocated?
    case Push => t in s.handlers && s.handlers[t].Scheduling?
    case Answer => t in s.handlers && s.handlers[t].Answering?
    case Fetch(id) => t !in s.handlers && id != 0
    case Scan => t in s.handlers && s.handlers[t].Missed?
    case ListQueue => t !in s.handlers
    case ListResults => t in s.handlers && s.handlers[t].Listed?
  }

  function HandlerStep(s: State, t: Tid, h: HandlerAction): State
    requires HandlerEnabled(s, t, h)
  {
    match h
    case Alloc(urgent) =>
      s.(allocs := s.allocs + 1, handlers := s.handlers[t := Allocated(s.allocs + 1, urgent)])
    case Classify(outcome) =>
      var pc := s.handlers[t];
      (match outcome
       case Scheduled => s.(handlers := s.handlers[t := Scheduling(pc.ref, pc.urgent)])
       case Immediate => s.(handlers := s.handlers[t := Answering(pc.ref)])
       case Throws => s.(handlers := s.handlers - {t}))
    case Push => PushStep(s, t)
    case Answer =>
      var r := s.handlers[t].ref;
      s.(results := s.results[IdOf(r) := r], stored := s.stored + [r], handlers := s.handlers - {t})
    case Fetch(id) =>
      if id in s.results then s.(results := s.results - {id}, fetched := s.fetched + [s.results[id]])
      else s.(handlers := s.handlers[t := Missed(id)])
    case Scan => s.(handlers := s.handlers - {t})
    case ListQueue => s.(handlers := s.handlers[t := Listed(s.queue)])
    case ListResults => s.(handlers := s.handlers - {t})
  }

  /** A push that finds the queue disabled loses the command without a word. */
  function PushStep(s: State, t: Tid): State
    requires t in s.handlers && s.handlers[t].Scheduling?
  {
    var h := s.handlers[t];
    if !s.enabled then s.(handlers := s.handlers - {t})
    else
      s.(queue := if h.urgent then [h.ref] + s.queue else s.queue + [h.ref],
         pushed := s.pushed + [h.ref],
         urgent := if h.urgent then s.urgent + {h.ref} else s.urgent,
         worker := Notify(s.worker),
         handlers := s.handlers - {t})
  }

  // ---- the worker ----

  predicate WorkerEnabled(s: State, w: WorkerAction) {
    match w
    case WEnableWait => s.worker.Entering?
    case WTest => s.worker.Testing?
    case WFront => s.worker.AtFront? || s.worker.Notified?
    case WWake => s.worker.Asleep?
    case WProcess(_) => s.worker.Holding?
    case WInsert => s.worker.Storing?
    case WRemove => s.worker.Removing?
    case WIdle => s.worker.FoundNothing?
  }

  function WorkerStep(s: State, w: WorkerAction): State
    requires WorkerEnabled(s, w)
  {
    match w
    case WEnableWait => s.(blocking := true, worker := Testing)
    case WTest => s.(worker := if s.running then AtFront else NoThread)
    case WFront =>
      if s.queue != [] then s.(worker := Holding(s.queue[0]), started := s.started + [s.queue[0]])
      else s.(worker := if s.blocking then Asleep else FoundNothing)
    case WWake => s.(worker := Notified)
    case WProcess(threw) =>
      var r := s.worker.ref;
      if threw then s.(failed := s.failed + {r}, worker := Removing(r)) else s.(worker := Storing(r))
    case WInsert =>
      var r := s.worker.ref;
      s.(results := s.results[IdOf(r) := r], stored := s.stored + [r], worker := Removing(r))
    case WRemove =>
      var r := s.worker.ref;
      s.(queue := Without(s.queue, r), removed := s.removed + [r], worker := Testing)
    case WIdle => s.(worker := Testing)
  }

  /** The position that `get` reports for `id`, or -1 for "neither queued or completed". */
  function PosOf(queue: seq<Ref>, id: nat): (pos: int)
    ensures -1 <= pos < |queue|
    ensures pos == -1 <==> forall j :: 0 <= j < |queue| ==> IdOf(queue[j]) != id
    ensures 0 <= pos ==> IdOf(queue[pos]) == id && forall j :: 0 <= j < pos ==> IdOf(queue[j]) != id
  {
    if queue == [] then -1
    else if IdOf(queue[0]) == id then 0
    else var p := PosOf(queue[1..], id); if p == -1 then -1 else p + 1
  }

  // ---- runs ----

  ghost predicate IsRun(s: State, acts: seq<Action>)
    decreases acts
  {
    acts == [] || (Enabled(s, acts[0]) && IsRun(Apply(s, acts[0]), acts[1..]))
  }

  ghost function Exec(s: State, acts: seq<Action>): State
    requires IsRun(s, acts)
    decreases acts
  {
    if acts == [] then s else Exec(Apply(s, acts[0]), acts[1..])
  }

  lemma {:induction false} ExecAppend(s: State, a: seq<Action>, b: seq<Action>)
    requires IsRun(s, a) && IsRun(Exec(s, a), b)
    ensures IsRun(s, a + b) && Exec(s, a + b) == Exec(Exec(s, a), b)
    decreases a
  {
    if a == [] {
      assert a + b == b;
    } else {
      assert (a + b)[1..] == a[1..] + b;
      ExecAppend(Apply(s, a[0]), a[1..], b);
    }
  }

  lemma {:induction false} ExecSplit(s: State, a: seq<Action>, k: nat)
    requires IsRun(s, a) && k <= |a|
    ensures IsRun(s, a[..k]) && IsRun(Exec(s, a[..k]), a[k..])
    ensures Exec(s, a) == Exec(Exec(s, a[..k]), a[k..])
    decreases a
  {
    if k == 0 {
      assert a[..0] == [] && a[0..] == a;
    } else {
      ExecSplit(Apply(s, a[0]), a[1..], k - 1);
      assert a[..k][1..] == a[1..][..k - 1];
      assert a[1..][k - 1..] == a[k..];
    }
  }

  ghost predicate Reachable(s: State) {
    exists acts :: IsRun(Init(), acts) && Exec(Init(), acts) == s
  }

  lemma ReachableAfter(s: State, acts: seq<Action>)
    requires Reachable(s) && IsRun(s, acts)
    ensures Reachable(Exec(s, acts))
  {
    var pre :| IsRun(Init(), pre) && Exec(Init(), pre) == s;
    ExecAppend(Init(), pre, acts);
  }

  lemma {:induction false} AllocsGrow(s: State, acts: seq<Action>)
    requires IsRun(s, acts)
    ensures s.allocs <= Exec(s, acts).allocs
    decreases acts
  {
    if acts != [] { AllocsGrow(Apply(s, acts[0]), acts[1..]); }
  }

  /** The id counter is a uint32: all ids handed out so far are non-zero and pairwise different
      exactly as long as fewer than 2^32 were handed out. */
  lemma IdsUniqueUntilWrap(n: nat)
    ensures (forall i, j :: 1 <= i < j <= n ==> IdOf(i) != IdOf(j)) && (forall i :: 1 <= i <= n ==> IdOf(i) != 0)
       <==> n < 0x1_0000_0000
  {
    if n >= WRAP { assert IdOf(WRAP) == 0; }
  }
}
