/** wsapi_handler.cpp and wsapi_worker.cpp as they are written, over the real queue and map. A
    method that leaves a critical section lets the other threads act before it enters the next
    one: `Interfere` is that gap. Every execution is a run of the command system. */
module WsApi {
  import opened Seqs
  import opened LockedQueue
  import opened LockedMap
  import opened Options
  import opened CommandSystem
  import opened CommandInvariant
  import opened CommandProperties
  import opened CommandReaders

  datatype GetReply = BadId | Done(resp: Ref) | Enqueued(pos: nat) | Neither

  const WORKER: nat := 0

  class Hub {
    const cmdq: Queue<Ref>
    const results: Map<nat, Ref>
    var cmdid: nat               // uint32, atomic
    var isRunning: bool          // WSApiWorker::isRunning
    var worker: WorkerPc
    var stopper: StopperPc
    var handlers: map<Tid, HandlerPc>
    var created: nat             // command objects made so far
    ghost var pushed: seq<Ref>
    ghost var urgent: set<Ref>
    ghost var started: seq<Ref>
    ghost var removed: seq<Ref>
    ghost var stored: seq<Ref>
    ghost var failed: set<Ref>
    ghost var fetched: seq<Ref>

    ghost predicate Valid()
      reads this, cmdq, results
    {
      && cmdq.Valid()
      && cmdid == IdOf(created)
      && Controlled(Abs())
      && cmdq.sleepers == if worker.Asleep? then {WORKER} else {}
    }

    ghost function Abs(): State
      reads this, cmdq, results
    {
      State(cmdq.iqueue, cmdq.isRunning, cmdq.isBlocking, results.entries, created, isRunning,
            worker, stopper, handlers, pushed, urgent, started, removed, stored, failed, fetched)
    }

    constructor ()
      ensures Valid() && fresh(cmdq) && fresh(results)
      ensures Abs() == Init()
    {
      cmdq := new Queue<Ref>();
      results := new Map<nat, Ref>();
      cmdid, isRunning, worker, stopper, handlers, created := 0, false, NoThread, NotStopping, map[], 0;
      pushed, urgent, started, removed, stored, failed, fetched := [], {}, [], [], [], {}, [];
    }

    /** The worker leaves the wait set when someone called notify_all. */
    method Notified()
      requires cmdq.sleepers == {}
      modifies `worker
      ensures worker == Notify(old(worker))
    {
      if worker.Asleep? { worker := WorkerPc.Notified; }
    }

    // ---- run(), stop() and the queue's flags ----

    method StartThread()
      requires Valid() && stopper.NotStopping?
      modifies this
      ensures Valid() && Abs() == Apply(old(Abs()), Control(Run))
    {
      if !isRunning {
        isRunning := true;
        worker := Entering;
      }
    }

    method ControlAct(c: ControlAction)
      requires Valid() && ControlEnabled(Abs(), c)
      modifies this, cmdq
      ensures Valid() && Abs() == Apply(old(Abs()), Control(c))
    {
      match c
      case Enable(on) => cmdq.Enable(on);
      case EnableWait => cmdq.EnableWait();
      case Run => StartThread();
      case StopClear =>
        if isRunning {
          isRunning := false;
          stopper := Clearing;
        }
      case StopDisableWait =>
        cmdq.DisableWait();
        Notified();
        stopper := Joining;
      case StopJoin => stopper := NotStopping;
    }

    // ---- critical sections of the handlers ----

    method NewCommand(t: Tid, urgent: bool)
      requires Valid() && t !in handlers
      modifies this
      ensures Valid() && Abs() == Apply(old(Abs()), Handler(t, Alloc(urgent)))
    {
      cmdid := (cmdid + 1) % WRAP;
      created := created + 1;
      handlers := handlers[t := Allocated(created, urgent)];
    }

    method PushWork(t: Tid)
      requires Valid() && t in handlers && handlers[t].Scheduling?
      modifies this, cmdq
      ensures Valid() && Abs() == PushStep(old(Abs()), t)
    {
      var pc := handlers[t];
      var accepts := cmdq.isRunning;
      if pc.urgent {
        cmdq.PushFront(pc.ref);
      } else {
        cmdq.Push(pc.ref);
      }
      handlers := handlers - {t};
      if accepts {
        Notified();
        pushed := pushed + [pc.ref];
        urgent := if pc.urgent then urgent + {pc.ref} else urgent;
      }
    }

    method StoreAnswer(t: Tid)
      requires Valid() && HandlerEnabled(Abs(), t, Answer)
      modifies this, results
      ensures Valid() && Abs() == Apply(old(Abs()), Handler(t, Answer))
    {
      var r := handlers[t].ref;
      results.Insert(IdOf(r), r);
      stored := stored + [r];
      handlers := handlers - {t};
    }

    method FetchResult(t: Tid, id: nat) returns (found: Option<Ref>)
      requires Valid() && HandlerEnabled(Abs(), t, HandlerAction.Fetch(id))
      modifies this, results
      ensures Valid() && Abs() == Apply(old(Abs()), Handler(t, HandlerAction.Fetch(id)))
      ensures found == if id in old(results.entries) then Some(old(results.entries)[id]) else None
    {
      found := results.Fetch(id);
      if found.Some? {
        fetched := fetched + [found.value];
      } else {
        handlers := handlers[t := Missed(id)];
        assert results.entries == old(results.entries);
      }
    }

    method ScanQueue(t: Tid, id: nat) returns (qorder: int)
      requires Valid() && HandlerEnabled(Abs(), t, Scan)
      modifies this
      ensures Valid() && Abs() == Apply(old(Abs()), Handler(t, Scan))
      ensures qorder == PosOf(old(cmdq.iqueue), id)
    {
      qorder := cmdq.FindQorder((r: Ref) => IdOf(r) == id);
      handlers := handlers - {t};
    }

    method HandlerAct(t: Tid, h: HandlerAction)
      requires Valid() && HandlerEnabled(Abs(), t, h)
      modifies this, cmdq, results
      ensures Valid() && Abs() == Apply(old(Abs()), Handler(t, h))
    {
      match h
      case Alloc(urgent) => NewCommand(t, urgent);
      case Classify(outcome) => Conclude(t, outcome);
      case Push => PushWork(t);
      case Answer => StoreAnswer(t);
      case Fetch(id) => var _ := FetchResult(t, id);
      case Scan => var _ := ScanQueue(t, handlers[t].id);
      case ListQueue => handlers := handlers[t := Listed(cmdq.iqueue)];
      case ListResults => handlers := handlers - {t};
    }

    method Conclude(t: Tid, outcome: Outcome)
      requires Valid() && HandlerEnabled(Abs(), t, Classify(outcome))
      modifies this
      ensures Valid() && Abs() == Apply(old(Abs()), Handler(t, Classify(outcome)))
    {
      var pc := handlers[t];
      match outcome
      case Scheduled => handlers := handlers[t := Scheduling(pc.ref, pc.urgent)];
      case Immediate => handlers := handlers[t := Answering(pc.ref)];
      case Throws => handlers := handlers - {t};
    }

    // ---- critical sections of the worker ----

    method TakeFront()
      requires Valid() && WorkerEnabled(Abs(), WFront)
      modifies this, cmdq
      ensures Valid() && Abs() == Apply(old(Abs()), Worker(WFront))
    {
      var r := cmdq.Front(WORKER);
      match r
      case MustWait => worker := Asleep;
      case NothingThere => worker := FoundNothing;
      case Item(v) =>
        worker := Holding(v);
        started := started + [v];
    }

    method StoreResult()
      requires Valid() && worker.Storing?
      modifies this, results
      ensures Valid() && Abs() == WorkerStep(old(Abs()), WInsert)
    {
      results.Insert(IdOf(worker.ref), worker.ref);
      stored := stored + [worker.ref];
      worker := Removing(worker.ref);
    }

    method RemoveWork()
      requires Valid() && worker.Removing?
      modifies this, cmdq
      ensures Valid() && Abs() == WorkerStep(old(Abs()), WRemove)
    {
      cmdq.Remove(worker.ref);
      removed := removed + [worker.ref];
      worker := Testing;
    }

    method ProcessWork(threw: bool)
      requires Valid() && worker.Holding?
      modifies this
      ensures Valid() && Abs() == WorkerStep(old(Abs()), WProcess(threw))
    {
      if threw {
        failed := failed + {worker.ref};
        worker := Removing(worker.ref);
      } else {
        worker := Storing(worker.ref);
      }
    }

    method WorkerAct(w: WorkerAction)
      requires Valid() && WorkerEnabled(Abs(), w)
      modifies this, cmdq, results
      ensures Valid() && Abs() == Apply(old(Abs()), Worker(w))
    {
      match w
      case WEnableWait =>
        cmdq.EnableWait();
        worker := Testing;
      case WTest => worker := if isRunning then AtFront else NoThread;
      case WFront => TakeFront();
      case WWake =>
        cmdq.Wake(WORKER);
        worker := WorkerPc.Notified;
      case WProcess(threw) => ProcessWork(threw);
      case WInsert => StoreResult();
      case WRemove => RemoveWork();
      case WIdle => worker := Testing;
    }

    // ---- one action, and a gap full of actions of others ----

    method Perform(a: Action)
      requires Valid() && Enabled(Abs(), a)
      modifies this, cmdq, results
      ensures Valid() && Abs() == Apply(old(Abs()), a)
    {
      match a
      case Control(c) => ControlAct(c);
      case Handler(t, h) => HandlerAct(t, h);
      case Worker(w) => WorkerAct(w);
    }

    /** Whether an action can happen depends on the program counters alone. */
    predicate CanHappen(a: Action)
      reads this, cmdq, results
      ensures CanHappen(a) <==> Enabled(Abs(), a)
    {
      Enabled(Init().(worker := worker, stopper := stopper, handlers := handlers), a)
    }

    /** Performs an action of a thread other than the one that stands still, when it is possible. */
    method TryPerform(a: Action, ghost s0: State, ghost run: seq<Action>) returns (ghost run': seq<Action>)
      requires Valid() && IsRun(s0, run) && Abs() == Exec(s0, run)
      modifies this, cmdq, results
      ensures Valid() && IsRun(s0, run') && Abs() == Exec(s0, run')
      ensures run' == if Enabled(old(Abs()), a) then run + [a] else run
      ensures !a.Worker? && !old(worker).NoThread? ==> worker == old(worker) || worker == Notify(old(worker))
    {
      run' := run;
      if CanHappen(a) {
        if !a.Worker? && !worker.NoThread? { OthersOnlyNotify(Abs(), a); }
        Perform(a);
        RunSnoc(s0, run, a);
        run' := run + [a];
      }
    }

    /** Other threads act: those of `acts` that are `allowed` and possible, in this order; all of
        them when they are a run. */
    method Interfere(acts: seq<Action>, allowed: Action -> bool) returns (ghost run: seq<Action>)
      requires Valid()
      modifies this, cmdq, results
      ensures Valid()
      ensures IsRun(old(Abs()), run) && Abs() == Exec(old(Abs()), run)
      ensures forall i :: 0 <= i < |run| ==> allowed(run[i])
      ensures IsRun(old(Abs()), acts) && (forall i :: 0 <= i < |acts| ==> allowed(acts[i])) ==> run == acts
      ensures (forall a: Action :: allowed(a) ==> !a.Worker?) && !old(worker).NoThread? ==>
        worker == old(worker) || worker == Notify(old(worker))
    {
      ghost var s0 := Abs();
      run := [];
      for i := 0 to |acts|
        invariant Valid()
        invariant IsRun(s0, run) && Abs() == Exec(s0, run)
        invariant forall i :: 0 <= i < |run| ==> allowed(run[i])
        invariant IsRun(s0, acts) && (forall i :: 0 <= i < |acts| ==> allowed(acts[i])) ==> run == acts[..i]
        invariant (forall a: Action :: allowed(a) ==> !a.Worker?) && !old(worker).NoThread? ==>
          worker == old(worker) || worker == Notify(old(worker))
      {
        if IsRun(s0, acts) { PrefixEnabled(s0, acts, i); }
        if allowed(acts[i]) {
          run := TryPerform(acts[i], s0, run);
        }
      }
      assert acts[..|acts|] == acts;
    }

    // ---- WSApiHandler ----

    /** `getCmd`: results first, then the queue. The requested number is cut to a uint32 id. */
    method GetCmd(t: Tid, requested: nat, others: seq<Action>)
      returns (reply: GetReply, ghost gap: seq<Action>, ghost id: nat)
      requires Valid() && t !in handlers
      modifies this, cmdq, results
      ensures Valid() && t !in handlers
      ensures id == requested % 0x1_0000_0000
      ensures reply.BadId? <==> id == 0
      ensures reply.Done? <==> id != 0 && id in old(Abs()).results
      ensures reply.BadId? ==> Abs() == old(Abs())
      ensures reply.Done? ==>
        && reply.resp == old(Abs()).results[id]
        && Abs() == Apply(old(Abs()), Handler(t, HandlerAction.Fetch(id)))
      ensures reply.Enqueued? || reply.Neither? ==>
        var s1 := Apply(old(Abs()), Handler(t, HandlerAction.Fetch(id)));
        && IsRun(s1, gap) && Others(gap, t) && (IsRun(s1, others) && Others(others, t) ==> gap == others)
        && var s2 := Exec(s1, gap);
        && Enabled(s2, Handler(t, Scan)) && Abs() == Apply(s2, Handler(t, Scan))
        && reply == if PosOf(s2.queue, id) == -1 then Neither else Enqueued(PosOf(s2.queue, id))
    {
      var cut := requested % WRAP;
      gap, id := [], cut;
      if cut == 0 { return BadId, gap, id; }
      var result := FetchResult(t, cut);
      if result.Some? { return GetReply.Done(result.value), gap, id; }
      ghost var s1 := Abs();
      gap := Interfere(others, (a: Action) => !(a.Handler? && a.t == t));
      PcKept(s1, gap, t);
      var qorder := ScanQueue(t, cut);
      reply := if qorder >= 0 then Enqueued(qorder) else Neither;
    }

    /** `listCmd`: the queue first, then the results. Nothing under way is left out. */
    method ListCmd(t: Tid, others: seq<Action>)
      returns (requests: set<nat>, responses: set<nat>, ghost gap: seq<Action>)
      requires Valid() && t !in handlers && Reachable(Abs())
      modifies this, cmdq, results
      ensures Valid() && t !in handlers
      ensures requests == set r | r in old(Abs()).queue :: IdOf(r)
      ensures responses == Abs().results.Keys
      ensures var s1 := Apply(old(Abs()), Handler(t, ListQueue));
        && IsRun(s1, gap) && Others(gap, t) && (IsRun(s1, others) && Others(others, t) ==> gap == others)
        && var s2 := Exec(s1, gap);
        && Enabled(s2, Handler(t, ListResults)) && Abs() == Apply(s2, Handler(t, ListResults))
      ensures created < WRAP ==>
        forall r :: Accepted(old(Abs()), r) && r !in Abs().failed && r !in Abs().fetched ==>
          IdOf(r) in requests || IdOf(r) in responses
    {
      ghost var s0 := Abs();
      var work := cmdq.iqueue;
      requests := {};
      for i := 0 to |work|
        invariant requests == set r | r in work[..i] :: IdOf(r)
      {
        assert work[..i + 1] == work[..i] + [work[i]];
        requests := requests + {IdOf(work[i])};
      }
      assert work[..|work|] == work;
      HandlerAct(t, ListQueue);
      ghost var s1 := Abs();
      gap := Interfere(others, (a: Action) => !(a.Handler? && a.t == t));
      ghost var s2 := Abs();
      PcKept(s1, gap, t);
      responses := results.entries.Keys;
      HandlerAct(t, ListResults);
      if created < WRAP {
        forall r | Accepted(s0, r) && r !in s2.failed && r !in s2.fetched
          ensures IdOf(r) in requests || IdOf(r) in responses
        {
          ListNeverMisses(s0, t, gap, r);
          assert s2.handlers[t] == s1.handlers[t];
        }
      }
    }

    /** Whatever the other threads do while handler `t` stands still. */
    method HandlerGap(t: Tid, others: seq<Action>, ghost s0: State, ghost run: seq<Action>)
      returns (ghost run': seq<Action>)
      requires Valid() && t in handlers
      requires IsRun(s0, run) && Abs() == Exec(s0, run)
      modifies this, cmdq, results
      ensures Valid() && IsRun(s0, run') && Abs() == Exec(s0, run')
      ensures Own(run', t) == Own(run, t)
      ensures t in handlers && handlers[t] == old(handlers)[t]
    {
      ghost var s := Abs();
      ghost var gap := Interfere(others, (a: Action) => !(a.Handler? && a.t == t));
      PcKept(s, gap, t);
      ExecAppend(s0, run, gap);
      OwnOthers(run, gap, t);
      run' := run + gap;
    }

    /** Whatever the other threads do, and then one action of handler `t`. */
    method HandlerTurn(t: Tid, h: HandlerAction, others: seq<Action>, ghost s0: State, ghost run: seq<Action>)
      returns (ghost run': seq<Action>)
      requires Valid() && HandlerEnabled(Abs(), t, h) && t in handlers
      requires IsRun(s0, run) && Abs() == Exec(s0, run)
      modifies this, cmdq, results
      ensures Valid() && IsRun(s0, run') && Abs() == Exec(s0, run')
      ensures Own(run', t) == Own(run, t) + [h]
      ensures run' != [] && IsRun(s0, run'[..|run'| - 1])
      ensures var m := Exec(s0, run'[..|run'| - 1]);
        && t in m.handlers && m.handlers[t] == old(handlers)[t] && HandlerEnabled(m, t, h)
        && Abs() == HandlerStep(m, t, h)
    {
      ghost var gone := HandlerGap(t, others, s0, run);
      HandlerAct(t, h);
      RunSnoc(s0, gone, Handler(t, h));
      run' := gone + [Handler(t, h)];
      assert run'[..|run'| - 1] == gone;
    }

    /** The id of a new command is taken; what follows may interleave. */
    method Begin(t: Tid, urgent: bool) returns (id: nat, ghost run: seq<Action>)
      requires Valid() && t !in handlers
      modifies this
      ensures Valid() && t in handlers && handlers[t] == Allocated(old(created) + 1, urgent)
      ensures id == IdOf(old(created) + 1)
      ensures IsRun(old(Abs()), run) && Abs() == Exec(old(Abs()), run)
      ensures Own(run, t) == [Alloc(urgent)]
    {
      ghost var s0 := Abs();
      NewCommand(t, urgent);
      id := cmdid;
      RunSnoc(s0, [], Handler(t, Alloc(urgent)));
      run := [Handler(t, Alloc(urgent))];
      assert [] + run == run;
      assert Own([], t) == [] && run[..0] == [];
    }

    /** The command's own process() and what it answers. */
    method Ask(t: Tid, outcome: Outcome, others: seq<Action>, ghost s0: State, ghost run: seq<Action>)
      returns (ghost run': seq<Action>)
      requires Valid() && t in handlers && handlers[t].Allocated?
      requires IsRun(s0, run) && Abs() == Exec(s0, run)
      modifies this, cmdq, results
      ensures Valid() && IsRun(s0, run') && Abs() == Exec(s0, run')
      ensures Own(run', t) == Own(run, t) + [Classify(outcome)]
      ensures var pc := old(handlers)[t];
        match outcome
        case Scheduled => t in handlers && handlers[t] == Scheduling(pc.ref, pc.urgent)
        case Immediate => t in handlers && handlers[t] == Answering(pc.ref)
        case Throws => t !in handlers
      ensures run' != [] && IsRun(s0, run'[..|run'| - 1])
      ensures var m := Exec(s0, run'[..|run'| - 1]); cmdq.iqueue == m.queue && results.entries == m.results
    {
      run' := HandlerTurn(t, Classify(outcome), others, s0, run);
    }

    /** The push of a scheduled command, wherever the other threads have left the queue by then. */
    method Enqueue(t: Tid, others: seq<Action>, ghost s0: State, ghost run: seq<Action>)
      returns (ghost run': seq<Action>)
      requires Valid() && t in handlers && handlers[t].Scheduling?
      requires IsRun(s0, run) && Abs() == Exec(s0, run)
      modifies this, cmdq, results
      ensures Valid() && t !in handlers && IsRun(s0, run') && Abs() == Exec(s0, run')
      ensures Own(run', t) == Own(run, t) + [HandlerAction.Push]
      ensures run' != [] && IsRun(s0, run'[..|run'| - 1])
      ensures var m, pc := Exec(s0, run'[..|run'| - 1]), old(handlers)[t];
        && results.entries == m.results
        && cmdq.iqueue ==
           (if !m.enabled then m.queue else if pc.urgent then [pc.ref] + m.queue else m.queue + [pc.ref])
    {
      run' := HandlerTurn(t, HandlerAction.Push, others, s0, run);
    }

    /** The answer of a command that is not scheduled. */
    method StoreAtOnce(t: Tid, others: seq<Action>, ghost s0: State, ghost run: seq<Action>)
      returns (ghost run': seq<Action>)
      requires Valid() && t in handlers && handlers[t].Answering?
      requires IsRun(s0, run) && Abs() == Exec(s0, run)
      modifies this, cmdq, results
      ensures Valid() && t !in handlers && IsRun(s0, run') && Abs() == Exec(s0, run')
      ensures Own(run', t) == Own(run, t) + [Answer]
      ensures run' != [] && IsRun(s0, run'[..|run'| - 1])
      ensures var m, r := Exec(s0, run'[..|run'| - 1]), old(handlers)[t].ref;
        cmdq.iqueue == m.queue && results.entries == m.results[IdOf(r) := r]
    {
      run' := HandlerTurn(t, Answer, others, s0, run);
    }

    /** `process` up to the answer of the command's own process(). */
    method Request(t: Tid, urgent: bool, outcome: Outcome, others: seq<Action>)
      returns (id: nat, ghost run: seq<Action>)
      requires Valid() && t !in handlers
      modifies this, cmdq, results
      ensures Valid() && id == IdOf(old(created) + 1)
      ensures IsRun(old(Abs()), run) && Abs() == Exec(old(Abs()), run)
      ensures Own(run, t) == [Alloc(urgent), Classify(outcome)]
      ensures match outcome
        case Scheduled => t in handlers && handlers[t] == Scheduling(old(created) + 1, urgent)
        case Immediate => t in handlers && handlers[t] == Answering(old(created) + 1)
        case Throws => t !in handlers
      ensures run != [] && IsRun(old(Abs()), run[..|run| - 1])
      ensures var m := Exec(old(Abs()), run[..|run| - 1]); cmdq.iqueue == m.queue && results.entries == m.results
    {
      ghost var s0 := Abs();
      id, run := Begin(t, urgent);
      run := Ask(t, outcome, others, s0, run);
    }

    /** `process` for a command with a work queue factory: a new id, the command's own process(),
        and then the queue, or the results for an immediate answer. The request or the table of
        commands may ask for the front of the queue; the other threads act in both gaps, and
        `m` is what they leave to the last critical section. */
    method Process(t: Tid, urgent: bool, alwaysUrgent: bool, outcome: Outcome, others1: seq<Action>, others2: seq<Action>)
      returns (id: nat, ghost run: seq<Action>)
      requires Valid() && t !in handlers
      modifies this, cmdq, results
      ensures Valid() && t !in handlers
      ensures id == (old(created) + 1) % 0x1_0000_0000
      ensures IsRun(old(Abs()), run) && Abs() == Exec(old(Abs()), run)
      ensures Own(run, t) == [Alloc(urgent || alwaysUrgent), Classify(outcome)]
        + (match outcome case Scheduled => [HandlerAction.Push] case Immediate => [Answer] case Throws => [])
      ensures run != [] && IsRun(old(Abs()), run[..|run| - 1])
      ensures var m := Exec(old(Abs()), run[..|run| - 1]); var r := old(created) + 1;
        match outcome
        case Scheduled =>
          && results.entries == m.results
          && cmdq.iqueue ==
             (if !m.enabled then m.queue else if urgent || alwaysUrgent then [r] + m.queue else m.queue + [r])
        case Immediate => cmdq.iqueue == m.queue && results.entries == m.results[id := r]
        case Throws => cmdq.iqueue == m.queue && results.entries == m.results
    {
      ghost var s0 := Abs();
      id, run := Request(t, urgent || alwaysUrgent, outcome, others1);
      match outcome
      case Scheduled => run := Enqueue(t, others2, s0, run);
      case Immediate => run := StoreAtOnce(t, others2, s0, run);
      case Throws =>
    }

    // ---- WSApiWorker ----

    /** Whatever the other threads do while the worker stands still, or sleeps. */
    method WorkerGap(others: seq<Action>, ghost s0: State, ghost run: seq<Action>) returns (ghost run': seq<Action>)
      requires Valid() && !worker.NoThread?
      requires IsRun(s0, run) && Abs() == Exec(s0, run)
      modifies this, cmdq, results
      ensures Valid() && IsRun(s0, run') && Abs() == Exec(s0, run')
      ensures worker == old(worker) || worker == Notify(old(worker))
      ensures WorkerOwn(run') == WorkerOwn(run)
    {
      ghost var gap := Interfere(others, (a: Action) => !a.Worker?);
      ExecAppend(s0, run, gap);
      WorkerOwnOthers(run, gap);
      run' := run + gap;
    }

    /** One critical section of the worker thread, after whatever the other threads do first. */
    method Turn(w: WorkerAction, others: seq<Action>, ghost s0: State, ghost run: seq<Action>)
      returns (ghost run': seq<Action>)
      requires Valid() && WorkerEnabled(Abs(), w) && !worker.Asleep?
      requires IsRun(s0, run) && Abs() == Exec(s0, run)
      modifies this, cmdq, results
      ensures Valid() && IsRun(s0, run') && Abs() == Exec(s0, run')
      ensures Leads(w, worker)
      ensures WorkerOwn(run') == WorkerOwn(run) + [w]
    {
      ghost var gone := WorkerGap(others, s0, run);
      WorkerLeads(Abs(), w);
      WorkerAct(w);
      RunSnoc(s0, gone, Worker(w));
      run' := gone + [Worker(w)];
      assert run'[..|run'| - 1] == gone;
    }

    /** Asleep on the condition variable until notified, or woken for no reason. */
    method Nap(others: seq<Action>, ghost s0: State, ghost run: seq<Action>) returns (ghost run': seq<Action>)
      requires Valid() && worker.Asleep?
      requires IsRun(s0, run) && Abs() == Exec(s0, run)
      modifies this, cmdq, results
      ensures Valid() && IsRun(s0, run') && Abs() == Exec(s0, run')
      ensures worker.Notified?
      ensures WorkerOwn(run') == WorkerOwn(run) || WorkerOwn(run') == WorkerOwn(run) + [WWake]
    {
      ghost var gone := WorkerGap(others, s0, run);
      run' := gone;
      if worker.Asleep? {
        WorkerAct(WWake);
        RunSnoc(s0, gone, Worker(WWake));
        run' := gone + [Worker(WWake)];
        assert run'[..|run'| - 1] == gone;
      }
    }

    /** The predicate of `front`, evaluated once. */
    method Look(others: seq<Action>, ghost s0: State, ghost run: seq<Action>) returns (ghost run': seq<Action>)
      requires Valid() && (worker.AtFront? || worker.Notified?)
      requires IsRun(s0, run) && Abs() == Exec(s0, run)
      modifies this, cmdq, results
      ensures Valid() && IsRun(s0, run') && Abs() == Exec(s0, run')
      ensures worker.Asleep? || worker.Holding? || worker.FoundNothing?
      ensures Tests(WorkerOwn(run')) == Tests(WorkerOwn(run))
    {
      run' := Turn(WFront, others, s0, run);
      TestsSnoc(WorkerOwn(run), WFront);
    }

    /** One nap, and another look. */
    method NapAndLook(others1: seq<Action>, others2: seq<Action>, ghost s0: State, ghost run: seq<Action>)
      returns (ghost run': seq<Action>)
      requires Valid() && worker.Asleep?
      requires IsRun(s0, run) && Abs() == Exec(s0, run)
      modifies this, cmdq, results
      ensures Valid() && IsRun(s0, run') && Abs() == Exec(s0, run')
      ensures worker.Asleep? || worker.Holding? || worker.FoundNothing?
      ensures Tests(WorkerOwn(run')) == Tests(WorkerOwn(run))
    {
      run' := Nap(others1, s0, run);
      TestsSnoc(WorkerOwn(run), WWake);
      run' := Look(others2, s0, run');
    }

    /** The wait loop of `front`, for at most `naps` naps. */
    method WaitForFront(naps: nat, others: (nat, nat) -> seq<Action>, ghost s0: State, ghost run: seq<Action>)
      returns (ghost run': seq<Action>)
      requires Valid() && worker.AtFront?
      requires IsRun(s0, run) && Abs() == Exec(s0, run)
      modifies this, cmdq, results
      ensures Valid() && IsRun(s0, run') && Abs() == Exec(s0, run')
      ensures worker.Asleep? || worker.Holding? || worker.FoundNothing?
      ensures Tests(WorkerOwn(run')) == Tests(WorkerOwn(run))
    {
      run' := Look(others(0, 0), s0, run);
      for nap := 0 to naps
        invariant Valid() && IsRun(s0, run') && Abs() == Exec(s0, run')
        invariant worker.Asleep? || worker.Holding? || worker.FoundNothing?
        invariant Tests(WorkerOwn(run')) == Tests(WorkerOwn(run))
      {
        if !worker.Asleep? { return; }
        run' := NapAndLook(others(nap, 1), others(nap, 2), s0, run');
      }
    }

    /** What the loop does with a command in hand: process, store unless it threw, remove. */
    method Work(threw: bool, others: nat -> seq<Action>, ghost s0: State, ghost run: seq<Action>)
      returns (ghost run': seq<Action>)
      requires Valid() && worker.Holding?
      requires IsRun(s0, run) && Abs() == Exec(s0, run)
      modifies this, cmdq, results
      ensures Valid() && IsRun(s0, run') && Abs() == Exec(s0, run')
      ensures worker.Testing?
      ensures WorkerOwn(run') == WorkerOwn(run) + Chores(threw)
    {
      run' := Turn(WProcess(threw), others(0), s0, run);
      if worker.Storing? {
        run' := Turn(WInsert, others(1), s0, run');
      }
      run' := Turn(WRemove, others(2), s0, run');
    }

    /** One pass through `while (isRunning)`: ends before the next test, asleep, or out of the thread. */
    method Pass(naps: nat, others: (nat, nat) -> seq<Action>, threw: bool, ghost s0: State, ghost run: seq<Action>)
      returns (ghost run': seq<Action>)
      requires Valid() && worker.Testing?
      requires IsRun(s0, run) && Abs() == Exec(s0, run)
      modifies this, cmdq, results
      ensures Valid() && IsRun(s0, run') && Abs() == Exec(s0, run')
      ensures worker.Testing? || worker.NoThread? || worker.Asleep?
      ensures Tests(WorkerOwn(run')) == Tests(WorkerOwn(run)) + 1
    {
      run' := Turn(WTest, others(0, 3), s0, run);
      TestsSnoc(WorkerOwn(run), WTest);
      if worker.NoThread? { return; }
      run' := WaitForFront(naps, others, s0, run');
      run' := AfterFront(others, threw, s0, run');
    }

    /** What follows `front`: the work, or nothing. */
    method AfterFront(others: (nat, nat) -> seq<Action>, threw: bool, ghost s0: State, ghost run: seq<Action>)
      returns (ghost run': seq<Action>)
      requires Valid() && (worker.Asleep? || worker.Holding? || worker.FoundNothing?)
      requires IsRun(s0, run) && Abs() == Exec(s0, run)
      modifies this, cmdq, results
      ensures Valid() && IsRun(s0, run') && Abs() == Exec(s0, run')
      ensures worker.Testing? || worker.Asleep?
      ensures Tests(WorkerOwn(run')) == Tests(WorkerOwn(run))
    {
      run' := run;
      if worker.Holding? {
        run' := Work(threw, (k: nat) => others(k, 4), s0, run);
        TestsChores(WorkerOwn(run), threw);
      } else if worker.FoundNothing? {
        run' := Turn(WIdle, others(0, 5), s0, run);
        TestsSnoc(WorkerOwn(run), WIdle);
      }
    }

    /** `runner`, watched for `passes` passes through its loop and as many naps in each:
        `others(pass)` is what the other threads do in the gaps, `throws(pass)` whether the work throws.
        It ends early only out of the thread or asleep. */
    method Runner(passes: nat, others: nat -> ((nat, nat) -> seq<Action>), throws: nat -> bool)
      returns (ghost run: seq<Action>)
      requires Valid() && worker.Entering?
      modifies this, cmdq, results
      ensures Valid() && IsRun(old(Abs()), run) && Abs() == Exec(old(Abs()), run)
      ensures worker.NoThread? || worker.Testing? || worker.Asleep?
      ensures worker.Testing? ==> Tests(WorkerOwn(run)) == passes
    {
      ghost var s0 := Abs();
      run := Turn(WEnableWait, others(0)(0, 6), s0, []);
      TestsSnoc([], WEnableWait);
      var pass := 0;
      while worker.Testing? && pass < passes
        invariant Valid() && IsRun(s0, run) && Abs() == Exec(s0, run)
        invariant worker.NoThread? || worker.Testing? || worker.Asleep?
        invariant Tests(WorkerOwn(run)) == pass <= passes
        decreases passes - pass
      {
        run := Pass(passes, others(pass), throws(pass), s0, run);
        pass := pass + 1;
      }
    }
  }

  /** The actions of handler `t` in a run. */
  function Own(run: seq<Action>, t: Tid): seq<HandlerAction> {
    if run == [] then []
    else
      var a := run[|run| - 1];
      Own(run[..|run| - 1], t) + if a.Handler? && a.t == t then [a.h] else []
  }

  lemma {:induction false} OwnOthers(run: seq<Action>, gap: seq<Action>, t: Tid)
    requires Others(gap, t)
    ensures Own(run + gap, t) == Own(run, t)
  {
    if gap == [] {
      assert run + gap == run;
    } else {
      var rest := gap[..|gap| - 1];
      assert (run + gap)[..|run + gap| - 1] == run + rest;
      OwnOthers(run, rest, t);
    }
  }

  /** The actions of the worker in a run. */
  function WorkerOwn(run: seq<Action>): seq<WorkerAction> {
    if run == [] then []
    else
      var a := run[|run| - 1];
      WorkerOwn(run[..|run| - 1]) + if a.Worker? then [a.w] else []
  }

  lemma {:induction false} WorkerOwnOthers(run: seq<Action>, gap: seq<Action>)
    requires forall i :: 0 <= i < |gap| ==> !gap[i].Worker?
    ensures WorkerOwn(run + gap) == WorkerOwn(run)
  {
    if gap == [] {
      assert run + gap == run;
    } else {
      var rest := gap[..|gap| - 1];
      assert (run + gap)[..|run + gap| - 1] == run + rest;
      WorkerOwnOthers(run, rest);
    }
  }

  /** How often the worker tests isRunning. */
  function Tests(ws: seq<WorkerAction>): nat { Count(ws, WTest) }

  lemma TestsSnoc(ws: seq<WorkerAction>, w: WorkerAction)
    ensures Tests(ws + [w]) == Tests(ws) + if w.WTest? then 1 else 0
  {
    assert (ws + [w])[..|ws|] == ws;
  }

  /** What the worker does with a command in hand. */
  function Chores(threw: bool): seq<WorkerAction> {
    if threw then [WProcess(true), WRemove] else [WProcess(false), WInsert, WRemove]
  }

  lemma TestsChores(ws: seq<WorkerAction>, threw: bool)
    ensures Tests(ws + Chores(threw)) == Tests(ws)
  {
    var p := ws + [WProcess(threw)];
    TestsSnoc(ws, WProcess(threw));
    if threw {
      TestsSnoc(p, WRemove);
      assert ws + Chores(threw) == p + [WRemove];
    } else {
      TestsSnoc(p, WInsert);
      TestsSnoc(p + [WInsert], WRemove);
      assert ws + Chores(threw) == p + [WInsert] + [WRemove];
    }
  }

  /** Where a worker action leaves its thread. */
  predicate Leads(w: WorkerAction, pc: WorkerPc) {
    match w
    case WEnableWait => pc.Testing?
    case WTest => pc.AtFront? || pc.NoThread?
    case WFront => pc.Holding? || pc.Asleep? || pc.FoundNothing?
    case WWake => pc.Notified?
    case WProcess(threw) => if threw then pc.Removing? else pc.Storing?
    case WInsert => pc.Removing?
    case WRemove => pc.Testing?
    case WIdle => pc.Testing?
  }

  lemma WorkerLeads(s: State, w: WorkerAction)
    requires WorkerEnabled(s, w)
    ensures Leads(w, WorkerStep(s, w).worker)
  {
    match w
    case WEnableWait =>
    case WTest =>
    case WFront =>
    case WWake =>
    case WProcess(_) =>
    case WInsert =>
    case WRemove =>
    case WIdle =>
  }

  lemma OthersOnlyNotify(s: State, a: Action)
    requires Controlled(s) && Enabled(s, a) && !a.Worker? && !s.worker.NoThread?
    ensures Apply(s, a).worker == s.worker || Apply(s, a).worker == Notify(s.worker)
  {
    match a
    case Control(c) =>
    case Handler(t, h) =>
    case Worker(w) =>
  }

  lemma PrefixEnabled(s: State, acts: seq<Action>, i: nat)
    requires IsRun(s, acts) && i < |acts|
    ensures IsRun(s, acts[..i]) && Enabled(Exec(s, acts[..i]), acts[i])
    ensures acts[..i] + [acts[i]] == acts[..i + 1]
  {
    ExecSplit(s, acts, i);
    assert acts[i..][0] == acts[i];
  }

  lemma RunSnoc(s: State, acts: seq<Action>, a: Action)
    requires IsRun(s, acts) && Enabled(Exec(s, acts), a)
    ensures IsRun(s, acts + [a]) && Exec(s, acts + [a]) == Apply(Exec(s, acts), a)
  {
    assert [a][1..] == [];
    ExecAppend(s, acts, [a]);
  }
}
