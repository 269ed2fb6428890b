/** The invariant of the command system, and that every action keeps it. */
module CommandInvariant {
  import opened Seqs
  import opened CommandSystem

  /** The command the worker has in hand: taken from `front`, not removed yet. */
  function Hand(w: WorkerPc): seq<Ref> {
    if w.Holding? || w.Storing? || w.Removing? then [w.ref] else []
  }

  predicate Carries(h: HandlerPc) { h.Allocated? || h.Scheduling? || h.Answering? }

  /** A command still with its handler is known to nobody else. */
  ghost predicate Private(hs: map<Tid, HandlerPc>, pushed: seq<Ref>, stored: seq<Ref>, allocs: nat) {
    && (forall t :: t in hs && Carries(hs[t]) ==>
        1 <= hs[t].ref <= allocs && hs[t].ref !in pushed && hs[t].ref !in stored)
    && (forall t, u :: t in hs && u in hs && t != u ==>
        Carries(hs[t]) && Carries(hs[u]) ==> hs[t].ref != hs[u].ref)
    && (forall r :: r in pushed ==> 1 <= r <= allocs)
    && (forall r :: r in stored ==> 1 <= r <= allocs)
  }

  /** The queue holds what was pushed and not removed, each once; the worker takes one at a time. */
  ghost predicate Queued(queue: seq<Ref>, pushed: seq<Ref>, started: seq<Ref>, removed: seq<Ref>, hand: seq<Ref>) {
    && Distinct(pushed) && Distinct(queue) && Distinct(started)
    && (forall r :: r in queue <==> r in pushed && r !in removed)
    && (forall r :: r in started ==> r in pushed)
    && started == removed + hand
  }

  /** A stored result waits in the map until it is fetched, once. */
  ghost predicate Delivered(results: map<nat, Ref>, stored: seq<Ref>, fetched: seq<Ref>) {
    && Distinct(stored) && Distinct(fetched)
    && (forall k :: k in results ==> results[k] == k && k in stored && k !in fetched)
    && (forall r :: r in stored ==> r in results || r in fetched)
    && (forall r :: r in fetched ==> r in stored)
  }

  /** How far each pushed command has come. */
  ghost predicate Staged(w: WorkerPc, pushed: seq<Ref>, started: seq<Ref>, removed: seq<Ref>,
                         stored: seq<Ref>, failed: set<Ref>) {
    && (forall r :: r in removed ==> (r in stored <==> r !in failed))
    && (w.Removing? ==> (w.ref in stored <==> w.ref !in failed))
    && (w.Holding? || w.Storing? ==> w.ref !in stored && w.ref !in failed)
    && (forall r :: r in pushed && r !in started ==> r !in stored)
    && (forall r :: r in failed ==> r in started)
  }

  /** Flags and program counters of worker and stopper. */
  ghost predicate Controlled(s: State) {
    && (s.worker.Asleep? ==> s.blocking && s.queue == [])
    && (s.running ==> s.stopper.NotStopping? && !s.worker.NoThread?)
    && (s.stopper.NotStopping? && !s.running ==> s.worker.NoThread?)
  }

  /** The pushed commands of one class of urgency that the worker has not taken yet, in push order. */
  function Pending(pushed: seq<Ref>, started: seq<Ref>, urgent: set<Ref>, u: bool): seq<Ref> {
    if pushed == [] then []
    else
      var r := pushed[|pushed| - 1];
      Pending(pushed[..|pushed| - 1], started, urgent, u)
      + if r !in started && (r in urgent <==> u) then [r] else []
  }

  function OfClass(s: seq<Ref>, urgent: set<Ref>, u: bool): seq<Ref> {
    Pending(s, [], urgent, u)
  }

  /** The queue without the command in hand. */
  function Waiting(queue: seq<Ref>, hand: seq<Ref>): seq<Ref> {
    if hand == [] then queue else Without(queue, hand[0])
  }

  /** A stack of urgent commands on top of a FIFO of normal ones, but for the command in hand. */
  ghost predicate Shaped(queue: seq<Ref>, pushed: seq<Ref>, started: seq<Ref>, urgent: set<Ref>, hand: seq<Ref>) {
    && (forall r :: r in urgent ==> r in pushed)
    && Waiting(queue, hand)
       == Reversed(Pending(pushed, started, urgent, true)) + Pending(pushed, started, urgent, false)
    && OfClass(pushed, urgent, false) == OfClass(started, urgent, false) + Pending(pushed, started, urgent, false)
  }

  /** The part of the invariant that does not depend on ids. */
  ghost predicate Good(s: State) {
    && Private(s.handlers, s.pushed, s.stored, s.allocs)
    && Queued(s.queue, s.pushed, s.started, s.removed, Hand(s.worker))
    && Staged(s.worker, s.pushed, s.started, s.removed, s.stored, s.failed)
    && Controlled(s)
    && Shaped(s.queue, s.pushed, s.started, s.urgent, Hand(s.worker))
  }

  /** All of it: holds while the ids have not wrapped. */
  ghost predicate Sound(s: State) {
    Good(s) && Delivered(s.results, s.stored, s.fetched)
  }

  // ---- the shape of the queue ----

  lemma {:induction false} PendingMembers(pushed: seq<Ref>, started: seq<Ref>, urgent: set<Ref>, u: bool)
    ensures forall r :: r in Pending(pushed, started, urgent, u)
              <==> r in pushed && r !in started && (r in urgent <==> u)
  {
    if pushed != [] {
      PendingMembers(pushed[..|pushed| - 1], started, urgent, u);
      assert pushed == pushed[..|pushed| - 1] + [pushed[|pushed| - 1]];
    }
  }

  /** Starting a command takes it off the pending list. */
  lemma {:induction false} PendingStart(pushed: seq<Ref>, started: seq<Ref>, urgent: set<Ref>, u: bool, r: Ref)
    ensures Pending(pushed, started + [r], urgent, u) == Without(Pending(pushed, started, urgent, u), r)
  {
    if pushed != [] {
      var c, x := pushed[..|pushed| - 1], pushed[|pushed| - 1];
      PendingStart(c, started, urgent, u, r);
      var p := Pending(c, started, urgent, u);
      var d := if x !in started && (x in urgent <==> u) then [x] else [];
      WithoutAppend(p, d, r);
      assert Without([x], r) == if x == r then [] else [x];
    }
  }

  /** A command that is not in the list does not change class of the others. */
  lemma {:induction false} PendingFrame(pushed: seq<Ref>, started: seq<Ref>, urgent: set<Ref>, u: bool, r: Ref)
    requires r !in pushed
    ensures Pending(pushed, started, urgent + {r}, u) == Pending(pushed, started, urgent, u)
  {
    if pushed != [] {
      PendingFrame(pushed[..|pushed| - 1], started, urgent, u, r);
    }
  }

  lemma PendingPush(pushed: seq<Ref>, started: seq<Ref>, urgent: set<Ref>, u: bool, r: Ref)
    ensures Pending(pushed + [r], started, urgent, u)
         == Pending(pushed, started, urgent, u) + if r !in started && (r in urgent <==> u) then [r] else []
  {
    assert (pushed + [r])[..|pushed|] == pushed;
  }

  lemma ReversedAppend(a: seq<Ref>, r: Ref)
    ensures Reversed(a + [r]) == [r] + Reversed(a)
  {
    assert (a + [r])[..|a|] == a;
  }

  lemma {:induction false} PendingDistinct(pushed: seq<Ref>, started: seq<Ref>, urgent: set<Ref>, u: bool)
    requires Distinct(pushed)
    ensures Distinct(Pending(pushed, started, urgent, u))
  {
    if pushed != [] {
      var c := pushed[..|pushed| - 1];
      PendingDistinct(c, started, urgent, u);
      PendingMembers(c, started, urgent, u);
    }
  }

  lemma WaitingPush(queue: seq<Ref>, hand: seq<Ref>, r: Ref)
    requires r !in hand
    ensures Waiting([r] + queue, hand) == [r] + Waiting(queue, hand)
    ensures Waiting(queue + [r], hand) == Waiting(queue, hand) + [r]
  {
    if hand != [] {
      WithoutAppend([r], queue, hand[0]);
      WithoutAppend(queue, [r], hand[0]);
      WithoutAbsent([r], hand[0]);
    }
  }

  lemma PendingPushed(pushed: seq<Ref>, started: seq<Ref>, urgent: set<Ref>, u: bool, r: Ref, isUrgent: bool)
    requires r !in pushed && r !in started && r !in urgent
    ensures Pending(pushed + [r], started, if isUrgent then urgent + {r} else urgent, u)
         == if isUrgent == u then Pending(pushed, started, urgent, u) + [r] else Pending(pushed, started, urgent, u)
  {
    PendingFrame(pushed, started, urgent, u, r);
    PendingPush(pushed, started, if isUrgent then urgent + {r} else urgent, u, r);
  }

  lemma WaitingPushed(queue: seq<Ref>, hand: seq<Ref>, up: seq<Ref>, no: seq<Ref>, r: Ref, isUrgent: bool)
    requires Waiting(queue, hand) == Reversed(up) + no && r !in hand
    ensures Waiting(if isUrgent then [r] + queue else queue + [r], hand)
         == Reversed(if isUrgent then up + [r] else up) + if isUrgent then no else no + [r]
  {
    WaitingPush(queue, hand, r);
    ReversedAppend(up, r);
    assert [r] + (Reversed(up) + no) == [r] + Reversed(up) + no;
    assert (Reversed(up) + no) + [r] == Reversed(up) + (no + [r]);
  }

  lemma OfClassPushed(pushed: seq<Ref>, started: seq<Ref>, urgent: set<Ref>, no: seq<Ref>, r: Ref, isUrgent: bool)
    requires OfClass(pushed, urgent, false) == OfClass(started, urgent, false) + no
    requires r !in pushed && r !in started && r !in urgent
    ensures var urgent' := if isUrgent then urgent + {r} else urgent;
      OfClass(pushed + [r], urgent', false)
      == OfClass(started, urgent', false) + if isUrgent then no else no + [r]
  {
    PendingPushed(pushed, [], urgent, false, r, isUrgent);
    PendingFrame(started, [], urgent, false, r);
  }

  lemma ShapedPush(queue: seq<Ref>, pushed: seq<Ref>, started: seq<Ref>, urgent: set<Ref>, hand: seq<Ref>,
                   r: Ref, isUrgent: bool)
    requires Shaped(queue, pushed, started, urgent, hand)
    requires r !in pushed && r !in started && r !in hand
    ensures Shaped(if isUrgent then [r] + queue else queue + [r], pushed + [r], started,
                   if isUrgent then urgent + {r} else urgent, hand)
  {
    var up, no := Pending(pushed, started, urgent, true), Pending(pushed, started, urgent, false);
    PendingPushed(pushed, started, urgent, true, r, isUrgent);
    PendingPushed(pushed, started, urgent, false, r, isUrgent);
    WaitingPushed(queue, hand, up, no, r, isUrgent);
    OfClassPushed(pushed, started, urgent, no, r, isUrgent);
  }

  lemma ShapedStart(queue: seq<Ref>, pushed: seq<Ref>, started: seq<Ref>, urgent: set<Ref>)
    requires Shaped(queue, pushed, started, urgent, []) && queue != [] && Distinct(pushed)
    ensures Shaped(queue, pushed, started + [queue[0]], urgent, [queue[0]])
  {
    var r := queue[0];
    var up, no := Pending(pushed, started, urgent, true), Pending(pushed, started, urgent, false);
    PendingStart(pushed, started, urgent, true, r);
    PendingStart(pushed, started, urgent, false, r);
    WithoutReversed(up, r);
    WithoutAppend(Reversed(up), no, r);
    NormalStart(queue, pushed, started, urgent);
  }

  lemma NormalStart(queue: seq<Ref>, pushed: seq<Ref>, started: seq<Ref>, urgent: set<Ref>)
    requires Shaped(queue, pushed, started, urgent, []) && queue != [] && Distinct(pushed)
    ensures var no := Pending(pushed, started, urgent, false);
      OfClass(started, urgent, false) + no == OfClass(started + [queue[0]], urgent, false) + Without(no, queue[0])
  {
    var r, no, done := queue[0], Pending(pushed, started, urgent, false), OfClass(started, urgent, false);
    HeadPending(queue, pushed, started, urgent);
    PendingDistinct(pushed, started, urgent, false);
    OfClassStarted(started, urgent, r);
    MoveHead(done, no, r, r in urgent);
  }

  lemma OfClassStarted(started: seq<Ref>, urgent: set<Ref>, r: Ref)
    ensures OfClass(started + [r], urgent, false)
         == if r in urgent then OfClass(started, urgent, false) else OfClass(started, urgent, false) + [r]
  {
    PendingPush(started, [], urgent, false, r);
  }

  lemma MoveHead(done: seq<Ref>, no: seq<Ref>, r: Ref, absent: bool)
    requires Distinct(no)
    requires if absent then r !in no else no != [] && no[0] == r
    ensures done + no == (if absent then done else done + [r]) + Without(no, r)
  {
    if absent {
      WithoutAbsent(no, r);
    } else {
      WithoutAt(no, 0);
    }
  }

  /** An urgent head is not among the normal ones; a normal head means no urgent one is waiting. */
  lemma HeadPending(queue: seq<Ref>, pushed: seq<Ref>, started: seq<Ref>, urgent: set<Ref>)
    requires Shaped(queue, pushed, started, urgent, []) && queue != []
    ensures queue[0] in urgent ==> queue[0] !in Pending(pushed, started, urgent, false)
    ensures queue[0] !in urgent ==>
      && Pending(pushed, started, urgent, false) != [] && Pending(pushed, started, urgent, false)[0] == queue[0]
  {
    var up := Pending(pushed, started, urgent, true);
    PendingMembers(pushed, started, urgent, true);
    PendingMembers(pushed, started, urgent, false);
    ReversedMembers(up);
    if Reversed(up) != [] {
      assert queue[0] == Reversed(up)[0];
      assert Reversed(up)[0] in Reversed(up);
    }
  }

  // ---- every action keeps the invariant ----

  lemma InitGood()
    ensures Good(Init()) && Sound(Init())
  {
  }

  lemma KeptByControl(s: State, c: ControlAction)
    requires Good(s) && ControlEnabled(s, c)
    ensures Good(ControlStep(s, c))
  {
    assert Hand(ControlStep(s, c).worker) == Hand(s.worker);
  }

  lemma PrivateHandOver(hs: map<Tid, HandlerPc>, pushed: seq<Ref>, stored: seq<Ref>, allocs: nat, t: Tid)
    requires Private(hs, pushed, stored, allocs) && t in hs && Carries(hs[t])
    ensures Private(hs - {t}, pushed + [hs[t].ref], stored, allocs)
    ensures Private(hs - {t}, pushed, stored + [hs[t].ref], allocs)
  {
  }

  lemma PrivateStep(hs: map<Tid, HandlerPc>, pushed: seq<Ref>, stored: seq<Ref>, allocs: nat, t: Tid, pc: HandlerPc)
    requires Private(hs, pushed, stored, allocs)
    requires Carries(pc) ==> t in hs && Carries(hs[t]) && pc.ref == hs[t].ref
    ensures Private(hs - {t}, pushed, stored, allocs)
    ensures Private(hs[t := pc], pushed, stored, allocs)
  {
  }

  lemma PrivateAlloc(hs: map<Tid, HandlerPc>, pushed: seq<Ref>, stored: seq<Ref>, allocs: nat, t: Tid, urgent: bool)
    requires Private(hs, pushed, stored, allocs)
    ensures Private(hs[t := Allocated(allocs + 1, urgent)], pushed, stored, allocs + 1)
  {
  }

  predicate TouchesOnlyOwnPc(s: State, h: HandlerAction) {
    h.Alloc? || h.Classify? || h.Scan? || h.ListQueue? || h.ListResults? || (h.Fetch? && h.id !in s.results)
  }

  lemma PrivateAlone(s: State, t: Tid, h: HandlerAction)
    requires Private(s.handlers, s.pushed, s.stored, s.allocs)
    requires HandlerEnabled(s, t, h) && TouchesOnlyOwnPc(s, h)
    ensures Private(HandlerStep(s, t, h).handlers, s.pushed, s.stored, HandlerStep(s, t, h).allocs)
  {
    var hs := s.handlers;
    match h
    case Alloc(urgent) => PrivateAlloc(hs, s.pushed, s.stored, s.allocs, t, urgent);
    case Classify(outcome) =>
      PrivateStep(hs, s.pushed, s.stored, s.allocs, t,
                  if outcome.Scheduled? then Scheduling(hs[t].ref, hs[t].urgent) else Answering(hs[t].ref));
    case Fetch(id) => PrivateStep(hs, s.pushed, s.stored, s.allocs, t, Missed(id));
    case ListQueue => PrivateStep(hs, s.pushed, s.stored, s.allocs, t, Listed(s.queue));
    case Scan => PrivateStep(hs, s.pushed, s.stored, s.allocs, t, Missed(0));
    case ListResults => PrivateStep(hs, s.pushed, s.stored, s.allocs, t, Missed(0));
  }

  lemma StepAlone(s: State, t: Tid, h: HandlerAction)
    requires HandlerEnabled(s, t, h) && TouchesOnlyOwnPc(s, h)
    ensures var s' := HandlerStep(s, t, h); s' == s.(handlers := s'.handlers, allocs := s'.allocs)
  {
  }

  lemma GoodWithHandlers(s: State, hs: map<Tid, HandlerPc>, allocs: nat)
    requires Good(s) && Private(hs, s.pushed, s.stored, allocs)
    ensures Good(s.(handlers := hs, allocs := allocs))
  {
  }

  lemma KeptByFetch(s: State, t: Tid, id: nat)
    requires Good(s) && HandlerEnabled(s, t, Fetch(id)) && id in s.results
    ensures Good(HandlerStep(s, t, Fetch(id)))
  {
  }

  lemma QueuedPush(queue: seq<Ref>, pushed: seq<Ref>, started: seq<Ref>, removed: seq<Ref>, hand: seq<Ref>, r: Ref)
    requires Queued(queue, pushed, started, removed, hand) && r !in pushed
    ensures r !in started && r !in removed && r !in hand
    ensures Queued([r] + queue, pushed + [r], started, removed, hand)
    ensures Queued(queue + [r], pushed + [r], started, removed, hand)
  {
    assert forall x :: x in removed ==> x in started;
    DistinctAppend(pushed, r);
    DistinctAppend(queue, r);
  }

  lemma KeptByPush(s: State, t: Tid)
    requires Good(s) && HandlerEnabled(s, t, Push)
    ensures Good(HandlerStep(s, t, Push))
  {
    var pc := s.handlers[t];
    if !s.enabled {
      PrivateStep(s.handlers, s.pushed, s.stored, s.allocs, t, Missed(0));
    } else {
      QueuedPush(s.queue, s.pushed, s.started, s.removed, Hand(s.worker), pc.ref);
      ShapedPush(s.queue, s.pushed, s.started, s.urgent, Hand(s.worker), pc.ref, pc.urgent);
      PrivateHandOver(s.handlers, s.pushed, s.stored, s.allocs, t);
      assert Hand(Notify(s.worker)) == Hand(s.worker);
    }
  }

  lemma KeptByAnswer(s: State, t: Tid)
    requires Good(s) && HandlerEnabled(s, t, Answer)
    ensures Good(HandlerStep(s, t, Answer))
  {
    var r := s.handlers[t].ref;
    QueuedPush(s.queue, s.pushed, s.started, s.removed, Hand(s.worker), r);
    PrivateHandOver(s.handlers, s.pushed, s.stored, s.allocs, t);
  }

  lemma KeptByHandler(s: State, t: Tid, h: HandlerAction)
    requires Good(s) && HandlerEnabled(s, t, h)
    ensures Good(HandlerStep(s, t, h))
  {
    if h.Push? {
      KeptByPush(s, t);
    } else if h.Answer? {
      KeptByAnswer(s, t);
    } else if h.Fetch? && h.id in s.results {
      KeptByFetch(s, t, h.id);
    } else {
      PrivateAlone(s, t, h);
      StepAlone(s, t, h);
      GoodWithHandlers(s, HandlerStep(s, t, h).handlers, HandlerStep(s, t, h).allocs);
    }
  }

  lemma HandQueued(s: State)
    requires Queued(s.queue, s.pushed, s.started, s.removed, Hand(s.worker)) && Hand(s.worker) != []
    ensures s.worker.ref in s.started && s.worker.ref in s.pushed
    ensures s.worker.ref in s.queue && s.worker.ref !in s.removed
  {
    assert s.started[|s.removed|] == s.worker.ref;
    forall i | 0 <= i < |s.removed| ensures s.removed[i] != s.worker.ref {
      assert s.started[i] == s.removed[i];
    }
  }

  lemma QueuedRemove(queue: seq<Ref>, pushed: seq<Ref>, started: seq<Ref>, removed: seq<Ref>, r: Ref)
    requires Queued(queue, pushed, started, removed, [r])
    ensures Queued(Without(queue, r), pushed, started, removed + [r], [])
  {
    WithoutMembers(queue, r);
    WithoutDistinct(queue, r);
  }

  lemma KeptByStart(s: State)
    requires Good(s) && WorkerEnabled(s, WFront) && s.queue != []
    ensures Good(WorkerStep(s, WFront))
  {
    var r := s.queue[0];
    assert r in s.queue && s.started == s.removed;
    DistinctAppend(s.started, r);
    ShapedStart(s.queue, s.pushed, s.started, s.urgent);
  }

  lemma PrivateInsert(hs: map<Tid, HandlerPc>, pushed: seq<Ref>, stored: seq<Ref>, allocs: nat, r: Ref)
    requires Private(hs, pushed, stored, allocs) && r in pushed
    ensures Private(hs, pushed, stored + [r], allocs)
  {
  }

  lemma StagedInsert(pushed: seq<Ref>, started: seq<Ref>, removed: seq<Ref>, stored: seq<Ref>, failed: set<Ref>, r: Ref)
    requires Staged(Storing(r), pushed, started, removed, stored, failed) && r in started && r !in removed
    ensures Staged(Removing(r), pushed, started, removed, stored + [r], failed)
  {
  }

  lemma KeptByInsert(s: State)
    requires Good(s) && WorkerEnabled(s, WInsert)
    ensures Good(WorkerStep(s, WInsert))
  {
    var r := s.worker.ref;
    HandQueued(s);
    PrivateInsert(s.handlers, s.pushed, s.stored, s.allocs, r);
    StagedInsert(s.pushed, s.started, s.removed, s.stored, s.failed, r);
  }

  lemma KeptByRemove(s: State)
    requires Good(s) && WorkerEnabled(s, WRemove)
    ensures Good(WorkerStep(s, WRemove))
  {
    QueuedRemove(s.queue, s.pushed, s.started, s.removed, s.worker.ref);
  }

  lemma KeptByProcess(s: State, threw: bool)
    requires Good(s) && WorkerEnabled(s, WProcess(threw))
    ensures Good(WorkerStep(s, WProcess(threw)))
  {
    HandQueued(s);
  }

  lemma KeptByWorker(s: State, w: WorkerAction)
    requires Good(s) && WorkerEnabled(s, w)
    ensures Good(WorkerStep(s, w))
  {
    if w.WFront? && s.queue != [] {
      KeptByStart(s);
    } else if w.WInsert? {
      KeptByInsert(s);
    } else if w.WRemove? {
      KeptByRemove(s);
    } else if w.WProcess? {
      KeptByProcess(s, w.threw);
    }
  }

  lemma KeepsGood(s: State, a: Action)
    requires Good(s) && Enabled(s, a)
    ensures Good(Apply(s, a))
  {
    match a
    case Control(c) => KeptByControl(s, c);
    case Handler(t, h) => KeptByHandler(s, t, h);
    case Worker(w) => KeptByWorker(s, w);
  }

  /** The invariant holds in every state of every interleaving. */
  lemma {:induction false} RunGood(s: State, acts: seq<Action>)
    requires Good(s) && IsRun(s, acts)
    ensures Good(Exec(s, acts))
    decreases acts
  {
    if acts != [] {
      KeepsGood(s, acts[0]);
      RunGood(Apply(s, acts[0]), acts[1..]);
    }
  }

  lemma ReachableGood(s: State)
    requires Reachable(s)
    ensures Good(s)
  {
    var acts :| IsRun(Init(), acts) && Exec(Init(), acts) == s;
    InitGood();
    RunGood(Init(), acts);
  }

  // ---- the results map, while ids are unique ----

  lemma DeliveredStore(results: map<nat, Ref>, stored: seq<Ref>, fetched: seq<Ref>, r: Ref)
    requires Delivered(results, stored, fetched) && r !in stored && 1 <= r < WRAP
    ensures Delivered(results[IdOf(r) := r], stored + [r], fetched)
  {
    DistinctAppend(stored, r);
    assert IdOf(r) == r && r !in fetched;
  }

  lemma DeliveredFetch(results: map<nat, Ref>, stored: seq<Ref>, fetched: seq<Ref>, id: nat)
    requires Delivered(results, stored, fetched) && id in results
    ensures Delivered(results - {id}, stored, fetched + [results[id]])
  {
    DistinctAppend(fetched, id);
  }

  lemma SameResults(s: State, a: Action)
    requires Enabled(s, a)
    requires !(a.Handler? && (a.h.Answer? || (a.h.Fetch? && a.h.id in s.results))) && a != Worker(WInsert)
    ensures var s' := Apply(s, a); s'.results == s.results && s'.stored == s.stored && s'.fetched == s.fetched
  {
    match a
    case Control(c) =>
    case Handler(t, h) => SameResultsHandler(s, t, h);
    case Worker(w) => SameResultsWorker(s, w);
  }

  lemma SameResultsWorker(s: State, w: WorkerAction)
    requires WorkerEnabled(s, w) && w != WInsert
    ensures var s' := WorkerStep(s, w); s'.results == s.results && s'.stored == s.stored && s'.fetched == s.fetched
  {
  }

  lemma SameResultsHandler(s: State, t: Tid, h: HandlerAction)
    requires HandlerEnabled(s, t, h) && !h.Answer? && !(h.Fetch? && h.id in s.results)
    ensures var s' := HandlerStep(s, t, h); s'.results == s.results && s'.stored == s.stored && s'.fetched == s.fetched
  {
    match h
    case Alloc(_) =>
    case Classify(_) =>
    case Push =>
    case Fetch(_) =>
    case Scan =>
    case ListQueue =>
    case ListResults =>
  }

  lemma KeepsDelivered(s: State, a: Action)
    requires Sound(s) && Enabled(s, a) && s.allocs < WRAP
    ensures var s' := Apply(s, a); Delivered(s'.results, s'.stored, s'.fetched)
  {
    if a.Handler? && a.h.Answer? {
      DeliveredStore(s.results, s.stored, s.fetched, s.handlers[a.t].ref);
    } else if a.Handler? && a.h.Fetch? && a.h.id in s.results {
      DeliveredFetch(s.results, s.stored, s.fetched, a.h.id);
    } else if a == Worker(WInsert) {
      HandQueued(s);
      DeliveredStore(s.results, s.stored, s.fetched, s.worker.ref);
    } else {
      SameResults(s, a);
    }
  }

  lemma KeepsSound(s: State, a: Action)
    requires Sound(s) && Enabled(s, a) && s.allocs < WRAP
    ensures Sound(Apply(s, a))
  {
    KeepsGood(s, a);
    KeepsDelivered(s, a);
  }

  /** With fewer than 2^32 ids handed out, all of the invariant holds. */
  lemma {:induction false} RunSound(s: State, acts: seq<Action>)
    requires Sound(s) && IsRun(s, acts) && Exec(s, acts).allocs < WRAP
    ensures Sound(Exec(s, acts))
    decreases acts
  {
    if acts != [] {
      AllocsGrow(s, acts);
      KeepsSound(s, acts[0]);
      RunSound(Apply(s, acts[0]), acts[1..]);
    }
  }

  lemma ReachableSound(s: State)
    requires Reachable(s) && s.allocs < WRAP
    ensures Sound(s)
  {
    var acts :| IsRun(Init(), acts) && Exec(Init(), acts) == s;
    InitGood();
    RunSound(Init(), acts);
  }
}
