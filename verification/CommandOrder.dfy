/** In which order commands are started, and how a waiting command moves through the queue. */
module CommandOrder {
  import opened Seqs
  import opened CommandSystem
  import opened CommandInvariant
  import opened CommandReaders

  // ---- from a request to the queue ----

  /** What handler `t` does with a request up to its last critical section, the other threads in between. */
  function Handling(t: Tid, urgent: bool, others1: seq<Action>, outcome: Outcome, others2: seq<Action>): seq<Action> {
    [Handler(t, Alloc(urgent))] + others1 + [Handler(t, Classify(outcome))] + others2
  }

  lemma HandlingStands(s: State, t: Tid, urgent: bool, others1: seq<Action>, outcome: Outcome, others2: seq<Action>)
    requires t !in s.handlers && Others(others1, t) && Others(others2, t)
    requires IsRun(s, Handling(t, urgent, others1, outcome, others2))
    ensures var e := Exec(s, Handling(t, urgent, others1, outcome, others2)); var r := s.allocs + 1;
      && (outcome.Scheduled? ==> t in e.handlers && e.handlers[t] == Scheduling(r, urgent))
      && (outcome.Immediate? ==> t in e.handlers && e.handlers[t] == Answering(r))
      && (outcome.Throws? ==> t !in e.handlers)
  {
    var a1, a2 := [Handler(t, Alloc(urgent))], [Handler(t, Classify(outcome))];
    var acts := a1 + others1 + a2 + others2;
    var n := 1 + |others1|;
    ExecSplit(s, acts, n + 1);
    ExecSplit(s, acts[..n + 1], n);
    assert acts[..n + 1][..n] == acts[..n] == a1 + others1 && acts[n + 1..] == others2;
    ExecSplit(s, acts[..n], 1);
    assert acts[..n + 1][n..] == a2 && a2[1..] == [];
    assert acts[..n][..1] == a1 && acts[..n][1..] == others1 && a1[1..] == [];
    var s1 := Exec(s, a1);
    assert s1 == Apply(s, a1[0]);
    PcKept(s1, others1, t);
    var s2 := Exec(s1, others1);
    var s3 := Exec(s2, a2);
    assert s3 == Apply(s2, a2[0]);
    if outcome.Throws? {
      StaysOut(s3, others2, t);
    } else {
      PcKept(s3, others2, t);
    }
  }

  lemma {:induction false} StaysOut(s: State, acts: seq<Action>, t: Tid)
    requires IsRun(s, acts) && Others(acts, t) && t !in s.handlers
    ensures t !in Exec(s, acts).handlers
    decreases acts
  {
    if acts != [] {
      assert acts[0] in acts;
      StaysOut(Apply(s, acts[0]), acts[1..], t);
    }
  }

  /** A scheduled request ends up where its urgency says: whatever the other threads do meanwhile,
      the command with the next free id goes to the front of the queue when the request is urgent
      and to the back when it is not, if the queue is enabled at that moment; otherwise the queue is
      left as it is. A request that is answered at once is stored under its id and never queued. */
  lemma RequestIsHonoured(s: State, t: Tid, urgent: bool, others1: seq<Action>, outcome: Outcome, others2: seq<Action>)
    requires t !in s.handlers && Others(others1, t) && Others(others2, t)
    requires IsRun(s, Handling(t, urgent, others1, outcome, others2))
    ensures var m := Exec(s, Handling(t, urgent, others1, outcome, others2)); var r := s.allocs + 1;
      match outcome
      case Scheduled =>
        && Enabled(m, Handler(t, Push))
        && var e := Apply(m, Handler(t, Push));
        && e.queue == (if !m.enabled then m.queue else if urgent then [r] + m.queue else m.queue + [r])
        && e.results == m.results
      case Immediate =>
        && Enabled(m, Handler(t, Answer))
        && var e := Apply(m, Handler(t, Answer));
        && e.queue == m.queue
        && e.results == m.results[IdOf(r) := r]
      case Throws => t !in m.handlers
  {
    HandlingStands(s, t, urgent, others1, outcome, others2);
  }

  // ---- order of starting ----

  /** `a` is ahead of `b` for good: it was started first, or it will be. */
  predicate Ahead(s: State, a: Ref, b: Ref) {
    if b in s.started then a in s.started && IndexOf(s.started, a) < IndexOf(s.started, b)
    else b in s.queue && (a in s.started || (a in s.queue && IndexOf(s.queue, a) < IndexOf(s.queue, b)))
  }

  lemma IndexPrepend(q: seq<Ref>, r: Ref, x: Ref)
    requires x in q && x != r
    ensures IndexOf([r] + q, x) == 1 + IndexOf(q, x)
  {
    assert ([r] + q)[1..] == q;
  }

  lemma IndexAppend(q: seq<Ref>, r: Ref, x: Ref)
    ensures x in q ==> IndexOf(q + [r], x) == IndexOf(q, x)
    ensures x !in q && x == r ==> IndexOf(q + [r], x) == |q|
  {
    var k := IndexOf(q + [r], x);
    assert forall j :: 0 <= j < |q| ==> (q + [r])[j] == q[j];
    if x in q {
      var i := IndexOf(q, x);
      assert (q + [r])[i] == x;
    } else if x == r {
      assert (q + [r])[|q|] == x;
    }
  }

  lemma AheadPush(s: State, t: Tid, a: Ref, b: Ref)
    requires Good(s) && HandlerEnabled(s, t, Push) && Ahead(s, a, b)
    ensures Ahead(HandlerStep(s, t, Push), a, b)
  {
    var pc := s.handlers[t];
    if s.enabled && b !in s.started {
      assert pc.ref !in s.queue;
      if pc.urgent {
        IndexPrepend(s.queue, pc.ref, b);
        if a in s.queue { IndexPrepend(s.queue, pc.ref, a); }
      } else {
        IndexAppend(s.queue, pc.ref, a);
        IndexAppend(s.queue, pc.ref, b);
      }
    }
  }

  lemma AheadStart(s: State, a: Ref, b: Ref)
    requires Good(s) && WorkerEnabled(s, WFront) && s.queue != [] && Ahead(s, a, b)
    ensures Ahead(WorkerStep(s, WFront), a, b)
  {
    var r := s.queue[0];
    IndexAppend(s.started, r, a);
    IndexAppend(s.started, r, b);
    assert IndexOf(s.queue, r) == 0;
  }

  lemma OrderWithout(q: seq<Ref>, x: Ref, a: Ref, b: Ref)
    requires Distinct(q) && x in q && a in q && b in q && x != a && x != b
    requires IndexOf(q, a) < IndexOf(q, b)
    ensures a in Without(q, x) && b in Without(q, x)
    ensures IndexOf(Without(q, x), a) < IndexOf(Without(q, x), b)
  {
    WithoutIndex(q, x, a);
    WithoutIndex(q, x, b);
    if IndexOf(q, b) == IndexOf(q, a) + 1 { assert IndexOf(q, x) != IndexOf(q, a); }
  }

  lemma AheadRemove(s: State, a: Ref, b: Ref)
    requires Queued(s.queue, s.pushed, s.started, s.removed, Hand(s.worker))
    requires WorkerEnabled(s, WRemove) && Ahead(s, a, b)
    ensures Ahead(WorkerStep(s, WRemove), a, b)
  {
    if b !in s.started {
      HandQueued(s);
      if a in s.started {
        WithoutMembers(s.queue, s.worker.ref);
      } else {
        OrderWithout(s.queue, s.worker.ref, a, b);
      }
    }
  }

  lemma AheadStep(s: State, x: Action, a: Ref, b: Ref)
    requires Good(s) && Enabled(s, x) && Ahead(s, a, b)
    ensures Ahead(Apply(s, x), a, b)
  {
    if x.Handler? && x.h.Push? {
      AheadPush(s, x.t, a, b);
    } else if x == Worker(WFront) && s.queue != [] {
      AheadStart(s, a, b);
    } else if x == Worker(WRemove) {
      AheadRemove(s, a, b);
    } else {
      SameLists(s, x);
    }
  }

  lemma SameLists(s: State, x: Action)
    requires Enabled(s, x)
    requires !(x.Handler? && x.h.Push?) && !(x == Worker(WFront) && s.queue != []) && x != Worker(WRemove)
    ensures Apply(s, x).queue == s.queue && Apply(s, x).started == s.started
  {
    match x
    case Control(c) =>
    case Handler(t, h) => SameListsHandler(s, t, h);
    case Worker(w) =>
  }

  lemma SameListsHandler(s: State, t: Tid, h: HandlerAction)
    requires HandlerEnabled(s, t, h) && !h.Push?
    ensures HandlerStep(s, t, h).queue == s.queue && HandlerStep(s, t, h).started == s.started
  {
  }

  lemma {:induction false} AheadForever(s: State, acts: seq<Action>, a: Ref, b: Ref)
    requires Good(s) && IsRun(s, acts) && Ahead(s, a, b)
    ensures Ahead(Exec(s, acts), a, b)
    decreases acts
  {
    if acts != [] {
      KeepsGood(s, acts[0]);
      AheadStep(s, acts[0], a, b);
      AheadForever(Apply(s, acts[0]), acts[1..], a, b);
    }
  }

  /** Processing order: let handler `t` push its command while `w` waits to be started. In every
      continuation an urgent command is started before `w`, and a normal one only after `w`. So normal
      commands are started in push order, and each urgent one overtakes all but the command in hand. */
  lemma StartOrder(s: State, t: Tid, w: Ref, acts: seq<Action>)
    requires Reachable(s) && HandlerEnabled(s, t, Push) && s.enabled
    requires w in s.queue && w !in s.started
    requires var s1 := Apply(s, Handler(t, Push)); IsRun(s1, acts)
    ensures var e := Exec(Apply(s, Handler(t, Push)), acts); var r := s.handlers[t].ref;
      if s.handlers[t].urgent
      then w in e.started ==> r in e.started && IndexOf(e.started, r) < IndexOf(e.started, w)
      else r in e.started ==> w in e.started && IndexOf(e.started, w) < IndexOf(e.started, r)
  {
    var s1, r := Apply(s, Handler(t, Push)), s.handlers[t].ref;
    ReachableGood(s);
    KeepsGood(s, Handler(t, Push));
    assert r !in s.queue && r !in s.started;
    IndexAppend(s.queue, r, w);
    IndexAppend(s.queue, r, r);
    IndexPrepend(s.queue, r, w);
    if s.handlers[t].urgent {
      AheadForever(s1, acts, r, w);
    } else {
      AheadForever(s1, acts, w, r);
    }
  }

  // ---- position in the queue ----

  /** The action is an urgent push that is accepted. */
  predicate IsFrontPush(s: State, a: Action)
    requires Enabled(s, a)
  {
    a.Handler? && a.h.Push? && s.enabled && s.handlers[a.t].urgent
  }

  /** The action removes a command that is ahead of `r`. */
  predicate IsRemovalAhead(s: State, a: Action, r: Ref)
    requires Enabled(s, a)
  {
    a == Worker(WRemove) && IndexOf(s.queue, s.worker.ref) < IndexOf(s.queue, r)
  }

  ghost function FrontPushes(s: State, acts: seq<Action>): nat
    requires IsRun(s, acts)
    decreases acts
  {
    if acts == [] then 0
    else (if IsFrontPush(s, acts[0]) then 1 else 0) + FrontPushes(Apply(s, acts[0]), acts[1..])
  }

  ghost function RemovalsAhead(s: State, acts: seq<Action>, r: Ref): nat
    requires IsRun(s, acts)
    decreases acts
  {
    if acts == [] then 0
    else (if IsRemovalAhead(s, acts[0], r) then 1 else 0) + RemovalsAhead(Apply(s, acts[0]), acts[1..], r)
  }

  lemma IndexStepPush(s: State, t: Tid, r: Ref)
    requires Private(s.handlers, s.pushed, s.stored, s.allocs) && (forall x :: x in s.queue ==> x in s.pushed)
    requires HandlerEnabled(s, t, Push) && r in s.queue
    ensures IndexOf(HandlerStep(s, t, Push).queue, r)
         == IndexOf(s.queue, r) + if s.enabled && s.handlers[t].urgent then 1 else 0
  {
    var pc := s.handlers[t];
    IndexPrepend(s.queue, pc.ref, r);
    IndexAppend(s.queue, pc.ref, r);
  }

  lemma IndexStepRemove(s: State, r: Ref)
    requires Queued(s.queue, s.pushed, s.started, s.removed, Hand(s.worker))
    requires WorkerEnabled(s, WRemove) && r in s.queue && r in WorkerStep(s, WRemove).queue
    ensures IndexOf(WorkerStep(s, WRemove).queue, r)
         == IndexOf(s.queue, r) - if IndexOf(s.queue, s.worker.ref) < IndexOf(s.queue, r) then 1 else 0
  {
    HandQueued(s);
    WithoutMembers(s.queue, s.worker.ref);
    WithoutIndex(s.queue, s.worker.ref, r);
  }

  lemma IndexStep(s: State, a: Action, r: Ref)
    requires Private(s.handlers, s.pushed, s.stored, s.allocs)
    requires Queued(s.queue, s.pushed, s.started, s.removed, Hand(s.worker))
    requires Enabled(s, a) && r in s.queue && r in Apply(s, a).queue
    ensures IndexOf(Apply(s, a).queue, r) == IndexOf(s.queue, r)
              + (if IsFrontPush(s, a) then 1 else 0) - (if IsRemovalAhead(s, a, r) then 1 else 0)
  {
    if a.Handler? && a.h.Push? {
      IndexStepPush(s, a.t, r);
    } else if a == Worker(WRemove) {
      IndexStepRemove(s, r);
    } else if a == Worker(WFront) {
    } else {
      SameLists(s, a);
    }
  }

  lemma {:induction false} IndexAccounting(s: State, acts: seq<Action>, r: Ref)
    requires Good(s) && IsRun(s, acts)
    requires r in s.queue && r in Exec(s, acts).queue
    ensures IndexOf(Exec(s, acts).queue, r) == IndexOf(s.queue, r) + FrontPushes(s, acts) - RemovalsAhead(s, acts, r)
    decreases acts
  {
    if acts != [] {
      var s1 := Apply(s, acts[0]);
      KeepsGood(s, acts[0]);
      RunGood(s1, acts[1..]);
      StepGrows(s, acts[0], r);
      HistoryGrows(s1, acts[1..], r);
      assert r in s1.queue;
      IndexStep(s, acts[0], r);
      IndexAccounting(s1, acts[1..], r);
    }
  }

  /** Position accounting: between two scans that both find the command, the reported `pos` moves
      by the accepted urgent pushes minus the removals from ahead of it. Without urgent pushes it
      never grows. */
  lemma PositionAccounting(s: State, acts: seq<Action>, r: Ref)
    requires Reachable(s) && IsRun(s, acts) && Exec(s, acts).allocs < WRAP
    requires r in s.queue && r in Exec(s, acts).queue
    ensures 0 <= PosOf(s.queue, IdOf(r)) && 0 <= PosOf(Exec(s, acts).queue, IdOf(r))
    ensures PosOf(Exec(s, acts).queue, IdOf(r))
         == PosOf(s.queue, IdOf(r)) + FrontPushes(s, acts) - RemovalsAhead(s, acts, r)
    ensures FrontPushes(s, acts) == 0 ==> PosOf(Exec(s, acts).queue, IdOf(r)) <= PosOf(s.queue, IdOf(r))
  {
    AllocsGrow(s, acts);
    ReachableGood(s);
    RunGood(s, acts);
    PosIsIndex(s, r);
    PosIsIndex(Exec(s, acts), r);
    IndexAccounting(s, acts, r);
  }
}
