/** What the OSC worker promises over time: it sends what it accepts, it sleeps instead of polling,
    and a stop ends it. For every interleaving with the threads that push. */
module OscProgress {
  import opened Seqs
  import opened OscWorker

  ghost predicate Reachable(s: State) {
    exists acts :: IsRun(Init(), acts) && Exec(Init(), acts) == s
  }

  function RunnerSteps(acts: seq<Action>): nat {
    if acts == [] then 0 else (if IsRunner(acts[0]) then 1 else 0) + RunnerSteps(acts[1..])
  }

  predicate IsRunner(a: Action) {
    match a
    case REnable => true
    case REnableWait => true
    case RTest => true
    case RFront => true
    case RWake => true
    case RSend => true
    case RRemove => true
    case RIdle => true
    case Run => false
    case StopClear => false
    case StopUnblock => false
    case StopClose => false
    case Join => false
    case Push(_) => false
    case EnableWait => false
  }

  predicate InHand(r: RunnerPc) { r.Sending? || r.Removing? }

  /** The flags, the program counters and the queue agree: isRunning is set only while the runner is
      in its loop or before it, and a thread asleep has nothing to do. */
  predicate Sane(s: State) {
    && (s.running ==> s.stopper.NotStopping? && !s.runner.NotStarted? && !s.runner.Finished?)
    && (s.runner.NotStarted? ==> s.stopper.NotStopping?)
    && (s.runner.Asleep? ==> s.blocking && s.queue == [])
    && (InHand(s.runner) ==> s.queue != [] && s.queue[0] == s.runner.m)
    && s.sent == s.removed + (if s.runner.Removing? then [s.runner.m] else [])
  }

  lemma SaneStep(s: State, a: Action)
    requires Sane(s) && Enabled(s, a)
    ensures Sane(Apply(s, a))
  {
  }

  lemma {:induction false} SaneRun(s: State, acts: seq<Action>)
    requires Sane(s) && IsRun(s, acts)
    ensures Sane(Exec(s, acts))
    decreases acts
  {
    if acts != [] {
      SaneStep(s, acts[0]);
      SaneRun(Apply(s, acts[0]), acts[1..]);
    }
  }

  lemma ReachableSane(s: State)
    requires Reachable(s)
    ensures Sane(s)
  {
    var acts :| IsRun(Init(), acts) && Exec(Init(), acts) == s;
    SaneRun(Init(), acts);
  }

  // ---- stop ----

  /** Runner steps to the end of the thread once isRunning is cleared and nothing holds it up. */
  function StepsLeft(r: RunnerPc): nat {
    match r
    case Finished => 0
    case Testing => 1
    case Entering => 2
    case FoundNothing => 2
    case Removing(_) => 2
    case Opening => 3
    case Sending(_) => 3
    case AtFront => 4
    case Notified => 4
    case Asleep => 5
    case NotStarted => 5
  }

  /** About to evaluate the predicate of `front` on an empty queue. */
  predicate AtEmptyFront(s: State) { (s.runner.AtFront? || s.runner.Notified?) && s.queue == [] }

  /** `stop` is past `disableWait()`. */
  predicate Stopping(s: State) {
    !s.running && !s.stopper.NotStopping? && !s.runner.NotStarted? && !s.runner.Asleep?
  }

  /** Waiting is off, except that the runner may turn it on once at its start, and then it sees
      isRunning cleared. */
  predicate Halting(s: State) { Stopping(s) && (s.blocking ==> s.runner.Testing? || s.runner.Finished?) }

  /** The runner has no reason to sleep, whatever the flags. */
  predicate Calm(s: State) { Stopping(s) && !AtEmptyFront(s) }

  lemma HaltingStep(s: State, a: Action)
    requires Halting(s) && Enabled(s, a) && a != EnableWait
    ensures Halting(Apply(s, a))
    ensures (if IsRunner(a) then 1 else 0) + StepsLeft(Apply(s, a).runner) <= StepsLeft(s.runner)
  {
  }

  lemma CalmStep(s: State, a: Action)
    requires Calm(s) && Enabled(s, a)
    ensures Calm(Apply(s, a))
    ensures (if IsRunner(a) then 1 else 0) + StepsLeft(Apply(s, a).runner) <= StepsLeft(s.runner)
  {
  }

  lemma {:induction false} HaltingRun(s: State, acts: seq<Action>)
    requires Halting(s) && IsRun(s, acts) && EnableWait !in acts
    ensures Halting(Exec(s, acts)) && RunnerSteps(acts) + StepsLeft(Exec(s, acts).runner) <= StepsLeft(s.runner)
    decreases acts
  {
    if acts != [] {
      HaltingStep(s, acts[0]);
      HaltingRun(Apply(s, acts[0]), acts[1..]);
    }
  }

  lemma {:induction false} CalmRun(s: State, acts: seq<Action>)
    requires Calm(s) && IsRun(s, acts)
    ensures Calm(Exec(s, acts)) && RunnerSteps(acts) + StepsLeft(Exec(s, acts).runner) <= StepsLeft(s.runner)
    decreases acts
  {
    if acts != [] {
      CalmStep(s, acts[0]);
      CalmRun(Apply(s, acts[0]), acts[1..]);
    }
  }

  /** The stop ends: from `disableWait()` on, whoever pushes what, the runner takes at most four more
      steps, needs no wakeup, has a step to take until its end, and then the join goes through. This
      includes a stop of an idle runner, which `disableWait()` wakes, and one that overtakes the
      runner's own `enableWait()`. It needs that no other thread enables waiting again, or else that
      the runner was not just then about to look at an empty queue. */
  lemma StopTerminates(s: State, acts: seq<Action>)
    requires Reachable(s) && s.stopper.Unblocking?
    requires var s1 := Apply(s, StopUnblock); IsRun(s1, acts) && (EnableWait !in acts || !AtEmptyFront(s1))
    ensures var e := Exec(Apply(s, StopUnblock), acts);
      && RunnerSteps(acts) + StepsLeft(e.runner) <= 4
      && !e.runner.NotStarted? && !e.runner.Asleep?
      && (!e.runner.Finished? ==> Enabled(e, Due(e.runner)))
      && (e.runner.Finished? && e.stopper.Joining? ==> Enabled(e, Join) && Apply(e, Join).stopper.Joined?)
  {
    ReachableSane(s);
    var s1 := Apply(s, StopUnblock);
    if EnableWait in acts {
      CalmRun(s1, acts);
    } else {
      HaltingRun(s1, acts);
    }
  }

  /** Exactly when the stop can hang: with all threads free to act, the runner can fall asleep after
      `disableWait()` if and only if it was at that moment about to look at an empty queue. */
  lemma StopCanHang(s: State)
    requires Reachable(s) && s.stopper.Unblocking?
    ensures var s1 := Apply(s, StopUnblock);
      (exists acts :: IsRun(s1, acts) && Exec(s1, acts).runner.Asleep?) <==> AtEmptyFront(s1)
  {
    ReachableSane(s);
    var s1 := Apply(s, StopUnblock);
    if AtEmptyFront(s1) {
      var s2 := Apply(s1, EnableWait);
      var s3 := Apply(s2, RFront);
      assert s3.runner.Asleep? && IsRun(s3, []) && Exec(s3, []) == s3;
      RunCons(s2, RFront, []);
      RunCons(s1, EnableWait, [RFront] + []);
    } else {
      forall acts | IsRun(s1, acts) ensures !Exec(s1, acts).runner.Asleep? {
        CalmRun(s1, acts);
      }
    }
  }

  // ---- service ----

  /** Runner steps to the next removal, with something in the queue. */
  function StepsToNext(r: RunnerPc): nat {
    match r
    case Removing(_) => 1
    case Sending(_) => 2
    case AtFront => 3
    case Notified => 3
    case Testing => 4
    case Entering => 5
    case FoundNothing => 5
    case Opening => 6
    case Asleep => 7
    case NotStarted => 7
    case Finished => 7
  }

  function StepsToRemoval(s: State, m: Msg): nat { StepsToNext(s.runner) + 4 * IndexOf(s.queue, m) }

  lemma WithoutFirst(q: seq<Msg>, x: Msg)
    requires q != []
    ensures Without(q, x) == if q[0] == x then Without(q[1..], x) else [q[0]] + Without(q[1..], x)
  {
    assert q == [q[0]] + q[1..];
    WithoutAppend([q[0]], q[1..], x);
    assert Without([q[0]], x) == if q[0] == x then [] else [q[0]];
    assert [] + Without(q[1..], x) == Without(q[1..], x);
  }

  lemma IndexFirst(q: seq<Msg>, m: Msg)
    requires q != []
    ensures IndexOf(q, m) == if q[0] == m then 0 else 1 + IndexOf(q[1..], m)
  {
  }

  lemma {:induction false} WithoutNoLater(q: seq<Msg>, x: Msg, m: Msg)
    requires x != m
    ensures IndexOf(Without(q, x), m) <= IndexOf(q, m)
  {
    if q != [] {
      WithoutNoLater(q[1..], x, m);
      WithoutFirst(q, x);
      IndexFirst(q, m);
      if q[0] != x {
        IndexFirst(Without(q, x), m);
        assert Without(q, x)[1..] == Without(q[1..], x);
      }
    }
  }

  /** Without its head the queue has everything else one place nearer, or more. */
  lemma WithoutMovesUp(q: seq<Msg>, m: Msg)
    requires m in q && q[0] != m
    ensures m in Without(q, q[0]) && IndexOf(Without(q, q[0]), m) < IndexOf(q, m)
  {
    WithoutMembers(q, q[0]);
    WithoutFirst(q, q[0]);
    IndexFirst(q, m);
    WithoutNoLater(q[1..], q[0], m);
  }

  lemma IndexKept(q: seq<Msg>, x: Msg, m: Msg)
    requires m in q
    ensures IndexOf(q + [x], m) == IndexOf(q, m)
  {
    var i := IndexOf(q, m);
    assert (q + [x])[i] == m && forall j :: 0 <= j < i ==> (q + [x])[j] == q[j];
  }

  /** One action: a runner step brings `m` nearer, and no push delays it. */
  lemma ServedStep(s: State, a: Action, m: Msg)
    requires Sane(s) && s.running && m in s.queue && Enabled(s, a) && a != StopClear
    ensures var s' := Apply(s, a);
      && s'.running && s.removed <= s'.removed
      && (s'.removed == s.removed + [m]
          || (m in s'.queue
              && (if IsRunner(a) then 1 else 0) + StepsToRemoval(s', m) <= StepsToRemoval(s, m)))
  {
    if a.RRemove? {
      if s.runner.m != m { WithoutMovesUp(s.queue, m); }
    } else if a.Push? {
      IndexKept(s.queue, a.m, m);
    }
  }

  lemma RemovedGrows(s: State, a: Action)
    requires Enabled(s, a)
    ensures s.removed <= Apply(s, a).removed
  {
  }

  lemma {:induction false} RemovedPrefix(s: State, acts: seq<Action>)
    requires IsRun(s, acts)
    ensures s.removed <= Exec(s, acts).removed
    decreases acts
  {
    if acts != [] {
      RemovedGrows(s, acts[0]);
      RemovedPrefix(Apply(s, acts[0]), acts[1..]);
    }
  }

  lemma {:induction false} ServedRun(s: State, acts: seq<Action>, m: Msg)
    requires Sane(s) && s.running && m in s.queue && IsRun(s, acts) && StopClear !in acts
    ensures var e := Exec(s, acts);
      && s.removed <= e.removed
      && (m in e.removed[|s.removed|..]
          || (e.running && m in e.queue && RunnerSteps(acts) + StepsToRemoval(e, m) <= StepsToRemoval(s, m)))
    decreases acts
  {
    if acts != [] {
      var s1, e := Apply(s, acts[0]), Exec(s, acts);
      SaneStep(s, acts[0]);
      ServedStep(s, acts[0], m);
      RemovedPrefix(s1, acts[1..]);
      if s1.removed == s.removed + [m] {
        assert e.removed[|s.removed|] == m;
      } else {
        ServedRun(s1, acts[1..], m);
        if m in e.removed[|s1.removed|..] {
          var k :| |s1.removed| <= k < |e.removed| && e.removed[k] == m;
        }
      }
    }
  }

  /** Progress: while nobody calls `stop`, an accepted message is handed to the server and removed at
      the latest when the runner has taken `StepsToRemoval` steps, at most six and four times its
      position, whatever is pushed behind it. Until then the runner is awake and has a step to take. */
  lemma QueuedIsSent(s: State, acts: seq<Action>, m: Msg)
    requires Reachable(s) && s.running && m in s.queue
    requires IsRun(s, acts) && StopClear !in acts
    ensures StepsToRemoval(s, m) <= 6 + 4 * IndexOf(s.queue, m)
    ensures var e := Exec(s, acts);
      && s.removed <= e.removed <= e.sent
      && (RunnerSteps(acts) >= StepsToRemoval(s, m) ==> m in e.removed[|s.removed|..])
      && (m !in e.removed[|s.removed|..] ==>
            !e.runner.NotStarted? && !e.runner.Finished? && !e.runner.Asleep? && Enabled(e, Due(e.runner)))
  {
    ReachableSane(s);
    SaneRun(s, acts);
    ServedRun(s, acts, m);
  }

  // ---- waiting and accepting ----

  /** No busy polling: until somebody calls `disableWait()`, a runner that has still to enable waiting
      never leaves `front` with nothing. */
  lemma {:induction false} SleepsInsteadOfPolling(s: State, acts: seq<Action>)
    requires IsRun(s, acts) && StopUnblock !in acts
    requires s.runner.NotStarted? || s.runner.Opening? || s.runner.Entering? || (s.blocking && !s.runner.FoundNothing?)
    ensures !Exec(s, acts).runner.FoundNothing?
    decreases acts
  {
    if acts != [] { SleepsInsteadOfPolling(Apply(s, acts[0]), acts[1..]); }
  }

  /** The last call of a run that switched waiting on or off, or `on` when there is none. */
  function LastWait(acts: seq<Action>, on: bool): bool {
    if acts == [] then on
    else LastWait(acts[1..], if acts[0].StopUnblock? then false else acts[0].REnableWait? || acts[0].EnableWait? || on)
  }

  lemma WaitStep(s: State, a: Action)
    requires Enabled(s, a)
    ensures Apply(s, a).blocking == LastWait([a], s.blocking)
  {
    assert [a][1..] == [];
  }

  lemma LastWaitFirst(acts: seq<Action>, on: bool)
    requires acts != []
    ensures LastWait(acts, on) == LastWait(acts[1..], LastWait([acts[0]], on))
  {
    assert [acts[0]][1..] == [];
  }

  lemma {:induction false} WaitFollows(s: State, acts: seq<Action>)
    requires IsRun(s, acts)
    ensures Exec(s, acts).blocking == LastWait(acts, s.blocking)
    decreases acts
  {
    if acts != [] {
      WaitStep(s, acts[0]);
      LastWaitFirst(acts, s.blocking);
      WaitFollows(Apply(s, acts[0]), acts[1..]);
    }
  }

  /** A push is accepted, at the end of the queue, exactly when the runner has opened the queue and
      the stopper has not closed it since; any other push is lost. */
  lemma AcceptedIffOpen(acts: seq<Action>, m: Msg)
    requires IsRun(Init(), acts)
    ensures var s := Exec(Init(), acts); var s' := Apply(s, Push(m));
      if REnable in acts && (StopClose in acts ==> IndexOf(acts, REnable) > IndexOf(acts, StopClose))
      then s'.accepted == s.accepted + [m] && s'.queue == s.queue + [m] && !s'.runner.Asleep?
      else s' == s
  {
    FlagHistory(Init(), acts);
  }
}
