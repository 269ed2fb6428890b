/** Concrete interleavings: what the general statements leave room for does happen. */
module CommandExamples {
  import opened Seqs
  import opened CommandSystem
  import opened CommandProperties
  import opened CommandReaders
  import opened CommandShutdown

  lemma Next(s: State, a: Action)
    requires Reachable(s) && Enabled(s, a)
    ensures Reachable(Apply(s, a))
  {
    ReachableAfter(s, [a]);
    assert Exec(s, [a]) == Apply(s, a);
  }

  lemma InitReachable()
    ensures Reachable(Init())
  {
    assert IsRun(Init(), []) && Exec(Init(), []) == Init();
  }

  /** The queue enabled, the worker waiting at `front`. */
  function Serving(): State {
    Init().(enabled := true, running := true, worker := AtFront)
  }

  lemma ServingReachable()
    ensures Reachable(Serving())
  {
    InitReachable();
    Next(Init(), Control(Enable(true)));
    var s1 := Init().(enabled := true);
    Next(s1, Control(Run));
    Next(s1.(running := true, worker := Entering), Worker(WEnableWait));
    Next(s1.(running := true, worker := Testing), Worker(WTest));
  }

  /** Handler 1 has pushed command 1, normal, and the worker has done its work. */
  function Worked(): State {
    Serving().(queue := [1], allocs := 1, pushed := [1], started := [1], worker := Storing(1))
  }

  lemma WorkedReachable()
    ensures Reachable(Worked())
  {
    ServingReachable();
    var s := Serving();
    Next(s, Handler(1, Alloc(false)));
    var s1 := s.(allocs := 1, handlers := map[1 := Allocated(1, false)]);
    assert Apply(s, Handler(1, Alloc(false))) == s1;
    Next(s1, Handler(1, Classify(Scheduled)));
    var s2 := s1.(handlers := map[1 := Scheduling(1, false)]);
    assert Apply(s1, Handler(1, Classify(Scheduled))) == s2;
    Next(s2, Handler(1, Push));
    var s3 := s.(allocs := 1, queue := [1], pushed := [1]);
    assert Apply(s2, Handler(1, Push)) == s3 by { assert s2.handlers - {1} == map[]; }
    Next(s3, Worker(WFront));
    Next(s3.(worker := Holding(1), started := [1]), Worker(WProcess(false)));
  }

  /** A `get` can miss: handler 2 fetches just before the worker inserts the result of command 1
      and scans just after the worker removed it. The command was accepted, did not fail and was
      fetched by nobody, yet the answer is "neither queued or completed". */
  lemma GetCanMiss()
    ensures var s := Worked(); var s1 := Apply(s, Handler(2, Fetch(IdOf(1))));
      var between := [Worker(WInsert), Worker(WRemove)];
      && Reachable(s) && Accepted(s, 1) && IdOf(1) !in s.results
      && IsRun(s1, between) && Others(between, 2)
      && 1 !in Exec(s1, between).failed && 1 !in Exec(s1, between).fetched
      && PosOf(Exec(s1, between).queue, IdOf(1)) == -1
  {
    WorkedReachable();
    var s1 := Apply(Worked(), Handler(2, Fetch(IdOf(1))));
    var s2 := Apply(s1, Worker(WInsert));
    var s3 := Apply(s2, Worker(WRemove));
    var between := [Worker(WInsert), Worker(WRemove)];
    assert between[1..] == [Worker(WRemove)] && between[1..][1..] == [];
    assert Without([1], 1) == [];
    assert s3.queue == [];
    assert IsRun(s3, []) && IsRun(s2, [Worker(WRemove)]) && Exec(s2, [Worker(WRemove)]) == s3;
  }

  /** A run to a hanging join: the worker is about to look at the empty queue when `stop` clears
      isRunning and disables waiting; another thread turns waiting back on, with the call that
      XypiHub::run makes for this queue; the worker goes to sleep while the stopper joins it. */
  lemma ReenabledWaitHangs()
    ensures var s := Serving(); var stop := [Control(StopClear), Control(StopDisableWait)];
      && Reachable(s) && IsRun(s, stop)
      && HANG == [Control(EnableWait), Worker(WFront)] && IsRun(Exec(s, stop), HANG)
      && var e := Exec(Exec(s, stop), HANG);
      && e.worker.Asleep? && e.stopper.Joining? && !e.running && e.queue == []
  {
    ServingReachable();
    var s := Serving();
    var stop := [Control(StopClear), Control(StopDisableWait)];
    var s1 := Apply(s, stop[0]);
    var s2 := Apply(s1, stop[1]);
    assert stop[1..] == [Control(StopDisableWait)] && stop[1..][1..] == [];
    assert IsRun(s2, []) && IsRun(s1, stop[1..]) && Exec(s1, stop[1..]) == s2;
    HangingRun(s2);
  }
}
