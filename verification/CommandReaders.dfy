/** The two readers, `get` and `list`: two critical sections each, with anything in between. */
module CommandReaders {
  import opened Seqs
  import opened CommandSystem
  import opened CommandInvariant
  import opened CommandProperties

  /** No action of `acts` belongs to handler `t`. */
  predicate Others(acts: seq<Action>, t: Tid) {
    forall a :: a in acts ==> !(a.Handler? && a.t == t)
  }

  /** The `k`-th action of the run is the worker inserting the result of `r`. */
  ghost predicate Inserts(s: State, acts: seq<Action>, k: nat, r: Ref) {
    && k < |acts| && acts[k] == Worker(WInsert)
    && IsRun(s, acts[..k]) && Exec(s, acts[..k]).worker == Storing(r)
  }

  /** The `k`-th action of the run is the worker removing `r` from the queue. */
  ghost predicate Removes(s: State, acts: seq<Action>, k: nat, r: Ref) {
    && k < |acts| && acts[k] == Worker(WRemove)
    && IsRun(s, acts[..k]) && Exec(s, acts[..k]).worker == Removing(r)
  }

  lemma ShiftRun(s: State, acts: seq<Action>, k: nat)
    requires IsRun(s, acts) && 1 <= k <= |acts|
    requires IsRun(Apply(s, acts[0]), acts[1..][..k - 1])
    ensures IsRun(s, acts[..k])
    ensures Exec(s, acts[..k]) == Exec(Apply(s, acts[0]), acts[1..][..k - 1])
  {
    assert acts[..k][1..] == acts[1..][..k - 1];
  }

  // ---- what never goes away ----

  predicate Within(s: State, s': State, r: Ref) {
    && (r in s.pushed ==> r in s'.pushed) && (r in s.started ==> r in s'.started)
    && (r in s.removed ==> r in s'.removed) && (r in s.stored ==> r in s'.stored)
    && (r in s.fetched ==> r in s'.fetched) && (r in s.failed ==> r in s'.failed)
  }

  lemma EffectWithin(s: State, t: Tid, h: HandlerAction, s': State, r: Ref)
    requires HandlerEnabled(s, t, h) && HandlerEffect(s, t, h, s')
    ensures Within(s, s', r)
  {
  }

  lemma WorkerEffectWithin(s: State, w: WorkerAction, s': State, r: Ref)
    requires WorkerEnabled(s, w) && WorkerEffect(s, w, s')
    ensures Within(s, s', r)
  {
  }

  lemma StepGrows(s: State, a: Action, r: Ref)
    requires Enabled(s, a)
    ensures Within(s, Apply(s, a), r)
  {
    match a
    case Control(c) => ControlHistory(s, c);
    case Handler(t, h) =>
      HandlerHistory(s, t, h);
      EffectWithin(s, t, h, HandlerStep(s, t, h), r);
    case Worker(w) =>
      WorkerHistory(s, w);
      WorkerEffectWithin(s, w, WorkerStep(s, w), r);
  }

  lemma {:induction false} HistoryGrows(s: State, acts: seq<Action>, r: Ref)
    requires IsRun(s, acts)
    ensures Within(s, Exec(s, acts), r)
    decreases acts
  {
    if acts != [] {
      StepGrows(s, acts[0], r);
      HistoryGrows(Apply(s, acts[0]), acts[1..], r);
    }
  }

  lemma {:induction false} PcKept(s: State, acts: seq<Action>, t: Tid)
    requires IsRun(s, acts) && Others(acts, t) && t in s.handlers
    ensures t in Exec(s, acts).handlers && Exec(s, acts).handlers[t] == s.handlers[t]
    decreases acts
  {
    if acts != [] {
      assert acts[0] in acts;
      PcKept(Apply(s, acts[0]), acts[1..], t);
    }
  }

  // ---- when the histories got there ----

  lemma NewlyStored(s: State, a: Action, r: Ref)
    requires Private(s.handlers, s.pushed, s.stored, s.allocs) && Enabled(s, a)
    requires r in s.pushed && r !in s.stored && r in Apply(s, a).stored
    ensures a == Worker(WInsert) && s.worker == Storing(r)
  {
    if a.Control? {
      ControlHistory(s, a.c);
    } else if a.Handler? {
      HandlerHistory(s, a.t, a.h);
    } else {
      WorkerHistory(s, a.w);
    }
  }

  lemma NewlyRemoved(s: State, a: Action, r: Ref)
    requires Enabled(s, a) && r !in s.removed && r in Apply(s, a).removed
    ensures a == Worker(WRemove) && s.worker == Removing(r)
  {
    if a.Control? {
      ControlHistory(s, a.c);
    } else if a.Handler? {
      HandlerHistory(s, a.t, a.h);
    } else {
      WorkerHistory(s, a.w);
    }
  }

  lemma NewlyPushed(s: State, a: Action, r: Ref)
    requires Private(s.handlers, s.pushed, s.stored, s.allocs) && Enabled(s, a)
    requires r !in s.pushed && r in Apply(s, a).pushed
    ensures r !in s.stored && a.Handler? && a.h.Push? && s.handlers[a.t].ref == r
  {
    if a.Control? {
      ControlHistory(s, a.c);
    } else if a.Handler? {
      HandlerHistory(s, a.t, a.h);
    } else {
      WorkerHistory(s, a.w);
    }
  }

  lemma {:induction false} FindInsert(s: State, acts: seq<Action>, r: Ref) returns (i: nat)
    requires Good(s) && IsRun(s, acts)
    requires r in s.pushed && r !in s.stored && r in Exec(s, acts).stored
    ensures Inserts(s, acts, i, r)
    decreases acts
  {
    KeepsGood(s, acts[0]);
    var s' := Apply(s, acts[0]);
    if r in s'.stored {
      NewlyStored(s, acts[0], r);
      i := 0;
      assert acts[..0] == [];
    } else {
      StepGrows(s, acts[0], r);
      var j := FindInsert(s', acts[1..], r);
      i := j + 1;
      ShiftRun(s, acts, i);
    }
  }

  lemma {:induction false} FindRemove(s: State, acts: seq<Action>, r: Ref) returns (i: nat)
    requires Good(s) && IsRun(s, acts)
    requires r !in s.removed && r in Exec(s, acts).removed
    ensures Removes(s, acts, i, r)
    decreases acts
  {
    KeepsGood(s, acts[0]);
    var s' := Apply(s, acts[0]);
    if r in s'.removed {
      NewlyRemoved(s, acts[0], r);
      i := 0;
      assert acts[..0] == [];
    } else {
      var j := FindRemove(s', acts[1..], r);
      i := j + 1;
      ShiftRun(s, acts, i);
    }
  }

  lemma RemovesIsFinal(s: State, acts: seq<Action>, k: nat, r: Ref)
    requires IsRun(s, acts) && Removes(s, acts, k, r)
    ensures r in Exec(s, acts).removed
  {
    ExecSplit(s, acts, k);
    var m := Exec(s, acts[..k]);
    assert acts[k..][0] == acts[k];
    HistoryGrows(Apply(m, acts[k]), acts[k..][1..], r);
  }

  lemma InsertBeforeRemove(s: State, acts: seq<Action>, r: Ref, j: nat) returns (i: nat)
    requires Good(s) && IsRun(s, acts)
    requires r in s.pushed && r !in s.stored && r !in Exec(s, acts).failed
    requires Removes(s, acts, j, r)
    ensures i < j && Inserts(s, acts, i, r)
  {
    ExecSplit(s, acts, j);
    var m := Exec(s, acts[..j]);
    RunGood(s, acts[..j]);
    HistoryGrows(m, acts[j..], r);
    i := FindInsert(s, acts[..j], r);
    assert acts[..j][..i] == acts[..i];
  }

  // ---- get ----

  /** Two-step `get`: the fetch of handler `t` in state `s` found nothing, and at the end of
      `between` the same handler scans the queue. For a command accepted before the `get` whose
      work did not throw and whose result nobody fetched, the answer is "neither queued or
      completed" exactly when the worker's insert and its remove both fell in between. */
  lemma GetMissesOnlyInWindow(s: State, t: Tid, between: seq<Action>, r: Ref)
    requires Reachable(s) && Accepted(s, r)
    requires t !in s.handlers && IdOf(r) != 0 && IdOf(r) !in s.results
    requires var s1 := Apply(s, Handler(t, Fetch(IdOf(r))));
      && IsRun(s1, between) && Others(between, t)
      && Exec(s1, between).allocs < WRAP && r !in Exec(s1, between).failed && r !in Exec(s1, between).fetched
    ensures var s1 := Apply(s, Handler(t, Fetch(IdOf(r)))); var s2 := Exec(s1, between);
      && t in s2.handlers && s2.handlers[t] == Missed(IdOf(r))
      && (PosOf(s2.queue, IdOf(r)) == -1 <==>
          exists i, j :: i < j && Inserts(s1, between, i, r) && Removes(s1, between, j, r))
  {
    var s1 := Apply(s, Handler(t, Fetch(IdOf(r))));
    var s2 := Exec(s1, between);
    AllocsGrow(s1, between);
    ReachableSound(s);
    KeepsSound(s, Handler(t, Fetch(IdOf(r))));
    RunSound(s1, between);
    PcKept(s1, between, t);
    HistoryGrows(s1, between, r);
    IdIsRef(s, r);
    assert r in s.pushed && r !in s.stored;
    PosIsIndex(s2, r);
    if r !in s2.queue {
      assert r !in s1.removed;
      var j := FindRemove(s1, between, r);
      var i := InsertBeforeRemove(s1, between, r, j);
    }
    if i, j :| i < j && Inserts(s1, between, i, r) && Removes(s1, between, j, r) {
      RemovesIsFinal(s1, between, j, r);
    }
  }

  lemma PosIsIndex(s: State, r: Ref)
    requires Good(s) && s.allocs < WRAP && Accepted(s, r)
    ensures PosOf(s.queue, IdOf(r)) == -1 <==> r !in s.queue
    ensures r in s.queue ==> PosOf(s.queue, IdOf(r)) == IndexOf(s.queue, r)
  {
    IdIsRef(s, r);
    forall x | x in s.queue ensures IdOf(x) == x {
      IdIsRef(s, x);
    }
    var p := PosOf(s.queue, IdOf(r));
    if p != -1 {
      assert s.queue[p] == r;
      IndexUnique(s.queue, p);
    }
  }

  /** After such a miss every later `get` answers "done", until one of them has fetched the result. */
  lemma GetAfterMissIsDone(s: State, acts: seq<Action>, r: Ref)
    requires Reachable(s) && Accepted(s, r) && r !in s.failed && r !in s.queue
    requires IsRun(s, acts) && Exec(s, acts).allocs < WRAP
    ensures HasResult(Exec(s, acts), r) || r in Exec(s, acts).fetched
    ensures r !in Exec(s, acts).queue
  {
    AllocsGrow(s, acts);
    ReachableSound(s);
    RunSound(s, acts);
    HistoryGrows(s, acts, r);
    IdIsRef(s, r);
    if r !in s.pushed {
      assert r in s.stored && r !in Exec(s, acts).failed;
      NeverPushed(s, acts, r);
    }
    IdIsRef(Exec(s, acts), r);
  }

  lemma {:induction false} NeverPushed(s: State, acts: seq<Action>, r: Ref)
    requires Good(s) && IsRun(s, acts)
    requires r in s.stored && r !in s.pushed
    ensures r !in Exec(s, acts).pushed
    decreases acts
  {
    if acts != [] {
      KeepsGood(s, acts[0]);
      StepGrows(s, acts[0], r);
      if r in Apply(s, acts[0]).pushed { NewlyPushed(s, acts[0], r); }
      NeverPushed(Apply(s, acts[0]), acts[1..], r);
    }
  }

  // ---- list ----

  /** `list` reads the queue before the results, the way commands travel, so it misses nothing:
      a command accepted before the queue scan, not failed and not fetched before the result scan,
      is reported among the requests or the responses. */
  lemma ListNeverMisses(s: State, t: Tid, between: seq<Action>, r: Ref)
    requires Reachable(s) && Accepted(s, r) && t !in s.handlers
    requires var s1 := Apply(s, Handler(t, ListQueue));
      && IsRun(s1, between) && Others(between, t)
      && Exec(s1, between).allocs < WRAP && r !in Exec(s1, between).failed && r !in Exec(s1, between).fetched
    ensures var s2 := Exec(Apply(s, Handler(t, ListQueue)), between);
      && t in s2.handlers && s2.handlers[t].Listed?
      && (r in s2.handlers[t].requests || HasResult(s2, r))
  {
    var s1 := Apply(s, Handler(t, ListQueue));
    AllocsGrow(s1, between);
    ReachableSound(s);
    KeepsSound(s, Handler(t, ListQueue));
    RunSound(s1, between);
    PcKept(s1, between, t);
    HistoryGrows(s1, between, r);
    NoGap(s, r);
    IdIsRef(s, r);
  }
}
