/** locked/queue.h: a list behind a mutex, with an optional blocking wait for data. */
module LockedQueue {
  import opened Seqs

  type Thread = nat

  /** What one pass through `front` gives a caller. */
  datatype FrontResult<T> = MustWait | NothingThere | Item(value: T)

  /** Each method is one critical section (or one unlocked flag access). The condition variable is
      the set of threads asleep on it: `notify_all` empties that set. */
  class Queue<T(==)> {
    var iqueue: seq<T>
    var isBlocking: bool
    var isRunning: bool
    var sleepers: set<Thread>

    /** No lost wakeup: a thread is asleep only while there is a reason to sleep. */
    ghost predicate Valid()
      reads this
    {
      sleepers != {} ==> isBlocking && iqueue == []
    }

    constructor ()
      ensures Valid()
      ensures iqueue == [] && isBlocking && !isRunning && sleepers == {}
    {
      iqueue, isBlocking, isRunning, sleepers := [], true, false, {};
    }

    method DisableWait()
      requires Valid()
      modifies this
      ensures Valid()
      ensures !isBlocking && sleepers == {}
      ensures iqueue == old(iqueue) && isRunning == old(isRunning)
    {
      isBlocking := false;
      sleepers := {};
    }

    method Enable(on: bool)
      requires Valid()
      modifies `isRunning
      ensures Valid()
      ensures isRunning == on
    {
      isRunning := on;
    }

    method EnableWait()
      requires Valid()
      modifies `isBlocking
      ensures Valid()
      ensures isBlocking
    {
      isBlocking := true;
    }

    method WaitEnabled() returns (on: bool)
      ensures on == isBlocking
    {
      on := isBlocking;
    }

    /** Appends when a worker serves the queue; otherwise the value is silently lost and nobody is woken. */
    method Push(value: T)
      requires Valid()
      modifies this
      ensures Valid()
      ensures isBlocking == old(isBlocking) && isRunning == old(isRunning)
      ensures isRunning ==> iqueue == old(iqueue) + [value] && sleepers == {}
      ensures !isRunning ==> iqueue == old(iqueue) && sleepers == old(sleepers)
    {
      if !isRunning { return; }
      iqueue := iqueue + [value];
      sleepers := {};
    }

    method PushFront(value: T)
      requires Valid()
      modifies this
      ensures Valid()
      ensures isBlocking == old(isBlocking) && isRunning == old(isRunning)
      ensures isRunning ==> iqueue == [value] + old(iqueue) && sleepers == {}
      ensures !isRunning ==> iqueue == old(iqueue) && sleepers == old(sleepers)
    {
      if !isRunning { return; }
      iqueue := [value] + iqueue;
      sleepers := {};
    }

    /** One evaluation of the wait predicate by thread `t`, which is awake: it goes to sleep exactly
        when the queue is empty and blocking, and otherwise leaves with the head, if there is one. */
    method Front(t: Thread) returns (r: FrontResult<T>)
      requires Valid() && t !in sleepers
      modifies `sleepers
      ensures Valid()
      ensures r.MustWait? <==> isBlocking && iqueue == []
      ensures r.NothingThere? <==> !isBlocking && iqueue == []
      ensures r.Item? ==> iqueue != [] && r.value == iqueue[0]
      ensures sleepers == if r.MustWait? then old(sleepers) + {t} else old(sleepers)
    {
      if !(!isBlocking || iqueue != []) {
        sleepers := sleepers + {t};
        return MustWait;
      }
      if iqueue == [] { return NothingThere; }
      r := Item(iqueue[0]);
    }

    /** `t` leaves the condition variable, notified or not (spurious wakeups are allowed). */
    method Wake(t: Thread)
      requires Valid()
      modifies `sleepers
      ensures Valid()
      ensures sleepers == old(sleepers) - {t}
    {
      sleepers := sleepers - {t};
    }

    /** Takes out every element equal to `v`. */
    method Remove(v: T)
      requires Valid()
      modifies `iqueue
      ensures Valid()
      ensures iqueue == Without(old(iqueue), v)
    {
      var kept, i := [], 0;
      while i < |iqueue|
        invariant 0 <= i <= |iqueue|
        invariant iqueue == old(iqueue)
        invariant kept == Without(iqueue[..i], v)
      {
        assert iqueue[..i + 1][..i] == iqueue[..i];
        if iqueue[i] != v {
          kept := kept + [iqueue[i]];
        }
        i := i + 1;
      }
      assert iqueue[..i] == iqueue;
      iqueue := kept;
    }

    /** Position of the first element that satisfies `pred`, or -1. */
    method FindQorder(pred: T -> bool) returns (qo: int)
      ensures -1 <= qo < |iqueue|
      ensures qo == -1 <==> forall j :: 0 <= j < |iqueue| ==> !pred(iqueue[j])
      ensures 0 <= qo ==> pred(iqueue[qo]) && forall j :: 0 <= j < qo ==> !pred(iqueue[j])
    {
      qo := 0;
      while qo < |iqueue|
        invariant 0 <= qo <= |iqueue|
        invariant forall j :: 0 <= j < qo ==> !pred(iqueue[j])
      {
        if pred(iqueue[qo]) { return; }
        qo := qo + 1;
      }
      qo := -1;
    }

    method Empty() returns (e: bool)
      ensures e <==> iqueue == []
    {
      e := iqueue == [];
    }
  }

  /** `remove` erases duplicates too: what is left holds no copy of `v` and the same number of
      copies of everything else, so on distinct elements exactly one element goes. */
  lemma {:induction false} RemoveErasesEveryCopy<T>(s: seq<T>, v: T, y: T)
    ensures Count(Without(s, v), y) == if y == v then 0 else Count(s, y)
    ensures |Without(s, v)| + Count(s, v) == |s|
  {
    if s != [] {
      var c, l := s[..|s| - 1], s[|s| - 1];
      RemoveErasesEveryCopy(c, v, y);
      if l != v {
        assert (Without(c, v) + [l])[..|Without(c, v)|] == Without(c, v);
      } else {
        assert Without(c, v) + [] == Without(c, v);
      }
    }
  }
}
