/** How runs of the lifecycle end: what may still go on when the client is closed, and when a Close gets to close it. */
module LifecycleEnds {
  import opened Text
  import opened Lifecycle

  function Last(ss: seq<Life>): Life
    requires ss != []
  {
    ss[|ss| - 1]
  }

  /******* What the WaitGroup does not cover *******/

  // When the client is closed, whoever is inside the configure lock is Start with its own reconcile or a notification
  // being handled: never a counted worker.
  lemma ClosedAmidConfigure(ss: seq<Life>, i: nat, tid: nat)
    requires Execution(ss) && i < |ss| && ss[i].g.clientCloses == 1
    requires tid in ss[i].threads && HoldsS(ss[i].threads[tid])
    ensures ss[i].threads[tid] == StReconcile || ss[i].threads[tid] == HdHandle
  {
    LifecycleIsSafe(ss, i);
    assert tid !in Live(ss[i].threads);
  }

  // Both happen.
  lemma StartupReconcileIsNotCounted() returns (ss: seq<Life>)
    ensures Execution(ss) && Last(ss).g.clientCloses == 1 && 0 in Last(ss).threads && Last(ss).threads[0] == StReconcile
  {
    ss := StartReconciles();
    ss := CloseAround(ss, 1);
  }

  // Start returned, a notification is being handled, and the client is closed meanwhile.
  lemma HandlingIsNotCounted() returns (ss: seq<Life>)
    ensures Execution(ss) && Last(ss).g.clientCloses == 1
    ensures Last(ss).threads == map[0 := Ended(Nil), 1 := HdHandle, 2 := Ended(ClientClosed)]
  {
    ss := StartReconciles();
    ss := RunOn(ss, 0, Good);
    ss := EnterOn(ss, 1, HdWait);
    ss := RunOn(ss, 1, Good);
    assert Last(ss).threads == map[0 := Ended(Nil), 1 := HdHandle];
    ss := CloseAround(ss, 2);
  }

  // A Start on its own, up to its reconcile.
  lemma StartReconciles() returns (ss: seq<Life>)
    ensures Execution(ss)
    ensures Last(ss) == Life(QUIET.(flags := Flags(true, false, 0), admitted := 1, reconciles := 1, smu := Some(0)), map[0 := StReconcile])
  {
    ss := [Life(QUIET, map[])];
    ss := EnterOn(ss, 0, StWait);
    ss := RunOn(ss, 0, Good);
    ss := RunOn(ss, 0, Good);
    ss := RunOn(ss, 0, Good);
    assert Last(ss) == Life(QUIET.(flags := Flags(true, false, 0), admitted := 1), map[0 := StClient]);
    ss := StartsUp(ss);
  }

  lemma StartsUp(ss: seq<Life>) returns (ss': seq<Life>)
    requires Execution(ss) && Last(ss) == Life(QUIET.(flags := Flags(true, false, 0), admitted := 1), map[0 := StClient])
    ensures Execution(ss')
    ensures Last(ss') == Life(Last(ss).g.(reconciles := 1, smu := Some(0)), map[0 := StReconcile])
  {
    ss' := RunOn(ss, 0, Good);
    ss' := RunOn(ss', 0, Good);
    ss' := RunOn(ss', 0, Good);
  }

  // A Close runs from its call to its end while the others rest.
  lemma CloseAround(ss: seq<Life>, tid: nat) returns (ss': seq<Life>)
    requires Execution(ss) && tid !in Last(ss).threads
    requires Last(ss).g.rmu == None && !Last(ss).g.flags.closed && Last(ss).g.flags.wg == 0
    ensures Execution(ss') && Last(ss').g.clientCloses == Last(ss).g.clientCloses + 1
    ensures Last(ss').threads == Last(ss).threads[tid := Ended(ClientClosed)]
  {
    ss' := EnterOn(ss, tid, ClWait);
    ss' := RunOn(ss', tid, Good);
    ss' := CloseMarks(ss', tid);
    ss' := CloseOn(ss', tid);
  }

  lemma CloseMarks(ss: seq<Life>, tid: nat) returns (ss': seq<Life>)
    requires Execution(ss) && tid in Last(ss).threads && Last(ss).threads[tid] == ClHeld
    requires !Last(ss).g.flags.closed && Last(ss).g.flags.wg == 0
    ensures Execution(ss') && Last(ss').g.flags.wg == 0 && Last(ss').g.clientCloses == Last(ss).g.clientCloses
    ensures Last(ss').threads == Last(ss).threads[tid := ClCancel]
  {
    ss' := RunOn(ss, tid, Good);
    ss' := RunOn(ss', tid, Good);
  }

  lemma CloseOn(ss: seq<Life>, tid: nat) returns (ss': seq<Life>)
    requires Execution(ss) && tid in Last(ss).threads && Last(ss).threads[tid] == ClCancel && Last(ss).g.flags.wg == 0
    ensures Execution(ss') && Last(ss').g.clientCloses == Last(ss).g.clientCloses + 1
    ensures Last(ss').threads == Last(ss).threads[tid := Ended(ClientClosed)]
  {
    ss' := RunOn(ss, tid, Good);
    ss' := RunOn(ss', tid, Good);
    ss' := RunOn(ss', tid, Good);
  }

  /******* Everyone can end *******/

  // How many steps are left at most, over all threads.
  ghost function Total(threads: map<nat, Pc>): nat
    decreases |threads|
  {
    if threads == map[] then 0
    else
      var tid :| tid in threads;
      Rank(threads[tid]) + Total(threads - {tid})
  }

  lemma {:induction false} TotalWithout(threads: map<nat, Pc>, tid: nat)
    requires tid in threads
    ensures Total(threads) == Rank(threads[tid]) + Total(threads - {tid})
    decreases |threads|
  {
    var first :| tid in threads && first in threads && Total(threads) == Rank(threads[first]) + Total(threads - {first});
    if first != tid {
      TotalWithout(threads - {first}, tid);
      TotalWithout(threads - {tid}, first);
      assert threads - {first} - {tid} == threads - {tid} - {first};
    }
  }

  lemma TotalDescends(threads: map<nat, Pc>, tid: nat, pc: Pc)
    requires tid in threads && Rank(pc) < Rank(threads[tid])
    ensures Total(threads[tid := pc]) < Total(threads)
  {
    TotalWithout(threads, tid);
    TotalWithout(threads[tid := pc], tid);
    assert threads[tid := pc] - {tid} == threads - {tid};
  }

  ghost predicate AllEnded(s: Life) {
    forall tid | tid in s.threads :: s.threads[tid].Ended?
  }

  // The same threads went on, and none of them timed out on the way.
  ghost predicate WentOn(s: Life, s': Life) {
    && s'.threads.Keys == s.threads.Keys
    && forall tid | tid in s.threads :: s'.threads[tid] == Ended(TimedOut) ==> s.threads[tid] == Ended(TimedOut)
  }

  // From every reachable state the threads that are there can all end, without a time-out.
  lemma {:induction false} EveryoneCanEnd(ss: seq<Life>) returns (ss': seq<Life>)
    requires Execution(ss)
    ensures Execution(ss') && ss <= ss' && AllEnded(Last(ss')) && WentOn(Last(ss), Last(ss'))
    decreases Total(Last(ss).threads)
  {
    var s := Last(ss);
    if AllEnded(s) {
      ss' := ss;
    } else {
      var tid :| tid in s.threads && !s.threads[tid].Ended?;
      var mover := NoDeadlock(ss, |ss| - 1, tid);
      TakeDescends(s.g, mover, s.threads[mover], Good);
      TotalDescends(s.threads, mover, Take(s.g, mover, s.threads[mover], Good).pc);
      NoTimeOut(s.g, mover, s.threads[mover]);
      var more := RunOn(ss, mover, Good);
      ss' := EveryoneCanEnd(more);
    }
  }

  lemma NoTimeOut(g: Shared, tid: nat, pc: Pc)
    requires Take(g, tid, pc, Good).Go?
    ensures Take(g, tid, pc, Good).pc != Ended(TimedOut)
  {
  }

  ghost predicate CanCloseClient(ss: seq<Life>) {
    exists more :: Execution(more) && ss <= more && Last(more).g.clientCloses == 1
  }

  // Once the runtime is closed, the client is closed by some continuation if and only if the Close that marked it did
  // not time out.
  lemma ClientClosesIffNotTimedOut(ss: seq<Life>)
    requires Execution(ss) && Last(ss).g.flags.closed
    ensures Last(ss).g.closer.Some? && Last(ss).g.closer.value in Last(ss).threads
    ensures CanCloseClient(ss) <==> Last(ss).threads[Last(ss).g.closer.value] != Ended(TimedOut)
  {
    var n := |ss| - 1;
    InvAlong(ss, n);
    var closer := Last(ss).g.closer.value;
    if Last(ss).threads[closer] == Ended(TimedOut) {
      forall more | Execution(more) && ss <= more ensures Last(more).g.clientCloses == 0 {
        assert more[n] == ss[n];
        TimedOutNeverClosesClient(more, n, |more| - 1, closer);
      }
    } else {
      var more := EveryoneCanEnd(ss);
      assert more[n] == ss[n];
      InvAlong(more, |more| - 1);
      ClosedIsForGood(more, n, |more| - 1);
      assert IsCloser(Last(more).threads[closer]);
    }
  }
}
