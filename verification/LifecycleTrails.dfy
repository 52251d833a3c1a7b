/** Every thread of the lifecycle goes through its program from the beginning, and what it counts on the way. */
module LifecycleTrails {
  import opened Text
  import opened Lifecycle

  /******* Where a thread has been *******/

  // The points of one thread over a run, in order, without repetitions.
  function Trail(ss: seq<Life>, tid: nat): seq<Pc> {
    if ss == [] then []
    else Visited(Trail(ss[..|ss| - 1], tid), ss[|ss| - 1], tid)
  }

  function Visited(trail: seq<Pc>, s: Life, tid: nat): seq<Pc> {
    if tid !in s.threads || (trail != [] && trail[|trail| - 1] == s.threads[tid]) then trail
    else trail + [s.threads[tid]]
  }

  // The programs, each from its entry to one of its ends.
  const SKIPPED := [RcWait, RcHeld, RcSkip, Ended(Skipped)]
  const WORKED := [RcWait, RcHeld, RcAdded, RcGo, WkCount, WkWait, WkReconcile, WkDone, Ended(Worked)]
  const START_FAILED := [StWait, StHeld, StAdmitted, StClient, Ended(StartFailed)]
  const STARTED := [StWait, StHeld, StAdmitted, StClient, StPublish, StReconcileWait, StReconcile, Ended(Nil)]
  const CLOSED_AGAIN := [ClWait, ClHeld, ClAgain, Ended(AlreadyClosed)]
  const TIMED_OUT := [ClWait, ClHeld, ClFirst, ClCancel, ClDrain, Ended(TimedOut)]
  const CLOSED := [ClWait, ClHeld, ClFirst, ClCancel, ClDrain, ClClient, Ended(ClientClosed)]
  const HANDLED := [HdWait, HdHandle, Ended(Handled)]

  function Refusing(why: Refusal): seq<Pc> {
    [StWait, StHeld, StRefused(why), Ended(Refused)]
  }

  predicate IsClosing(program: seq<Pc>) {
    program == CLOSED_AGAIN || program == TIMED_OUT || program == CLOSED
  }

  predicate IsProgram(program: seq<Pc>) {
    || program == SKIPPED || program == WORKED
    || program == START_FAILED || program == STARTED || program == Refusing(RuntimeClosed) || program == Refusing(AlreadyStarted)
    || program == HANDLED
    || IsClosing(program)
    // a Start whose status was not published closes the runtime
    || (|program| > 5 && program[..5] == STARTED[..5] && IsClosing(program[5..]))
  }

  // The way to each point.
  predicate Led(trail: seq<Pc>, pc: Pc) {
    match pc
    case RcWait => trail == WORKED[..1]
    case RcHeld => trail == WORKED[..2]
    case RcSkip => trail == SKIPPED[..3]
    case RcAdded => trail == WORKED[..3]
    case RcGo => trail == WORKED[..4]
    case WkCount => trail == WORKED[..5]
    case WkWait => trail == WORKED[..6]
    case WkReconcile => trail == WORKED[..7]
    case WkDone => trail == WORKED[..8]
    case StWait => trail == STARTED[..1]
    case StHeld => trail == STARTED[..2]
    case StRefused(why) => trail == Refusing(why)[..3]
    case StAdmitted => trail == STARTED[..3]
    case StClient => trail == STARTED[..4]
    case StPublish => trail == STARTED[..5]
    case StReconcileWait => trail == STARTED[..6]
    case StReconcile => trail == STARTED[..7]
    case ClWait => ClosesBy(trail, CLOSED[..1])
    case ClHeld => ClosesBy(trail, CLOSED[..2])
    case ClAgain => ClosesBy(trail, CLOSED_AGAIN[..3])
    case ClFirst => ClosesBy(trail, CLOSED[..3])
    case ClCancel => ClosesBy(trail, CLOSED[..4])
    case ClDrain => ClosesBy(trail, CLOSED[..5])
    case ClClient => ClosesBy(trail, CLOSED[..6])
    case HdWait => trail == HANDLED[..1]
    case HdHandle => trail == HANDLED[..2]
    case Ended(how) => Completes(trail, how)
  }

  // On its own, or after a Start whose status was not published.
  predicate ClosesBy(trail: seq<Pc>, part: seq<Pc>) {
    trail == part || trail == STARTED[..5] + part
  }

  predicate Completes(trail: seq<Pc>, how: Ending) {
    match how
    case Nil => trail == STARTED
    case Skipped => trail == SKIPPED
    case Worked => trail == WORKED
    case Refused => trail == Refusing(RuntimeClosed) || trail == Refusing(AlreadyStarted)
    case StartFailed => trail == START_FAILED
    case AlreadyClosed => ClosesBy(trail, CLOSED_AGAIN)
    case TimedOut => ClosesBy(trail, TIMED_OUT)
    case ClientClosed => ClosesBy(trail, CLOSED)
    case Handled => trail == HANDLED
  }

  lemma LedOn(trail: seq<Pc>, g: Shared, tid: nat, pc: Pc, luck: Luck)
    requires Led(trail, pc) && Take(g, tid, pc, luck).Go?
    ensures var pc' := Take(g, tid, pc, luck).pc; pc' != pc && Led(trail + [pc'], pc')
  {
    if IsReconnect(pc) {
      ReconnectLeads(trail, g, tid, pc);
    } else if IsStart(pc) {
      StartLeads(trail, g, tid, pc, luck);
    } else {
      CloseLeads(trail, g, tid, pc, luck);
    }
  }

  lemma ReconnectLeads(trail: seq<Pc>, g: Shared, tid: nat, pc: Pc)
    requires IsReconnect(pc) && Led(trail, pc) && ReconnectStep(g, tid, pc).Go?
    ensures var pc' := ReconnectStep(g, tid, pc).pc; pc' != pc && Led(trail + [pc'], pc')
  {
  }

  lemma StartLeads(trail: seq<Pc>, g: Shared, tid: nat, pc: Pc, luck: Luck)
    requires IsStart(pc) && Led(trail, pc) && StartStep(g, tid, pc, luck).Go?
    ensures var pc' := StartStep(g, tid, pc, luck).pc; pc' != pc && Led(trail + [pc'], pc')
  {
    if pc.StRefused? {
      assert trail + [Ended(Refused)] == Refusing(pc.why);
      assert pc.why == RuntimeClosed || pc.why == AlreadyStarted;
    }
  }

  lemma CloseLeads(trail: seq<Pc>, g: Shared, tid: nat, pc: Pc, luck: Luck)
    requires !IsReconnect(pc) && !IsStart(pc) && Led(trail, pc) && CloseStep(g, tid, pc, luck).Go?
    ensures var pc' := CloseStep(g, tid, pc, luck).pc; pc' != pc && Led(trail + [pc'], pc')
  {
  }

  // The trail of a thread ends where it stands, and leads there.
  ghost predicate Follows(ss: seq<Life>, tid: nat)
    requires ss != []
  {
    var s, trail := ss[|ss| - 1], Trail(ss, tid);
    if tid in s.threads then trail != [] && trail[|trail| - 1] == s.threads[tid] && Led(trail, s.threads[tid])
    else trail == []
  }

  lemma {:induction false} TrailFollows(ss: seq<Life>, tid: nat)
    requires Execution(ss)
    ensures Follows(ss, tid)
  {
    var n := |ss| - 1;
    if n == 0 {
      assert Trail(ss[..0], tid) == [];
    } else {
      var m := LastMove(ss, n);
      TrailFollows(ss[..n], tid);
      assert ss[..n][n - 1] == ss[n - 1];
      FollowsOn(ss[n - 1], m, ss[n], Trail(ss[..n], tid), tid);
    }
  }

  lemma FollowsOn(s: Life, m: Move, s': Life, trail: seq<Pc>, tid: nat)
    requires Next(s, m, s')
    requires if tid in s.threads then trail != [] && trail[|trail| - 1] == s.threads[tid] && Led(trail, s.threads[tid])
             else trail == []
    ensures var more := Visited(trail, s', tid);
      if tid in s'.threads then more != [] && more[|more| - 1] == s'.threads[tid] && Led(more, s'.threads[tid])
      else more == []
  {
    if m.Run? && m.tid == tid {
      LedOn(trail, s.g, tid, s.threads[tid], m.luck);
    } else if m.Enter? && m.tid == tid {
      assert [m.pc] == Visited(trail, s', tid);
    }
  }

  /******* Theorems *******/

  // In every run each thread has gone through a first part of a program, and all of it once it ended.
  lemma TrailsAreProgrammed(ss: seq<Life>, tid: nat) returns (program: seq<Pc>)
    requires Execution(ss) && tid in ss[|ss| - 1].threads
    ensures IsProgram(program) && Trail(ss, tid) <= program
    ensures ss[|ss| - 1].threads[tid].Ended? <==> Trail(ss, tid) == program
  {
    TrailFollows(ss, tid);
    program := ProgramOf(Trail(ss, tid), ss[|ss| - 1].threads[tid]);
  }

  lemma ProgramOf(trail: seq<Pc>, pc: Pc) returns (program: seq<Pc>)
    requires Led(trail, pc)
    ensures IsProgram(program) && trail <= program && (pc.Ended? <==> trail == program)
  {
    if pc.Ended? {
      program := trail;
      EndIsProgram(trail, pc.how);
    } else if IsReconnect(pc) {
      program := if pc.RcSkip? then SKIPPED else WORKED;
    } else if IsStart(pc) {
      program := if pc.StRefused? then Refusing(pc.why) else STARTED;
      assert pc.StRefused? ==> pc.why == RuntimeClosed || pc.why == AlreadyStarted;
    } else if pc.HdWait? || pc.HdHandle? {
      program := HANDLED;
    } else {
      program := ClosingOf(trail, pc);
    }
  }

  lemma EndIsProgram(trail: seq<Pc>, how: Ending)
    requires Completes(trail, how)
    ensures IsProgram(trail)
  {
    if how.AlreadyClosed? || how.TimedOut? || how.ClientClosed? {
      var part := if how.AlreadyClosed? then CLOSED_AGAIN else if how.TimedOut? then TIMED_OUT else CLOSED;
      assert (STARTED[..5] + part)[..5] == STARTED[..5] && (STARTED[..5] + part)[5..] == part;
    }
  }

  lemma ClosingOf(trail: seq<Pc>, pc: Pc) returns (program: seq<Pc>)
    requires !IsReconnect(pc) && !IsStart(pc) && !pc.HdWait? && !pc.HdHandle? && !pc.Ended? && Led(trail, pc)
    ensures IsProgram(program) && trail <= program && trail != program
  {
    var part := if pc.ClAgain? then CLOSED_AGAIN else CLOSED;
    program := if trail[0] == StWait then STARTED[..5] + part else part;
    assert (STARTED[..5] + part)[..5] == STARTED[..5] && (STARTED[..5] + part)[5..] == part;
  }

  // A thread that was counted and has ended went through the whole work: between counting its pass and giving back its
  // count it reconciled, once, holding the configure lock.
  lemma CountedWorkerReconciles(ss: seq<Life>, i: nat, j: nat, tid: nat)
    requires Execution(ss) && i <= j < |ss|
    requires tid in ss[i].threads && Counted(ss[i].threads[tid])
    requires tid in ss[j].threads && ss[j].threads[tid].Ended?
    ensures ss[j].threads[tid] == Ended(Worked) && Trail(ss[..j + 1], tid) == WORKED
    ensures forall k | 0 <= k <= j && tid in ss[k].threads && Reconciling(ss[k].threads[tid]) :: ss[k].g.smu == Some(tid)
  {
    EndOfTrail(ss, i, tid);
    EndOfTrail(ss, j, tid);
    TrailGrows(ss, i, j, tid);
    CountedIsWorker(Trail(ss[..i + 1], tid), ss[i].threads[tid], Trail(ss[..j + 1], tid), ss[j].threads[tid].how);
    ReconcilesUnderLock(ss, tid);
  }

  lemma EndOfTrail(ss: seq<Life>, i: nat, tid: nat)
    requires Execution(ss) && i < |ss| && tid in ss[i].threads
    ensures Led(Trail(ss[..i + 1], tid), ss[i].threads[tid])
  {
    TrailFollows(ss[..i + 1], tid);
  }

  // Whoever reconciles holds the configure lock.
  lemma ReconcilesUnderLock(ss: seq<Life>, tid: nat)
    requires Execution(ss)
    ensures forall k | 0 <= k < |ss| && tid in ss[k].threads && Reconciling(ss[k].threads[tid]) :: ss[k].g.smu == Some(tid)
  {
    forall k | 0 <= k < |ss| && tid in ss[k].threads && Reconciling(ss[k].threads[tid]) ensures ss[k].g.smu == Some(tid) {
      InvAlong(ss, k);
    }
  }

  predicate Reconciling(pc: Pc) {
    pc.WkReconcile? || pc.StReconcile?
  }

  lemma CountedIsWorker(trail: seq<Pc>, pc: Pc, more: seq<Pc>, how: Ending)
    requires Led(trail, pc) && Counted(pc) && trail <= more && Completes(more, how)
    ensures how == Worked
  {
    assert more[2] == trail[2] == RcAdded;
  }

  lemma {:induction false} TrailGrows(ss: seq<Life>, i: nat, j: nat, tid: nat)
    requires i <= j < |ss|
    ensures Trail(ss[..i + 1], tid) <= Trail(ss[..j + 1], tid)
  {
    if i < j {
      TrailGrows(ss, i, j - 1, tid);
      assert ss[..j + 1][..j] == ss[..j];
    }
  }

  // A Start that returned nil reconciled once, after the startup status, holding the configure lock.
  lemma StartReconciles(ss: seq<Life>, tid: nat)
    requires Execution(ss) && tid in ss[|ss| - 1].threads && ss[|ss| - 1].threads[tid] == Ended(Nil)
    ensures Trail(ss, tid) == STARTED
    ensures forall k | 0 <= k < |ss| && tid in ss[k].threads && Reconciling(ss[k].threads[tid]) :: ss[k].g.smu == Some(tid)
  {
    TrailFollows(ss, tid);
    ReconcilesUnderLock(ss, tid);
  }

  /******* Counters *******/

  predicate PassCounted(pc: Pc) {
    pc.WkWait? || pc.WkReconcile? || pc.WkDone? || pc == Ended(Worked)
  }

  predicate HasReconciled(pc: Pc) {
    pc.WkReconcile? || pc.WkDone? || pc == Ended(Worked) || pc.StReconcile? || pc == Ended(Nil)
  }

  predicate HasCancelled(pc: Pc) {
    pc.ClDrain? || pc.ClClient? || pc == Ended(TimedOut) || pc == Ended(ClientClosed)
  }

  function Passed(threads: map<nat, Pc>): set<nat> {
    set tid | tid in threads && PassCounted(threads[tid])
  }

  function Reconcilers(threads: map<nat, Pc>): set<nat> {
    set tid | tid in threads && HasReconciled(threads[tid])
  }

  ghost predicate Tallied(s: Life) {
    && s.g.passes == |Passed(s.threads)|
    && s.g.reconciles == |Reconcilers(s.threads)|
    && (s.g.cancelled <==> Canceller(s.threads))
  }

  ghost predicate Canceller(threads: map<nat, Pc>) {
    exists tid :: tid in threads && HasCancelled(threads[tid])
  }

  // How one step counts.
  ghost predicate Counts(pc: Pc, g: Shared, pc': Pc, g': Shared) {
    && (PassCounted(pc) ==> PassCounted(pc')) && g'.passes + One(PassCounted(pc)) == g.passes + One(PassCounted(pc'))
    && (HasReconciled(pc) ==> HasReconciled(pc'))
    && g'.reconciles + One(HasReconciled(pc)) == g.reconciles + One(HasReconciled(pc'))
    && (HasCancelled(pc) ==> HasCancelled(pc')) && (g'.cancelled <==> g.cancelled || HasCancelled(pc'))
  }

  lemma TakeCounts(g: Shared, tid: nat, pc: Pc, luck: Luck)
    requires Take(g, tid, pc, luck).Go? && (HasCancelled(pc) ==> g.cancelled)
    ensures Counts(pc, g, Take(g, tid, pc, luck).pc, Take(g, tid, pc, luck).g)
  {
    var turn := Take(g, tid, pc, luck);
    if IsReconnect(pc) {
      ReconnectCounts(g, tid, pc, turn.pc, turn.g);
    } else if IsStart(pc) {
      StartCounts(g, tid, pc, luck, turn.pc, turn.g);
    } else {
      CloseCounts(g, tid, pc, luck, turn.pc, turn.g);
    }
  }

  lemma ReconnectCounts(g: Shared, tid: nat, pc: Pc, pc': Pc, g': Shared)
    requires IsReconnect(pc) && ReconnectStep(g, tid, pc) == Go(pc', g')
    ensures Counts(pc, g, pc', g')
  {
  }

  lemma StartCounts(g: Shared, tid: nat, pc: Pc, luck: Luck, pc': Pc, g': Shared)
    requires IsStart(pc) && StartStep(g, tid, pc, luck) == Go(pc', g')
    ensures Counts(pc, g, pc', g')
  {
  }

  lemma CloseCounts(g: Shared, tid: nat, pc: Pc, luck: Luck, pc': Pc, g': Shared)
    requires !IsReconnect(pc) && !IsStart(pc) && CloseStep(g, tid, pc, luck) == Go(pc', g') && (HasCancelled(pc) ==> g.cancelled)
    ensures Counts(pc, g, pc', g')
  {
  }

  lemma TalliedOn(s: Life, m: Move, s': Life)
    requires Tallied(s) && Next(s, m, s')
    ensures Tallied(s')
  {
    if m.Enter? {
      assert Passed(s'.threads) == Passed(s.threads) && Reconcilers(s'.threads) == Reconcilers(s.threads);
      assert forall tid | tid in s.threads :: s'.threads[tid] == s.threads[tid];
    } else {
      TakeCounts(s.g, m.tid, s.threads[m.tid], m.luck);
      CountsOn(s, m.tid, s');
    }
  }

  lemma CountsOn(s: Life, tid: nat, s': Life)
    requires Tallied(s) && tid in s.threads && tid in s'.threads && s'.threads == s.threads[tid := s'.threads[tid]]
    requires Counts(s.threads[tid], s.g, s'.threads[tid], s'.g)
    ensures Tallied(s')
  {
    PassesOn(s.threads, tid, s'.threads[tid]);
    ReconcilersOn(s.threads, tid, s'.threads[tid]);
    CancellerOn(s.threads, tid, s'.threads[tid]);
  }

  lemma PassesOn(threads: map<nat, Pc>, tid: nat, pc: Pc)
    requires tid in threads && (PassCounted(threads[tid]) ==> PassCounted(pc))
    ensures |Passed(threads[tid := pc])| + One(PassCounted(threads[tid])) == |Passed(threads)| + One(PassCounted(pc))
  {
    var now, more := Passed(threads), Passed(threads[tid := pc]);
    if PassCounted(threads[tid]) == PassCounted(pc) {
      assert more == now;
    } else {
      assert more == now + {tid} && tid !in now;
      JoinedByOne(now, tid, more);
    }
  }

  lemma ReconcilersOn(threads: map<nat, Pc>, tid: nat, pc: Pc)
    requires tid in threads && (HasReconciled(threads[tid]) ==> HasReconciled(pc))
    ensures |Reconcilers(threads[tid := pc])| + One(HasReconciled(threads[tid])) == |Reconcilers(threads)| + One(HasReconciled(pc))
  {
    var now, more := Reconcilers(threads), Reconcilers(threads[tid := pc]);
    if HasReconciled(threads[tid]) == HasReconciled(pc) {
      assert more == now;
    } else {
      assert more == now + {tid} && tid !in now;
      JoinedByOne(now, tid, more);
    }
  }

  lemma JoinedByOne(tids: set<nat>, tid: nat, more: set<nat>)
    requires tid !in tids && more == tids + {tid}
    ensures |more| == |tids| + 1
  {
  }

  lemma CancellerOn(threads: map<nat, Pc>, tid: nat, pc: Pc)
    requires tid in threads && (HasCancelled(threads[tid]) ==> HasCancelled(pc))
    ensures Canceller(threads[tid := pc]) <==> Canceller(threads) || HasCancelled(pc)
  {
    var more := threads[tid := pc];
    assert forall other | other in threads && other != tid :: more[other] == threads[other];
    assert more[tid] == pc;
  }

  // At every moment the passes counted are those of the workers that counted one, the reconciles begun are those of the
  // workers and of the Start that began one, and the runtime is cancelled once a closer got past cancelling it.
  lemma {:induction false} TalliesAgree(ss: seq<Life>, i: nat)
    requires Execution(ss) && i < |ss|
    ensures Tallied(ss[i])
  {
    if i == 0 {
      assert Passed(ss[0].threads) == {} && Reconcilers(ss[0].threads) == {};
    } else {
      TalliesAgree(ss, i - 1);
      var m := LastMove(ss, i);
      TalliedOn(ss[i - 1], m, ss[i]);
    }
  }
}
