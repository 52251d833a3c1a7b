/** The runtime lifecycle: Start, Close, reconnect callbacks and their workers, around r.mu and the configure lock. */
module Lifecycle {
  import opened Text

  /******* What is guarded by r.mu *******/

  datatype Flags = Flags(started: bool, closed: bool, wg: nat)

  datatype Refusal = RuntimeClosed | AlreadyStarted

  function Admit(f: Flags): (Flags, Option<Refusal>) {
    if f.closed then (f, Some(RuntimeClosed))
    else if f.started then (f, Some(AlreadyStarted))
    else (f.(started := true), None)
  }

  // The second component tells whether it was closed already.
  function Shut(f: Flags): (Flags, bool) {
    if f.closed then (f, true) else (f.(closed := true), false)
  }

  // The critical section of the reconnect callback: whether a worker is counted.
  function CountWorker(f: Flags): (Flags, bool) {
    if f.closed then (f, false) else (f.(wg := f.wg + 1), true)
  }

  /******* Threads *******/

  datatype Ending = Nil | Skipped | Worked | Refused | StartFailed | AlreadyClosed | TimedOut | ClientClosed | Handled

  datatype Pc =
    // reconnect callback: lock, decide, unlock, go
    | RcWait | RcHeld | RcSkip | RcAdded | RcGo
    // its worker: count the pass, take the configure lock, reconcile, wg.Done
    | WkCount | WkWait | WkReconcile | WkDone
    // Start
    | StWait | StHeld | StRefused(why: Refusal) | StAdmitted | StClient | StPublish | StReconcileWait | StReconcile
    // Close
    | ClWait | ClHeld | ClAgain | ClFirst | ClCancel | ClDrain | ClClient
    // a configure notification
    | HdWait | HdHandle
    | Ended(how: Ending)

  // rmu is r.mu and smu the configure lock; reconciles counts the calls of Reconcile that took it. These, admitted,
  // clientCloses and closer are kept for the theorems.
  datatype Shared = Shared(
    flags: Flags, cancelled: bool, rmu: Option<nat>, smu: Option<nat>,
    passes: nat, reconciles: nat, admitted: nat, clientCloses: nat, closer: Option<nat>)

  datatype Life = Life(g: Shared, threads: map<nat, Pc>)

  const QUIET := Shared(Flags(false, false, 0), false, None, None, 0, 0, 0, 0, None)

  ghost predicate Init(s: Life) {
    s == Life(QUIET, map[])
  }

  // Where a thread can begin. Handlers are registered by Start, once it was admitted.
  predicate IsEntry(g: Shared, pc: Pc) {
    pc.RcWait? || pc.StWait? || pc.ClWait? || (pc.HdWait? && g.flags.started)
  }

  // The outcomes that are not up to the runtime: a client call or publish that fails, a Close that times out.
  datatype Luck = Good | Bad

  // Where a step leads. Blocked: the thread has to wait.
  datatype Turn = Blocked | Go(pc: Pc, g: Shared)

  function Lock(g: Shared, tid: nat, pc: Pc): Turn {
    if g.rmu == None then Go(pc, g.(rmu := Some(tid))) else Blocked
  }

  function Unlock(g: Shared, pc: Pc): Turn {
    Go(pc, g.(rmu := None))
  }

  function LockConfigure(g: Shared, tid: nat, pc: Pc): Turn {
    if g.smu == None then Go(pc, g.(smu := Some(tid))) else Blocked
  }

  // The configure service takes it for a Reconcile.
  function BeginReconcile(g: Shared, tid: nat, pc: Pc): Turn {
    LockConfigure(g.(reconciles := g.reconciles + 1), tid, pc)
  }

  function UnlockConfigure(g: Shared, pc: Pc): Turn {
    Go(pc, g.(smu := None))
  }

  function ReconnectStep(g: Shared, tid: nat, pc: Pc): Turn {
    match pc
    case RcWait => Lock(g, tid, RcHeld)
    case RcHeld =>
      var (flags, counted) := CountWorker(g.flags);
      Go(if counted then RcAdded else RcSkip, g.(flags := flags))
    case RcSkip => Unlock(g, Ended(Skipped))
    case RcAdded => Unlock(g, RcGo)
    case RcGo => Go(WkCount, g)
    case WkCount => Go(WkWait, g.(passes := g.passes + 1))
    case WkWait => BeginReconcile(g, tid, WkReconcile)
    case WkReconcile => UnlockConfigure(g, WkDone)
    case WkDone => if g.flags.wg > 0 then Go(Ended(Worked), g.(flags := g.flags.(wg := g.flags.wg - 1))) else Blocked
    case _ => Blocked
  }

  function StartStep(g: Shared, tid: nat, pc: Pc, luck: Luck): Turn {
    match pc
    case StWait => Lock(g, tid, StHeld)
    case StHeld =>
      var (flags, err) := Admit(g.flags);
      if err.Some? then Go(StRefused(err.value), g)
      else Go(StAdmitted, g.(flags := flags, admitted := g.admitted + 1))
    case StRefused(_) => Unlock(g, Ended(Refused))
    case StAdmitted => Unlock(g, StClient)
    case StClient => Go(if luck.Good? then StPublish else Ended(StartFailed), g)
    case StPublish => Go(if luck.Good? then StReconcileWait else ClWait, g)
    case StReconcileWait => BeginReconcile(g, tid, StReconcile)
    case StReconcile => UnlockConfigure(g, Ended(Nil))
    case _ => Blocked
  }

  function CloseStep(g: Shared, tid: nat, pc: Pc, luck: Luck): Turn {
    match pc
    case ClWait => Lock(g, tid, ClHeld)
    case ClHeld =>
      var (flags, already) := Shut(g.flags);
      if already then Go(ClAgain, g) else Go(ClFirst, g.(flags := flags, closer := Some(tid)))
    case ClAgain => Unlock(g, Ended(AlreadyClosed))
    case ClFirst => Unlock(g, ClCancel)
    case ClCancel => Go(ClDrain, g.(cancelled := true))
    case ClDrain =>
      if luck.Bad? then Go(Ended(TimedOut), g) else if g.flags.wg == 0 then Go(ClClient, g) else Blocked
    case ClClient => Go(Ended(ClientClosed), g.(clientCloses := g.clientCloses + 1))
    case HdWait => LockConfigure(g, tid, HdHandle)
    case HdHandle => UnlockConfigure(g, Ended(Handled))
    case _ => Blocked
  }

  function Take(g: Shared, tid: nat, pc: Pc, luck: Luck): Turn {
    if IsReconnect(pc) then ReconnectStep(g, tid, pc)
    else if IsStart(pc) then StartStep(g, tid, pc, luck)
    else CloseStep(g, tid, pc, luck)
  }

  datatype Move = Enter(tid: nat, pc: Pc) | Run(tid: nat, luck: Luck)

  ghost predicate Next(s: Life, m: Move, s': Life) {
    match m
    case Enter(tid, pc) => tid !in s.threads && IsEntry(s.g, pc) && s' == s.(threads := s.threads[tid := pc])
    case Run(tid, luck) =>
      && tid in s.threads
      && var turn := Take(s.g, tid, s.threads[tid], luck);
      turn.Go? && s' == Life(turn.g, s.threads[tid := turn.pc])
  }

  ghost predicate Moves(s: Life, s': Life) {
    exists m :: Next(s, m, s')
  }

  ghost predicate Execution(ss: seq<Life>) {
    ss != [] && Init(ss[0]) && forall i | 0 <= i < |ss| - 1 :: Moves(ss[i], ss[i + 1])
  }

  /******* Invariant *******/

  predicate HoldsR(pc: Pc) {
    pc.RcHeld? || pc.RcSkip? || pc.RcAdded? || pc.StHeld? || pc.StRefused? || pc.StAdmitted?
    || pc.ClHeld? || pc.ClAgain? || pc.ClFirst?
  }

  predicate HoldsS(pc: Pc) {
    pc.WkReconcile? || pc.StReconcile? || pc.HdHandle?
  }

  predicate WaitsForS(pc: Pc) {
    pc.WkWait? || pc.StReconcileWait? || pc.HdWait?
  }

  // Counted in the WaitGroup: from wg.Add to wg.Done.
  predicate Counted(pc: Pc) {
    pc.RcAdded? || pc.RcGo? || pc.WkCount? || pc.WkWait? || pc.WkReconcile? || pc.WkDone?
  }

  predicate IsReconnect(pc: Pc) {
    Counted(pc) || pc.RcWait? || pc.RcHeld? || pc.RcSkip?
  }

  predicate IsStart(pc: Pc) {
    pc.StWait? || pc.StHeld? || pc.StRefused? || pc.StAdmitted? || pc.StClient? || pc.StPublish?
    || pc.StReconcileWait? || pc.StReconcile?
  }

  predicate IsCloser(pc: Pc) {
    pc.ClFirst? || pc.ClCancel? || pc.ClDrain? || pc.ClClient? || pc == Ended(TimedOut) || pc == Ended(ClientClosed)
  }

  function Live(threads: map<nat, Pc>): set<nat> {
    set tid | tid in threads && Counted(threads[tid])
  }

  ghost predicate Locks(s: Life) {
    && (forall tid | tid in s.threads :: HoldsR(s.threads[tid]) <==> s.g.rmu == Some(tid))
    && (forall tid | tid in s.threads :: HoldsS(s.threads[tid]) <==> s.g.smu == Some(tid))
    && (s.g.rmu.Some? ==> s.g.rmu.value in s.threads)
    && (s.g.smu.Some? ==> s.g.smu.value in s.threads)
  }

  ghost predicate Closing(s: Life) {
    && (s.g.closer.Some? <==> s.g.flags.closed)
    && (s.g.closer.Some? ==> s.g.closer.value in s.threads)
    && (forall tid | tid in s.threads :: IsCloser(s.threads[tid]) <==> s.g.closer == Some(tid))
    && s.g.clientCloses == (if s.g.closer.Some? && s.threads[s.g.closer.value] == Ended(ClientClosed) then 1 else 0)
    && (s.g.closer.Some? && (s.threads[s.g.closer.value].ClClient? || s.threads[s.g.closer.value] == Ended(ClientClosed)) ==>
          s.g.flags.wg == 0)
  }

  ghost predicate Inv(s: Life) {
    && Locks(s)
    && Closing(s)
    && s.g.flags.wg == |Live(s.threads)|
    && s.g.admitted == (if s.g.flags.started then 1 else 0)
  }

  function One(b: bool): nat {
    if b then 1 else 0
  }

  // What every step keeps to, whatever the thread is doing: how its place in the program and the shared state move.
  ghost predicate Shift(pc: Pc, g: Shared, tid: nat, pc': Pc, g': Shared) {
    && !pc.Ended?
    && Hand(g.rmu, HoldsR(pc), tid, g'.rmu, HoldsR(pc'))
    && Hand(g.smu, HoldsS(pc), tid, g'.smu, HoldsS(pc'))
    && g'.flags.wg + One(Counted(pc)) == g.flags.wg + One(Counted(pc'))
    && (g.flags.closed && Counted(pc') ==> Counted(pc))
    && (if g'.flags.closed == g.flags.closed then g'.closer == g.closer && (IsCloser(pc') <==> IsCloser(pc))
        else !g.flags.closed && g'.flags.closed && !IsCloser(pc) && pc'.ClFirst? && g'.closer == Some(tid))
    && g'.clientCloses == g.clientCloses + One(pc' == Ended(ClientClosed))
    && (pc' == Ended(ClientClosed) ==> pc.ClClient?)
    && (pc'.ClClient? ==> g.flags.wg == 0)
    && (g.flags.started ==> g'.flags.started)
    && g'.admitted == g.admitted + One(g'.flags.started && !g.flags.started)
    && (g.flags.closed ==> g'.flags.started == g.flags.started)
  }

  // A lock is left alone, taken when it is free, or given back by its holder.
  predicate Hand(lock: Option<nat>, held: bool, tid: nat, lock': Option<nat>, held': bool) {
    || (lock' == lock && held' == held)
    || (lock == None && !held && lock' == Some(tid) && held')
    || (held && lock' == None && !held')
  }

  lemma ReconnectShifts(g: Shared, tid: nat, pc: Pc)
    requires IsReconnect(pc) && ReconnectStep(g, tid, pc).Go?
    ensures Shift(pc, g, tid, ReconnectStep(g, tid, pc).pc, ReconnectStep(g, tid, pc).g)
  {
  }

  lemma StartShifts(g: Shared, tid: nat, pc: Pc, luck: Luck)
    requires IsStart(pc) && StartStep(g, tid, pc, luck).Go?
    ensures Shift(pc, g, tid, StartStep(g, tid, pc, luck).pc, StartStep(g, tid, pc, luck).g)
  {
  }

  lemma CloseShifts(g: Shared, tid: nat, pc: Pc, luck: Luck)
    requires !IsReconnect(pc) && !IsStart(pc) && CloseStep(g, tid, pc, luck).Go?
    ensures Shift(pc, g, tid, CloseStep(g, tid, pc, luck).pc, CloseStep(g, tid, pc, luck).g)
  {
  }

  lemma TakeShifts(g: Shared, tid: nat, pc: Pc, luck: Luck)
    requires Take(g, tid, pc, luck).Go?
    ensures Shift(pc, g, tid, Take(g, tid, pc, luck).pc, Take(g, tid, pc, luck).g)
  {
    if IsReconnect(pc) {
      ReconnectShifts(g, tid, pc);
    } else if IsStart(pc) {
      StartShifts(g, tid, pc, luck);
    } else {
      CloseShifts(g, tid, pc, luck);
    }
  }

  ghost predicate Shifted(s: Life, tid: nat, s': Life) {
    && tid in s.threads && tid in s'.threads && s'.threads == s.threads[tid := s'.threads[tid]]
    && Shift(s.threads[tid], s.g, tid, s'.threads[tid], s'.g)
  }

  lemma RunShifts(s: Life, m: Move, s': Life)
    requires m.Run? && Next(s, m, s')
    ensures Shifted(s, m.tid, s')
  {
    TakeShifts(s.g, m.tid, s.threads[m.tid], m.luck);
  }

  lemma InvOn(s: Life, m: Move, s': Life)
    requires Inv(s) && Next(s, m, s')
    ensures Inv(s')
  {
    match m
    case Enter(tid, pc) =>
      assert Live(s'.threads) == Live(s.threads);
    case Run(tid, luck) =>
      RunShifts(s, m, s');
      LocksOn(s, tid, s');
      LiveOn(s, tid, s');
      ClosingOn(s, tid, s');
  }

  lemma LocksOn(s: Life, tid: nat, s': Life)
    requires Locks(s) && Shifted(s, tid, s')
    ensures Locks(s')
  {
  }

  lemma LiveOn(s: Life, tid: nat, s': Life)
    requires s.g.flags.wg == |Live(s.threads)| && Shifted(s, tid, s')
    ensures s'.g.flags.wg == |Live(s'.threads)|
    ensures s.g.flags.closed ==> Live(s'.threads) <= Live(s.threads) && s'.g.flags.wg <= s.g.flags.wg
  {
    if Counted(s'.threads[tid]) {
      assert Live(s'.threads) == Live(s.threads) + {tid};
    } else {
      assert Live(s'.threads) == Live(s.threads) - {tid};
    }
  }

  lemma ClosingOn(s: Life, tid: nat, s': Life)
    requires Closing(s) && Shifted(s, tid, s') && s.g.flags.wg == |Live(s.threads)|
    ensures Closing(s')
  {
    LiveOn(s, tid, s');
  }

  lemma {:induction false} InvAlong(ss: seq<Life>, i: nat)
    requires Execution(ss) && i < |ss|
    ensures Inv(ss[i])
  {
    if i == 0 {
      assert Live(ss[0].threads) == {};
    } else {
      InvAlong(ss, i - 1);
      var m := LastMove(ss, i);
      InvOn(ss[i - 1], m, ss[i]);
    }
  }

  /******* Theorems *******/

  // At every moment: the WaitGroup counts the live workers, at most one Start was admitted, and the client was closed
  // at most once, only when nothing is live.
  lemma LifecycleIsSafe(ss: seq<Life>, i: nat)
    requires Execution(ss) && i < |ss|
    ensures ss[i].g.flags.wg == |Live(ss[i].threads)|
    ensures ss[i].g.admitted <= 1 && (ss[i].g.admitted == 1 <==> ss[i].g.flags.started)
    ensures ss[i].g.clientCloses <= 1
    ensures ss[i].g.clientCloses == 1 ==> ss[i].g.flags.closed && Live(ss[i].threads) == {}
  {
    InvAlong(ss, i);
  }

  // A step extends an execution.
  lemma RunOn(ss: seq<Life>, tid: nat, luck: Luck) returns (ss': seq<Life>)
    requires Execution(ss) && tid in ss[|ss| - 1].threads
    requires Take(ss[|ss| - 1].g, tid, ss[|ss| - 1].threads[tid], luck).Go?
    ensures var turn := Take(ss[|ss| - 1].g, tid, ss[|ss| - 1].threads[tid], luck);
      ss' != [] && ss'[|ss'| - 1] == Life(turn.g, ss[|ss| - 1].threads[tid := turn.pc])
    ensures Execution(ss') && ss <= ss'
  {
    var s := ss[|ss| - 1];
    var turn := Take(s.g, tid, s.threads[tid], luck);
    var s' := Life(turn.g, s.threads[tid := turn.pc]);
    assert Next(s, Run(tid, luck), s');
    ss' := ss + [s'];
  }

  lemma EnterOn(ss: seq<Life>, tid: nat, pc: Pc) returns (ss': seq<Life>)
    requires Execution(ss) && tid !in ss[|ss| - 1].threads && IsEntry(ss[|ss| - 1].g, pc)
    ensures ss' != [] && ss'[|ss'| - 1] == ss[|ss| - 1].(threads := ss[|ss| - 1].threads[tid := pc])
    ensures Execution(ss')
  {
    var s := ss[|ss| - 1];
    var s' := s.(threads := s.threads[tid := pc]);
    assert Next(s, Enter(tid, pc), s');
    ss' := ss + [s'];
  }

  // No thread waits for the configure lock while it holds r.mu.
  lemma LockOrder(ss: seq<Life>, i: nat, tid: nat)
    requires Execution(ss) && i < |ss| && ss[i].g.rmu == Some(tid)
    ensures tid in ss[i].threads && !WaitsForS(ss[i].threads[tid]) && !HoldsS(ss[i].threads[tid])
  {
    InvAlong(ss, i);
  }

  ghost predicate Onward(s: Life, s': Life) {
    && (s.g.flags.started ==> s'.g.flags.started)
    && (s.g.flags.closed ==>
          && s'.g.flags.closed && s'.g.flags.wg <= s.g.flags.wg && Live(s'.threads) <= Live(s.threads)
          && s'.g.admitted == s.g.admitted && s'.g.closer == s.g.closer)
  }

  // Started and closed never revert; once closed, no worker is counted, none comes to life and no Start is admitted.
  lemma {:induction false} ClosedIsForGood(ss: seq<Life>, i: nat, j: nat)
    requires Execution(ss) && i <= j < |ss|
    ensures Onward(ss[i], ss[j])
  {
    if i == j {
      OnwardIsReflexive(ss[i]);
    } else {
      ClosedIsForGood(ss, i, j - 1);
      StepOnward(ss, j);
      OnwardIsTransitive(ss[i], ss[j - 1], ss[j]);
    }
  }

  lemma StepOnward(ss: seq<Life>, j: nat)
    requires Execution(ss) && 0 < j < |ss|
    ensures Onward(ss[j - 1], ss[j])
  {
    InvAlong(ss, j - 1);
    var m := LastMove(ss, j);
    MoveOnward(ss[j - 1], m, ss[j]);
  }

  lemma OnwardIsReflexive(s: Life)
    ensures Onward(s, s)
  {
  }

  lemma OnwardIsTransitive(a: Life, b: Life, c: Life)
    requires Onward(a, b) && Onward(b, c)
    ensures Onward(a, c)
  {
  }

  lemma MoveOnward(s: Life, m: Move, s': Life)
    requires Inv(s) && Next(s, m, s')
    ensures Onward(s, s')
  {
    match m
    case Enter(tid, pc) =>
      assert Live(s'.threads) == Live(s.threads);
    case Run(tid, luck) =>
      RunShifts(s, m, s');
      LiveOn(s, tid, s');
  }

  // A Close that timed out is the last word: no Close ever closes the client, then or later.
  lemma TimedOutNeverClosesClient(ss: seq<Life>, i: nat, j: nat, tid: nat)
    requires Execution(ss) && i <= j < |ss|
    requires tid in ss[i].threads && ss[i].threads[tid] == Ended(TimedOut)
    ensures ss[j].g.clientCloses == 0
  {
    InvAlong(ss, i);
    InvAlong(ss, j);
    ClosedIsForGood(ss, i, j);
    EndedStays(ss, i, j, tid);
  }

  lemma EndedStep(s: Life, m: Move, s': Life, tid: nat)
    requires Next(s, m, s') && tid in s.threads && s.threads[tid].Ended?
    ensures tid in s'.threads && s'.threads[tid] == s.threads[tid]
  {
    if m.Run? {
      RunShifts(s, m, s');
    }
  }

  lemma LastMove(ss: seq<Life>, j: nat) returns (m: Move)
    requires Execution(ss) && 0 < j < |ss|
    ensures Next(ss[j - 1], m, ss[j])
  {
    assert Moves(ss[j - 1], ss[j - 1 + 1]);
    m :| Next(ss[j - 1], m, ss[j]);
  }

  lemma {:induction false} EndedStays(ss: seq<Life>, i: nat, j: nat, tid: nat)
    requires Execution(ss) && i <= j < |ss|
    requires tid in ss[i].threads && ss[i].threads[tid].Ended?
    ensures tid in ss[j].threads && ss[j].threads[tid] == ss[i].threads[tid]
  {
    if i < j {
      EndedStays(ss, i, j - 1, tid);
      var m := LastMove(ss, j);
      EndedStep(ss[j - 1], m, ss[j], tid);
    }
  }

  // Nothing blocks for good: while some thread has not ended, some thread can take a step, without any time-out.
  lemma NoDeadlock(ss: seq<Life>, i: nat, tid: nat) returns (mover: nat)
    requires Execution(ss) && i < |ss|
    requires tid in ss[i].threads && !ss[i].threads[tid].Ended?
    ensures mover in ss[i].threads && Take(ss[i].g, mover, ss[i].threads[mover], Good).Go?
  {
    InvAlong(ss, i);
    var s := ss[i];
    if s.g.rmu.Some? {
      mover := s.g.rmu.value;
    } else if s.g.smu.Some? {
      mover := s.g.smu.value;
    } else if s.threads[tid].ClDrain? && s.g.flags.wg > 0 {
      mover :| mover in Live(s.threads);
    } else {
      mover := tid;
      assert s.threads[tid].WkDone? ==> tid in Live(s.threads);
    }
  }

  /******* The methods, one thread at a time *******/

  function Rank(pc: Pc): nat {
    match pc
    case Ended(_) => 0
    case RcSkip | WkDone | StRefused(_) | StReconcile | ClAgain | ClClient | HdHandle => 1
    case WkReconcile | StReconcileWait | ClDrain | HdWait => 2
    case WkWait | ClCancel => 3
    case WkCount | ClFirst => 4
    case RcGo | ClHeld => 5
    case RcAdded | ClWait => 6
    case RcHeld | StPublish => 7
    case RcWait | StClient => 8
    case StAdmitted => 9
    case StHeld => 10
    case StWait => 11
  }

  // Every step brings its thread closer to the end.
  lemma TakeDescends(g: Shared, tid: nat, pc: Pc, luck: Luck)
    requires Take(g, tid, pc, luck).Go?
    ensures Rank(Take(g, tid, pc, luck).pc) < Rank(pc)
  {
  }

  // How the outcomes of one thread turn out.
  datatype Chance = Chance(client: Luck, publish: Luck, drain: Luck)

  function LuckAt(chance: Chance, pc: Pc): Luck {
    if pc.StClient? then chance.client else if pc.StPublish? then chance.publish else chance.drain
  }

  datatype Point = Point(pc: Pc, g: Shared)

  // Successive points of one thread while the others rest.
  ghost predicate Walk(tid: nat, chance: Chance, path: seq<Point>) {
    path != [] && forall i | 0 <= i < |path| - 1 :: StepAt(tid, chance, path, i)
  }

  ghost predicate StepAt(tid: nat, chance: Chance, path: seq<Point>, i: nat)
    requires i < |path| - 1
  {
    Steps(tid, chance, path[i], path[i + 1])
  }

  ghost predicate Steps(tid: nat, chance: Chance, p: Point, p': Point) {
    Take(p.g, tid, p.pc, LuckAt(chance, p.pc)) == Go(p'.pc, p'.g)
  }

  lemma WalkOn(tid: nat, chance: Chance, path: seq<Point>, p: Point)
    requires Walk(tid, chance, path) && Steps(tid, chance, path[|path| - 1], p)
    ensures Walk(tid, chance, path + [p])
  {
    var more := path + [p];
    forall i | 0 <= i < |more| - 1 ensures StepAt(tid, chance, more, i) {
      assert i < |path| - 1 ==> StepAt(tid, chance, path, i);
    }
  }

  // What a method does alone is a run of the system, from wherever its thread stands.
  lemma {:induction false} WalkIsExecution(ss: seq<Life>, tid: nat, chance: Chance, path: seq<Point>) returns (ss': seq<Life>)
    requires Execution(ss) && Walk(tid, chance, path)
    requires var s := ss[|ss| - 1]; tid in s.threads && path[0] == Point(s.threads[tid], s.g)
    ensures Execution(ss')
    ensures var s, last := ss[|ss| - 1], path[|path| - 1];
      ss'[|ss'| - 1] == Life(last.g, s.threads[tid := last.pc])
  {
    var n := |path| - 1;
    if n == 0 {
      ss' := ss;
      assert ss[|ss| - 1].threads[tid := path[0].pc] == ss[|ss| - 1].threads;
    } else {
      assert StepAt(tid, chance, path, n - 1);
      forall i | 0 <= i < n - 1 ensures StepAt(tid, chance, path[..n], i) {
        assert StepAt(tid, chance, path, i);
      }
      var mid := WalkIsExecution(ss, tid, chance, path[..n]);
      ss' := RunOn(mid, tid, LuckAt(chance, path[n - 1].pc));
      assert ss[|ss| - 1].threads[tid := path[n - 1].pc][tid := path[n].pc] == ss[|ss| - 1].threads[tid := path[n].pc];
    }
  }

  class Runtime {
    var started: bool
    var closed: bool
    var wg: nat
    var cancelled: bool
    var rmu: Option<nat>
    var smu: Option<nat>
    var passes: nat
    ghost var reconciles: nat
    ghost var admitted: nat
    ghost var clientCloses: nat
    ghost var closer: Option<nat>
    // The points that the call in progress went through.
    ghost var path: seq<Point>

    constructor ()
      ensures Now() == QUIET
    {
      started, closed, wg, cancelled := false, false, 0, false;
      rmu, smu, passes := None, None, 0;
      reconciles, admitted, clientCloses, closer, path := 0, 0, 0, None, [];
    }

    ghost function Now(): Shared
      reads this
    {
      Shared(Flags(started, closed, wg), cancelled, rmu, smu, passes, reconciles, admitted, clientCloses, closer)
    }

    ghost predicate At(tid: nat, chance: Chance, pc: Pc)
      reads this
    {
      Walk(tid, chance, path) && path[|path| - 1] == Point(pc, Now())
    }

    // A call that is over went step by step through the program of its thread.
    twostate predicate Went(tid: nat, chance: Chance, entry: Pc, how: Ending)
      reads this
    {
      At(tid, chance, Ended(how)) && path[0] == Point(entry, old(Now()))
    }

    ghost method Enter(tid: nat, chance: Chance, pc: Pc)
      modifies this`path
      ensures At(tid, chance, pc) && path[0] == Point(pc, old(Now()))
    {
      path := [Point(pc, Now())];
    }

    ghost method Reach(tid: nat, chance: Chance, pc: Pc)
      requires Walk(tid, chance, path) && Steps(tid, chance, path[|path| - 1], Point(pc, Now()))
      modifies this`path
      ensures At(tid, chance, pc) && path[0] == old(path[0])
    {
      WalkOn(tid, chance, path, Point(pc, Now()));
      path := path + [Point(pc, Now())];
    }

    method BeginStart(tid: nat, ghost chance: Chance) returns (err: Option<Refusal>)
      requires rmu == None && At(tid, chance, StWait)
      modifies this
      ensures At(tid, chance, if err.None? then StClient else Ended(Refused)) && path[0] == old(path[0])
      ensures rmu == None && smu == old(smu) && wg == old(wg) && closed == old(closed) && reconciles == old(reconciles)
      ensures err == Some(RuntimeClosed) <==> old(closed)
      ensures err == Some(AlreadyStarted) <==> !old(closed) && old(started)
      ensures err.None? <==> !old(closed) && !old(started)
      ensures started == (old(started) || err.None?)
    {
      rmu := Some(tid);
      Reach(tid, chance, StHeld);
      if closed {
        err := Some(RuntimeClosed);
      } else if started {
        err := Some(AlreadyStarted);
      } else {
        started := true;
        admitted := admitted + 1;
        err := None;
      }
      Reach(tid, chance, if err.None? then StAdmitted else StRefused(err.value));
      rmu := None;
      Reach(tid, chance, if err.None? then StClient else Ended(Refused));
    }

    method MarkClosed(tid: nat, ghost chance: Chance) returns (already: bool)
      requires rmu == None && At(tid, chance, ClWait)
      modifies this
      ensures At(tid, chance, if already then Ended(AlreadyClosed) else ClCancel) && path[0] == old(path[0])
      ensures rmu == None && wg == old(wg) && reconciles == old(reconciles) && cancelled == old(cancelled)
      ensures already == old(closed) && closed
    {
      rmu := Some(tid);
      Reach(tid, chance, ClHeld);
      already := Mark(tid, chance);
      rmu := None;
      Reach(tid, chance, if already then Ended(AlreadyClosed) else ClCancel);
    }

    // What markClosed does under the lock.
    method Mark(tid: nat, ghost chance: Chance) returns (already: bool)
      requires At(tid, chance, ClHeld)
      modifies this`closed, this`closer, this`path
      ensures At(tid, chance, if already then ClAgain else ClFirst) && path[0] == old(path[0])
      ensures already == old(closed) && closed
    {
      if closed {
        Reach(tid, chance, ClAgain);
        return true;
      }
      closed := true;
      closer := Some(tid);
      Reach(tid, chance, ClFirst);
      return false;
    }

    // The context expires first exactly when chance.drain is Bad; otherwise the wait ends because nothing is counted.
    method Close(tid: nat, chance: Chance) returns (how: Ending)
      requires rmu == None && (chance.drain.Bad? || wg == 0)
      modifies this
      ensures Went(tid, chance, ClWait, how)
      ensures cancelled == (old(cancelled) || how != AlreadyClosed)
      ensures how == if old(closed) then AlreadyClosed else if chance.drain.Bad? then TimedOut else ClientClosed
    {
      Enter(tid, chance, ClWait);
      how := Shutdown(tid, chance);
    }

    method Shutdown(tid: nat, chance: Chance) returns (how: Ending)
      requires rmu == None && At(tid, chance, ClWait) && (chance.drain.Bad? || wg == 0)
      modifies this
      ensures At(tid, chance, Ended(how)) && path[0] == old(path[0]) && reconciles == old(reconciles)
      ensures cancelled == (old(cancelled) || how != AlreadyClosed)
      ensures how == if old(closed) then AlreadyClosed else if chance.drain.Bad? then TimedOut else ClientClosed
    {
      var already := MarkClosed(tid, chance);
      if already {
        return AlreadyClosed;
      }
      cancelled := true;
      Reach(tid, chance, ClDrain);
      if chance.drain.Bad? {
        Reach(tid, chance, Ended(TimedOut));
        return TimedOut;
      }
      Reach(tid, chance, ClClient);
      clientCloses := clientCloses + 1;
      Reach(tid, chance, Ended(ClientClosed));
      return ClientClosed;
    }

    method Start(tid: nat, chance: Chance) returns (how: Ending)
      requires rmu == None && smu == None && (chance.drain.Bad? || wg == 0)
      modifies this
      ensures Went(tid, chance, StWait, how)
      ensures how == Nil <==> !old(started) && !old(closed) && chance.client.Good? && chance.publish.Good?
      ensures reconciles == old(reconciles) + One(how == Nil)
    {
      Enter(tid, chance, StWait);
      var err := BeginStart(tid, chance);
      if err.Some? {
        return Refused;
      }
      if chance.client.Bad? {
        Reach(tid, chance, Ended(StartFailed));
        return StartFailed;
      }
      Reach(tid, chance, StPublish);
      if chance.publish.Bad? {
        Reach(tid, chance, ClWait);
        how := Shutdown(tid, chance);
        return;
      }
      Reach(tid, chance, StReconcileWait);
      StartupReconcile(tid, chance);
      return Nil;
    }

    method StartupReconcile(tid: nat, ghost chance: Chance)
      requires smu == None && At(tid, chance, StReconcileWait)
      modifies this
      ensures At(tid, chance, Ended(Nil)) && path[0] == old(path[0]) && reconciles == old(reconciles) + 1
    {
      smu, reconciles := Some(tid), reconciles + 1;
      Reach(tid, chance, StReconcile);
      smu := None;
      Reach(tid, chance, Ended(Nil));
    }

    // The reconnect callback; tells whether it started a worker.
    method Reconnected(tid: nat, ghost chance: Chance) returns (spawned: bool)
      requires rmu == None
      modifies this
      ensures At(tid, chance, if spawned then RcGo else Ended(Skipped)) && path[0] == Point(RcWait, old(Now()))
      ensures spawned == !old(closed) && wg == old(wg) + One(spawned) && rmu == None && smu == old(smu)
    {
      Enter(tid, chance, RcWait);
      rmu := Some(tid);
      Reach(tid, chance, RcHeld);
      if closed {
        Reach(tid, chance, RcSkip);
        rmu := None;
        Reach(tid, chance, Ended(Skipped));
        return false;
      }
      wg := wg + 1;
      Reach(tid, chance, RcAdded);
      rmu := None;
      Reach(tid, chance, RcGo);
      return true;
    }

    // The body of the worker, up to its deferred wg.Done.
    method Work(tid: nat, ghost chance: Chance)
      requires smu == None && wg > 0
      modifies this
      ensures Went(tid, chance, RcGo, Worked)
      ensures wg == old(wg) - 1 && passes == old(passes) + 1 && reconciles == old(reconciles) + 1
    {
      Enter(tid, chance, RcGo);
      Reach(tid, chance, WkCount);
      passes := passes + 1;
      Reach(tid, chance, WkWait);
      ReconcileOnce(tid, chance);
      wg := wg - 1;
      Reach(tid, chance, Ended(Worked));
    }

    method ReconcileOnce(tid: nat, ghost chance: Chance)
      requires smu == None && At(tid, chance, WkWait)
      modifies this`smu, this`reconciles, this`path
      ensures smu == None && At(tid, chance, WkDone) && path[0] == old(path[0]) && reconciles == old(reconciles) + 1
    {
      smu, reconciles := Some(tid), reconciles + 1;
      Reach(tid, chance, WkReconcile);
      smu := None;
      Reach(tid, chance, WkDone);
    }
  }
}
