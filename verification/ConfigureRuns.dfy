/** Runs of the configure system built move by move, for the results that need one to exist. */
module ConfigureRuns {
  import opened Text
  import opened Checkpoint
  import opened ConfigureProtocol
  import opened ConfigureFacts
  import opened ConfigureSystem
  import opened ConfigureSafety

  /******* Single moves *******/

  predicate Idle(s: Sys) {
    s.threads == map[] && s.lock == None
  }

  // Thread 0 holds the lock, and there is no other.
  predicate Alone(s: Sys) {
    s.lock == Some(0) && s.threads.Keys == {0} && Holding(s)
  }

  // Nothing was applied or reported between the two.
  ghost predicate Quiet(s: Sys, s': Sys) {
    LastApply(s'.log) == LastApply(s.log) && SameCounts(s, s')
  }

  ghost predicate SameCounts(s: Sys, s': Sys) {
    forall uuid :: Count(Reports(uuid), s'.log) == Count(Reports(uuid), s.log)
  }

  ghost predicate OneMore(s: Sys, s': Sys, reported: string) {
    forall uuid ::
      Count(Reports(uuid), s'.log) == Count(Reports(uuid), s.log) + if uuid == reported then 1 else 0
  }

  lemma Began(cfg: Config, initial: File, device: string, boot: string) returns (s: Sys)
    requires Possible(initial)
    ensures Reachable(cfg, initial, s) && Init(initial, s) && Idle(s) && s.world == World(None, initial, device, boot)
    ensures LastApply(s.log) == None && forall uuid :: Count(Reports(uuid), s.log) == 0
  {
    s := Sys(World(None, initial, device, boot), [], map[], None, []);
    assert Execution(cfg, initial, [s]);
  }

  // Nothing but the register changes while the KV store is written.
  lemma {:induction false} PutUpTo(cfg: Config, initial: File, s: Sys, puts: seq<Record>, n: nat) returns (s': Sys)
    requires Reachable(cfg, initial, s) && |s.puts| < n <= |puts| && s.puts == puts[..|s.puts|]
    ensures Reachable(cfg, initial, s')
    ensures s' == s.(world := s.world.(kv := Some(puts[n - 1])), puts := puts[..n])
    decreases n
  {
    var before := s;
    if |s.puts| < n - 1 {
      before := PutUpTo(cfg, initial, s, puts, n - 1);
    }
    s' := before.(world := before.world.(kv := Some(puts[n - 1])), puts := before.puts + [puts[n - 1]]);
    assert puts[..n] == puts[..n - 1] + [puts[n - 1]];
    Reach(cfg, initial, before, Put(puts[n - 1]), s');
  }

  // The agent dies with the power while nobody holds the lock.
  lemma LosePower(cfg: Config, initial: File, s: Sys, f: File) returns (s': Sys)
    requires Reachable(cfg, initial, s) && Idle(s) && PowerLoss(s.world.file, f)
    ensures Reachable(cfg, initial, s') && Idle(s') && s'.puts == s.puts && Quiet(s, s')
    ensures s'.world == s.world.(file := f)
  {
    s' := s.(world := s.world.(file := f), log := s.log + [Crashed]);
    Reach(cfg, initial, s, Crash(false, true), s');
    Logged(s.log, Crashed);
    ReportsOn(s.log, Crashed);
  }

  // The file can come to show any state it may show.
  lemma LoseTo(cfg: Config, initial: File, s: Sys, st: State) returns (s': Sys)
    requires Reachable(cfg, initial, s) && Idle(s) && st in s.world.file.recoverable
    ensures Reachable(cfg, initial, s') && Idle(s') && s'.puts == s.puts && Quiet(s, s')
    ensures s'.world.file.visible == st && s'.world == s.world.(file := s'.world.file)
  {
    InvHolds(cfg, initial, s);
    if st == s.world.file.visible {
      s' := s;
    } else {
      s' := LosePower(cfg, initial, s, File(st, {st}, Anchored));
    }
  }

  lemma Restart(cfg: Config, initial: File, s: Sys) returns (s': Sys)
    requires Reachable(cfg, initial, s) && Idle(s) && cfg.reboots
    ensures Reachable(cfg, initial, s') && s' == s.(world := s.world.(device := s.world.boot))
  {
    s' := s.(world := s.world.(device := s.world.boot));
    Reach(cfg, initial, s, Reboot, s');
  }

  lemma Enter(cfg: Config, initial: File, s: Sys, tid: nat, job: Job) returns (s': Sys)
    requires Reachable(cfg, initial, s) && s.lock == None && tid !in s.threads
    ensures Reachable(cfg, initial, s') && Quiet(s, s')
    ensures s' == s.(threads := s.threads[tid := Running(job, Start(job))], lock := Some(tid), log := s.log + [Acquired(tid, job)])
  {
    var arrived := s.(threads := s.threads[tid := Waiting(job)]);
    Reach(cfg, initial, s, Arrive(tid, job), arrived);
    s' := s.(threads := s.threads[tid := Running(job, Start(job))], lock := Some(tid), log := s.log + [Acquired(tid, job)]);
    assert arrived.threads[tid := Running(job, Start(job))] == s'.threads;
    Reach(cfg, initial, arrived, Acquire(tid), s');
    Logged(s.log, Acquired(tid, job));
    ReportsOn(s.log, Acquired(tid, job));
  }

  lemma Tell(cfg: Config, initial: File, s: Sys, reply: Reply, w: World) returns (s': Sys)
    requires Reachable(cfg, initial, s) && Holding(s) && !Current(s).Done?
    requires Effect(cfg, s.world, Pending(Current(s)), reply, w)
    ensures Reachable(cfg, initial, s')
    ensures var tid, e := s.lock.value, Called(s.lock.value, Pending(Current(s)), reply);
      && s' == s.(world := w,
                  threads := s.threads[tid := Running(s.threads[tid].job, Resume(Current(s), reply))],
                  log := s.log + [e])
      && LastApply(s'.log) == (if IsApply(e) then Some(e) else LastApply(s.log))
      && forall uuid :: Count(Reports(uuid), s'.log) == Count(Reports(uuid), s.log) + if ReportOf(e, uuid) then 1 else 0
  {
    var tid, e := s.lock.value, Called(s.lock.value, Pending(Current(s)), reply);
    s' := s.(world := w, threads := s.threads[tid := Running(s.threads[tid].job, Resume(Current(s), reply))], log := s.log + [e]);
    Reach(cfg, initial, s, Answer(tid, reply), s');
    Logged(s.log, e);
    ReportsOn(s.log, e);
  }

  lemma Exit(cfg: Config, initial: File, s: Sys) returns (s': Sys)
    requires Reachable(cfg, initial, s) && Alone(s) && Current(s).Done?
    ensures Reachable(cfg, initial, s') && Idle(s') && s'.world == s.world && s'.puts == s.puts && Quiet(s, s')
  {
    var e := Released(0, Current(s).err);
    s' := s.(threads := s.threads - {0}, lock := None, log := s.log + [e]);
    assert s'.threads.Keys == {};
    Reach(cfg, initial, s, Release(0), s');
    Logged(s.log, e);
    ReportsOn(s.log, e);
  }

  // A call of the only thread, other than an apply and a report of one.
  lemma Hear(cfg: Config, initial: File, s: Sys, reply: Reply, w: World) returns (s': Sys)
    requires Reachable(cfg, initial, s) && Alone(s) && !Current(s).Done?
    requires !Pending(Current(s)).Apply? && !Current(s).PAppliedResult?
    requires Effect(cfg, s.world, Pending(Current(s)), reply, w)
    ensures Reachable(cfg, initial, s') && Alone(s') && s'.world == w && s'.puts == s.puts && Quiet(s, s')
    ensures Current(s') == Resume(Current(s), reply) && s'.threads[0].job == s.threads[0].job
    ensures s'.log == s.log + [Called(0, Pending(Current(s)), reply)]
  {
    s' := Tell(cfg, initial, s, reply, w);
  }

  /******* Whole calls of Reconcile *******/

  function MsgOf(desired: Record): Msg {
    Msg(desired.target, desired.uuid, desired.rpcId)
  }

  // Reconcile up to the comparison of the checkpoint with the record.
  lemma ReconcileReads(cfg: Config, initial: File, s: Sys, desired: Record) returns (s': Sys)
    requires Reachable(cfg, initial, s) && Idle(s) && s.world.kv == Some(desired)
    ensures Reachable(cfg, initial, s') && Alone(s') && s'.world == s.world && s'.puts == s.puts && Quiet(s, s')
    ensures Current(s') == if s.world.file.visible.uuid == desired.uuid then Done(InSync(desired), None)
                           else PRendering(MsgOf(desired), desired)
  {
    s' := Enter(cfg, initial, s, 0, ReconcileJob(cfg.target));
    s' := Compares(cfg, initial, s', desired);
  }

  lemma Compares(cfg: Config, initial: File, s: Sys, desired: Record) returns (s': Sys)
    requires Reachable(cfg, initial, s) && Alone(s) && Current(s) == RLoadState(cfg.target) && s.world.kv == Some(desired)
    ensures Reachable(cfg, initial, s') && Alone(s') && s'.world == s.world && s'.puts == s.puts && Quiet(s, s')
    ensures Current(s') == if s.world.file.visible.uuid == desired.uuid then Done(InSync(desired), None)
                           else PRendering(MsgOf(desired), desired)
  {
    s' := Hear(cfg, initial, s, Local(s.world.file.visible), s.world);
    s' := Hear(cfg, initial, s', Desired(Some(desired)), s.world);
  }

  lemma ReconcileRenders(cfg: Config, initial: File, s: Sys, desired: Record) returns (s': Sys)
    requires Reachable(cfg, initial, s) && Idle(s) && s.world.kv == Some(desired)
    requires s.world.file.visible.uuid != desired.uuid && Renders(cfg, desired)
    ensures Reachable(cfg, initial, s') && Alone(s') && s'.world == s.world && s'.puts == s.puts && Quiet(s, s')
    ensures Current(s') == PApply(MsgOf(desired), desired, cfg.render(desired).value)
  {
    s' := ReconcileReads(cfg, initial, s, desired);
    s' := IsRendered(cfg, initial, s', desired);
    s' := BeginsApply(cfg, initial, s', desired);
  }

  lemma IsRendered(cfg: Config, initial: File, s: Sys, desired: Record) returns (s': Sys)
    requires Reachable(cfg, initial, s) && Alone(s) && Renders(cfg, desired)
    requires Current(s) == PRendering(MsgOf(desired), desired)
    ensures Reachable(cfg, initial, s') && Alone(s') && s'.world == s.world && s'.puts == s.puts && Quiet(s, s')
    ensures Current(s') == PRendered(MsgOf(desired), desired, cfg.render(desired).value)
  {
    s' := Hear(cfg, initial, s, Ack, s.world);
    s' := Hear(cfg, initial, s', RenderedTo(cfg.render(desired).value), s.world);
  }

  lemma BeginsApply(cfg: Config, initial: File, s: Sys, desired: Record) returns (s': Sys)
    requires Reachable(cfg, initial, s) && Alone(s) && Renders(cfg, desired)
    requires Current(s) == PRendered(MsgOf(desired), desired, cfg.render(desired).value)
    ensures Reachable(cfg, initial, s') && Alone(s') && s'.world == s.world && s'.puts == s.puts && Quiet(s, s')
    ensures Current(s') == PApply(MsgOf(desired), desired, cfg.render(desired).value)
  {
    s' := Hear(cfg, initial, s, Ack, s.world);
    s' := Hear(cfg, initial, s', Ack, s.world);
  }

  // What a successful apply makes of the world.
  function AppliedTo(cfg: Config, w: World, text: string): World {
    w.(device := text, boot := if cfg.saves then text else w.boot)
  }

  lemma ReconcileAppliesOnly(cfg: Config, initial: File, s: Sys, desired: Record) returns (s': Sys)
    requires Reachable(cfg, initial, s) && Idle(s) && s.world.kv == Some(desired)
    requires s.world.file.visible.uuid != desired.uuid && Renders(cfg, desired)
    ensures Reachable(cfg, initial, s') && Alone(s') && s'.puts == s.puts && SameCounts(s, s')
    ensures s'.world == AppliedTo(cfg, s.world, cfg.render(desired).value.text)
    ensures LastAppliedIs(Whole, s'.log, cfg.render(desired)) && Current(s') == PSave(MsgOf(desired), desired)
  {
    s' := ReconcileRenders(cfg, initial, s, desired);
    s' := Tell(cfg, initial, s', Ack, AppliedTo(cfg, s.world, cfg.render(desired).value.text));
  }

  function SavedFile(f: File, st: State): File {
    File(st, {st} + Spare(f.home), Made(f.home))
  }

  // A Reconcile in which every call succeeds.
  lemma ReconcileApplies(cfg: Config, initial: File, s: Sys, desired: Record) returns (s': Sys)
    requires Reachable(cfg, initial, s) && Idle(s) && s.world.kv == Some(desired)
    requires s.world.file.visible.uuid != desired.uuid && Renders(cfg, desired)
    ensures Reachable(cfg, initial, s') && Idle(s') && s'.puts == s.puts
    ensures s'.world == AppliedTo(cfg, s.world, cfg.render(desired).value.text).(
                          file := SavedFile(s.world.file, State(desired.target, desired.uuid)))
    ensures LastAppliedIs(Whole, s'.log, cfg.render(desired)) && OneMore(s, s', desired.uuid)
  {
    s' := ReconcileAppliesOnly(cfg, initial, s, desired);
    s' := Hear(cfg, initial, s', Ack, s'.world.(file := SavedFile(s.world.file, State(desired.target, desired.uuid))));
    s' := ReportsApplied(cfg, initial, s', desired);
  }

  lemma ReportsApplied(cfg: Config, initial: File, s: Sys, desired: Record) returns (s': Sys)
    requires Reachable(cfg, initial, s) && Alone(s) && Current(s) == PAppliedStatus(MsgOf(desired), desired)
    ensures Reachable(cfg, initial, s') && Idle(s') && s'.puts == s.puts && s'.world == s.world
    ensures LastApply(s'.log) == LastApply(s.log) && OneMore(s, s', desired.uuid)
  {
    s' := Hear(cfg, initial, s, Ack, s.world);
    s' := ResultApplied(cfg, initial, s', desired);
  }

  lemma ResultApplied(cfg: Config, initial: File, s: Sys, desired: Record) returns (s': Sys)
    requires Reachable(cfg, initial, s) && Alone(s) && Current(s) == PAppliedResult(MsgOf(desired), desired, None)
    ensures Reachable(cfg, initial, s') && Idle(s') && s'.puts == s.puts && s'.world == s.world
    ensures LastApply(s'.log) == LastApply(s.log) && OneMore(s, s', desired.uuid)
  {
    s' := Tell(cfg, initial, s, Ack, s.world);
    s' := Exit(cfg, initial, s');
  }

  // The report of a failure, acknowledged or not as it may be.
  lemma Fails(cfg: Config, initial: File, s: Sys) returns (s': Sys)
    requires Reachable(cfg, initial, s) && Alone(s) && Current(s).FailStatus?
    ensures Reachable(cfg, initial, s') && Idle(s') && s'.puts == s.puts && s'.world == s.world && Quiet(s, s')
  {
    s' := Hear(cfg, initial, s, Ack, s.world);
    s' := Hear(cfg, initial, s', Ack, s.world);
    s' := Exit(cfg, initial, s');
  }

  // A Reconcile whose apply fails and leaves this on the device.
  lemma ReconcileFails(cfg: Config, initial: File, s: Sys, desired: Record, device: string) returns (s': Sys)
    requires Reachable(cfg, initial, s) && Idle(s) && s.world.kv == Some(desired)
    requires s.world.file.visible.uuid != desired.uuid && Renders(cfg, desired)
    ensures Reachable(cfg, initial, s') && Idle(s') && s'.puts == s.puts && s'.world == s.world.(device := device)
    ensures LastApply(s'.log).Some? && !IsApplied(LastApply(s'.log).value)
  {
    s' := ReconcileRenders(cfg, initial, s, desired);
    s' := Tell(cfg, initial, s', Failed(Cause(0, false)), s.world.(device := device));
    s' := Fails(cfg, initial, s');
  }

  // A Reconcile whose apply succeeds and whose save fails before the rename.
  lemma ReconcileUnsaved(cfg: Config, initial: File, s: Sys, desired: Record) returns (s': Sys)
    requires Reachable(cfg, initial, s) && Idle(s) && s.world.kv == Some(desired)
    requires s.world.file.visible.uuid != desired.uuid && Renders(cfg, desired)
    ensures Reachable(cfg, initial, s') && Idle(s') && s'.puts == s.puts
    ensures s'.world == AppliedTo(cfg, s.world, cfg.render(desired).value.text)
    ensures LastAppliedIs(Whole, s'.log, cfg.render(desired))
  {
    s' := ReconcileAppliesOnly(cfg, initial, s, desired);
    s' := Hear(cfg, initial, s', Failed(Cause(0, false)), s'.world);
    s' := Fails(cfg, initial, s');
  }

  /******* Writes up to a record, then a Reconcile *******/

  lemma PutAndApply(cfg: Config, initial: File, s: Sys, puts: seq<Record>, n: nat) returns (s': Sys)
    requires Reachable(cfg, initial, s) && Idle(s) && |s.puts| <= n < |puts| && s.puts == puts[..|s.puts|]
    requires s.world.file.visible.uuid != puts[n].uuid && Renders(cfg, puts[n])
    ensures Reachable(cfg, initial, s') && Idle(s') && s'.puts == puts[..n + 1]
    ensures s'.world == AppliedTo(cfg, s.world, cfg.render(puts[n]).value.text).(
                          kv := Some(puts[n]), file := SavedFile(s.world.file, State(puts[n].target, puts[n].uuid)))
    ensures LastAppliedIs(Whole, s'.log, cfg.render(puts[n])) && OneMore(s, s', puts[n].uuid)
  {
    s' := PutUpTo(cfg, initial, s, puts, n + 1);
    s' := ReconcileApplies(cfg, initial, s', puts[n]);
  }

  lemma PutAndFail(cfg: Config, initial: File, s: Sys, puts: seq<Record>, n: nat, device: string) returns (s': Sys)
    requires Reachable(cfg, initial, s) && Idle(s) && |s.puts| <= n < |puts| && s.puts == puts[..|s.puts|]
    requires s.world.file.visible.uuid != puts[n].uuid && Renders(cfg, puts[n])
    ensures Reachable(cfg, initial, s') && Idle(s') && s'.puts == puts[..n + 1]
    ensures s'.world == s.world.(kv := Some(puts[n]), device := device)
    ensures LastApply(s'.log).Some? && !IsApplied(LastApply(s'.log).value)
  {
    s' := PutUpTo(cfg, initial, s, puts, n + 1);
    s' := ReconcileFails(cfg, initial, s', puts[n], device);
  }

  // A Reconcile of the only thread just found that the checkpoint names the current record.
  predicate FoundSame(s: Sys, desired: Record) {
    && Alone(s) && Current(s) == Done(InSync(desired), None)
    && s.world.kv == Some(desired) && s.world.file.visible.uuid == desired.uuid
  }

  // Writes up to a record that the checkpoint names already.
  lemma PutInSync(cfg: Config, initial: File, s: Sys, puts: seq<Record>, n: nat) returns (s': Sys)
    requires Reachable(cfg, initial, s) && Idle(s) && |s.puts| <= n < |puts| && s.puts == puts[..|s.puts|]
    requires s.world.file.visible.uuid == puts[n].uuid
    ensures Reachable(cfg, initial, s') && s'.puts == puts[..n + 1] && Quiet(s, s')
    ensures FoundSame(s', puts[n]) && AtInSync(s', puts[n])
    ensures s'.world == s.world.(kv := Some(puts[n]))
  {
    s' := PutUpTo(cfg, initial, s, puts, n + 1);
    s' := ReconcileReads(cfg, initial, s', puts[n]);
  }
}
