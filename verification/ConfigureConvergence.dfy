/** Sequential runs are runs of the system; and one failure-free Reconcile brings the device to the record. */
module ConfigureConvergence {
  import opened Text
  import opened Checkpoint
  import opened ConfigureProtocol
  import opened ConfigureFacts
  import opened ConfigureErrors
  import opened ConfigureSystem
  import opened ConfigureSerial
  import opened ConfigureSafety
  import opened ConfigureRuns
  import opened ConfigureExact

  /******* Sequential runs are runs of the system *******/

  // What a single caller does with nobody else acting, as the Service methods do it, is a run of the system.
  lemma {:induction false} RunIsReachable(cfg: Config, initial: File, s: Sys, tid: nat, job: Job, es: seq<Event>, worlds: seq<World>)
    returns (s': Sys)
    requires Reachable(cfg, initial, s) && s.lock == None && tid !in s.threads
    requires Conforms(Start(job), es) && Undisturbed(cfg, es, worlds) && worlds[0] == s.world
    ensures Reachable(cfg, initial, s')
    ensures s'.world == worlds[|es|] && s'.puts == s.puts
    ensures s'.lock == Some(tid) && s'.threads == s.threads[tid := Running(job, After(Start(job), es))]
    ensures s'.log == s.log + ([Acquired(tid, job)] + Calls(tid, es))
    decreases |es|
  {
    if es == [] {
      s' := Enter(cfg, initial, s, tid, job);
    } else {
      var n := |es| - 1;
      assert Undisturbed(cfg, es[..n], worlds[..n + 1]);
      var mid := RunIsReachable(cfg, initial, s, tid, job, es[..n], worlds[..n + 1]);
      CallsLast(s.log, tid, job, es);
      s' := RunOneMore(cfg, initial, s, mid, tid, job, es[n], worlds[n + 1]);
    }
  }

  lemma RunOneMore(cfg: Config, initial: File, s: Sys, mid: Sys, tid: nat, job: Job, e: Event, w: World) returns (s': Sys)
    requires Reachable(cfg, initial, mid) && mid.lock == Some(tid) && tid in mid.threads && mid.threads[tid].Running?
    requires mid.threads == s.threads[tid := Running(job, Current(mid))]
    requires !Current(mid).Done? && e.call == Pending(Current(mid)) && Effect(cfg, mid.world, e.call, e.reply, w)
    ensures Reachable(cfg, initial, s') && s'.world == w && s'.puts == mid.puts && s'.lock == Some(tid)
    ensures s'.threads == s.threads[tid := Running(job, Resume(Current(mid), e.reply))]
    ensures s'.log == mid.log + [Called(tid, e.call, e.reply)]
  {
    s' := Tell(cfg, initial, mid, e.reply, w);
    ThreadAgain(s.threads, tid, Running(job, Current(mid)), Running(job, Resume(Current(mid), e.reply)));
  }

  lemma ThreadAgain(threads: map<nat, Thread>, tid: nat, t: Thread, t': Thread)
    ensures threads[tid := t][tid := t'] == threads[tid := t']
  {
  }

  lemma CallsLast(log: seq<Entry>, tid: nat, job: Job, es: seq<Event>)
    requires es != []
    ensures var e := es[|es| - 1];
      log + ([Acquired(tid, job)] + Calls(tid, es)) ==
      log + ([Acquired(tid, job)] + Calls(tid, es[..|es| - 1])) + [Called(tid, e.call, e.reply)]
  {
    var e := es[|es| - 1];
    var last := [Called(tid, e.call, e.reply)];
    ConcatAssociates([Acquired(tid, job)], Calls(tid, es[..|es| - 1]), last);
    ConcatAssociates(log, [Acquired(tid, job)] + Calls(tid, es[..|es| - 1]), last);
  }

  /******* Convergence *******/

  ghost predicate FailureFree(es: seq<Event>) {
    forall i :: 0 <= i < |es| ==> !es[i].reply.Failed?
  }

  // What a failure-free Reconcile knows about the world it began in.
  ghost predicate Steady(w0: World, stage: Stage, w: World) {
    && w.kv == w0.kv
    && (stage.RLoadState? || stage.RLoadDesired? || FoundInSync(stage) || (stage.Done? && stage.outcome.Nothing?) ==> w == w0)
    && (DesiredOf(stage).Some? ==> w0.kv == DesiredOf(stage))
    && (stage.Done? && stage.outcome.Nothing? ==> w0.kv == None)
    && !stage.HReceived? && !stage.HLoading? && !stage.HLoadDesired? && !stage.HLoadState?
  }

  lemma SteadyOn(cfg: Config, w0: World, stage: Stage, w: World, reply: Reply, w': World)
    requires !stage.Done? && !reply.Failed? && Steady(w0, stage, w)
    requires stage.RLoadDesired? ==> stage.target == cfg.target
    requires Effect(cfg, w, Pending(stage), reply, w')
    ensures Steady(w0, Resume(stage, reply), w')
  {
  }

  lemma {:induction false} RunIsSteady(cfg: Config, es: seq<Event>, worlds: seq<World>)
    requires Conforms(RLoadState(cfg.target), es) && Undisturbed(cfg, es, worlds) && FailureFree(es)
    ensures Steady(worlds[0], After(RLoadState(cfg.target), es), worlds[|es|])
    ensures After(RLoadState(cfg.target), es).RLoadDesired? ==> After(RLoadState(cfg.target), es).target == cfg.target
    ensures After(RLoadState(cfg.target), es).RLoadState? ==> After(RLoadState(cfg.target), es).target == cfg.target
  {
    if es != [] {
      var n := |es| - 1;
      assert Undisturbed(cfg, es[..n], worlds[..n + 1]);
      RunIsSteady(cfg, es[..n], worlds[..n + 1]);
      SteadyOn(cfg, worlds[0], After(RLoadState(cfg.target), es[..n]), worlds[n], es[n].reply, worlds[n + 1]);
    }
  }

  // A failure-free Reconcile run on its own, from a reachable state with the lock free.
  ghost predicate Undergoes(
    cfg: Config, initial: File, s: Sys, desired: Record, es: seq<Event>, worlds: seq<World>) {
    && Reachable(cfg, initial, s) && s.lock == None && s.world.kv == Some(desired)
    && Conforms(Start(ReconcileJob(cfg.target)), es) && After(Start(ReconcileJob(cfg.target)), es).Done?
    && Undisturbed(cfg, es, worlds) && worlds[0] == s.world && FailureFree(es)
  }

  ghost predicate Runs(cfg: Config, w: World, desired: Record) {
    Renders(cfg, desired) && w.device == cfg.render(desired).value.text
  }

  // It always makes the checkpoint name the current record. And it makes the device run it, exactly unless the checkpoint
  // named it before and the device did not run it.
  lemma ReconcileReaches(cfg: Config, initial: File, s: Sys, desired: Record, es: seq<Event>, worlds: seq<World>)
    requires Undergoes(cfg, initial, s, desired, es, worlds)
    ensures worlds[|es|].kv == Some(desired) && worlds[|es|].file.visible.uuid == desired.uuid
    ensures Runs(cfg, worlds[|es|], desired) <==>
            s.world.file.visible.uuid != desired.uuid || DeviceRuns(cfg, s, desired)
  {
    var job := ReconcileJob(cfg.target);
    RunIsSteady(cfg, es, worlds);
    RunKnows(cfg, job, es, worlds);
    NeverGivesUp(job, es);
    SteadyEnd(cfg, worlds[0], After(Start(job), es), worlds[|es|], desired);
    if s.world.file.visible.uuid == desired.uuid {
      ReconcileIsIdempotent(cfg, desired, es, worlds);
      assert worlds[|es|] == worlds[0];
    }
  }

  // A run that ended well is in sync without a change, or applied and saved the record.
  lemma SteadyEnd(cfg: Config, w0: World, stage: Stage, w: World, desired: Record)
    requires Steady(w0, stage, w) && Knows(cfg, w, stage) && KnowsDevice(cfg, w, stage)
    requires stage.Done? && !stage.outcome.Gave? && w0.kv == Some(desired)
    ensures w.file.visible.uuid == desired.uuid && w.kv == Some(desired)
    ensures w == w0 || Runs(cfg, w, desired)
  {
  }

  // Over all histories that are beginnings of this one: every such Reconcile leaves the device running the record.
  ghost predicate AlwaysConverges(cfg: Config, initial: File, puts: seq<Record>) {
    forall s, desired, es, worlds ::
      Undergoes(cfg, initial, s, desired, es, worlds) && s.puts <= puts ==> Runs(cfg, worlds[|es|], desired)
  }

  // It does so if and only if the history is safe for the device.
  lemma ConvergesIffDeviceSafe(cfg: Config, initial: File, puts: seq<Record>)
    requires Possible(initial)
    ensures AlwaysConverges(cfg, initial, puts) <==> DeviceSafe(cfg, initial, puts)
  {
    if DeviceSafe(cfg, initial, puts) {
      forall s, desired, es, worlds | Undergoes(cfg, initial, s, desired, es, worlds) && s.puts <= puts
        ensures Runs(cfg, worlds[|es|], desired)
      {
        DeviceSafePrefix(cfg, initial, s.puts, puts);
        ReconcileConverges(cfg, initial, s, desired, es, worlds);
      }
    } else {
      var s, desired := OtherDeviceFound(cfg, initial, puts);
      var es, worlds := RereadsInSync(cfg, initial, s, desired);
    }
  }

  lemma DeviceSafePrefix(cfg: Config, initial: File, puts: seq<Record>, more: seq<Record>)
    requires DeviceSafe(cfg, initial, more) && Extends(puts, more)
    ensures DeviceSafe(cfg, initial, puts)
  {
    SafeReusePrefix(cfg, TextOnly, initial, puts, more);
    assert forall i | 0 <= i < |puts| :: puts[i] == more[i];
  }

  // So with a safe history one failure-free Reconcile brings the checkpoint and the device to the current record.
  lemma ReconcileConverges(cfg: Config, initial: File, s: Sys, desired: Record, es: seq<Event>, worlds: seq<World>)
    requires Undergoes(cfg, initial, s, desired, es, worlds) && DeviceSafe(cfg, initial, s.puts)
    ensures worlds[|es|].kv == Some(desired) && worlds[|es|].file.visible.uuid == desired.uuid
    ensures Runs(cfg, worlds[|es|], desired)
  {
    ReconcileReaches(cfg, initial, s, desired, es, worlds);
    if s.world.file.visible.uuid == desired.uuid {
      CurrentCheckpointIsApplied(cfg, initial, s, desired);
    }
  }

  // The failing half: a state in which nobody runs, the checkpoint names the record, and the device does not run it.
  lemma OtherDeviceFound(cfg: Config, initial: File, puts: seq<Record>) returns (s: Sys, desired: Record)
    requires Possible(initial) && !DeviceSafe(cfg, initial, puts)
    ensures Reachable(cfg, initial, s) && s.puts <= puts && Idle(s) && s.world.kv == Some(desired)
    ensures s.world.file.visible.uuid == desired.uuid && !DeviceRuns(cfg, s, desired)
  {
    if !SafeReuse(cfg, TextOnly, initial, puts) {
      s, desired := OtherDevice(cfg, initial, puts);
    } else {
      var i :| 0 <= i < |puts| && Renders(cfg, puts[i]);
      s := RestartForgets(cfg, initial, puts, i);
      desired := puts[i];
    }
    s := Exit(cfg, initial, s);
  }

  // The two reads of a Reconcile that finds the checkpoint in sync.
  lemma RereadsInSync(cfg: Config, initial: File, s: Sys, desired: Record) returns (es: seq<Event>, worlds: seq<World>)
    requires Reachable(cfg, initial, s) && s.lock == None && s.world.kv == Some(desired)
    requires s.world.file.visible.uuid == desired.uuid
    ensures Undergoes(cfg, initial, s, desired, es, worlds) && worlds[|es|] == s.world
  {
    es := TwoReads(cfg, s.world.file.visible, desired);
    worlds := [s.world, s.world, s.world];
  }

  lemma TwoReads(cfg: Config, visible: State, desired: Record) returns (es: seq<Event>)
    requires visible.uuid == desired.uuid
    ensures es == [Event(LoadState, Local(visible)), Event(LoadDesired(cfg.target), Desired(Some(desired)))]
    ensures Conforms(Start(ReconcileJob(cfg.target)), es) && After(Start(ReconcileJob(cfg.target)), es).Done?
  {
    var start := Start(ReconcileJob(cfg.target));
    var first, second := Event(LoadState, Local(visible)), Event(LoadDesired(cfg.target), Desired(Some(desired)));
    Extend(start, [], first);
    assert [] + [first] == [first];
    Extend(start, [first], second);
    es := [first] + [second];
  }

  lemma NeverGivesUp(job: Job, es: seq<Event>)
    requires job.ReconcileJob? && Conforms(Start(job), es) && After(Start(job), es).Done? && FailureFree(es)
    ensures !After(Start(job), es).outcome.Gave?
  {
    NoErrors(es);
    ErrorIsWhatWentWrong(job, es);
    DoneHasLeaves(job, es);
  }

  lemma CurrentCheckpointIsApplied(cfg: Config, initial: File, s: Sys, desired: Record)
    requires Reachable(cfg, initial, s) && DeviceSafe(cfg, initial, s.puts)
    requires s.world.kv == Some(desired) && s.world.file.visible.uuid == desired.uuid
    ensures DeviceRuns(cfg, s, desired)
  {
    var ss :| Execution(cfg, initial, ss) && ss[|ss| - 1] == s;
    SyncInvAlong(cfg, TextOnly, initial, ss, |ss| - 1);
    InvHolds(cfg, initial, s);
    RecoverableIsWritten(cfg, initial, s);
    SyncLoaded(cfg, TextOnly, initial, s.puts, s.world.file, s.log, desired);
  }

  // After that, every further failure-free Reconcile makes two reads, changes nothing and publishes nothing.
  lemma ReconcileIsIdempotent(cfg: Config, desired: Record, es: seq<Event>, worlds: seq<World>)
    requires Conforms(Start(ReconcileJob(cfg.target)), es) && After(Start(ReconcileJob(cfg.target)), es).Done?
    requires Undisturbed(cfg, es, worlds) && FailureFree(es)
    requires worlds[0].kv == Some(desired) && worlds[0].file.visible.uuid == desired.uuid
    ensures |es| == 2 && es[0].call == LoadState && es[1].call == LoadDesired(cfg.target)
    ensures forall i :: 0 <= i < |worlds| ==> worlds[i] == worlds[0]
    ensures After(Start(ReconcileJob(cfg.target)), es) == Done(InSync(desired), None)
  {
    QuietReads(cfg, desired, es, worlds);
  }

  lemma {:induction false} QuietReads(cfg: Config, desired: Record, es: seq<Event>, worlds: seq<World>)
    requires Conforms(RLoadState(cfg.target), es) && Undisturbed(cfg, es, worlds) && FailureFree(es)
    requires worlds[0].kv == Some(desired) && worlds[0].file.visible.uuid == desired.uuid
    ensures After(RLoadState(cfg.target), es) ==
            if es == [] then RLoadState(cfg.target)
            else if |es| == 1 then RLoadDesired(cfg.target, worlds[0].file.visible)
            else Done(InSync(desired), None)
    ensures |es| <= 2 && forall i :: 0 <= i < |worlds| ==> worlds[i] == worlds[0]
    ensures |es| > 0 ==> es[0].call == LoadState
    ensures |es| > 1 ==> es[1].call == LoadDesired(cfg.target)
  {
    if es != [] {
      var n := |es| - 1;
      assert Undisturbed(cfg, es[..n], worlds[..n + 1]);
      QuietReads(cfg, desired, es[..n], worlds[..n + 1]);
      assert worlds[n] == worlds[..n + 1][n] == worlds[0];
      assert worlds[n + 1] == worlds[n];
    }
  }
}
