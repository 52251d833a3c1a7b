/** When a failure result is attempted, and when it is for a UUID that the checkpoint names. */
module ConfigureFailures {
  import opened Text
  import opened Checkpoint
  import opened ConfigureProtocol
  import opened ConfigureFacts
  import opened ConfigureErrors
  import opened ConfigureSystem
  import opened ConfigureSafety
  import opened ConfigureRuns

  /******* Which runs attempt a failure result *******/

  predicate IsFailure(e: Event) {
    e.call.PublishResult? && e.call.verdict.Failure?
  }

  predicate IsJoined(stage: Stage) {
    stage.Done? && stage.err.Some? && stage.err.value.Joined?
  }

  // A finished run attempted a failure result exactly when it returns the joined error of its failure path.
  lemma FailureIffJoined(job: Job, es: seq<Event>)
    requires Conforms(Start(job), es) && After(Start(job), es).Done?
    ensures (exists i :: 0 <= i < |es| && IsFailure(es[i])) <==> IsJoined(After(Start(job), es))
  {
    FailureSoFar(job, es);
  }

  lemma {:induction false} FailureSoFar(job: Job, es: seq<Event>)
    requires Conforms(Start(job), es)
    ensures ToldFailure(es) <==> IsJoined(After(Start(job), es))
  {
    if es != [] {
      var n := |es| - 1;
      FailureSoFar(job, es[..n]);
      assert es[..n] + [es[n]] == es;
      FailureNext(After(Start(job), es[..n]), es[..n], es[n]);
    }
  }

  ghost predicate ToldFailure(es: seq<Event>) {
    exists i :: 0 <= i < |es| && IsFailure(es[i])
  }

  lemma FailureNext(stage: Stage, es: seq<Event>, e: Event)
    requires !stage.Done? && e.call == Pending(stage) && Answers(e.call, e.reply)
    requires ToldFailure(es) <==> IsJoined(stage)
    ensures ToldFailure(es + [e]) <==> IsJoined(Resume(stage, e.reply))
  {
    JoinsAfterFailure(stage, e.reply);
    var more := es + [e];
    assert more[|es|] == e;
    assert forall i | 0 <= i < |es| :: more[i] == es[i];
  }

  lemma JoinsAfterFailure(stage: Stage, reply: Reply)
    requires !stage.Done? && Answers(Pending(stage), reply)
    ensures IsJoined(Resume(stage, reply)) <==> stage.FailResult?
    ensures Pending(stage).PublishResult? && Pending(stage).verdict.Failure? <==> stage.FailResult?
  {
  }

  // A call before the report of a run: its failure interrupts the run.
  predicate IsWork(call: Call) {
    match call
    case PublishStatus(_, phase) => !phase.Failing? && !phase.Applied?
    case PublishResult(_, verdict) => verdict.InSyncAlready?
    case _ => true
  }

  predicate IsBroken(stage: Stage) {
    stage.FailStatus? || stage.FailResult? || IsJoined(stage)
  }

  ghost predicate WorkFailed(es: seq<Event>) {
    exists i :: 0 <= i < |es| && es[i].reply.Failed? && IsWork(es[i].call)
  }

  // Handle attempts a failure result exactly when one of its checks fails, or one of its calls other than the report
  // of a completed apply.
  lemma HandleFailsIff(msg: Msg, es: seq<Event>)
    requires Conforms(Start(HandleJob(msg)), es) && After(Start(HandleJob(msg)), es).Done?
    ensures (exists i :: 0 <= i < |es| && IsFailure(es[i])) <==> Objection(HandleJob(msg), es) != [] || WorkFailed(es)
  {
    FailureIffJoined(HandleJob(msg), es);
    HandleBreaks(msg, es);
  }

  lemma {:induction false} HandleBreaks(msg: Msg, es: seq<Event>)
    requires Conforms(Start(HandleJob(msg)), es)
    ensures IsBroken(After(Start(HandleJob(msg)), es)) <==> Objection(HandleJob(msg), es) != [] || WorkFailed(es)
  {
    if es != [] {
      var n, job := |es| - 1, HandleJob(msg);
      HandleBreaks(msg, es[..n]);
      RunsAccount(job, es[..n]);
      assert es[..n] + [es[n]] == es;
      BreaksNext(msg, After(Start(job), es[..n]), es[..n], es[n]);
    }
  }

  lemma BreaksNext(msg: Msg, stage: Stage, es: seq<Event>, e: Event)
    requires !stage.Done? && e.call == Pending(stage) && Answers(e.call, e.reply)
    requires Accounts(HandleJob(msg), stage, es)
    requires IsBroken(stage) <==> Objection(HandleJob(msg), es) != [] || WorkFailed(es)
    ensures IsBroken(Resume(stage, e.reply)) <==> Objection(HandleJob(msg), es + [e]) != [] || WorkFailed(es + [e])
  {
    WorkFails(es, e);
    BreaksOn(msg, stage, es, e);
  }

  lemma WorkFails(es: seq<Event>, e: Event)
    ensures WorkFailed(es + [e]) <==> WorkFailed(es) || (e.reply.Failed? && IsWork(e.call))
  {
    var more := es + [e];
    assert more[|es|] == e;
    if WorkFailed(es) {
      var i :| 0 <= i < |es| && es[i].reply.Failed? && IsWork(es[i].call);
      assert more[i] == es[i];
    }
  }

  lemma BreaksOn(msg: Msg, stage: Stage, es: seq<Event>, e: Event)
    requires !stage.Done? && e.call == Pending(stage) && Answers(e.call, e.reply)
    requires Accounts(HandleJob(msg), stage, es)
    ensures var job := HandleJob(msg);
      if stage.HLoadDesired? && e.reply.Desired? then
        Objection(job, es) == [] && (Objection(job, es + [e]) != [] <==> IsBroken(Resume(stage, e.reply)))
      else
        && Objection(job, es + [e]) == Objection(job, es)
        && (IsBroken(Resume(stage, e.reply)) <==> IsBroken(stage) || (e.reply.Failed? && IsWork(e.call)))
  {
    if stage.HLoadDesired? {
      assert (es + [e])[2] == e;
    } else {
      ObjectionSteady(HandleJob(msg), es, e);
    }
  }

  /******* When the checkpoint names the UUID *******/

  // A call made after drift was found.
  predicate AfterDrift(leaf: Leaf) {
    leaf.Fault? && match leaf.site
      case AtStatus(phase) => phase.Rendering? || phase.Rendered? || phase.Applying?
      case AtRender => true
      case AtApply => true
      case AtSave => true
      case _ => false
  }

  // What became of the file since the lock was taken, when it was f0.
  ghost predicate Course(f0: File, stage: Stage, f: File) {
    if AfterSave(stage) || (stage.Done? && stage.outcome.Gave?) then true
    else if stage.FailStatus? || stage.FailResult? then
      && (stage.code.StateSaveFailed? <==> stage.original.Fault? && stage.original.site.AtSave?)
      && (AfterDrift(stage.original) ==> f0.visible.uuid != stage.msg.uuid)
      && if stage.code.StateSaveFailed? then f.visible == f0.visible || f.visible.uuid == stage.msg.uuid else f == f0
    else f == f0 && (BeforeApply(stage) || stage.PSave? ==> f0.visible.uuid != stage.desired.uuid)
  }

  lemma CourseOn(cfg: Config, f0: File, w: World, stage: Stage, reply: Reply, w': World)
    requires !stage.Done? && Knows(cfg, w, stage) && Course(f0, stage, w.file)
    requires Effect(cfg, w, Pending(stage), reply, w')
    ensures Course(f0, Resume(stage, reply), w'.file)
  {
    if stage.PSave? {
      CourseSaved(cfg, f0, w, stage, reply, w');
    } else {
      CourseKept(cfg, f0, w, stage, reply, w');
    }
  }

  lemma CourseSaved(cfg: Config, f0: File, w: World, stage: Stage, reply: Reply, w': World)
    requires stage.PSave? && Knows(cfg, w, stage) && Course(f0, stage, w.file)
    requires Effect(cfg, w, Pending(stage), reply, w')
    ensures Course(f0, Resume(stage, reply), w'.file)
  {
  }

  lemma CourseKept(cfg: Config, f0: File, w: World, stage: Stage, reply: Reply, w': World)
    requires !stage.Done? && !stage.PSave? && Knows(cfg, w, stage) && Course(f0, stage, w.file)
    requires Effect(cfg, w, Pending(stage), reply, w')
    ensures Course(f0, Resume(stage, reply), w'.file)
  {
    assert w'.file == w.file;
  }

  // One caller holds the lock from i, when it took it, up to j.
  ghost predicate HoldsFrom(cfg: Config, initial: File, ss: seq<Sys>, i: nat, j: nat, tid: nat) {
    && Execution(cfg, initial, ss) && i <= j < |ss|
    && (forall k | i <= k <= j :: HeldBy(ss[k], tid))
    && Current(ss[i]) == Start(ss[i].threads[tid].job)
  }

  predicate HeldBy(s: Sys, tid: nat) {
    s.lock == Some(tid) && Holding(s)
  }

  ghost predicate OnCourse(f0: File, s: Sys) {
    Holding(s) && Course(f0, Current(s), s.world.file)
  }

  lemma CourseAlong(cfg: Config, initial: File, ss: seq<Sys>, i: nat, j: nat, tid: nat)
    requires HoldsFrom(cfg, initial, ss, i, j, tid)
    ensures OnCourse(ss[i].world.file, ss[j])
  {
    var f0 := ss[i].world.file;
    CourseBegins(ss[i]);
    forall k | i < k <= j
      ensures OnCourse(f0, ss[k - 1]) ==> OnCourse(f0, ss[k])
    {
      CourseStep(cfg, initial, ss, k, f0, tid);
    }
    CourseSpreads(f0, ss, i, j);
  }

  lemma {:induction false} CourseSpreads(f0: File, ss: seq<Sys>, i: nat, j: nat)
    requires i <= j < |ss| && OnCourse(f0, ss[i])
    requires forall k | i < k <= j :: OnCourse(f0, ss[k - 1]) ==> OnCourse(f0, ss[k])
    ensures OnCourse(f0, ss[j])
  {
    if i < j {
      CourseSpreads(f0, ss, i, j - 1);
    }
  }

  lemma CourseStep(cfg: Config, initial: File, ss: seq<Sys>, j: nat, f0: File, tid: nat)
    requires Execution(cfg, initial, ss) && 0 < j < |ss|
    requires HeldBy(ss[j - 1], tid) && HeldBy(ss[j], tid)
    ensures OnCourse(f0, ss[j - 1]) ==> OnCourse(f0, ss[j])
  {
    if OnCourse(f0, ss[j - 1]) {
      var m := LastMove(cfg, initial, ss, j);
      KnowsAlong(cfg, initial, ss, j - 1);
      CourseMove(cfg, f0, ss[j - 1], m, ss[j]);
    }
  }

  lemma KnowsAlong(cfg: Config, initial: File, ss: seq<Sys>, k: nat)
    requires Execution(cfg, initial, ss) && k < |ss| && Holding(ss[k])
    ensures Knows(cfg, ss[k].world, Current(ss[k]))
  {
    InvAlong(cfg, initial, ss, k);
  }

  lemma CourseBegins(s: Sys)
    requires Holding(s) && Current(s) == Start(s.threads[s.lock.value].job)
    ensures OnCourse(s.world.file, s)
  {
  }

  lemma CourseMove(cfg: Config, f0: File, s: Sys, m: Move, s': Sys)
    requires OnCourse(f0, s) && Knows(cfg, s.world, Current(s))
    requires Next(cfg, s, m, s') && Holding(s') && s'.lock == s.lock
    ensures OnCourse(f0, s')
  {
    if m.Answer? {
      CourseOn(cfg, f0, s.world, Current(s), m.reply, s'.world);
    } else {
      assert Current(s') == Current(s) && s'.world.file == s.world.file;
    }
  }

  // Whenever a failure result is about to be attempted, under any interleaving: the checkpoint names its UUID exactly
  // when it did so when the caller took the lock, or the run's own save got past its rename and failed after it. The
  // first is never so once drift was found.
  lemma FailureNamesCheckpoint(cfg: Config, initial: File, ss: seq<Sys>, i: nat, j: nat, tid: nat)
    requires HoldsFrom(cfg, initial, ss, i, j, tid) && Current(ss[j]).FailResult?
    ensures var fail, before, now := Current(ss[j]), ss[i].world.file.visible, ss[j].world.file.visible;
      && (now.uuid == fail.msg.uuid <==> before.uuid == fail.msg.uuid || (fail.code.StateSaveFailed? && now != before))
      && (before.uuid == fail.msg.uuid ==> !AfterDrift(fail.original))
  {
    CourseAlong(cfg, initial, ss, i, j, tid);
  }

  /******* Runs that show each case *******/

  ghost predicate ToldFailed(s: Sys, desired: Record, code: Code) {
    && s.log != []
    && var e := s.log[|s.log| - 1];
    e == Called(0, PublishResult(MsgOf(desired), Failure(code)), Ack)
  }

  lemma TellFailure(cfg: Config, initial: File, s: Sys, desired: Record, code: Code) returns (s': Sys)
    requires Reachable(cfg, initial, s) && Alone(s)
    requires Current(s).FailStatus? && Current(s).msg == MsgOf(desired) && Current(s).code == code
    ensures Reachable(cfg, initial, s') && ToldFailed(s', desired, code) && s'.world == s.world && Quiet(s, s')
  {
    s' := Hear(cfg, initial, s, Ack, s.world);
    s' := Hear(cfg, initial, s', Ack, s.world);
  }

  // A state_save_failed report does not mean that the UUID was not checkpointed: the rename may have happened.
  lemma SaveFailureMayCheckpoint(cfg: Config, initial: File, desired: Record) returns (s: Sys)
    requires Possible(initial) && desired.uuid != initial.visible.uuid && Renders(cfg, desired)
    ensures Reachable(cfg, initial, s) && ToldFailed(s, desired, StateSaveFailed)
    ensures s.world.file.visible.uuid == desired.uuid
  {
    s := Began(cfg, initial, "", "");
    s := PutUpTo(cfg, initial, s, [desired], 1);
    s := ReconcileAppliesOnly(cfg, initial, s, desired);
    var f, st := s.world.file, State(desired.target, desired.uuid);
    s := Hear(cfg, initial, s, Failed(Cause(0, false)), s.world.(file := File(st, f.recoverable + {st}, Made(f.home))));
    s := TellFailure(cfg, initial, s, desired, StateSaveFailed);
  }

  // A UUID that was applied, checkpointed and reported is notified again.
  lemma Redelivered(cfg: Config, initial: File, desired: Record) returns (s: Sys)
    requires Possible(initial) && desired.uuid != initial.visible.uuid && Renders(cfg, desired)
    requires !Blank(desired.target) && !Blank(desired.uuid)
    ensures Reachable(cfg, initial, s) && Alone(s) && Current(s) == HReceived(MsgOf(desired))
    ensures s.world.kv == Some(desired) && s.world.file.visible.uuid == desired.uuid
    ensures Count(Reports(desired.uuid), s.log) == 1
  {
    s := Began(cfg, initial, "", "");
    s := PutAndApply(cfg, initial, s, [desired], 0);
    s := Enter(cfg, initial, s, 0, HandleJob(MsgOf(desired)));
  }

  // It is reported as failed when the first status of the second run is not acknowledged ...
  lemma FailureOnReceipt(cfg: Config, initial: File, desired: Record) returns (s: Sys)
    requires Possible(initial) && desired.uuid != initial.visible.uuid && Renders(cfg, desired)
    requires !Blank(desired.target) && !Blank(desired.uuid)
    ensures Reachable(cfg, initial, s) && ToldFailed(s, desired, StatusPublishFailed)
    ensures s.world.file.visible.uuid == desired.uuid && Count(Reports(desired.uuid), s.log) == 1
  {
    s := Redelivered(cfg, initial, desired);
    s := Hear(cfg, initial, s, Failed(Cause(0, false)), s.world);
    s := TellFailure(cfg, initial, s, desired, StatusPublishFailed);
  }

  // ... or when the run finds it in sync and cannot say so.
  lemma FailureInSync(cfg: Config, initial: File, desired: Record) returns (s: Sys)
    requires Possible(initial) && desired.uuid != initial.visible.uuid && Renders(cfg, desired)
    requires desired.target == cfg.target && !Blank(desired.target) && !Blank(desired.uuid)
    ensures Reachable(cfg, initial, s) && ToldFailed(s, desired, StatusPublishFailed)
    ensures s.world.file.visible.uuid == desired.uuid && Count(Reports(desired.uuid), s.log) == 1
  {
    s := Redelivered(cfg, initial, desired);
    s := HandleFindsInSync(cfg, initial, s, MsgOf(desired), desired);
    s := Hear(cfg, initial, s, Failed(Cause(0, false)), s.world);
    s := TellFailure(cfg, initial, s, desired, StatusPublishFailed);
  }

  lemma HandleFindsInSync(cfg: Config, initial: File, s: Sys, msg: Msg, desired: Record) returns (s': Sys)
    requires Reachable(cfg, initial, s) && Alone(s) && Current(s) == HReceived(msg)
    requires msg.target == cfg.target == desired.target && msg.uuid == desired.uuid && !Blank(msg.target) && !Blank(msg.uuid)
    requires s.world.kv == Some(desired) && s.world.file.visible.uuid == desired.uuid
    ensures Reachable(cfg, initial, s') && Alone(s') && s'.world == s.world && Quiet(s, s') && s'.threads[0].job == s.threads[0].job
    ensures Current(s') == HSyncStatus(msg, desired)
  {
    s' := HandleLoads(cfg, initial, s, msg, desired);
    s' := Hear(cfg, initial, s', Local(s.world.file.visible), s.world);
  }

  // Any notification with the target and the UUID of the record gets past the checks.
  lemma HandleLoads(cfg: Config, initial: File, s: Sys, msg: Msg, desired: Record) returns (s': Sys)
    requires Reachable(cfg, initial, s) && Alone(s) && Current(s) == HReceived(msg)
    requires msg.target == cfg.target == desired.target && msg.uuid == desired.uuid && !Blank(msg.target) && !Blank(msg.uuid)
    requires s.world.kv == Some(desired)
    ensures Reachable(cfg, initial, s') && Alone(s') && s'.world == s.world && Quiet(s, s') && s'.threads[0].job == s.threads[0].job
    ensures Current(s') == HLoadState(msg, desired)
  {
    s' := Hear(cfg, initial, s, Ack, s.world);
    s' := Hear(cfg, initial, s', Ack, s.world);
    s' := Hear(cfg, initial, s', Desired(Some(desired)), s.world);
  }
}
