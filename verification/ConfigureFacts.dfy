/** What a stage of the configure workflow knows about the world: true while its run holds the service lock. */
module ConfigureFacts {
  import opened Text
  import opened Checkpoint
  import opened ConfigureProtocol

  // The record a run works on, once it has loaded one.
  function DesiredOf(stage: Stage): Option<Record> {
    match stage
    case HLoadState(_, desired) => Some(desired)
    case HSyncStatus(_, desired) => Some(desired)
    case HSyncResult(_, desired) => Some(desired)
    case PRendering(_, desired) => Some(desired)
    case PRender(_, desired) => Some(desired)
    case PRendered(_, desired, _) => Some(desired)
    case PApplying(_, desired, _) => Some(desired)
    case PApply(_, desired, _) => Some(desired)
    case PSave(_, desired) => Some(desired)
    case PAppliedStatus(_, desired) => Some(desired)
    case PAppliedResult(_, desired, _) => Some(desired)
    case Done(InSync(desired), _) => Some(desired)
    case Done(Completed(desired), _) => Some(desired)
    case _ => None
  }

  // Drift was found and the device has not been touched yet.
  predicate BeforeApply(stage: Stage) {
    stage.PRendering? || stage.PRender? || stage.PRendered? || stage.PApplying? || stage.PApply?
  }

  predicate AfterSave(stage: Stage) {
    stage.PAppliedStatus? || stage.PAppliedResult? || (stage.Done? && stage.outcome.Completed?)
  }

  predicate FoundInSync(stage: Stage) {
    stage.HSyncStatus? || stage.HSyncResult? || (stage.Done? && stage.outcome.InSync?)
  }

  // The notification a run reports on belongs to the record it works on.
  predicate Addressed(stage: Stage) {
    match stage
    case HLoadState(msg, desired) => msg.uuid == desired.uuid && msg.target == desired.target
    case HSyncStatus(msg, desired) => msg.uuid == desired.uuid && msg.target == desired.target
    case HSyncResult(msg, desired) => msg.uuid == desired.uuid && msg.target == desired.target
    case PRendering(msg, desired) => msg.uuid == desired.uuid && msg.target == desired.target
    case PRender(msg, desired) => msg.uuid == desired.uuid && msg.target == desired.target
    case PRendered(msg, desired, _) => msg.uuid == desired.uuid && msg.target == desired.target
    case PApplying(msg, desired, _) => msg.uuid == desired.uuid && msg.target == desired.target
    case PApply(msg, desired, _) => msg.uuid == desired.uuid && msg.target == desired.target
    case PSave(msg, desired) => msg.uuid == desired.uuid && msg.target == desired.target
    case PAppliedStatus(msg, desired) => msg.uuid == desired.uuid && msg.target == desired.target
    case PAppliedResult(msg, desired, _) => msg.uuid == desired.uuid && msg.target == desired.target
    case _ => true
  }

  predicate Renders(cfg: Config, record: Record) {
    cfg.render(record).Some?
  }

  ghost predicate Knows(cfg: Config, w: World, stage: Stage) {
    && Addressed(stage)
    && (stage.RLoadDesired? ==> stage.local == w.file.visible)
    && (stage.PRendered? || stage.PApplying? || stage.PApply? ==> cfg.render(stage.desired) == Some(stage.output))
    && (stage.PSave? ==> Renders(cfg, stage.desired))
    && (BeforeApply(stage) || stage.PSave? ==> w.file.visible.uuid != stage.desired.uuid)
    && (AfterSave(stage) ==>
          var desired := DesiredOf(stage).value;
          Renders(cfg, desired) && SettledAt(State(desired.target, desired.uuid), w.file))
    && (FoundInSync(stage) ==> w.file.visible.uuid == DesiredOf(stage).value.uuid)
  }

  // The device runs this text, and boots with it if applying saves.
  predicate Holds(cfg: Config, w: World, text: string) {
    w.device == text && (cfg.saves ==> w.boot == text)
  }

  // From a successful apply on, the device holds what was applied.
  ghost predicate KnowsDevice(cfg: Config, w: World, stage: Stage) {
    stage.PSave? || AfterSave(stage) ==>
      var rendering := cfg.render(DesiredOf(stage).value);
      rendering.Some? && Holds(cfg, w, rendering.value.text)
  }

  lemma StartKnows(cfg: Config, w: World, job: Job)
    ensures Knows(cfg, w, Start(job)) && KnowsDevice(cfg, w, Start(job))
  {
  }

  lemma KnowsOn(cfg: Config, w: World, stage: Stage, reply: Reply, w': World)
    requires !stage.Done? && Knows(cfg, w, stage)
    requires Effect(cfg, w, Pending(stage), reply, w')
    ensures Knows(cfg, w', Resume(stage, reply))
  {
    if stage.PSave? {
      KnowsAfterSave(cfg, w, stage, reply, w');
    } else if Loading(stage) {
      Loaded(cfg, w, stage, reply, w');
    } else {
      KnowsAfterCall(cfg, w, stage, reply, w');
    }
  }

  lemma KnowsAfterSave(cfg: Config, w: World, stage: Stage, reply: Reply, w': World)
    requires stage.PSave? && Knows(cfg, w, stage)
    requires Effect(cfg, w, Pending(stage), reply, w')
    ensures Knows(cfg, w', Resume(stage, reply))
  {
  }

  lemma KnowsAfterCall(cfg: Config, w: World, stage: Stage, reply: Reply, w': World)
    requires !stage.Done? && !stage.PSave? && !Loading(stage) && Knows(cfg, w, stage)
    requires Effect(cfg, w, Pending(stage), reply, w')
    ensures Knows(cfg, w', Resume(stage, reply))
  {
    CallTurns(cfg, w, stage, reply, w');
    WorksOn(cfg, stage, reply);
  }

  // Away from loads and saves a stage hands on the notification it reports on and, once rendered, what it applies.
  lemma WorksOn(cfg: Config, stage: Stage, reply: Reply)
    requires !stage.Done? && !stage.PSave? && !Loading(stage) && Answers(Pending(stage), reply) && Addressed(stage)
    requires stage.PRendered? || stage.PApplying? || stage.PApply? ==> cfg.render(stage.desired) == Some(stage.output)
    requires stage.PRender? && reply.RenderedTo? ==> cfg.render(stage.desired) == Some(reply.output)
    ensures var next := Resume(stage, reply);
      && Addressed(next)
      && (next.RLoadDesired? ==> stage.RLoadState? && reply.Local? && next.local == reply.state)
      && (next.PRendered? || next.PApplying? || next.PApply? ==> cfg.render(next.desired) == Some(next.output))
      && (next.PSave? ==> Renders(cfg, next.desired))
  {
  }

  lemma KnowsDeviceOn(cfg: Config, w: World, stage: Stage, reply: Reply, w': World)
    requires !stage.Done? && Knows(cfg, w, stage) && KnowsDevice(cfg, w, stage)
    requires Effect(cfg, w, Pending(stage), reply, w')
    ensures KnowsDevice(cfg, w', Resume(stage, reply))
  {
  }

  predicate Loading(stage: Stage) {
    stage.HLoadDesired? || stage.RLoadDesired?
  }

  // A record that was just loaded is the current one, and found to differ or not yet compared.
  lemma Loaded(cfg: Config, w: World, stage: Stage, reply: Reply, w': World)
    requires Loading(stage) && Knows(cfg, w, stage) && Effect(cfg, w, Pending(stage), reply, w')
    ensures var next := Resume(stage, reply);
      && w'.file == w.file
      && (DesiredOf(next).Some? ==>
            && w.kv == DesiredOf(next)
            && (next.HLoadState? || next.PRendering? || FoundInSync(next))
            && (next.PRendering? ==> w.file.visible.uuid != next.desired.uuid)
            && (FoundInSync(next) ==> w.file.visible.uuid == w.kv.value.uuid))
  {
  }

  // How a call that loads no record moves the control and the file.
  ghost predicate Turned(f: File, stage: Stage, f': File, next: Stage) {
    && !next.HLoadState?
    && (DesiredOf(next).Some? ==> DesiredOf(next) == DesiredOf(stage))
    && (BeforeApply(next) ==> BeforeApply(stage) || (stage.HLoadState? && f.visible.uuid != stage.desired.uuid))
    && (FoundInSync(next) ==> FoundInSync(stage) || (stage.HLoadState? && f.visible.uuid == stage.desired.uuid))
    && (next.PSave? ==> stage.PApply?)
    && (AfterSave(next) ==> AfterSave(stage) || stage.PSave?)
    && (next.PAppliedStatus? ==> stage.PSave?)
    && (next.PAppliedResult? ==> stage.PAppliedStatus?)
    && (if stage.PSave? then SaveEffect(f, State(stage.desired.target, stage.desired.uuid), next.PAppliedStatus?, f')
        else f' == f)
  }

  lemma CallTurns(cfg: Config, w: World, stage: Stage, reply: Reply, w': World)
    requires !stage.Done? && !Loading(stage) && Addressed(stage)
    requires Effect(cfg, w, Pending(stage), reply, w')
    ensures Turned(w.file, stage, w'.file, Resume(stage, reply))
  {
  }

  // A run that nobody disturbs knows the same at its end.
  lemma {:induction false} RunKnows(cfg: Config, job: Job, es: seq<Event>, worlds: seq<World>)
    requires Conforms(Start(job), es) && Undisturbed(cfg, es, worlds)
    ensures Knows(cfg, worlds[|es|], After(Start(job), es)) && KnowsDevice(cfg, worlds[|es|], After(Start(job), es))
  {
    if es != [] {
      var n := |es| - 1;
      assert Undisturbed(cfg, es[..n], worlds[..n + 1]);
      RunKnows(cfg, job, es[..n], worlds[..n + 1]);
      KnowsOn(cfg, worlds[n], After(Start(job), es[..n]), es[n].reply, worlds[n + 1]);
      KnowsDeviceOn(cfg, worlds[n], After(Start(job), es[..n]), es[n].reply, worlds[n + 1]);
    }
  }
}
