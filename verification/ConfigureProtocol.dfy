/** The control flow of configure.Service: which dependency call comes next, and how each reply is handled. */
module ConfigureProtocol {
  import opened Text
  import opened Checkpoint

  /******* Data *******/

  datatype Record = Record(target: string, uuid: string, rpcId: string, payload: string)

  datatype Msg = Msg(target: string, uuid: string, rpcId: string)

  datatype Output = Output(target: string, uuid: string, text: string)

  datatype Job = HandleJob(msg: Msg) | ReconcileJob(target: string)

  // The stage field of a published status, with the status it is sent under.
  datatype Phase =
    | Received        // running
    | LoadingDesired  // running
    | Rendering       // running
    | Rendered        // running
    | Applying        // running
    | AlreadyInSync   // success
    | Applied         // success
    | Failing         // failure, stage "failed"

  datatype Invalidity =
    | NotificationTarget | NotificationUuid
    | DesiredMissing | DesiredTarget | DesiredUuid | TargetMismatch | UuidMismatch

  // The error code of a failure result.
  datatype Code =
    | StatusPublishFailed | ResultPublishFailed | LoadDesiredFailed | StateLoadFailed
    | RenderFailed | ApplyFailed | StateSaveFailed | InvalidInput(why: Invalidity)

  datatype Verdict =
    | AppliedNow        // success, "configure apply completed"
    | InSyncAlready     // success, "desired config already applied"
    | Failure(code: Code)

  datatype Call =
    | PublishStatus(msg: Msg, phase: Phase)
    | PublishResult(msg: Msg, verdict: Verdict)
    | LoadState
    | LoadDesired(target: string)
    | Render(desired: Record)
    | Apply(rendered: Output)
    | Save(state: State)

  // An error a dependency call returned. NATS publish, KV and device errors differ only in identity,
  // except that a missing key is recognisable.
  datatype Cause = Cause(id: nat, notFound: bool)

  datatype Reply =
    | Ack
    | Failed(cause: Cause)
    | Local(state: State)
    | Desired(record: Option<Record>)
    | RenderedTo(output: Output)

  ghost predicate Answers(call: Call, reply: Reply) {
    reply.Failed? || match call
      case LoadState => reply.Local?
      case LoadDesired(_) => reply.Desired?
      case Render(_) => reply.RenderedTo?
      case _ => reply.Ack?
  }

  /******* Errors *******/

  // Where an error came from: the wrapping text names the call.
  datatype Site =
    | AtStatus(phase: Phase) | AtResult(verdict: Verdict)
    | AtLoadState | AtLoadDesired | AtRender | AtApply | AtSave

  function SiteOf(call: Call): Site {
    match call
    case PublishStatus(_, phase) => AtStatus(phase)
    case PublishResult(_, verdict) => AtResult(verdict)
    case LoadState => AtLoadState
    case LoadDesired(_) => AtLoadDesired
    case Render(_) => AtRender
    case Apply(_) => AtApply
    case Save(_) => AtSave
  }

  datatype Leaf = Fault(site: Site, cause: Cause) | Invalid(why: Invalidity)

  datatype Error =
    | Plain(leaf: Leaf)
    | Joined(leaves: seq<Leaf>)
    | ReportingFailed(leaves: seq<Leaf>)  // apply succeeded but reporting failed

  function Leaves(err: Option<Error>): seq<Leaf> {
    match err
    case None => []
    case Some(Plain(leaf)) => [leaf]
    case Some(Joined(leaves)) => leaves
    case Some(ReportingFailed(leaves)) => leaves
  }

  function Listed(leaf: Option<Leaf>): seq<Leaf> {
    if leaf.Some? then [leaf.value] else []
  }

  /******* Control *******/

  datatype Outcome =
    | InSync(desired: Record)    // the checkpoint already names the desired record
    | Completed(desired: Record) // applied and saved
    | Nothing                    // Reconcile found no desired record
    | Gave                       // an error is returned

  // Each stage but Done is about to make one dependency call.
  datatype Stage =
    | HReceived(msg: Msg)
    | HLoading(msg: Msg)
    | HLoadDesired(msg: Msg)
    | HLoadState(msg: Msg, desired: Record)
    | HSyncStatus(msg: Msg, desired: Record)
    | HSyncResult(msg: Msg, desired: Record)
    | RLoadState(target: string)
    | RLoadDesired(target: string, local: State)
    | RDegraded(target: string, leaf: Leaf)
    | PRendering(msg: Msg, desired: Record)
    | PRender(msg: Msg, desired: Record)
    | PRendered(msg: Msg, desired: Record, output: Output)
    | PApplying(msg: Msg, desired: Record, output: Output)
    | PApply(msg: Msg, desired: Record, output: Output)
    | PSave(msg: Msg, desired: Record)
    | PAppliedStatus(msg: Msg, desired: Record)
    | PAppliedResult(msg: Msg, desired: Record, statusErr: Option<Leaf>)
    | FailStatus(msg: Msg, code: Code, original: Leaf)
    | FailResult(msg: Msg, code: Code, original: Leaf, statusErr: Option<Leaf>)
    | Done(outcome: Outcome, err: Option<Error>)

  function Start(job: Job): Stage {
    match job
    case HandleJob(msg) =>
      if Blank(msg.target) then Reject(msg, NotificationTarget)
      else if Blank(msg.uuid) then Reject(msg, NotificationUuid)
      else HReceived(msg)
    case ReconcileJob(target) => RLoadState(target)
  }

  function Reject(msg: Msg, why: Invalidity): Stage {
    FailStatus(msg, InvalidInput(why), Invalid(why))
  }

  function Pending(stage: Stage): Call
    requires !stage.Done?
  {
    match stage
    case HReceived(msg) => PublishStatus(msg, Received)
    case HLoading(msg) => PublishStatus(msg, LoadingDesired)
    case HLoadDesired(msg) => LoadDesired(msg.target)
    case HLoadState(_, _) => LoadState
    case HSyncStatus(msg, _) => PublishStatus(msg, AlreadyInSync)
    case HSyncResult(msg, _) => PublishResult(msg, InSyncAlready)
    case RLoadState(_) => LoadState
    case RLoadDesired(target, _) => LoadDesired(target)
    case RDegraded(target, _) => PublishStatus(Msg(target, "", ""), Failing)
    case PRendering(msg, _) => PublishStatus(msg, Rendering)
    case PRender(_, desired) => Render(desired)
    case PRendered(msg, _, _) => PublishStatus(msg, Rendered)
    case PApplying(msg, _, _) => PublishStatus(msg, Applying)
    case PApply(_, _, output) => Apply(output)
    case PSave(msg, desired) => Save(State(msg.target, desired.uuid))
    case PAppliedStatus(msg, _) => PublishStatus(msg, Applied)
    case PAppliedResult(msg, _, _) => PublishResult(msg, AppliedNow)
    case FailStatus(msg, _, _) => PublishStatus(msg, Failing)
    case FailResult(msg, code, _, _) => PublishResult(msg, Failure(code))
  }

  function Resume(stage: Stage, reply: Reply): Stage
    requires !stage.Done? && Answers(Pending(stage), reply)
  {
    var fault := if reply.Failed? then Some(Fault(SiteOf(Pending(stage)), reply.cause)) else None;
    match stage
    case HReceived(msg) =>
      if fault.Some? then FailStatus(msg, StatusPublishFailed, fault.value) else HLoading(msg)
    case HLoading(msg) =>
      if fault.Some? then FailStatus(msg, StatusPublishFailed, fault.value) else HLoadDesired(msg)
    case HLoadDesired(msg) =>
      if fault.Some? then FailStatus(msg, LoadDesiredFailed, fault.value)
      else
        var why := Mismatch(msg, reply.record);
        if why.Some? then Reject(msg, why.value) else HLoadState(msg, reply.record.value)
    case HLoadState(msg, desired) =>
      if fault.Some? then FailStatus(msg, StateLoadFailed, fault.value)
      else if reply.state.uuid == desired.uuid then HSyncStatus(msg, desired)
      else PRendering(msg, desired)
    case HSyncStatus(msg, desired) =>
      if fault.Some? then FailStatus(msg, StatusPublishFailed, fault.value) else HSyncResult(msg, desired)
    case HSyncResult(msg, desired) =>
      if fault.Some? then FailStatus(msg, ResultPublishFailed, fault.value) else Done(InSync(desired), None)
    case RLoadState(target) =>
      if fault.Some? then RDegraded(target, fault.value) else RLoadDesired(target, reply.state)
    case RLoadDesired(target, local) =>
      if fault.Some? then
        if reply.cause.notFound then Done(Nothing, None) else RDegraded(target, fault.value)
      else if reply.record.None? then Done(Nothing, None)
      else
        var desired := reply.record.value;
        if local.uuid == desired.uuid then Done(InSync(desired), None)
        else PRendering(Msg(desired.target, desired.uuid, desired.rpcId), desired)
    case RDegraded(_, leaf) => Done(Gave, Some(Plain(leaf)))
    case PRendering(msg, desired) =>
      if fault.Some? then FailStatus(msg, StatusPublishFailed, fault.value) else PRender(msg, desired)
    case PRender(msg, desired) =>
      if fault.Some? then FailStatus(msg, RenderFailed, fault.value) else PRendered(msg, desired, reply.output)
    case PRendered(msg, desired, output) =>
      if fault.Some? then FailStatus(msg, StatusPublishFailed, fault.value) else PApplying(msg, desired, output)
    case PApplying(msg, desired, output) =>
      if fault.Some? then FailStatus(msg, StatusPublishFailed, fault.value) else PApply(msg, desired, output)
    case PApply(msg, desired, _) =>
      if fault.Some? then FailStatus(msg, ApplyFailed, fault.value) else PSave(msg, desired)
    case PSave(msg, desired) =>
      if fault.Some? then FailStatus(msg, StateSaveFailed, fault.value) else PAppliedStatus(msg, desired)
    case PAppliedStatus(msg, desired) => PAppliedResult(msg, desired, fault)
    case PAppliedResult(_, desired, statusErr) =>
      var leaves := Listed(statusErr) + Listed(fault);
      if leaves == [] then Done(Completed(desired), None) else Done(Gave, Some(ReportingFailed(leaves)))
    case FailStatus(msg, code, original) => FailResult(msg, code, original, fault)
    case FailResult(_, _, original, statusErr) =>
      Done(Gave, Some(Joined([original] + Listed(statusErr) + Listed(fault))))
  }

  // The checks Handle makes on the record it loaded, in order.
  function Mismatch(msg: Msg, record: Option<Record>): Option<Invalidity> {
    match record
    case None => Some(DesiredMissing)
    case Some(desired) =>
      if Blank(desired.target) then Some(DesiredTarget)
      else if Blank(desired.uuid) then Some(DesiredUuid)
      else if desired.target != msg.target then Some(TargetMismatch)
      else if desired.uuid != msg.uuid then Some(UuidMismatch)
      else None
  }

  /******* Runs *******/

  datatype Event = Event(call: Call, reply: Reply)

  // es is what a job may do, call by call, when its dependencies answer as recorded.
  ghost predicate Conforms(from: Stage, es: seq<Event>)
    decreases |es|, 0
  {
    es == [] ||
    var n := |es| - 1;
    && Conforms(from, es[..n])
    && var stage := After(from, es[..n]);
    && !stage.Done?
    && es[n].call == Pending(stage)
    && Answers(es[n].call, es[n].reply)
  }

  ghost function After(from: Stage, es: seq<Event>): Stage
    requires Conforms(from, es)
    decreases |es|, 1
  {
    if es == [] then from else Resume(After(from, es[..|es| - 1]), es[|es| - 1].reply)
  }

  lemma Extend(from: Stage, es: seq<Event>, e: Event)
    requires Conforms(from, es) && !After(from, es).Done?
    requires e.call == Pending(After(from, es)) && Answers(e.call, e.reply)
    ensures Conforms(from, es + [e])
    ensures After(from, es + [e]) == Resume(After(from, es), e.reply)
  {
    assert (es + [e])[..|es|] == es;
  }

  /******* The world the calls act on *******/

  // The deployment: the agent's target, which names its one KV key; the renderer in use, which may have no rendering for
  // a record; whether an apply also saves the configuration the device boots with; and whether the device may restart
  // while the agent is in use, on its own or along with the agent's host.
  datatype Config = Config(target: string, render: Record -> Option<Output>, saves: bool, reboots: bool)

  // device is the configuration that runs, boot the one the device restarts with.
  datatype World = World(kv: Option<Record>, file: File, device: string, boot: string)

  // Whether what was applied stays on the device until something else is applied.
  predicate DeviceKeeps(cfg: Config) {
    cfg.saves || !cfg.reboots
  }

  // What one call may reply and do, away from the checkpoint file. A failed apply leaves the device arbitrary.
  ghost predicate Elsewhere(cfg: Config, w: World, call: Call, reply: Reply, w': World) {
    && Answers(call, reply)
    && w'.kv == w.kv
    && (!call.Apply? ==> w'.device == w.device && w'.boot == w.boot)
    && match call
       case LoadDesired(target) =>
         var found := if target == cfg.target then w.kv else None;
         && (reply.Desired? ==> reply.record == found)
         && (reply.Failed? && reply.cause.notFound ==> found.None?)
       case Render(desired) => reply.RenderedTo? ==> cfg.render(desired) == Some(reply.output)
       case Apply(rendered) =>
         && (reply.Ack? ==> w'.device == rendered.text)
         && (if !cfg.saves then w'.boot == w.boot else reply.Ack? ==> w'.boot == rendered.text)
       case _ => true
  }

  ghost predicate OnFile(f: File, call: Call, reply: Reply, f': File) {
    match call
    case LoadState => f' == f && (reply.Local? ==> reply.state == f.visible)
    case Save(st) => SaveEffect(f, st, reply.Ack?, f')
    case _ => f' == f
  }

  ghost predicate Effect(cfg: Config, w: World, call: Call, reply: Reply, w': World) {
    Elsewhere(cfg, w, call, reply, w') && OnFile(w.file, call, reply, w'.file)
  }

  // A run of calls with nobody else acting: worlds[i] is the world before es[i].
  ghost predicate Undisturbed(cfg: Config, es: seq<Event>, worlds: seq<World>) {
    && |worlds| == |es| + 1
    && forall i | 0 <= i < |es| :: Effect(cfg, worlds[i], es[i].call, es[i].reply, worlds[i + 1])
  }
}
