/** The configure service as the source writes it: methods under a lock that call their dependencies in order. */
module ConfigureService {
  import opened Text
  import opened Checkpoint
  import opened ConfigureProtocol
  import opened ConfigureErrors

  // How far a failed save got: not even the directory, the directory, or the rename.
  datatype Extent = Nowhere | AsDirectory | AsRename

  // How one call goes: whether it fails, what a failed apply leaves on the device and for its next boot, how far a
  // failed save got, and whether a missing key is reported as nil or as an error.
  datatype Fate = Fate(fails: bool, cause: nat, device: string, boot: string, extent: Extent, missingIsNil: bool)

  // The agentcore client, the state store, the renderer and the apply engine, with the world behind them.
  class Dependencies {
    const cfg: Config
    const fate: nat -> Fate
    var calls: nat
    var world: World
    ghost var trace: seq<Event>
    ghost var worlds: seq<World>

    ghost predicate Valid()
      reads this
    {
      Undisturbed(cfg, trace, worlds) && worlds[|trace|] == world
    }

    constructor (cfg: Config, fate: nat -> Fate, world: World)
      ensures Valid() && this.cfg == cfg && this.world == world && trace == []
    {
      this.cfg, this.fate, this.calls, this.world := cfg, fate, 0, world;
      trace, worlds := [], [world];
    }

    method Invoke(call: Call) returns (reply: Reply)
      requires Valid()
      modifies this
      ensures Valid()
      ensures Effect(cfg, old(world), call, reply, world)
      ensures trace == old(trace) + [Event(call, reply)] && worlds == old(worlds) + [world]
    {
      var f := fate(calls);
      calls := calls + 1;
      match call {
        case LoadDesired(target) =>
          var found := if target == cfg.target then world.kv else None;
          reply :=
            if f.fails then Failed(Cause(f.cause, false))
            else if found.None? && !f.missingIsNil then Failed(Cause(f.cause, true))
            else Desired(found);
        case LoadState =>
          reply := if f.fails then Failed(Cause(f.cause, false)) else Local(world.file.visible);
        case Render(desired) =>
          var rendering := cfg.render(desired);
          reply := if f.fails || rendering.None? then Failed(Cause(f.cause, false)) else RenderedTo(rendering.value);
        case Apply(rendered) =>
          reply := if f.fails then Failed(Cause(f.cause, false)) else Ack;
          world := world.(device := if f.fails then f.device else rendered.text);
          if cfg.saves {
            world := world.(boot := if f.fails then f.boot else rendered.text);
          }
        case Save(st) =>
          reply := if f.fails then Failed(Cause(f.cause, false)) else Ack;
          var home := Made(world.file.home);
          if !f.fails {
            world := world.(file := File(st, {st} + Spare(world.file.home), home));
          } else if f.extent.AsDirectory? {
            world := world.(file := world.file.(home := home));
          } else if f.extent.AsRename? {
            world := world.(file := File(st, world.file.recoverable + {st}, home));
          }
        case _ =>
          reply := if f.fails then Failed(Cause(f.cause, false)) else Ack;
      }
      trace, worlds := trace + [Event(call, reply)], worlds + [world];
    }
  }

  // The calls from n on are a run; so are they with one more call.
  lemma CallsNext(job: Job, n: nat, trace: seq<Event>, e: Event)
    requires n <= |trace| && Conforms(Start(job), trace[n..]) && !After(Start(job), trace[n..]).Done?
    requires e.call == Pending(After(Start(job), trace[n..])) && Answers(e.call, e.reply)
    ensures (trace + [e])[..n] == trace[..n]
    ensures Conforms(Start(job), (trace + [e])[n..])
    ensures After(Start(job), (trace + [e])[n..]) == Resume(After(Start(job), trace[n..]), e.reply)
  {
    Extend(Start(job), trace[n..], e);
    assert (trace + [e])[n..] == trace[n..] + [e];
  }

  class Service {
    const deps: Dependencies
    var locked: bool  // s.mu
    // The run in progress: its job, the trace before it, and the stage its own calls have reached.
    ghost var job: Job
    ghost var before: seq<Event>
    ghost var at: Stage

    constructor (deps: Dependencies)
      ensures this.deps == deps && !locked
    {
      this.deps, locked := deps, false;
    }

    ghost predicate Tracked()
      reads this, deps
    {
      && locked && deps.Valid()
      && |before| <= |deps.trace| && deps.trace[..|before|] == before
      && Conforms(Start(job), deps.trace[|before|..])
      && After(Start(job), deps.trace[|before|..]) == at
    }

    // What both entry points promise: the calls they made are a run of the protocol that ended with this error.
    twostate predicate Finished(job: Job, new err: Option<Error>)
      reads this, deps
    {
      && !locked && deps.Valid()
      && |old(deps.trace)| <= |deps.trace| && deps.trace[..|old(deps.trace)|] == old(deps.trace)
      && var es := deps.trace[|old(deps.trace)|..];
      && Conforms(Start(job), es)
      && After(Start(job), es).Done?
      && After(Start(job), es).err == err
    }

    method Do(call: Call) returns (reply: Reply)
      requires Tracked() && !at.Done? && call == Pending(at)
      modifies this`at, deps
      ensures Tracked() && Answers(call, reply) && at == Resume(old(at), reply)
    {
      reply := deps.Invoke(call);
      CallsNext(job, |before|, old(deps.trace), Event(call, reply));
      at := Resume(at, reply);
    }

    method Handle(msg: Msg) returns (err: Option<Error>)
      requires !locked && deps.Valid()
      modifies this, deps
      ensures Finished(HandleJob(msg), err)
      ensures err.None? ==> deps.world.file.visible.uuid == msg.uuid
    {
      locked := true;
      job, before, at := HandleJob(msg), deps.trace, Start(HandleJob(msg));
      assert deps.trace[|before|..] == [];
      err := HandleLocked(msg);
      HandleReturnsNil(deps.cfg, msg, deps.trace[|before|..], deps.worlds[|before|..]);
      locked := false;
    }

    method HandleLocked(msg: Msg) returns (err: Option<Error>)
      requires Tracked() && at == Start(HandleJob(msg))
      modifies this`at, deps
      ensures Tracked() && at.Done? && at.err == err
    {
      if Blank(msg.target) {
        err := Fail(msg, InvalidInput(NotificationTarget), Invalid(NotificationTarget));
        return;
      }
      if Blank(msg.uuid) {
        err := Fail(msg, InvalidInput(NotificationUuid), Invalid(NotificationUuid));
        return;
      }
      var reply := Do(PublishStatus(msg, Received));
      if reply.Failed? {
        err := Fail(msg, StatusPublishFailed, Fault(AtStatus(Received), reply.cause));
        return;
      }
      reply := Do(PublishStatus(msg, LoadingDesired));
      if reply.Failed? {
        err := Fail(msg, StatusPublishFailed, Fault(AtStatus(LoadingDesired), reply.cause));
        return;
      }
      reply := Do(LoadDesired(msg.target));
      if reply.Failed? {
        err := Fail(msg, LoadDesiredFailed, Fault(AtLoadDesired, reply.cause));
        return;
      }
      if reply.record.None? {
        err := Fail(msg, InvalidInput(DesiredMissing), Invalid(DesiredMissing));
        return;
      }
      var desired := reply.record.value;
      if Blank(desired.target) {
        err := Fail(msg, InvalidInput(DesiredTarget), Invalid(DesiredTarget));
        return;
      }
      if Blank(desired.uuid) {
        err := Fail(msg, InvalidInput(DesiredUuid), Invalid(DesiredUuid));
        return;
      }
      if desired.target != msg.target {
        err := Fail(msg, InvalidInput(TargetMismatch), Invalid(TargetMismatch));
        return;
      }
      if desired.uuid != msg.uuid {
        err := Fail(msg, InvalidInput(UuidMismatch), Invalid(UuidMismatch));
        return;
      }
      err := HandleLoaded(msg, desired);
    }

    // The rest of Handle, once the loaded record passed the checks.
    method HandleLoaded(msg: Msg, desired: Record) returns (err: Option<Error>)
      requires Tracked() && at == HLoadState(msg, desired)
      modifies this`at, deps
      ensures Tracked() && at.Done? && at.err == err
    {
      var reply := Do(LoadState);
      if reply.Failed? {
        err := Fail(msg, StateLoadFailed, Fault(AtLoadState, reply.cause));
        return;
      }
      if reply.state.uuid == desired.uuid {
        reply := Do(PublishStatus(msg, AlreadyInSync));
        if reply.Failed? {
          err := Fail(msg, StatusPublishFailed, Fault(AtStatus(AlreadyInSync), reply.cause));
          return;
        }
        reply := Do(PublishResult(msg, InSyncAlready));
        if reply.Failed? {
          err := Fail(msg, ResultPublishFailed, Fault(AtResult(InSyncAlready), reply.cause));
          return;
        }
        return None;
      }
      err := ProcessDesiredConfigLocked(msg, desired);
    }

    method Reconcile(target: string) returns (err: Option<Error>)
      requires !locked && deps.Valid()
      modifies this, deps
      ensures Finished(ReconcileJob(target), err)
    {
      locked := true;
      job, before, at := ReconcileJob(target), deps.trace, Start(ReconcileJob(target));
      assert deps.trace[|before|..] == [];
      err := ReconcileLocked(target);
      locked := false;
    }

    method ReconcileLocked(target: string) returns (err: Option<Error>)
      requires Tracked() && at == Start(ReconcileJob(target))
      modifies this`at, deps
      ensures Tracked() && at.Done? && at.err == err
    {
      var reply := Do(LoadState);
      if reply.Failed? {
        var _ := Do(PublishStatus(Msg(target, "", ""), Failing));
        return Some(Plain(Fault(AtLoadState, reply.cause)));
      }
      var local := reply.state;
      reply := Do(LoadDesired(target));
      if reply.Failed? {
        if reply.cause.notFound {
          return None;
        }
        var _ := Do(PublishStatus(Msg(target, "", ""), Failing));
        return Some(Plain(Fault(AtLoadDesired, reply.cause)));
      }
      if reply.record.None? {
        return None;
      }
      var desired := reply.record.value;
      if local.uuid == desired.uuid {
        return None;
      }
      err := ProcessDesiredConfigLocked(Msg(desired.target, desired.uuid, desired.rpcId), desired);
    }

    method ProcessDesiredConfigLocked(msg: Msg, desired: Record) returns (err: Option<Error>)
      requires Tracked() && at == PRendering(msg, desired)
      modifies this`at, deps
      ensures Tracked() && at.Done? && at.err == err
    {
      var reply := Do(PublishStatus(msg, Rendering));
      if reply.Failed? {
        err := Fail(msg, StatusPublishFailed, Fault(AtStatus(Rendering), reply.cause));
        return;
      }
      reply := Do(Render(desired));
      if reply.Failed? {
        err := Fail(msg, RenderFailed, Fault(AtRender, reply.cause));
        return;
      }
      err := ApplyRendered(msg, desired, reply.output);
    }

    // The rest of processDesiredConfigLocked, once there is something to apply.
    method ApplyRendered(msg: Msg, desired: Record, rendered: Output) returns (err: Option<Error>)
      requires Tracked() && at == PRendered(msg, desired, rendered)
      modifies this`at, deps
      ensures Tracked() && at.Done? && at.err == err
    {
      var reply := Do(PublishStatus(msg, Rendered));
      if reply.Failed? {
        err := Fail(msg, StatusPublishFailed, Fault(AtStatus(Rendered), reply.cause));
        return;
      }
      reply := Do(PublishStatus(msg, Applying));
      if reply.Failed? {
        err := Fail(msg, StatusPublishFailed, Fault(AtStatus(Applying), reply.cause));
        return;
      }
      err := ApplyNow(msg, desired, rendered);
    }

    // The rest of it, once that was announced.
    method ApplyNow(msg: Msg, desired: Record, rendered: Output) returns (err: Option<Error>)
      requires Tracked() && at == PApply(msg, desired, rendered)
      modifies this`at, deps
      ensures Tracked() && at.Done? && at.err == err
    {
      var reply := Do(Apply(rendered));
      if reply.Failed? {
        err := Fail(msg, ApplyFailed, Fault(AtApply, reply.cause));
        return;
      }
      err := SaveState(msg, desired);
    }

    // The rest of processDesiredConfigLocked, once the device took the configuration.
    method SaveState(msg: Msg, desired: Record) returns (err: Option<Error>)
      requires Tracked() && at == PSave(msg, desired)
      modifies this`at, deps
      ensures Tracked() && at.Done? && at.err == err
    {
      var reply := Do(Save(State(msg.target, desired.uuid)));
      if reply.Failed? {
        err := Fail(msg, StateSaveFailed, Fault(AtSave, reply.cause));
        return;
      }
      err := ReportApplied(msg, desired);
    }

    // The report of a saved apply, with reportingFailure.
    method ReportApplied(msg: Msg, ghost desired: Record) returns (err: Option<Error>)
      requires Tracked() && at == PAppliedStatus(msg, desired)
      modifies this`at, deps
      ensures Tracked() && at.Done? && at.err == err
    {
      var reply := Do(PublishStatus(msg, Applied));
      var statusErr := if reply.Failed? then Some(Fault(AtStatus(Applied), reply.cause)) else None;
      reply := Do(PublishResult(msg, AppliedNow));
      var resultErr := if reply.Failed? then Some(Fault(AtResult(AppliedNow), reply.cause)) else None;
      if statusErr.Some? || resultErr.Some? {
        return Some(ReportingFailed(Listed(statusErr) + Listed(resultErr)));
      }
      return None;
    }

    method Fail(msg: Msg, code: Code, original: Leaf) returns (err: Option<Error>)
      requires Tracked() && at == FailStatus(msg, code, original)
      modifies this`at, deps
      ensures Tracked() && err.Some? && at == Done(Gave, err)
    {
      var reply := Do(PublishStatus(msg, Failing));
      var statusErr := if reply.Failed? then Some(Fault(AtStatus(Failing), reply.cause)) else None;
      reply := Do(PublishResult(msg, Failure(code)));
      var resultErr := if reply.Failed? then Some(Fault(AtResult(Failure(code)), reply.cause)) else None;
      return Some(Joined([original] + Listed(statusErr) + Listed(resultErr)));
    }
  }
}
