/** What each call of a run carries, which checks turn a run away, which branch it takes, and the form of its error. */
module ConfigureCalls {
  import opened Text
  import opened Checkpoint
  import opened ConfigureProtocol

  /******* What the calls carry *******/

  // The record a run has loaded.
  function RecordOf(job: Job, es: seq<Event>): Option<Record> {
    var i := if job.HandleJob? then 2 else 1;
    if i < |es| && es[i].reply.Desired? then es[i].reply.record else None
  }

  // Under which target, UUID and RPC id a run reports: those of the notification, or those of the record a Reconcile
  // loaded, and the target alone before that.
  function SenderOf(job: Job, es: seq<Event>): Msg {
    match job
    case HandleJob(msg) => msg
    case ReconcileJob(target) =>
      match RecordOf(job, es)
      case None => Msg(target, "", "")
      case Some(desired) => Msg(desired.target, desired.uuid, desired.rpcId)
  }

  function ReadCalls(job: Job): nat {
    if job.HandleJob? then 4 else 2
  }

  // What a call may be, given the run before it.
  predicate Carries(job: Job, before: seq<Event>, call: Call) {
    var k := ReadCalls(job);
    match call
    case PublishStatus(msg, _) => msg == SenderOf(job, before)
    case PublishResult(msg, _) => msg == SenderOf(job, before)
    case LoadState => true
    case LoadDesired(target) => target == if job.HandleJob? then job.msg.target else job.target
    case Render(desired) => RecordOf(job, before) == Some(desired)
    case Apply(rendered) => |before| == k + 4 && before[k + 1].reply == RenderedTo(rendered)
    case Save(st) =>
      && |before| == k + 5 && RecordOf(job, before).Some?
      && st == State(SenderOf(job, before).target, RecordOf(job, before).value.uuid)
  }

  // In every run, every status and every result goes out under that identity, what is rendered is the record that was
  // loaded, what is applied is what the renderer returned for it, and what is saved is its UUID.
  lemma CallsCarry(job: Job, es: seq<Event>, i: nat)
    requires Conforms(Start(job), es) && i < |es|
    ensures Carries(job, es[..i], es[i].call)
  {
    Prefix(Start(job), es, i);
    RunsHold(job, es[..i]);
  }

  // How a run got to its i-th call.
  lemma {:induction false} Prefix(from: Stage, es: seq<Event>, i: nat)
    requires Conforms(from, es) && i < |es|
    ensures Conforms(from, es[..i]) && Conforms(from, es[..i + 1])
    ensures var stage := After(from, es[..i]);
      && !stage.Done? && es[i].call == Pending(stage) && Answers(es[i].call, es[i].reply)
      && After(from, es[..i + 1]) == Resume(stage, es[i].reply)
  {
    var n := |es| - 1;
    assert es[..i + 1][..i] == es[..i];
    if i < n {
      Prefix(from, es[..n], i);
      assert es[..n][..i] == es[..i] && es[..n][..i + 1] == es[..i + 1];
    } else {
      assert es[..i + 1] == es;
    }
  }

  // What a stage that works on a record holds, n calls into the run.
  predicate Works(job: Job, es: seq<Event>, n: nat, msg: Msg, desired: Record) {
    |es| == n && RecordOf(job, es) == Some(desired) && msg == SenderOf(job, es)
  }

  predicate Handed(job: Job, es: seq<Event>, output: Output) {
    var k := ReadCalls(job);
    k + 1 < |es| && es[k + 1].reply == RenderedTo(output)
  }

  // Whatever a stage holds came from the notification and the replies of the run.
  predicate Holds(job: Job, stage: Stage, es: seq<Event>) {
    var k := ReadCalls(job);
    match stage
    case HReceived(msg) => job == HandleJob(msg) && es == []
    case HLoading(msg) => job == HandleJob(msg) && |es| == 1
    case HLoadDesired(msg) => job == HandleJob(msg) && |es| == 2
    case HLoadState(msg, desired) => job.HandleJob? && Works(job, es, 3, msg, desired)
    case HSyncStatus(msg, desired) => job.HandleJob? && Works(job, es, 4, msg, desired)
    case HSyncResult(msg, desired) => job.HandleJob? && Works(job, es, 5, msg, desired)
    case RLoadState(target) => job == ReconcileJob(target) && es == []
    case RLoadDesired(target, local) => job == ReconcileJob(target) && |es| == 1 && es[0].reply == Local(local)
    case RDegraded(target, _) => job == ReconcileJob(target) && 0 < |es| <= 2 && es[|es| - 1].reply.Failed?
    case PRendering(msg, desired) => Works(job, es, k, msg, desired)
    case PRender(msg, desired) => Works(job, es, k + 1, msg, desired)
    case PRendered(msg, desired, output) => Works(job, es, k + 2, msg, desired) && Handed(job, es, output)
    case PApplying(msg, desired, output) => Works(job, es, k + 3, msg, desired) && Handed(job, es, output)
    case PApply(msg, desired, output) => Works(job, es, k + 4, msg, desired) && Handed(job, es, output)
    case PSave(msg, desired) => Works(job, es, k + 5, msg, desired)
    case PAppliedStatus(msg, desired) => Works(job, es, k + 6, msg, desired)
    case PAppliedResult(msg, desired, _) => Works(job, es, k + 7, msg, desired)
    case FailStatus(msg, _, _) => msg == SenderOf(job, es) && (job.ReconcileJob? ==> |es| > 1)
    case FailResult(msg, _, _, _) => msg == SenderOf(job, es) && (job.ReconcileJob? ==> |es| > 1)
    case Done(_, _) => true
  }

  lemma {:induction false} RunsHold(job: Job, es: seq<Event>)
    requires Conforms(Start(job), es)
    ensures Holds(job, After(Start(job), es), es)
  {
    if es != [] {
      var n := |es| - 1;
      RunsHold(job, es[..n]);
      assert es[..n] + [es[n]] == es;
      HoldsOn(job, After(Start(job), es[..n]), es[..n], es[n]);
    }
  }

  lemma HoldsOn(job: Job, stage: Stage, es: seq<Event>, e: Event)
    requires !stage.Done? && e.call == Pending(stage) && Answers(e.call, e.reply) && Holds(job, stage, es)
    ensures Holds(job, Resume(stage, e.reply), es + [e])
  {
    RecordGrows(job, es, e);
    if Handling(stage) {
      HoldsInHandle(job, stage, es, e);
    } else if stage.RLoadState? || stage.RLoadDesired? || stage.RDegraded? {
      HoldsInReconcile(job, stage, es, e);
    } else {
      HoldsInProcess(job, stage, es, e);
    }
  }

  predicate Handling(stage: Stage) {
    stage.HReceived? || stage.HLoading? || stage.HLoadDesired? || stage.HLoadState? || stage.HSyncStatus? || stage.HSyncResult?
  }

  lemma RecordGrows(job: Job, es: seq<Event>, e: Event)
    ensures RecordOf(job, es + [e]) ==
      if |es| == (if job.HandleJob? then 2 else 1) then (if e.reply.Desired? then e.reply.record else None)
      else RecordOf(job, es)
    ensures forall i | 0 <= i < |es| :: (es + [e])[i] == es[i]
  {
  }

  lemma HoldsInHandle(job: Job, stage: Stage, es: seq<Event>, e: Event)
    requires Handling(stage) && Answers(Pending(stage), e.reply) && Holds(job, stage, es)
    ensures Holds(job, Resume(stage, e.reply), es + [e])
  {
    RecordGrows(job, es, e);
  }

  lemma HoldsInReconcile(job: Job, stage: Stage, es: seq<Event>, e: Event)
    requires stage.RLoadState? || stage.RLoadDesired? || stage.RDegraded?
    requires Answers(Pending(stage), e.reply) && Holds(job, stage, es)
    ensures Holds(job, Resume(stage, e.reply), es + [e])
  {
    RecordGrows(job, es, e);
  }

  lemma HoldsInProcess(job: Job, stage: Stage, es: seq<Event>, e: Event)
    requires !stage.Done? && !Handling(stage) && !stage.RLoadState? && !stage.RLoadDesired? && !stage.RDegraded?
    requires Answers(Pending(stage), e.reply) && Holds(job, stage, es)
    ensures Holds(job, Resume(stage, e.reply), es + [e])
  {
    RecordGrows(job, es, e);
  }

  /******* The checks of Handle *******/

  // The first check that fails, on the notification and the record that was loaded for it.
  predicate Objects(msg: Msg, es: seq<Event>, why: Invalidity) {
    match why
    case NotificationTarget => Blank(msg.target)
    case NotificationUuid => !Blank(msg.target) && Blank(msg.uuid)
    case _ =>
      !Blank(msg.target) && !Blank(msg.uuid) && |es| > 2 && es[2].reply.Desired? && ObjectsTo(msg, es[2].reply.record, why)
  }

  predicate ObjectsTo(msg: Msg, record: Option<Record>, why: Invalidity) {
    match record
    case None => why.DesiredMissing?
    case Some(r) =>
      match why
      case DesiredTarget => Blank(r.target)
      case DesiredUuid => !Blank(r.target) && Blank(r.uuid)
      case TargetMismatch => !Blank(r.target) && !Blank(r.uuid) && r.target != msg.target
      case UuidMismatch => !Blank(r.target) && !Blank(r.uuid) && r.target == msg.target && r.uuid != msg.uuid
      case _ => false
  }

  predicate PassesAll(msg: Msg, es: seq<Event>) {
    forall why: Invalidity :: !Objects(msg, es, why)
  }

  // The last call of the run is a failure result of this reason, and its error begins with it.
  predicate ToldInvalid(msg: Msg, es: seq<Event>, err: Option<Error>, why: Invalidity) {
    && es != [] && es[|es| - 1].call == PublishResult(msg, Failure(InvalidInput(why)))
    && err.Some? && err.value.Joined? && err.value.leaves != [] && err.value.leaves[0] == Invalid(why)
  }

  // The last call is another one, and no such error is held.
  predicate ToldOther(es: seq<Event>, err: Option<Error>) {
    && es != [] && !IsInvalid(es[|es| - 1].call)
    && forall i | 0 <= i < |Leaves(err)| :: Leaves(err)[i].Fault?
  }

  predicate IsInvalid(call: Call) {
    call.PublishResult? && call.verdict.Failure? && call.verdict.code.InvalidInput?
  }

  predicate Sound(leaf: Option<Leaf>) {
    leaf.Some? ==> leaf.value.Fault?
  }

  // What a stage of Handle knows of the checks.
  predicate Checked(msg: Msg, stage: Stage, es: seq<Event>) {
    match stage
    case FailStatus(_, code, original) => Explained(msg, es, code, original)
    case FailResult(_, code, original, statusErr) => Explained(msg, es, code, original) && Sound(statusErr)
    case PAppliedResult(_, _, statusErr) => PassesAll(msg, es) && Sound(statusErr)
    case Done(_, err) => if PassesAll(msg, es) then ToldOther(es, err) else exists why :: Told(msg, es, err, why)
    case _ => PassesAll(msg, es)
  }

  predicate Told(msg: Msg, es: seq<Event>, err: Option<Error>, why: Invalidity) {
    Objects(msg, es, why) && ToldInvalid(msg, es, err, why)
  }

  predicate Explained(msg: Msg, es: seq<Event>, code: Code, original: Leaf) {
    if code.InvalidInput? then Objects(msg, es, code.why) && original == Invalid(code.why)
    else PassesAll(msg, es) && original.Fault?
  }

  lemma {:induction false} RunsAreChecked(msg: Msg, es: seq<Event>)
    requires Conforms(Start(HandleJob(msg)), es)
    ensures Checked(msg, After(Start(HandleJob(msg)), es), es)
  {
    var job := HandleJob(msg);
    if es != [] {
      var n := |es| - 1;
      RunsAreChecked(msg, es[..n]);
      RunsHold(job, es[..n]);
      assert es[..n] + [es[n]] == es;
      CheckedOn(msg, After(Start(job), es[..n]), es[..n], es[n]);
    }
  }

  lemma CheckedOn(msg: Msg, stage: Stage, es: seq<Event>, e: Event)
    requires !stage.Done? && e.call == Pending(stage) && Answers(e.call, e.reply)
    requires Holds(HandleJob(msg), stage, es) && Checked(msg, stage, es)
    ensures Checked(msg, Resume(stage, e.reply), es + [e])
  {
    if stage.HLoadDesired? {
      CheckedAtLoad(msg, es, e);
    } else {
      ObjectsSteady(msg, es, e);
      if stage.FailResult? {
        CheckedAtEnd(msg, stage, es, e);
      } else {
        CheckedAfter(msg, stage, es, e);
      }
    }
  }

  lemma ObjectsSteady(msg: Msg, es: seq<Event>, e: Event)
    requires |es| == 2 ==> !e.reply.Desired?
    ensures forall why: Invalidity :: Objects(msg, es + [e], why) <==> Objects(msg, es, why)
  {
  }

  lemma CheckedAtLoad(msg: Msg, es: seq<Event>, e: Event)
    requires |es| == 2 && PassesAll(msg, es) && Answers(LoadDesired(msg.target), e.reply)
    ensures Checked(msg, Resume(HLoadDesired(msg), e.reply), es + [e])
  {
    assert !Objects(msg, es, NotificationTarget) && !Objects(msg, es, NotificationUuid);
    assert (es + [e])[2] == e;
  }

  lemma CheckedAtEnd(msg: Msg, stage: Stage, es: seq<Event>, e: Event)
    requires stage.FailResult? && stage.msg == msg && e.call == Pending(stage) && Answers(e.call, e.reply)
    requires Checked(msg, stage, es)
    requires forall why: Invalidity :: Objects(msg, es + [e], why) <==> Objects(msg, es, why)
    ensures Checked(msg, Resume(stage, e.reply), es + [e])
  {
    if stage.code.InvalidInput? {
      assert Told(msg, es + [e], Resume(stage, e.reply).err, stage.code.why);
    }
  }

  lemma CheckedAfter(msg: Msg, stage: Stage, es: seq<Event>, e: Event)
    requires !stage.Done? && !stage.FailResult? && !stage.HLoadDesired? && e.call == Pending(stage) && Answers(e.call, e.reply)
    requires Holds(HandleJob(msg), stage, es) && Checked(msg, stage, es)
    requires forall why: Invalidity :: Objects(msg, es + [e], why) <==> Objects(msg, es, why)
    ensures Checked(msg, Resume(stage, e.reply), es + [e])
  {
  }

  // Handle turns a notification away for this reason: it ends with that failure result, and the error it returns begins
  // with that objection.
  ghost predicate TurnedAway(msg: Msg, es: seq<Event>, why: Invalidity)
    requires Conforms(Start(HandleJob(msg)), es) && After(Start(HandleJob(msg)), es).Done?
  {
    ToldInvalid(msg, es, After(Start(HandleJob(msg)), es).err, why)
  }

  // Which notification is turned away for which reason; and a run that turns nothing away is reported neither as invalid
  // nor with such an error.
  lemma NotificationObjections(msg: Msg, es: seq<Event>)
    requires Conforms(Start(HandleJob(msg)), es) && After(Start(HandleJob(msg)), es).Done?
    ensures TurnedAway(msg, es, NotificationTarget) <==> Blank(msg.target)
    ensures TurnedAway(msg, es, NotificationUuid) <==> !Blank(msg.target) && Blank(msg.uuid)
    ensures (forall why :: !TurnedAway(msg, es, why)) ==> ToldOther(es, After(Start(HandleJob(msg)), es).err)
  {
    TurnedAwayIff(msg, es);
    assert TurnedAway(msg, es, NotificationTarget) <==> Objects(msg, es, NotificationTarget);
    assert TurnedAway(msg, es, NotificationUuid) <==> Objects(msg, es, NotificationUuid);
  }

  // And, once a record was loaded, which record is; without one, nothing else is.
  lemma RecordObjections(msg: Msg, es: seq<Event>, why: Invalidity)
    requires Conforms(Start(HandleJob(msg)), es) && After(Start(HandleJob(msg)), es).Done?
    requires !why.NotificationTarget? && !why.NotificationUuid?
    ensures TurnedAway(msg, es, why) <==>
      && |es| > 2 && es[2].reply.Desired?
      && match es[2].reply.record
         case None => why.DesiredMissing?
         case Some(r) =>
           || (why.DesiredTarget? && Blank(r.target))
           || (why.DesiredUuid? && !Blank(r.target) && Blank(r.uuid))
           || (why.TargetMismatch? && !Blank(r.target) && !Blank(r.uuid) && r.target != msg.target)
           || (why.UuidMismatch? && !Blank(r.target) && !Blank(r.uuid) && r.target == msg.target && r.uuid != msg.uuid)
  {
    TurnedAwayIff(msg, es);
    LoadsWhenSent(msg, es);
    assert TurnedAway(msg, es, why) <==> Objects(msg, es, why);
  }

  // A notification for the record that the key holds passes all checks: the checkpoint is read next.
  lemma MatchingRecordPasses(msg: Msg, es: seq<Event>)
    requires Conforms(Start(HandleJob(msg)), es) && After(Start(HandleJob(msg)), es).Done?
    requires |es| > 2 && es[2].reply.Desired? && es[2].reply.record.Some?
    ensures var r := es[2].reply.record.value;
      !Blank(r.target) && !Blank(r.uuid) && r.target == msg.target && r.uuid == msg.uuid <==>
      |es| > 3 && es[3].call == LoadState
  {
    var from := Start(HandleJob(msg));
    Prefix(from, es, 2);
    RunsHold(HandleJob(msg), es[..2]);
    assert After(from, es[..2]) == HLoadDesired(msg);
    LoadLeads(msg, es[2].reply);
    EndsAt(from, es, 3);
  }

  lemma LoadLeads(msg: Msg, reply: Reply)
    requires reply.Desired? && reply.record.Some?
    ensures var r, next := reply.record.value, Resume(HLoadDesired(msg), reply);
      && !next.Done?
      && (!Blank(r.target) && !Blank(r.uuid) && r.target == msg.target && r.uuid == msg.uuid <==> Pending(next) == LoadState)
  {
  }

  lemma TurnedAwayIff(msg: Msg, es: seq<Event>)
    requires Conforms(Start(HandleJob(msg)), es) && After(Start(HandleJob(msg)), es).Done?
    ensures forall why :: TurnedAway(msg, es, why) <==> Objects(msg, es, why)
    ensures (forall why :: !TurnedAway(msg, es, why)) ==> ToldOther(es, After(Start(HandleJob(msg)), es).err)
  {
    RunsAreChecked(msg, es);
    if !PassesAll(msg, es) {
      var found :| Told(msg, es, After(Start(HandleJob(msg)), es).err, found);
      OneObjection(msg, es, found);
      assert TurnedAway(msg, es, found);
    }
  }

  lemma OneObjection(msg: Msg, es: seq<Event>, why: Invalidity)
    requires Objects(msg, es, why)
    ensures forall other :: Objects(msg, es, other) ==> other == why
  {
  }

  // Nothing is loaded for a notification without a target or a UUID.
  lemma LoadsWhenSent(msg: Msg, es: seq<Event>)
    requires Conforms(Start(HandleJob(msg)), es)
    ensures |es| > 2 && es[2].reply.Desired? ==> !Blank(msg.target) && !Blank(msg.uuid)
  {
    if |es| > 2 && es[2].reply.Desired? {
      Prefix(Start(HandleJob(msg)), es, 2);
      RunsHold(HandleJob(msg), es[..2]);
      RunsAreChecked(msg, es[..2]);
      assert !Objects(msg, es[..2], NotificationTarget) && !Objects(msg, es[..2], NotificationUuid);
    }
  }

  /******* Which branch a run takes *******/

  // A Handle that gets to compare the record with the checkpoint reports it as in sync exactly when the UUIDs are equal,
  // and renders it otherwise.
  lemma HandleDecides(msg: Msg, es: seq<Event>)
    requires Conforms(Start(HandleJob(msg)), es) && After(Start(HandleJob(msg)), es).Done?
    requires |es| > 3 && es[3].reply.Local?
    ensures |es| > 4 && es[2].reply.Desired? && es[2].reply.record.Some?
    ensures es[4].call == PublishStatus(msg, if es[3].reply.state.uuid == es[2].reply.record.value.uuid then AlreadyInSync else Rendering)
  {
    var from := Start(HandleJob(msg));
    Prefix(from, es, 3);
    RunsHold(HandleJob(msg), es[..3]);
    var stage := After(from, es[..3]);
    StateLeads(msg, stage, es[..3], es[3].reply);
    EndsAt(from, es, 4);
  }

  lemma StateLeads(msg: Msg, stage: Stage, es: seq<Event>, reply: Reply)
    requires |es| == 3 && Holds(HandleJob(msg), stage, es)
    requires !stage.Done? && Answers(Pending(stage), reply) && reply.Local?
    ensures es[2].reply.Desired? && es[2].reply.record.Some?
    ensures var next := Resume(stage, reply);
      && !next.Done?
      && Pending(next) == PublishStatus(msg, if reply.state.uuid == es[2].reply.record.value.uuid then AlreadyInSync else Rendering)
  {
  }

  // A run makes its next call unless it is over.
  lemma EndsAt(from: Stage, es: seq<Event>, n: nat)
    requires Conforms(from, es) && After(from, es).Done? && n <= |es| && Conforms(from, es[..n])
    ensures After(from, es[..n]).Done? <==> n == |es|
    ensures n < |es| ==> es[n].call == Pending(After(from, es[..n]))
    ensures n == |es| ==> After(from, es[..n]) == After(from, es)
  {
    if n == |es| {
      assert es[..n] == es;
    } else {
      Prefix(from, es, n);
    }
  }

  // A Reconcile reads the checkpoint first and the record next.
  lemma ReconcileReads(target: string, es: seq<Event>)
    requires Conforms(RLoadState(target), es) && After(RLoadState(target), es).Done?
    ensures |es| >= 2 && es[0].call == LoadState && Answers(LoadState, es[0].reply)
    ensures Conforms(RLoadState(target), es[..2])
    ensures es[0].reply.Local? ==>
      && es[1].call == LoadDesired(target) && Answers(es[1].call, es[1].reply)
      && After(RLoadState(target), es[..2]) == Resume(RLoadDesired(target, es[0].reply.state), es[1].reply)
    ensures es[0].reply.Failed? ==>
      && es[1].call == PublishStatus(Msg(target, "", ""), Failing)
      && After(RLoadState(target), es[..2]) == Done(Gave, Some(Plain(Fault(AtLoadState, es[0].reply.cause))))
  {
    var from := RLoadState(target);
    assert es[..0] == [];
    EndsAt(from, es, 0);
    Prefix(from, es, 0);
    EndsAt(from, es, 1);
    Prefix(from, es, 1);
  }

  // When it cannot read, it says so once and returns that error, except for a missing key.
  lemma ReconcileCannotRead(target: string, es: seq<Event>)
    requires Conforms(RLoadState(target), es) && After(RLoadState(target), es).Done?
    ensures |es| >= 2
    ensures es[0].reply.Failed? ==>
      && |es| == 2 && es[1].call == PublishStatus(Msg(target, "", ""), Failing)
      && After(RLoadState(target), es).err == Some(Plain(Fault(AtLoadState, es[0].reply.cause)))
    ensures es[0].reply.Local? && es[1].reply.Failed? ==>
      if es[1].reply.cause.notFound then |es| == 2 && After(RLoadState(target), es).err == None
      else
        && |es| == 3 && es[2].call == PublishStatus(Msg(target, "", ""), Failing)
        && After(RLoadState(target), es).err == Some(Plain(Fault(AtLoadDesired, es[1].reply.cause)))
  {
    var from := RLoadState(target);
    ReconcileReads(target, es);
    EndsAt(from, es, 2);
    if |es| > 2 {
      Prefix(from, es, 2);
      EndsAt(from, es, 3);
    }
  }

  // When it has read both, it ends there if there is no record or its UUID is that of the checkpoint, and otherwise
  // renders the record.
  lemma ReconcileDecides(target: string, es: seq<Event>)
    requires Conforms(RLoadState(target), es) && After(RLoadState(target), es).Done?
    requires |es| > 1 && es[0].reply.Local? && es[1].reply.Desired?
    ensures var record := es[1].reply.record;
      if record.None? || record.value.uuid == es[0].reply.state.uuid then
        |es| == 2 && After(RLoadState(target), es).err == None
      else
        var d := record.value;
        |es| > 2 && es[2].call == PublishStatus(Msg(d.target, d.uuid, d.rpcId), Rendering)
  {
    ReconcileReads(target, es);
    RecordLeads(target, es[0].reply.state, es[1].reply);
    EndsAt(RLoadState(target), es, 2);
  }

  lemma RecordLeads(target: string, local: State, reply: Reply)
    requires reply.Desired?
    ensures var record, next := reply.record, Resume(RLoadDesired(target, local), reply);
      if record.None? || record.value.uuid == local.uuid then next.Done? && next.err == None
      else !next.Done? && Pending(next) == PublishStatus(Msg(record.value.target, record.value.uuid, record.value.rpcId), Rendering)
  {
  }

  /******* The form of the error *******/

  // Joined after a failure result, "succeeded but reporting failed" after the success result of an apply, and the plain
  // error of a read after a Reconcile published that it is degraded; nil after any other last call.
  lemma ErrorForm(job: Job, es: seq<Event>)
    requires Conforms(Start(job), es) && After(Start(job), es).Done?
    ensures es != []
    ensures var err, last := After(Start(job), es).err, es[|es| - 1].call;
      match err
      case Some(Joined(_)) => last.PublishResult? && last.verdict.Failure?
      case Some(ReportingFailed(_)) => last.PublishResult? && last.verdict.AppliedNow?
      case Some(Plain(_)) => job.ReconcileJob? && last == PublishStatus(Msg(job.target, "", ""), Failing)
      case None => !last.PublishStatus? && !(last.PublishResult? && last.verdict.Failure?)
  {
    var n := |es| - 1;
    Prefix(Start(job), es, n);
    RunsHold(job, es[..n]);
    assert es[..n + 1] == es;
  }
}
