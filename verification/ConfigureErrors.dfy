/** What the error of one run means: which errors it holds, and when there is none. */
module ConfigureErrors {
  import opened Text
  import opened ConfigureProtocol
  import opened ConfigureTraces
  import opened ConfigureFacts

  // The errors that the calls of a run returned, in order.
  function ErrorsOf(es: seq<Event>): seq<Leaf> {
    if es == [] then []
    else
      var e := es[|es| - 1];
      ErrorsOf(es[..|es| - 1]) + if e.reply.Failed? then [Fault(SiteOf(e.call), e.reply.cause)] else []
  }

  // The objection a run raises itself: the message or the loaded record fails a check of Handle.
  function Objection(job: Job, es: seq<Event>): seq<Leaf> {
    match job
    case ReconcileJob(_) => []
    case HandleJob(msg) =>
      if Blank(msg.target) then [Invalid(NotificationTarget)]
      else if Blank(msg.uuid) then [Invalid(NotificationUuid)]
      else if |es| < 3 || !es[2].reply.Desired? then []
      else
        match Mismatch(msg, es[2].reply.record)
        case Some(why) => [Invalid(why)]
        case None => []
  }

  // Everything that went wrong in a run, in order.
  function Wrong(job: Job, es: seq<Event>): seq<Leaf> {
    Objection(job, es) + ErrorsOf(es)
  }

  function FaultOf(e: Event): Leaf
    requires e.reply.Failed?
  {
    Fault(SiteOf(e.call), e.reply.cause)
  }

  // What a run returns. Reconcile treats a missing key as nothing to do, and when it cannot read the checkpoint
  // or the key it returns that error only: a failure to publish the degraded status is logged.
  function Returned(job: Job, es: seq<Event>): seq<Leaf> {
    if job.HandleJob? then Wrong(job, es)
    else if |es| > 0 && es[0].reply.Failed? then [FaultOf(es[0])]
    else if |es| > 1 && es[1].reply.Failed? then (if es[1].reply.cause.notFound then [] else [FaultOf(es[1])])
    else Wrong(job, es)
  }

  // The leaves a stage holds on to.
  function Held(stage: Stage): seq<Leaf> {
    match stage
    case FailStatus(_, _, original) => [original]
    case FailResult(_, _, original, statusErr) => [original] + Listed(statusErr)
    case PAppliedResult(_, _, statusErr) => Listed(statusErr)
    case RDegraded(_, leaf) => [leaf]
    case Done(_, err) => Leaves(err)
    case _ => []
  }

  // Where in a run a stage can be.
  predicate Placed(job: Job, stage: Stage, es: seq<Event>) {
    match job
    case HandleJob(msg) =>
      (match stage
       case HReceived(m) => m == msg && |es| == 0
       case HLoading(m) => m == msg && |es| == 1
       case HLoadDesired(m) => m == msg && |es| == 2
       case Done(_, _) => true
       case FailStatus(_, _, _) => true
       case FailResult(_, _, _, _) => true
       case _ => |es| >= 3 && !stage.RLoadState? && !stage.RLoadDesired? && !stage.RDegraded?)
      && (DesiredOf(stage).Some? ==> DesiredOf(stage).value.uuid == msg.uuid && DesiredOf(stage).value.target == msg.target)
    case ReconcileJob(_) =>
      match stage
      case RLoadState(_) => |es| == 0
      case RLoadDesired(_, _) => |es| == 1 && !es[0].reply.Failed?
      case RDegraded(_, _) =>
        (|es| == 1 && es[0].reply.Failed?)
        || (|es| == 2 && !es[0].reply.Failed? && es[1].reply.Failed? && !es[1].reply.cause.notFound)
      case Done(_, _) => true
      case _ =>
        && |es| >= 2 && !es[0].reply.Failed? && !es[1].reply.Failed?
        && !stage.HReceived? && !stage.HLoading? && !stage.HLoadDesired? && !stage.HLoadState?
  }

  lemma ErrorsGrow(es: seq<Event>, e: Event)
    ensures ErrorsOf(es + [e]) == ErrorsOf(es) + if e.reply.Failed? then [FaultOf(e)] else []
  {
    assert (es + [e])[..|es|] == es;
  }

  lemma ObjectionSteady(job: Job, es: seq<Event>, e: Event)
    requires |es| == 2 ==> !e.reply.Desired?
    ensures Objection(job, es + [e]) == Objection(job, es)
  {
  }

  ghost predicate Accounts(job: Job, stage: Stage, es: seq<Event>) {
    Placed(job, stage, es) && Held(stage) == Returned(job, es)
  }

  lemma {:induction false} RunsAccount(job: Job, es: seq<Event>)
    requires Conforms(Start(job), es)
    ensures Accounts(job, After(Start(job), es), es)
    decreases |es|, 1
  {
    if es != [] {
      if job.HandleJob? {
        HandleAccountsNext(job, es);
      } else {
        ReconcileAccountsNext(job, es);
      }
    }
  }

  lemma {:induction false} HandleAccountsNext(job: Job, es: seq<Event>)
    requires job.HandleJob? && Conforms(Start(job), es) && es != []
    ensures Accounts(job, After(Start(job), es), es)
    decreases |es|, 0
  {
    var n := |es| - 1;
    RunsAccount(job, es[..n]);
    assert es[..n] + [es[n]] == es;
    HandleAccountsOn(job, After(Start(job), es[..n]), es[..n], es[n]);
  }

  lemma {:induction false} ReconcileAccountsNext(job: Job, es: seq<Event>)
    requires job.ReconcileJob? && Conforms(Start(job), es) && es != []
    ensures Accounts(job, After(Start(job), es), es)
    decreases |es|, 0
  {
    var n := |es| - 1;
    RunsAccount(job, es[..n]);
    assert es[..n] + [es[n]] == es;
    ReconcileAccountsOn(job, After(Start(job), es[..n]), es[..n], es[n]);
  }

  lemma HandleAccountsOn(job: Job, stage: Stage, es: seq<Event>, e: Event)
    requires job.HandleJob? && !stage.Done? && e.call == Pending(stage) && Answers(e.call, e.reply)
    requires Accounts(job, stage, es)
    ensures Accounts(job, Resume(stage, e.reply), es + [e])
  {
    PlacedOn(job, stage, es, e);
    HeldGrows(stage, e.reply);
    if stage.HLoadDesired? {
      LoadedWrong(job, stage, es, e);
    } else {
      WrongGrows(job, stage, es, e);
    }
  }

  lemma LoadedWrong(job: Job, stage: Stage, es: seq<Event>, e: Event)
    requires job.HandleJob? && stage.HLoadDesired? && Placed(job, stage, es) && !Blank(job.msg.target) && !Blank(job.msg.uuid)
    requires e.call == Pending(stage) && Answers(e.call, e.reply)
    ensures Wrong(job, es) == ErrorsOf(es)
    ensures Wrong(job, es + [e]) ==
      (if e.reply.Failed? then [] else match Mismatch(stage.msg, e.reply.record) case Some(why) => [Invalid(why)] case None => [])
      + ErrorsOf(es) + if e.reply.Failed? then [FaultOf(e)] else []
  {
    ErrorsGrow(es, e);
    assert (es + [e])[2] == e;
  }

  lemma WrongGrows(job: Job, stage: Stage, es: seq<Event>, e: Event)
    requires job.HandleJob? && !stage.HLoadDesired? && !stage.Done? && Placed(job, stage, es)
    requires e.call == Pending(stage) && Answers(e.call, e.reply)
    ensures Wrong(job, es + [e]) == Wrong(job, es) + if e.reply.Failed? then [FaultOf(e)] else []
  {
    ErrorsGrow(es, e);
    ObjectionSteady(job, es, e);
  }

  lemma ReconcileAccountsOn(job: Job, stage: Stage, es: seq<Event>, e: Event)
    requires job.ReconcileJob? && !stage.Done? && e.call == Pending(stage) && Answers(e.call, e.reply)
    requires Accounts(job, stage, es)
    ensures Accounts(job, Resume(stage, e.reply), es + [e])
  {
    PlacedOn(job, stage, es, e);
    if !stage.RDegraded? && !(stage.RLoadDesired? && e.reply.Failed?) {
      HeldGrows(stage, e.reply);
    }
    ErrorsGrow(es, e);
    assert |es| > 0 ==> (es + [e])[0] == es[0];
    assert |es| > 1 ==> (es + [e])[1] == es[1];
    if stage.RLoadState? {
      assert ErrorsOf(es) == [];
    }
  }

  // Every stage keeps what it holds and adds the error it is told of.
  lemma HeldGrows(stage: Stage, reply: Reply)
    requires !stage.Done? && Answers(Pending(stage), reply)
    requires !stage.RDegraded? && !(stage.RLoadDesired? && reply.Failed?)
    ensures stage.HLoadDesired? && reply.Desired? ==>
              Held(Resume(stage, reply)) == match Mismatch(stage.msg, reply.record) case Some(why) => [Invalid(why)] case None => []
    ensures !(stage.HLoadDesired? && reply.Desired?) ==>
              Held(Resume(stage, reply)) ==
              Held(stage) + if reply.Failed? then [Fault(SiteOf(Pending(stage)), reply.cause)] else []
  {
  }

  lemma PlacedOn(job: Job, stage: Stage, es: seq<Event>, e: Event)
    requires !stage.Done? && e.call == Pending(stage) && Answers(e.call, e.reply)
    requires Placed(job, stage, es)
    ensures Placed(job, Resume(stage, e.reply), es + [e])
  {
    assert |es| > 0 ==> (es + [e])[0] == es[0];
    assert |es| > 1 ==> (es + [e])[1] == es[1];
  }

  // The error of a finished run is made of exactly the errors above, and is nil exactly when there are none.
  lemma ErrorIsWhatWentWrong(job: Job, es: seq<Event>)
    requires Conforms(Start(job), es) && After(Start(job), es).Done?
    ensures Leaves(After(Start(job), es).err) == Returned(job, es)
    ensures After(Start(job), es).err.None? <==> Returned(job, es) == []
  {
    RunsAccount(job, es);
    DoneHasLeaves(job, es);
  }

  lemma DoneHasLeaves(job: Job, es: seq<Event>)
    requires Conforms(Start(job), es) && After(Start(job), es).Done?
    ensures var done := After(Start(job), es);
      && (done.err.Some? <==> Leaves(done.err) != [])
      && (done.err.Some? <==> done.outcome.Gave?)
  {
    var n := |es| - 1;
    EndsWithLeaves(After(Start(job), es[..n]), es[n].reply);
  }

  lemma EndsWithLeaves(stage: Stage, reply: Reply)
    requires !stage.Done? && Answers(Pending(stage), reply)
    ensures var next := Resume(stage, reply);
      next.Done? ==> (next.err.Some? <==> Leaves(next.err) != []) && (next.err.Some? <==> next.outcome.Gave?)
  {
  }

  // Handle returns nil exactly when its checks pass and no call fails; then the record it loaded is the notified one
  // and, if nobody else wrote the file, the checkpoint names it.
  lemma HandleReturnsNil(cfg: Config, msg: Msg, es: seq<Event>, worlds: seq<World>)
    requires Conforms(Start(HandleJob(msg)), es) && Undisturbed(cfg, es, worlds)
    requires After(Start(HandleJob(msg)), es).Done?
    ensures var done := After(Start(HandleJob(msg)), es);
      && (done.err.None? <==>
            Objection(HandleJob(msg), es) == [] && forall i | 0 <= i < |es| :: !es[i].reply.Failed?)
      && (done.err.None? ==> worlds[|es|].file.visible.uuid == msg.uuid)
  {
    var job := HandleJob(msg);
    ErrorIsWhatWentWrong(job, es);
    NoErrors(es);
    RunsAccount(job, es);
    RunKnows(cfg, job, es, worlds);
    DoneHasLeaves(job, es);
    HandleNeverIdle(msg, es);
  }

  lemma {:induction false} NoErrors(es: seq<Event>)
    ensures ErrorsOf(es) == [] <==> forall i | 0 <= i < |es| :: !es[i].reply.Failed?
  {
    if es != [] {
      var n := |es| - 1;
      NoErrors(es[..n]);
      assert forall i | 0 <= i < n :: es[..n][i] == es[i];
    }
  }

  lemma {:induction false} HandleNeverIdle(msg: Msg, es: seq<Event>)
    requires Conforms(Start(HandleJob(msg)), es) && After(Start(HandleJob(msg)), es).Done?
    ensures !After(Start(HandleJob(msg)), es).outcome.Nothing?
  {
    RunsAccount(HandleJob(msg), es[..|es| - 1]);
  }

  /******* Reports *******/

  // Every finished Handle attempts a result, and a result that was acknowledged is the last call of its run.
  lemma HandleReports(msg: Msg, es: seq<Event>)
    requires Conforms(Start(HandleJob(msg)), es) && After(Start(HandleJob(msg)), es).Done?
    ensures exists i :: 0 <= i < |es| && es[i].call.PublishResult?
    ensures forall i :: 0 <= i < |es| && es[i].call.PublishResult? && es[i].reply.Ack? ==> i == |es| - 1
  {
    var letters := Letters(es);
    RunsAreWords(HandleJob(msg), es);
    assert Word(HandleJob(msg), letters);
    assert letters[|es| - 1].site.AtResult?;
    assert es[|es| - 1].call.PublishResult?;
    forall i | 0 <= i < |es| - 1 && es[i].call.PublishResult? && es[i].reply.Ack?
      ensures false
    {
      assert letters[i].ok && letters[i].site.AtResult?;
      ResultsEnd(HandleJob(msg), letters, i);
    }
  }

  // On a line only SyncLine has a result, its last letter, and only ApplyLine a save, its last letter.
  lemma LineEnds(line: Line, letters: seq<Letter>, i: nat)
    requires (AckedUpTo(line, letters) || StoppedOn(line, letters)) && i < |letters|
    ensures letters[i].site.AtResult? ==> line.SyncLine? && i == 5 && |letters| == 6
    ensures letters[i].site == AtSave ==> line.ApplyLine? && i == |letters| - 1 == Length(line) - 1
    ensures letters[i].ok || (i == |letters| - 1 && StoppedOn(line, letters))
  {
    assert letters[i].site == At(line, i) by {
      if StoppedOn(line, letters) && i < |letters| - 1 {
        assert letters[..|letters| - 1][i] == letters[i];
      }
    }
  }

  // What comes before a failure report: no acknowledged result and no completed save.
  lemma InterruptedEnds(job: Job, body: seq<Letter>, code: Code, i: nat)
    requires Interrupted(job, body, code) && i < |body|
    ensures body[i].ok ==> !body[i].site.AtResult? && body[i].site != AtSave
  {
    if AckedUpTo(SyncLine, body) || StoppedOn(SyncLine, body) {
      LineEnds(SyncLine, body, i);
    } else {
      LineEnds(ApplyLine(job.HandleJob?), body, i);
    }
  }

  ghost predicate FailingWord(job: Job, letters: seq<Letter>) {
    && |letters| >= 2
    && var body, tail := letters[..|letters| - 2], letters[|letters| - 2..];
    FailTail(tail) && Interrupted(job, body, tail[1].site.verdict.code)
  }

  ghost predicate ApplyingWord(job: Job, letters: seq<Letter>) {
    && |letters| >= 2
    && Acked(ApplyLine(job.HandleJob?), letters[..|letters| - 2]) && AppliedTail(letters[|letters| - 2..])
  }

  ghost predicate BriefWord(job: Job, letters: seq<Letter>) {
    || (job.HandleJob? && Acked(SyncLine, letters))
    || (job.ReconcileJob? && |letters| <= 3 && NoReport(letters))
  }

  lemma ThreeKinds(job: Job, letters: seq<Letter>)
    requires Word(job, letters)
    ensures FailingWord(job, letters) || ApplyingWord(job, letters) || BriefWord(job, letters)
  {
    if job.ReconcileJob? && Degraded(letters) {
      DegradedIsBrief(letters);
    } else if job.ReconcileJob? && (Acked(ReadLine, letters) || (|letters| == 2 && StoppedOn(ReadLine, letters))) {
      ReadsOnly(letters);
    }
  }

  predicate NoReport(letters: seq<Letter>) {
    forall i | 0 <= i < |letters| :: !letters[i].site.AtResult? && letters[i].site != AtSave
  }

  lemma ReadsOnly(letters: seq<Letter>)
    requires AckedUpTo(ReadLine, letters) || StoppedOn(ReadLine, letters)
    ensures |letters| <= 2 && NoReport(letters)
  {
    forall i | 0 <= i < |letters| ensures !letters[i].site.AtResult? && letters[i].site != AtSave {
      LineEnds(ReadLine, letters, i);
    }
  }

  lemma DegradedIsBrief(letters: seq<Letter>)
    requires Degraded(letters)
    ensures |letters| <= 3 && NoReport(letters)
  {
    var body := letters[..|letters| - 1];
    ReadsOnly(body);
    assert letters == body + [letters[|letters| - 1]];
  }

  lemma ResultsEnd(job: Job, letters: seq<Letter>, i: nat)
    requires Word(job, letters) && i < |letters| - 1 && letters[i].site.AtResult?
    ensures !letters[i].ok
  {
    ThreeKinds(job, letters);
    var n := |letters| - 2;
    if FailingWord(job, letters) {
      assert letters[n] == letters[n..][0];
      assert letters[..n][i] == letters[i];
      InterruptedEnds(job, letters[..n], letters[n..][1].site.verdict.code, i);
    } else if ApplyingWord(job, letters) {
      assert letters[n] == letters[n..][0];
      assert letters[..n][i] == letters[i];
      LineEnds(ApplyLine(job.HandleJob?), letters[..n], i);
    } else if job.HandleJob? {
      LineEnds(SyncLine, letters, i);
    }
  }

  // Once Save returned nil the run reports success and nothing else.
  lemma SavedIsNeverReportedFailed(job: Job, es: seq<Event>, i: nat, j: nat)
    requires Conforms(Start(job), es) && After(Start(job), es).Done?
    requires i < j < |es| && es[i].call.Save? && es[i].reply.Ack?
    ensures SiteOf(es[j].call) in {AtStatus(Applied), AtResult(AppliedNow)}
  {
    var letters := Letters(es);
    RunsAreWords(job, es);
    assert letters[i] == Letter(AtSave, true);
    assert letters[j].site == SiteOf(es[j].call);
    SaveEndsBody(job, letters, i, j);
  }

  lemma SaveEndsBody(job: Job, letters: seq<Letter>, i: nat, j: nat)
    requires Word(job, letters) && i < j < |letters| && letters[i] == Letter(AtSave, true)
    ensures letters[j].site in {AtStatus(Applied), AtResult(AppliedNow)}
  {
    ThreeKinds(job, letters);
    var n := |letters| - 2;
    if FailingWord(job, letters) {
      assert letters[n] == letters[n..][0];
      assert letters[..n][i] == letters[i];
      InterruptedEnds(job, letters[..n], letters[n..][1].site.verdict.code, i);
    } else if ApplyingWord(job, letters) {
      assert letters[n] == letters[n..][0] && letters[n + 1] == letters[n..][1];
      assert letters[..n][i] == letters[i];
      LineEnds(ApplyLine(job.HandleJob?), letters[..n], i);
    } else if job.HandleJob? {
      LineEnds(SyncLine, letters, i);
    }
  }
}
