/** What one run of Handle or Reconcile may look like from outside, for every way its dependencies may fail. */
module ConfigureTraces {
  import opened ConfigureProtocol

  /******* The language of calls *******/

  datatype Letter = Letter(site: Site, ok: bool)

  function Letters(es: seq<Event>): (letters: seq<Letter>)
    ensures |letters| == |es|
  {
    seq(|es|, i requires 0 <= i < |es| => Letter(SiteOf(es[i].call), !es[i].reply.Failed?))
  }

  // The ways a run can go when every call is acknowledged, up to its report.
  datatype Line =
    | ReadLine                  // Reconcile, nothing to do
    | SyncLine                  // Handle, already in sync, with its report
    | ApplyLine(handle: bool)   // Handle or Reconcile, applying

  function ReadLength(line: Line): nat {
    if line.SyncLine? || line == ApplyLine(true) then 4 else 2
  }

  function Length(line: Line): nat {
    ReadLength(line) + match line case ReadLine => 0 case SyncLine => 2 case ApplyLine(_) => 6
  }

  function At(line: Line, i: nat): Site
    requires i < Length(line)
  {
    var read := ReadLength(line);
    if i < read then
      if read == 2 then (if i == 0 then AtLoadState else AtLoadDesired)
      else if i == 0 then AtStatus(Received)
      else if i == 1 then AtStatus(LoadingDesired)
      else if i == 2 then AtLoadDesired
      else AtLoadState
    else if line.SyncLine? then
      if i == 4 then AtStatus(AlreadyInSync) else AtResult(InSyncAlready)
    else if i == read then AtStatus(Rendering)
    else if i == read + 1 then AtRender
    else if i == read + 2 then AtStatus(Rendered)
    else if i == read + 3 then AtStatus(Applying)
    else if i == read + 4 then AtApply
    else AtSave
  }

  function CodeOf(site: Site): Code {
    match site
    case AtStatus(_) => StatusPublishFailed
    case AtResult(_) => ResultPublishFailed
    case AtLoadState => StateLoadFailed
    case AtLoadDesired => LoadDesiredFailed
    case AtRender => RenderFailed
    case AtApply => ApplyFailed
    case AtSave => StateSaveFailed
  }

  predicate AckedUpTo(line: Line, letters: seq<Letter>) {
    |letters| <= Length(line) && forall i | 0 <= i < |letters| :: letters[i] == Letter(At(line, i), true)
  }

  predicate Acked(line: Line, letters: seq<Letter>) {
    |letters| == Length(line) && AckedUpTo(line, letters)
  }

  // Everything acknowledged except the last call.
  predicate StoppedOn(line: Line, letters: seq<Letter>) {
    var n := |letters| - 1;
    0 <= n < Length(line) && AckedUpTo(line, letters[..n]) && letters[n] == Letter(At(line, n), false)
  }

  predicate FailTail(tail: seq<Letter>) {
    && |tail| == 2 && tail[0].site == AtStatus(Failing)
    && tail[1].site.AtResult? && tail[1].site.verdict.Failure?
  }

  predicate AppliedTail(tail: seq<Letter>) {
    |tail| == 2 && tail[0].site == AtStatus(Applied) && tail[1].site == AtResult(AppliedNow)
  }

  // The first part of a failing run: refused by a check of Handle, or one call failed and decides the code.
  predicate Interrupted(job: Job, letters: seq<Letter>, code: Code) {
    if code.InvalidInput? then
      && job.HandleJob?
      && AckedUpTo(SyncLine, letters)
      && |letters| == if code.why.NotificationTarget? || code.why.NotificationUuid? then 0 else 3
    else
      && (StoppedOn(ApplyLine(job.HandleJob?), letters) || (job.HandleJob? && StoppedOn(SyncLine, letters)))
      && (job.ReconcileJob? ==> |letters| > 2)
      && code == CodeOf(letters[|letters| - 1].site)
  }

  predicate Degraded(letters: seq<Letter>) {
    && |letters| >= 2 && StoppedOn(ReadLine, letters[..|letters| - 1])
    && letters[|letters| - 1].site == AtStatus(Failing)
  }

  // The words of a finished run. The last two letters of a Handle word are its report.
  predicate Word(job: Job, letters: seq<Letter>) {
    || (job.HandleJob? && Acked(SyncLine, letters))
    || (job.ReconcileJob? && Acked(ReadLine, letters))
    || (job.ReconcileJob? && |letters| == 2 && StoppedOn(ReadLine, letters))
    || (job.ReconcileJob? && Degraded(letters))
    || (|letters| >= 2 &&
        var body, tail := letters[..|letters| - 2], letters[|letters| - 2..];
        || (Acked(ApplyLine(job.HandleJob?), body) && AppliedTail(tail))
        || (FailTail(tail) && Interrupted(job, body, tail[1].site.verdict.code)))
  }

  // How far along a stage is: its letters so far are the acknowledged first part of a line.
  ghost predicate SoFar(job: Job, stage: Stage, letters: seq<Letter>) {
    var line := ApplyLine(job.HandleJob?);
    var n, read := |letters|, ReadLength(line);
    match stage
    case HReceived(_) => job.HandleJob? && n == 0
    case HLoading(_) => job.HandleJob? && n == 1 && AckedUpTo(line, letters)
    case HLoadDesired(_) => job.HandleJob? && n == 2 && AckedUpTo(line, letters)
    case HLoadState(_, _) => job.HandleJob? && n == 3 && AckedUpTo(line, letters)
    case HSyncStatus(_, _) => job.HandleJob? && n == 4 && AckedUpTo(SyncLine, letters)
    case HSyncResult(_, _) => job.HandleJob? && n == 5 && AckedUpTo(SyncLine, letters)
    case RLoadState(_) => job.ReconcileJob? && n == 0
    case RLoadDesired(_, _) => job.ReconcileJob? && n == 1 && AckedUpTo(line, letters)
    case RDegraded(_, _) => job.ReconcileJob? && StoppedOn(ReadLine, letters)
    case PRendering(_, _) => n == read && AckedUpTo(line, letters)
    case PRender(_, _) => n == read + 1 && AckedUpTo(line, letters)
    case PRendered(_, _, _) => n == read + 2 && AckedUpTo(line, letters)
    case PApplying(_, _, _) => n == read + 3 && AckedUpTo(line, letters)
    case PApply(_, _, _) => n == read + 4 && AckedUpTo(line, letters)
    case PSave(_, _) => n == read + 5 && AckedUpTo(line, letters)
    case PAppliedStatus(_, _) => Acked(line, letters)
    case PAppliedResult(_, _, _) =>
      n > 0 && Acked(line, letters[..n - 1]) && letters[n - 1].site == AtStatus(Applied)
    case FailStatus(_, code, _) => Interrupted(job, letters, code)
    case FailResult(_, code, _, _) =>
      n > 0 && Interrupted(job, letters[..n - 1], code) && letters[n - 1].site == AtStatus(Failing)
    case Done(_, _) => Word(job, letters)
  }

  lemma {:induction false} RunsAreWords(job: Job, es: seq<Event>)
    requires Conforms(Start(job), es)
    ensures SoFar(job, After(Start(job), es), Letters(es))
  {
    if es != [] {
      var n := |es| - 1;
      RunsAreWords(job, es[..n]);
      assert Letters(es) == Letters(es[..n]) + [Letter(SiteOf(es[n].call), !es[n].reply.Failed?)];
      NextLetter(job, After(Start(job), es[..n]), Letters(es[..n]), es[n].reply);
    }
  }

  function Next(stage: Stage, reply: Reply): Letter
    requires !stage.Done?
  {
    Letter(SiteOf(Pending(stage)), !reply.Failed?)
  }

  lemma OneMore(line: Line, letters: seq<Letter>, ok: bool)
    requires AckedUpTo(line, letters) && |letters| < Length(line)
    ensures var more := letters + [Letter(At(line, |letters|), ok)];
      if ok then AckedUpTo(line, more) else StoppedOn(line, more)
  {
    var more := letters + [Letter(At(line, |letters|), ok)];
    assert more[..|letters|] == letters;
  }

  lemma NextLetter(job: Job, stage: Stage, letters: seq<Letter>, reply: Reply)
    requires !stage.Done? && Answers(Pending(stage), reply)
    requires SoFar(job, stage, letters)
    ensures SoFar(job, Resume(stage, reply), letters + [Next(stage, reply)])
  {
    match stage
    case HReceived(_) => NextInHandle(job, stage, letters, reply);
    case HLoading(_) => NextInHandle(job, stage, letters, reply);
    case HLoadDesired(_) => NextInHandle(job, stage, letters, reply);
    case HLoadState(_, _) => NextInHandle(job, stage, letters, reply);
    case HSyncStatus(_, _) => NextInSync(job, stage, letters, reply);
    case HSyncResult(_, _) => NextInSync(job, stage, letters, reply);
    case RLoadState(_) => NextInReconcile(job, stage, letters, reply);
    case RLoadDesired(_, _) => NextInReconcile(job, stage, letters, reply);
    case RDegraded(_, _) => NextInReconcile(job, stage, letters, reply);
    case PAppliedStatus(_, _) => NextInReport(job, stage, letters, reply);
    case PAppliedResult(_, _, _) => NextInResult(job, stage, letters, reply);
    case FailStatus(_, _, _) => NextInReport(job, stage, letters, reply);
    case FailResult(_, _, _, _) => NextInResult(job, stage, letters, reply);
    case _ => NextInProcess(job, stage, letters, reply);
  }

  lemma NextInHandle(job: Job, stage: Stage, letters: seq<Letter>, reply: Reply)
    requires stage.HReceived? || stage.HLoading? || stage.HLoadDesired? || stage.HLoadState?
    requires Answers(Pending(stage), reply) && SoFar(job, stage, letters)
    ensures SoFar(job, Resume(stage, reply), letters + [Next(stage, reply)])
  {
    OneMore(ApplyLine(true), letters, !reply.Failed?);
  }

  lemma NextInSync(job: Job, stage: Stage, letters: seq<Letter>, reply: Reply)
    requires stage.HSyncStatus? || stage.HSyncResult?
    requires Answers(Pending(stage), reply) && SoFar(job, stage, letters)
    ensures SoFar(job, Resume(stage, reply), letters + [Next(stage, reply)])
  {
    OneMore(SyncLine, letters, !reply.Failed?);
  }

  lemma NextInReconcile(job: Job, stage: Stage, letters: seq<Letter>, reply: Reply)
    requires stage.RLoadState? || stage.RLoadDesired? || stage.RDegraded?
    requires Answers(Pending(stage), reply) && SoFar(job, stage, letters)
    ensures SoFar(job, Resume(stage, reply), letters + [Next(stage, reply)])
  {
    if stage.RDegraded? {
      assert (letters + [Next(stage, reply)])[..|letters|] == letters;
    } else {
      OneMore(ReadLine, letters, !reply.Failed?);
    }
  }

  lemma NextInProcess(job: Job, stage: Stage, letters: seq<Letter>, reply: Reply)
    requires stage.PRendering? || stage.PRender? || stage.PRendered? || stage.PApplying? || stage.PApply? || stage.PSave?
    requires Answers(Pending(stage), reply) && SoFar(job, stage, letters)
    ensures SoFar(job, Resume(stage, reply), letters + [Next(stage, reply)])
  {
    OneMore(ApplyLine(job.HandleJob?), letters, !reply.Failed?);
  }

  lemma NextInReport(job: Job, stage: Stage, letters: seq<Letter>, reply: Reply)
    requires stage.PAppliedStatus? || stage.FailStatus?
    requires Answers(Pending(stage), reply) && SoFar(job, stage, letters)
    ensures SoFar(job, Resume(stage, reply), letters + [Next(stage, reply)])
  {
    assert (letters + [Next(stage, reply)])[..|letters|] == letters;
  }

  lemma NextInResult(job: Job, stage: Stage, letters: seq<Letter>, reply: Reply)
    requires stage.PAppliedResult? || stage.FailResult?
    requires Answers(Pending(stage), reply) && SoFar(job, stage, letters)
    ensures SoFar(job, Resume(stage, reply), letters + [Next(stage, reply)])
  {
    var body, tail := letters[..|letters| - 1], [letters[|letters| - 1], Next(stage, reply)];
    assert letters + [Next(stage, reply)] == body + tail;
    Reported(job, body, tail);
  }

  lemma Reported(job: Job, body: seq<Letter>, tail: seq<Letter>)
    requires |tail| == 2
    requires || (Acked(ApplyLine(job.HandleJob?), body) && AppliedTail(tail))
             || (FailTail(tail) && Interrupted(job, body, tail[1].site.verdict.code))
    ensures Word(job, body + tail)
  {
    assert (body + tail)[..|body|] == body && (body + tail)[|body|..] == tail;
  }
}
