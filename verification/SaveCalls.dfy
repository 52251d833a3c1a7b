/** The steps of a Save as one list: how far it goes before the first failure, what it cleans up, and what it returns. */
module SaveCalls {
  import opened Text
  import opened Checkpoint
  import opened Disk
  import opened SaveProtocol

  /******* The list *******/

  const LENGTH := 14

  // What was encoded, and the temp file that was created.
  function DataOf(es: seq<Event>): Bytes {
    if |es| > 2 && es[2].answer.Encoded? then es[2].answer.data else []
  }

  ghost predicate TempIs(es: seq<Event>, tmp: Temp) {
    |es| > 4 && es[4].answer == Created(tmp)
  }

  // The i-th step, with the data and the temp file of the earlier ones.
  ghost predicate IsStep(task: Task, es: seq<Event>, i: nat, op: Op) {
    match i
    case 0 => op == CheckContext
    case 1 => op == MakeDir
    case 2 => op == Encode(task.state)
    case 3 => op == CheckContext
    case 4 => op == CreateTemp
    case 5 => op.Write? && TempIs(es, op.tmp) && op.data == DataOf(es)
    case 6 => op.SyncFile? && TempIs(es, op.tmp)
    case 7 => op.Chmod? && TempIs(es, op.tmp)
    case 8 => op.CloseFile? && TempIs(es, op.tmp)
    case 9 => op == CheckContext
    case 10 => op.Rename? && TempIs(es, op.tmp)
    case 11 => op == OpenDir
    case 12 => op == SyncDir
    case 13 => op == CloseDir
    case _ => false
  }

  // The first n steps in order.
  ghost predicate InOrder(task: Task, es: seq<Event>, n: nat) {
    n <= |es| && n <= LENGTH && forall i | 0 <= i < n :: IsStep(task, es, i, es[i].op)
  }

  predicate Fine(es: seq<Event>, n: nat) {
    n <= |es| && forall i | 0 <= i < n :: !es[i].answer.Failed?
  }

  // All fine up to step k, which failed.
  ghost predicate Broke(task: Task, es: seq<Event>, k: nat) {
    k < |es| && InOrder(task, es, k + 1) && Fine(es, k) && es[k].answer.Failed?
  }

  // The error that names each step.
  function FaultAt(k: nat): Fault {
    match k
    case 0 => ContextDone
    case 1 => MakeDirFailed
    case 2 => EncodeFailed
    case 3 => ContextDone
    case 4 => CreateFailed
    case 5 => WriteFailed
    case 6 => SyncFailed
    case 7 => ChmodFailed
    case 8 => CloseFailed
    case 9 => ContextDone
    case 10 => RenameFailed
    case 11 => OpenDirFailed
    case _ => SyncDirFailed
  }

  // What follows the failing step: the temp file is closed unless it was, and removed; an open directory is closed.
  ghost predicate CleansUp(es: seq<Event>, k: nat) {
    if k < 5 || k == 11 then |es| == k + 1
    else if k < 8 then
      && |es| == k + 3
      && es[k + 1].op.CloseFile? && TempIs(es, es[k + 1].op.tmp)
      && es[k + 2].op.Remove? && TempIs(es, es[k + 2].op.tmp)
    else if k < 11 then
      |es| == k + 2 && es[k + 1].op.Remove? && TempIs(es, es[k + 1].op.tmp)
    else
      k == 12 && |es| == LENGTH && es[13].op == CloseDir
  }

  // A finished Save: all its steps, a path that is no path, or the first failing step with its clean-up and its error.
  ghost predicate Whole(task: Task, es: seq<Event>, err: Option<Fault>) {
    match err
    case None => |es| == LENGTH && InOrder(task, es, LENGTH) && Fine(es, 13) && !Blank(task.path)
    case Some(PathEmpty) => |es| == 1 && InOrder(task, es, 1) && Fine(es, 1) && Blank(task.path)
    case Some(fault) => exists k: nat :: Failing(task, es, k, fault)
  }

  ghost predicate Failing(task: Task, es: seq<Event>, k: nat, fault: Fault) {
    k < 13 && Broke(task, es, k) && CleansUp(es, k) && fault == FaultAt(k) && (k > 0 ==> !Blank(task.path))
  }

  /******* Every Save goes by it *******/

  // At the n-th step with all before fine.
  ghost predicate Reached(task: Task, es: seq<Event>, n: nat) {
    |es| == n && InOrder(task, es, n) && Fine(es, n) && (n > 0 ==> !Blank(task.path))
  }

  ghost predicate SoFar(task: Task, stage: Stage, es: seq<Event>) {
    var n := |es|;
    match stage
    case Entering => Reached(task, es, 0)
    case MakingDir => Reached(task, es, 1)
    case Encoding => Reached(task, es, 2)
    case Rechecking(data) => Reached(task, es, 3) && data == DataOf(es)
    case Creating(data) => Reached(task, es, 4) && data == DataOf(es)
    case Writing(tmp, data) => Reached(task, es, 5) && TempIs(es, tmp) && data == DataOf(es)
    case Syncing(tmp) => Reached(task, es, 6) && TempIs(es, tmp)
    case Chmodding(tmp) => Reached(task, es, 7) && TempIs(es, tmp)
    case Closing(tmp) => Reached(task, es, 8) && TempIs(es, tmp)
    case LastCheck(tmp) => Reached(task, es, 9) && TempIs(es, tmp)
    case Renaming(tmp) => Reached(task, es, 10) && TempIs(es, tmp)
    case OpeningDir => Reached(task, es, 11)
    case SyncingDir => Reached(task, es, 12)
    case ClosingDir(err) =>
      && n == 13 && InOrder(task, es, 13) && Fine(es, 12) && !Blank(task.path)
      && err == if es[12].answer.Failed? then Some(SyncDirFailed) else None
    case Abandoning(tmp, fault) =>
      && 6 <= n <= 8 && Broke(task, es, n - 1) && TempIs(es, tmp) && fault == FaultAt(n - 1) && !Blank(task.path)
    case Removing(tmp, fault) =>
      && TempIs(es, tmp) && !Blank(task.path)
      && ((9 <= n <= 11 && Broke(task, es, n - 1) && fault == FaultAt(n - 1))
          || (7 <= n <= 9 && Broke(task, es, n - 2) && fault == FaultAt(n - 2)
              && es[n - 1].op == CloseFile(tmp)))
    case Returned(err) => Whole(task, es, err)
  }

  lemma {:induction false} SavesGoByTheList(task: Task, d: Disk, es: seq<Event>)
    requires Conforms(task, d, es)
    ensures SoFar(task, After(task, d, es), es)
  {
    if es != [] {
      var n := |es| - 1;
      assert es[..n] + [es[n]] == es;
      NextStepIf(task, After(task, d, es[..n]), es[..n], es[n]);
      SavesGoByTheList(task, d, es[..n]);
    }
  }

  lemma NextStepIf(task: Task, stage: Stage, es: seq<Event>, e: Event)
    requires !stage.Returned? && e.op == Pending(task, stage) && Answers(e.op, e.answer)
    ensures SoFar(task, stage, es) ==> SoFar(task, Resume(task, stage, e.answer), es + [e])
  {
    if SoFar(task, stage, es) {
      NextStep(task, stage, es, e);
    }
  }

  lemma NextStep(task: Task, stage: Stage, es: seq<Event>, e: Event)
    requires !stage.Returned? && e.op == Pending(task, stage) && Answers(e.op, e.answer)
    requires SoFar(task, stage, es)
    ensures SoFar(task, Resume(task, stage, e.answer), es + [e])
  {
    StepsStay(task, es, e);
    if stage.Removing? || stage.ClosingDir? {
      LastStep(task, stage, es, e);
    } else if stage.Abandoning? {
      CloseStep(task, stage, es, e);
    } else if e.answer.Failed? {
      FailingStep(task, stage, es, e);
    } else {
      FineStep(task, stage, es, e);
    }
  }

  ghost predicate Kept(task: Task, es: seq<Event>, e: Event) {
    && (forall i | 0 <= i < |es| :: (es + [e])[i] == es[i])
    && (forall i, op | 0 <= i <= |es| && IsStep(task, es, i, op) :: IsStep(task, es + [e], i, op))
  }

  lemma StepsStay(task: Task, es: seq<Event>, e: Event)
    ensures Kept(task, es, e)
  {
  }

  predicate Listed(stage: Stage) {
    !stage.Returned? && !stage.Removing? && !stage.ClosingDir? && !stage.Abandoning?
  }

  lemma FineStep(task: Task, stage: Stage, es: seq<Event>, e: Event)
    requires Listed(stage) && e.op == Pending(task, stage) && Answers(e.op, e.answer) && !e.answer.Failed?
    requires SoFar(task, stage, es) && Kept(task, es, e)
    ensures SoFar(task, Resume(task, stage, e.answer), es + [e])
  {
  }

  lemma FailingStep(task: Task, stage: Stage, es: seq<Event>, e: Event)
    requires Listed(stage) && e.op == Pending(task, stage) && e.answer.Failed?
    requires SoFar(task, stage, es) && Kept(task, es, e)
    ensures SoFar(task, Resume(task, stage, e.answer), es + [e])
  {
    assert Broke(task, es + [e], |es|);
    if Resume(task, stage, e.answer).Returned? {
      assert Failing(task, es + [e], |es|, FaultAt(|es|));
    }
  }

  lemma CloseStep(task: Task, stage: Stage, es: seq<Event>, e: Event)
    requires stage.Abandoning? && e.op == Pending(task, stage) && Answers(e.op, e.answer)
    requires SoFar(task, stage, es) && Kept(task, es, e)
    ensures SoFar(task, Resume(task, stage, e.answer), es + [e])
  {
  }

  lemma LastStep(task: Task, stage: Stage, es: seq<Event>, e: Event)
    requires (stage.Removing? || stage.ClosingDir?) && e.op == Pending(task, stage) && Answers(e.op, e.answer)
    requires SoFar(task, stage, es) && Kept(task, es, e)
    ensures SoFar(task, Resume(task, stage, e.answer), es + [e])
  {
    var k := if stage.ClosingDir? then 12 else if Broke(task, es, |es| - 1) then |es| - 1 else |es| - 2;
    if stage.Removing? || stage.err.Some? {
      assert Failing(task, es + [e], k, FaultAt(k));
    }
  }

  // What a finished Save did, step by step, and the error it returned.
  lemma SaveIsWhole(task: Task, d: Disk, es: seq<Event>)
    requires Conforms(task, d, es) && After(task, d, es).Returned?
    ensures Whole(task, es, After(task, d, es).err)
  {
    SavesGoByTheList(task, d, es);
  }

  /******* What the context checks are worth *******/

  predicate IsCheck(e: Event) {
    e.op.CheckContext? && !e.answer.Failed?
  }

  // Nothing is created and nothing renamed but right after a check that found the context alive, and the rename only
  // of a temp file that was closed without an error.
  lemma CreatesAndRenamesAreChecked(task: Task, d: Disk, es: seq<Event>, i: nat)
    requires Conforms(task, d, es) && i < |es|
    ensures es[i].op.CreateTemp? ==> i == 4 && IsCheck(es[3])
    ensures es[i].op.Rename? ==> i == 10 && IsCheck(es[9]) && es[8].op == CloseFile(es[i].op.tmp) && !es[8].answer.Failed?
  {
    Until(task, d, es, i);
    SavesGoByTheList(task, d, es[..i]);
    assert es[i].op.CreateTemp? ==> es[..i][3] == es[3];
    assert es[i].op.Rename? ==> es[..i][9] == es[9] && es[..i][8] == es[8];
  }

  lemma {:induction false} Until(task: Task, d: Disk, es: seq<Event>, i: nat)
    requires Conforms(task, d, es) && i < |es|
    ensures Conforms(task, d, es[..i]) && !After(task, d, es[..i]).Returned?
    ensures es[i].op == Pending(task, After(task, d, es[..i])) && Answers(es[i].op, es[i].answer)
  {
    var n := |es| - 1;
    if i < n {
      Until(task, d, es[..n], i);
      assert es[..n][..i] == es[..i];
    }
  }

  // A Save that returned nil found the context alive three times: first, before the temp file, and before the rename.
  lemma NilWasCheckedThrice(task: Task, d: Disk, es: seq<Event>)
    requires Conforms(task, d, es) && After(task, d, es) == Returned(None)
    ensures |es| == 14 && IsCheck(es[0]) && IsCheck(es[3]) && IsCheck(es[9])
  {
    SaveIsWhole(task, d, es);
    assert IsStep(task, es, 0, es[0].op) && IsStep(task, es, 3, es[3].op) && IsStep(task, es, 9, es[9].op);
  }

  ghost predicate Cancelled(es: seq<Event>) {
    exists i :: 0 <= i < |es| && es[i].op.CheckContext? && es[i].answer.Failed?
  }

  // A Save returns the error of its context exactly when one of its checks found it done, and then the checkpoint is
  // what it was, but for the directory.
  lemma CancelledSaveChangesNothing(task: Task, f: File, d: Disk, es: seq<Event>)
    requires Faithful(task.codec) && Sound(d) && Shows(task.codec, d, task.path, f)
    requires Conforms(task, d, es) && After(task, d, es).Returned?
    ensures Cancelled(es) <==> After(task, d, es).err == Some(ContextDone)
    ensures Cancelled(es) ==>
      var home := DiskAfter(d, es).home;
      (home == f.home || home == Made(f.home)) && Shows(task.codec, DiskAfter(d, es), task.path, f.(home := home))
  {
    var err := After(task, d, es).err;
    SaveIsWhole(task, d, es);
    CancelledIff(task, es, err);
    SavingAlong(task, f, d, es);
  }

  lemma CancelledIff(task: Task, es: seq<Event>, err: Option<Fault>)
    requires Whole(task, es, err)
    ensures Cancelled(es) <==> err == Some(ContextDone)
  {
    if err.Some? && !err.value.PathEmpty? {
      var k: nat :| Failing(task, es, k, err.value);
      assert forall i | 0 <= i < k :: !es[i].answer.Failed?;
      assert IsStep(task, es, k, es[k].op);
    } else {
      assert forall i | 0 <= i < |es| :: IsStep(task, es, i, es[i].op);
    }
  }
}
