/** Safety over whole runs: what in sync means, and how often an apply is reported. */
module ConfigureSafety {
  import opened Text
  import opened Checkpoint
  import opened ConfigureProtocol
  import opened ConfigureFacts
  import opened ConfigureSystem

  /******* Histories of the KV key *******/

  // The record written i-th has this UUID and a rendering.
  ghost predicate Offers(cfg: Config, puts: seq<Record>, i: int, uuid: string) {
    0 <= i < |puts| && puts[i].uuid == uuid && Renders(cfg, puts[i])
  }

  // It has a rendering, under another UUID.
  ghost predicate Replaces(cfg: Config, puts: seq<Record>, i: int, uuid: string) {
    0 <= i < |puts| && puts[i].uuid != uuid && Renders(cfg, puts[i])
  }

  ghost predicate Written(cfg: Config, puts: seq<Record>, uuid: string) {
    exists i :: Offers(cfg, puts, i, uuid)
  }

  ghost predicate Gone(cfg: Config, puts: seq<Record>, uuid: string) {
    exists i, j :: i < j && Offers(cfg, puts, i, uuid) && Replaces(cfg, puts, j, uuid)
  }

  // The checkpoint file may name something else before the record written i-th.
  ghost predicate Away(cfg: Config, initial: File, puts: seq<Record>, i: int, uuid: string) {
    || (exists st :: st in initial.recoverable && st.uuid != uuid)
    || (exists h :: h < i && Replaces(cfg, puts, h, uuid))
  }

  // The record written i-th may be applied and reported under this UUID.
  ghost predicate EarnedAt(cfg: Config, initial: File, puts: seq<Record>, i: int, uuid: string) {
    Offers(cfg, puts, i, uuid) && Away(cfg, initial, puts, i, uuid)
  }

  ghost predicate Earned(cfg: Config, initial: File, puts: seq<Record>, uuid: string) {
    exists i :: EarnedAt(cfg, initial, puts, i, uuid)
  }

  ghost predicate Spent(cfg: Config, initial: File, puts: seq<Record>, uuid: string) {
    exists i, j :: i < j && EarnedAt(cfg, initial, puts, i, uuid) && Replaces(cfg, puts, j, uuid)
  }

  // How much of two renderings is compared: everything, or the text that the device takes.
  datatype Aspect = Whole | TextOnly

  function Seen(aspect: Aspect, output: Option<Output>): Option<Output> {
    if aspect.Whole? || output.None? then output else Some(Output("", "", output.value.text))
  }

  // No UUID that the file could show at first is written, a UUID once rendered always renders alike, and no UUID comes
  // back after another one. Only records with a rendering can be in the way.
  ghost predicate SafeReuse(cfg: Config, aspect: Aspect, initial: File, puts: seq<Record>) {
    && (forall i, st :: 0 <= i < |puts| && st in initial.recoverable ==> puts[i].uuid != st.uuid)
    && (forall i, k :: 0 <= i <= k < |puts| && Offers(cfg, puts, i, puts[k].uuid) ==>
          Seen(aspect, cfg.render(puts[k])) == Seen(aspect, cfg.render(puts[i])))
    && (forall i, j, k :: 0 <= i < j < k < |puts| && Offers(cfg, puts, i, puts[k].uuid) ==>
          !Replaces(cfg, puts, j, puts[k].uuid))
  }

  // The directory of the file is durable, and no UUID that may have been applied is applied again after another one.
  ghost predicate ReportableOnce(cfg: Config, initial: File, puts: seq<Record>) {
    && (!initial.home.Anchored? ==> forall i :: 0 <= i < |puts| && Renders(cfg, puts[i]) ==> puts[i].uuid == "")
    && (forall i, j, k :: 0 <= i < j < k < |puts| && EarnedAt(cfg, initial, puts, i, puts[k].uuid) && Renders(cfg, puts[k]) ==>
          !Replaces(cfg, puts, j, puts[k].uuid))
  }

  predicate Extends(puts: seq<Record>, more: seq<Record>) {
    |puts| <= |more| && more[..|puts|] == puts
  }

  lemma OffersOn(cfg: Config, puts: seq<Record>, more: seq<Record>, i: int, uuid: string)
    requires Extends(puts, more) && i < |puts|
    ensures Offers(cfg, puts, i, uuid) <==> Offers(cfg, more, i, uuid)
    ensures Replaces(cfg, puts, i, uuid) <==> Replaces(cfg, more, i, uuid)
  {
    assert 0 <= i ==> more[..|puts|][i] == more[i];
  }

  lemma AwayOn(cfg: Config, initial: File, puts: seq<Record>, more: seq<Record>, i: int, uuid: string)
    requires Extends(puts, more) && i < |puts|
    ensures Away(cfg, initial, puts, i, uuid) <==> Away(cfg, initial, more, i, uuid)
  {
    forall h | h < i {
      OffersOn(cfg, puts, more, h, uuid);
    }
  }

  // What happened to a UUID stays true of it.
  lemma HistoryGrows(cfg: Config, initial: File, puts: seq<Record>, more: seq<Record>, uuid: string)
    requires Extends(puts, more)
    ensures Gone(cfg, puts, uuid) ==> Gone(cfg, more, uuid)
    ensures Earned(cfg, initial, puts, uuid) ==> Earned(cfg, initial, more, uuid)
    ensures Spent(cfg, initial, puts, uuid) ==> Spent(cfg, initial, more, uuid)
  {
    if Gone(cfg, puts, uuid) {
      var i, j :| i < j && Offers(cfg, puts, i, uuid) && Replaces(cfg, puts, j, uuid);
      OffersOn(cfg, puts, more, i, uuid);
      OffersOn(cfg, puts, more, j, uuid);
    }
    if Earned(cfg, initial, puts, uuid) {
      var i :| EarnedAt(cfg, initial, puts, i, uuid);
      OffersOn(cfg, puts, more, i, uuid);
      AwayOn(cfg, initial, puts, more, i, uuid);
      assert EarnedAt(cfg, initial, more, i, uuid);
    }
    if Spent(cfg, initial, puts, uuid) {
      var i, j :| i < j && EarnedAt(cfg, initial, puts, i, uuid) && Replaces(cfg, puts, j, uuid);
      OffersOn(cfg, puts, more, i, uuid);
      OffersOn(cfg, puts, more, j, uuid);
      AwayOn(cfg, initial, puts, more, i, uuid);
      assert EarnedAt(cfg, initial, more, i, uuid);
    }
  }

  lemma SafeReusePrefix(cfg: Config, aspect: Aspect, initial: File, puts: seq<Record>, more: seq<Record>)
    requires SafeReuse(cfg, aspect, initial, more) && Extends(puts, more)
    ensures SafeReuse(cfg, aspect, initial, puts)
  {
    assert forall i | 0 <= i < |puts| :: puts[i] == more[i];
    forall i, k | 0 <= i <= k < |puts| && Offers(cfg, puts, i, puts[k].uuid)
      ensures Seen(aspect, cfg.render(puts[k])) == Seen(aspect, cfg.render(puts[i]))
    {
      OffersOn(cfg, puts, more, i, puts[k].uuid);
    }
    forall i, j, k | 0 <= i < j < k < |puts| && Offers(cfg, puts, i, puts[k].uuid)
      ensures !Replaces(cfg, puts, j, puts[k].uuid)
    {
      OffersOn(cfg, puts, more, i, puts[k].uuid);
      OffersOn(cfg, puts, more, j, puts[k].uuid);
    }
  }

  lemma ReportableOncePrefix(cfg: Config, initial: File, puts: seq<Record>, more: seq<Record>)
    requires ReportableOnce(cfg, initial, more) && Extends(puts, more)
    ensures ReportableOnce(cfg, initial, puts)
  {
    assert forall i | 0 <= i < |puts| :: puts[i] == more[i];
    forall i, j, k | 0 <= i < j < k < |puts| && EarnedAt(cfg, initial, puts, i, puts[k].uuid) && Renders(cfg, puts[k])
      ensures !Replaces(cfg, puts, j, puts[k].uuid)
    {
      OffersOn(cfg, puts, more, i, puts[k].uuid);
      AwayOn(cfg, initial, puts, more, i, puts[k].uuid);
      OffersOn(cfg, puts, more, j, puts[k].uuid);
      assert EarnedAt(cfg, initial, more, i, more[k].uuid);
    }
  }

  // Writes only ever append.
  lemma LastMove(cfg: Config, initial: File, ss: seq<Sys>, i: nat) returns (m: Move)
    requires Execution(cfg, initial, ss) && 0 < i < |ss|
    ensures Next(cfg, ss[i - 1], m, ss[i])
    ensures Extends(ss[i - 1].puts, ss[i].puts)
  {
    assert Step(cfg, ss[i - 1], ss[i - 1 + 1]);
    m :| Next(cfg, ss[i - 1], m, ss[i]);
  }

  // What may be found in the file was there at first, or comes from a record that was written.
  ghost predicate FromPuts(cfg: Config, initial: File, puts: seq<Record>, f: File) {
    forall st | st in f.recoverable :: st in initial.recoverable || Written(cfg, puts, st.uuid)
  }

  lemma RecoverableIsWritten(cfg: Config, initial: File, s: Sys)
    requires AllBacked(cfg, initial, s)
    ensures FromPuts(cfg, initial, s.puts, s.world.file)
  {
    forall st | st in s.world.file.recoverable && st !in initial.recoverable
      ensures Written(cfg, s.puts, st.uuid)
    {
      var desired, n :| SavedAt(cfg, s, st, desired, n);
      var i :| 0 <= i < |s.puts| && s.puts[i] == desired;
      assert Offers(cfg, s.puts, i, st.uuid);
    }
  }

  /******* At most one report of an apply per UUID *******/

  predicate Reported(log: seq<Entry>, uuid: string) {
    Count(Reports(uuid), log) > 0
  }

  ghost predicate Only(f: File, uuid: string) {
    forall st | st in f.recoverable :: st.uuid == uuid
  }

  // A reported UUID is all the file can show, until another record may have been applied.
  ghost predicate ReportSafe(cfg: Config, initial: File, puts: seq<Record>, f: File, log: seq<Entry>) {
    forall uuid | Reported(log, uuid) ::
      && Count(Reports(uuid), log) == 1
      && Earned(cfg, initial, puts, uuid)
      && (Spent(cfg, initial, puts, uuid) || Only(f, uuid))
  }

  ghost predicate ReportSafeAt(cfg: Config, initial: File, puts: seq<Record>, f: File, log: seq<Entry>, stage: Stage) {
    DesiredOf(stage).Some? && Renders(cfg, DesiredOf(stage).value) ==>
      var uuid := DesiredOf(stage).value.uuid;
      && (forall other | Reported(log, other) && other != uuid :: Spent(cfg, initial, puts, other))
      && (stage.HLoadState? ==> Undecided(cfg, initial, puts, f, log, uuid))
      && (BeforeApply(stage) || stage.PSave? || stage.PAppliedStatus? || stage.PAppliedResult? ==>
            !Reported(log, uuid) && Earned(cfg, initial, puts, uuid))
  }

  // Before the file is read: it shows this UUID only if it was reported, and drift means that it may be applied.
  ghost predicate Undecided(cfg: Config, initial: File, puts: seq<Record>, f: File, log: seq<Entry>, uuid: string) {
    && (Reported(log, uuid) ==> Only(f, uuid))
    && (forall st | st in f.recoverable && st.uuid != uuid :: Earned(cfg, initial, puts, uuid))
  }

  ghost predicate ReportInv(cfg: Config, initial: File, s: Sys) {
    && ReportSafe(cfg, initial, s.puts, s.world.file, s.log)
    && (Holding(s) ==> ReportSafeAt(cfg, initial, s.puts, s.world.file, s.log, Current(s)))
  }

  predicate ReportOf(e: Entry, uuid: string) {
    (e.Called? || e.Cut?) && e.call.PublishResult? && e.call.verdict.AppliedNow? && e.call.msg.uuid == uuid
  }

  lemma ReportsOn(log: seq<Entry>, e: Entry)
    ensures forall uuid :: Count(Reports(uuid), log + [e]) == Count(Reports(uuid), log) + if ReportOf(e, uuid) then 1 else 0
  {
    forall uuid {
      Counted(Reports(uuid), log, e);
    }
  }

  // Loading a record that renders: it was written last, so other reported UUIDs are spent, and it itself is not.
  lemma ReportLoaded(cfg: Config, initial: File, puts: seq<Record>, f: File, log: seq<Entry>, desired: Record)
    requires ReportableOnce(cfg, initial, puts) && FromPuts(cfg, initial, puts, f) && ReportSafe(cfg, initial, puts, f, log)
    requires puts != [] && desired == puts[|puts| - 1] && Renders(cfg, desired)
    ensures forall other | Reported(log, other) && other != desired.uuid :: Spent(cfg, initial, puts, other)
    ensures Undecided(cfg, initial, puts, f, log, desired.uuid)
  {
    var last, uuid := |puts| - 1, desired.uuid;
    forall other | Reported(log, other) && other != uuid ensures Spent(cfg, initial, puts, other) {
      var i :| EarnedAt(cfg, initial, puts, i, other);
      assert Replaces(cfg, puts, last, other);
    }
    if Reported(log, uuid) && Spent(cfg, initial, puts, uuid) {
      var i, j :| i < j && EarnedAt(cfg, initial, puts, i, uuid) && Replaces(cfg, puts, j, uuid);
      assert false;
    }
    forall st | st in f.recoverable && st.uuid != uuid ensures Earned(cfg, initial, puts, uuid) {
      LoadedIsEarned(cfg, initial, puts, st);
    }
  }

  lemma LoadedIsEarned(cfg: Config, initial: File, puts: seq<Record>, st: State)
    requires puts != [] && Renders(cfg, puts[|puts| - 1]) && st.uuid != puts[|puts| - 1].uuid
    requires st in initial.recoverable || Written(cfg, puts, st.uuid)
    ensures Earned(cfg, initial, puts, puts[|puts| - 1].uuid)
  {
    var last := |puts| - 1;
    if st !in initial.recoverable {
      var h :| Offers(cfg, puts, h, st.uuid);
      assert Replaces(cfg, puts, h, puts[last].uuid);
    }
    assert EarnedAt(cfg, initial, puts, last, puts[last].uuid);
  }

  // A call that loads no record, other than the report itself, keeps the stage's promise.
  lemma ReportStageOn(cfg: Config, initial: File, puts: seq<Record>, f: File, log: seq<Entry>, stage: Stage, f': File, next: Stage)
    requires !stage.PAppliedResult? && Turned(f, stage, f', next) && Possible(f)
    requires stage.PSave? ==> Renders(cfg, stage.desired)
    requires ReportSafe(cfg, initial, puts, f, log) && ReportSafeAt(cfg, initial, puts, f, log, stage)
    ensures ReportSafe(cfg, initial, puts, f', log) && ReportSafeAt(cfg, initial, puts, f', log, next)
  {
    if stage.PSave? {
      ReportFileOn(cfg, initial, puts, f, log, f');
    }
  }

  // The file may change only by a Save, when everything reported is spent, or by losing renames.
  lemma ReportFileOn(cfg: Config, initial: File, puts: seq<Record>, f: File, log: seq<Entry>, f': File)
    requires ReportSafe(cfg, initial, puts, f, log)
    requires f'.recoverable <= f.recoverable || forall uuid | Reported(log, uuid) :: Spent(cfg, initial, puts, uuid)
    ensures ReportSafe(cfg, initial, puts, f', log)
  {
  }

  lemma SameReports(cfg: Config, initial: File, puts: seq<Record>, f: File, log: seq<Entry>, log': seq<Entry>)
    requires forall uuid :: Count(Reports(uuid), log') == Count(Reports(uuid), log)
    ensures ReportSafe(cfg, initial, puts, f, log) ==> ReportSafe(cfg, initial, puts, f, log')
    ensures forall stage :: ReportSafeAt(cfg, initial, puts, f, log, stage) ==> ReportSafeAt(cfg, initial, puts, f, log', stage)
  {
    assert forall uuid :: Reported(log', uuid) <==> Reported(log, uuid);
  }

  lemma SameReportsNow(cfg: Config, initial: File, s: Sys, s': Sys)
    requires ReportInv(cfg, initial, s) && s'.puts == s.puts && s'.world.file == s.world.file
    requires forall uuid :: Count(Reports(uuid), s'.log) == Count(Reports(uuid), s.log)
    requires Holding(s') ==> (Holding(s) && Current(s') == Current(s)) || DesiredOf(Current(s')).None?
    ensures ReportInv(cfg, initial, s')
  {
    SameReports(cfg, initial, s.puts, s.world.file, s.log, s'.log);
  }

  // The report itself: its UUID was not reported yet, and is all the file can show.
  lemma OneReportMore(cfg: Config, initial: File, puts: seq<Record>, f: File, log: seq<Entry>, uuid: string, e: Entry)
    requires ReportSafe(cfg, initial, puts, f, log) && !Reported(log, uuid) && Only(f, uuid)
    requires Earned(cfg, initial, puts, uuid)
    requires forall other :: ReportOf(e, other) <==> other == uuid
    ensures ReportSafe(cfg, initial, puts, f, log + [e])
    ensures forall other | Reported(log + [e], other) && other != uuid :: Reported(log, other)
  {
    ReportsOn(log, e);
  }

  // What was just saved is all the file can show: the directory is durable, or gone it reads as the same UUID.
  lemma SavedIsOnly(cfg: Config, initial: File, s: Sys)
    requires Core(cfg, s) && HomeStays(initial, s) && ReportableOnce(cfg, initial, s.puts)
    requires Holding(s) && Current(s).PAppliedResult?
    ensures Only(s.world.file, Current(s).desired.uuid)
  {
    var i :| 0 <= i < |s.puts| && s.puts[i] == Current(s).desired;
  }

  lemma ReportInvOn(cfg: Config, initial: File, s: Sys, m: Move, s': Sys)
    requires Core(cfg, s) && AllBacked(cfg, initial, s) && HomeStays(initial, s) && Next(cfg, s, m, s')
    requires ReportableOnce(cfg, initial, s'.puts) && ReportInv(cfg, initial, s)
    ensures ReportInv(cfg, initial, s')
  {
    match m
    case Answer(tid, reply) =>
      RecoverableIsWritten(cfg, initial, s);
      ReportInvAnswer(cfg, initial, s, m, s');
    case Acquire(tid) =>
      ReportsOn(s.log, Acquired(tid, s.threads[tid].job));
      SameReportsNow(cfg, initial, s, s');
    case Release(tid) =>
      ReportsOn(s.log, Released(tid, Current(s).err));
      SameReportsNow(cfg, initial, s, s');
    case Put(record) =>
      ReportInvPut(cfg, initial, s, m, s');
    case Crash(cut, power) =>
      ReportInvCrash(cfg, initial, s, m, s');
    case _ =>
  }

  lemma ReportInvPut(cfg: Config, initial: File, s: Sys, m: Move, s': Sys)
    requires m.Put? && Next(cfg, s, m, s') && ReportInv(cfg, initial, s)
    ensures ReportInv(cfg, initial, s')
  {
    forall uuid {
      HistoryGrows(cfg, initial, s.puts, s'.puts, uuid);
    }
  }

  lemma ReportInvAnswer(cfg: Config, initial: File, s: Sys, m: Move, s': Sys)
    requires Core(cfg, s) && FromPuts(cfg, initial, s.puts, s.world.file) && HomeStays(initial, s)
    requires m.Answer? && Next(cfg, s, m, s')
    requires ReportableOnce(cfg, initial, s.puts) && ReportInv(cfg, initial, s)
    ensures ReportInv(cfg, initial, s')
  {
    var stage := Current(s);
    if stage.PAppliedResult? {
      ReportInvReport(cfg, initial, s, m, s');
    } else {
      ReportsOn(s.log, Called(m.tid, Pending(stage), m.reply));
      SameReports(cfg, initial, s.puts, s'.world.file, s.log, s'.log);
      if Loading(stage) {
        ReportInvLoad(cfg, initial, s, m, s');
      } else {
        CallTurns(cfg, s.world, stage, m.reply, s'.world);
        ReportStageOn(cfg, initial, s.puts, s.world.file, s.log, stage, s'.world.file, Current(s'));
      }
    }
  }

  lemma ReportInvReport(cfg: Config, initial: File, s: Sys, m: Move, s': Sys)
    requires Core(cfg, s) && HomeStays(initial, s) && m.Answer? && Next(cfg, s, m, s') && Current(s).PAppliedResult?
    requires ReportableOnce(cfg, initial, s.puts) && ReportInv(cfg, initial, s)
    ensures ReportInv(cfg, initial, s')
  {
    SavedIsOnly(cfg, initial, s);
    OneReportMore(cfg, initial, s.puts, s.world.file, s.log, Current(s).desired.uuid, Called(m.tid, Pending(Current(s)), m.reply));
  }

  lemma ReportInvLoad(cfg: Config, initial: File, s: Sys, m: Move, s': Sys)
    requires Core(cfg, s) && FromPuts(cfg, initial, s.puts, s.world.file) && m.Answer? && Next(cfg, s, m, s')
    requires Loading(Current(s)) && ReportableOnce(cfg, initial, s.puts) && ReportInv(cfg, initial, s)
    requires forall uuid :: Count(Reports(uuid), s'.log) == Count(Reports(uuid), s.log)
    ensures ReportInv(cfg, initial, s')
  {
    SameReports(cfg, initial, s.puts, s.world.file, s.log, s'.log);
    Loaded(cfg, s.world, Current(s), m.reply, s'.world);
    if DesiredOf(Current(s')).Some? && Renders(cfg, DesiredOf(Current(s')).value) {
      ReportLoaded(cfg, initial, s.puts, s.world.file, s'.log, DesiredOf(Current(s')).value);
    }
  }

  lemma CrashFile(cfg: Config, s: Sys, m: Move, s': Sys)
    requires Core(cfg, s) && m.Crash? && Next(cfg, s, m, s')
    ensures s'.world.file.recoverable <= s.world.file.recoverable || (m.cut && Current(s).PSave?)
  {
    FileOn(s, m, s');
  }

  lemma CutReports(cfg: Config, initial: File, s: Sys, e: Entry)
    requires Core(cfg, s) && HomeStays(initial, s) && ReportableOnce(cfg, initial, s.puts)
    requires ReportInv(cfg, initial, s) && Holding(s) && !Current(s).Done?
    requires e == Cut(s.lock.value, Pending(Current(s)))
    ensures ReportSafe(cfg, initial, s.puts, s.world.file, s.log + [e])
    ensures Current(s).PSave? ==> forall uuid | Reported(s.log + [e], uuid) :: Spent(cfg, initial, s.puts, uuid)
  {
    var stage := Current(s);
    if stage.PAppliedResult? {
      SavedIsOnly(cfg, initial, s);
      OneReportMore(cfg, initial, s.puts, s.world.file, s.log, stage.desired.uuid, e);
    } else {
      ReportsOn(s.log, e);
      SameReports(cfg, initial, s.puts, s.world.file, s.log, s.log + [e]);
    }
  }

  lemma ReportInvCrash(cfg: Config, initial: File, s: Sys, m: Move, s': Sys)
    requires Core(cfg, s) && HomeStays(initial, s) && m.Crash? && Next(cfg, s, m, s')
    requires ReportableOnce(cfg, initial, s.puts) && ReportInv(cfg, initial, s)
    ensures ReportInv(cfg, initial, s')
  {
    CrashFile(cfg, s, m, s');
    var log := s.log;
    if m.cut {
      var e := Cut(s.lock.value, Pending(Current(s)));
      CutReports(cfg, initial, s, e);
      log := s.log + [e];
    }
    ReportFileOn(cfg, initial, s.puts, s.world.file, log, s'.world.file);
    ReportsOn(log, Crashed);
    SameReports(cfg, initial, s.puts, s'.world.file, log, s'.log);
  }

  lemma {:induction false} ReportInvAlong(cfg: Config, initial: File, ss: seq<Sys>, i: nat)
    requires Execution(cfg, initial, ss) && i < |ss| && ReportableOnce(cfg, initial, ss[i].puts)
    ensures ReportInv(cfg, initial, ss[i])
  {
    if i > 0 {
      var m := LastMove(cfg, initial, ss, i);
      ReportableOncePrefix(cfg, initial, ss[i - 1].puts, ss[i].puts);
      ReportInvAlong(cfg, initial, ss, i - 1);
      InvAlong(cfg, initial, ss, i - 1);
      ReportInvOn(cfg, initial, ss[i - 1], m, ss[i]);
    }
  }

  // With a durable directory, and no UUID applied again after another one, "configure apply completed" is attempted at
  // most once per UUID, over every run, with crashes, restarts and lost renames.
  lemma ReportedAtMostOnce(cfg: Config, initial: File, s: Sys, uuid: string)
    requires Reachable(cfg, initial, s) && ReportableOnce(cfg, initial, s.puts)
    ensures Count(Reports(uuid), s.log) <= 1
  {
    var ss :| Execution(cfg, initial, ss) && ss[|ss| - 1] == s;
    ReportInvAlong(cfg, initial, ss, |ss| - 1);
    assert Reported(s.log, uuid) || Count(Reports(uuid), s.log) == 0;
  }

  /******* In sync means applied *******/

  // The last attempt to apply anything was a successful one, of this rendering.
  ghost predicate LastAppliedIs(aspect: Aspect, log: seq<Entry>, output: Option<Output>) {
    var last := LastApply(log);
    last.Some? && IsApplied(last.value) && Seen(aspect, Some(last.value.call.rendered)) == Seen(aspect, output)
  }

  // The file shows this UUID, and its rendering is what was applied last.
  ghost predicate Standing(cfg: Config, aspect: Aspect, puts: seq<Record>, f: File, log: seq<Entry>, uuid: string) {
    f.visible.uuid == uuid && exists i :: Offers(cfg, puts, i, uuid) && LastAppliedIs(aspect, log, cfg.render(puts[i]))
  }

  // Whatever may be found in the file was there at first, is gone for good, or stands.
  ghost predicate SyncSafe(cfg: Config, aspect: Aspect, initial: File, puts: seq<Record>, f: File, log: seq<Entry>) {
    forall st | st in f.recoverable ::
      st in initial.recoverable || Gone(cfg, puts, st.uuid) || Standing(cfg, aspect, puts, f, log, st.uuid)
  }

  ghost predicate SyncSafeAt(
    cfg: Config, aspect: Aspect, initial: File, puts: seq<Record>, f: File, log: seq<Entry>, stage: Stage) {
    DesiredOf(stage).Some? ==>
      var desired := DesiredOf(stage).value;
      && (Renders(cfg, desired) ==>
            forall st | st in f.recoverable && st.uuid != desired.uuid :: st in initial.recoverable || Gone(cfg, puts, st.uuid))
      && (stage.HLoadState? ==>
            forall st | st in f.recoverable && st.uuid == desired.uuid ::
              f.visible.uuid == st.uuid && LastAppliedIs(aspect, log, cfg.render(desired)))
      && (FoundInSync(stage) || stage.PSave? || AfterSave(stage) ==> LastAppliedIs(aspect, log, cfg.render(desired)))
      && (BeforeApply(stage) || stage.PSave? ==> forall st | st in f.recoverable :: st.uuid != desired.uuid)
  }

  ghost predicate SyncInv(cfg: Config, aspect: Aspect, initial: File, s: Sys) {
    && SyncSafe(cfg, aspect, initial, s.puts, s.world.file, s.log)
    && (Holding(s) ==> SyncSafeAt(cfg, aspect, initial, s.puts, s.world.file, s.log, Current(s)))
  }

  lemma NotGone(cfg: Config, aspect: Aspect, initial: File, puts: seq<Record>)
    requires SafeReuse(cfg, aspect, initial, puts) && puts != []
    ensures !Gone(cfg, puts, puts[|puts| - 1].uuid)
  {
    var last := |puts| - 1;
    assert forall i, j | i < j <= last && Offers(cfg, puts, i, puts[last].uuid) :: !Replaces(cfg, puts, j, puts[last].uuid);
  }

  // A record that was just loaded: what the file can show of its UUID stands, the rest is gone if the record renders.
  lemma SyncLoaded(cfg: Config, aspect: Aspect, initial: File, puts: seq<Record>, f: File, log: seq<Entry>, desired: Record)
    requires SafeReuse(cfg, aspect, initial, puts) && FromPuts(cfg, initial, puts, f)
    requires SyncSafe(cfg, aspect, initial, puts, f, log) && puts != [] && desired == puts[|puts| - 1]
    ensures Renders(cfg, desired) ==>
              forall st | st in f.recoverable && st.uuid != desired.uuid :: st in initial.recoverable || Gone(cfg, puts, st.uuid)
    ensures forall st | st in f.recoverable && st.uuid == desired.uuid ::
              f.visible.uuid == st.uuid && LastAppliedIs(aspect, log, cfg.render(desired))
  {
    var last := |puts| - 1;
    NotGone(cfg, aspect, initial, puts);
    forall st | st in f.recoverable && st.uuid == desired.uuid
      ensures f.visible.uuid == st.uuid && LastAppliedIs(aspect, log, cfg.render(desired))
    {
      assert st !in initial.recoverable;
      var i :| Offers(cfg, puts, i, st.uuid) && LastAppliedIs(aspect, log, cfg.render(puts[i]));
      assert Seen(aspect, cfg.render(puts[last])) == Seen(aspect, cfg.render(puts[i]));
    }
    if Renders(cfg, desired) {
      forall st | st in f.recoverable && st.uuid != desired.uuid && st !in initial.recoverable
        ensures Gone(cfg, puts, st.uuid)
      {
        var h :| Offers(cfg, puts, h, st.uuid);
        assert Replaces(cfg, puts, last, st.uuid);
      }
    }
  }

  // Calls other than Apply and Save leave the file and the last apply alone.
  lemma SyncStageOn(
    cfg: Config, aspect: Aspect, initial: File, puts: seq<Record>, f: File, log: seq<Entry>, stage: Stage, next: Stage)
    requires !stage.PApply? && !stage.PSave? && Turned(f, stage, f, next) && f.visible in f.recoverable
    requires SyncSafeAt(cfg, aspect, initial, puts, f, log, stage)
    ensures SyncSafeAt(cfg, aspect, initial, puts, f, log, next)
  {
  }

  // While a record is being applied or saved, nothing in the file stands.
  lemma NothingStands(
    cfg: Config, aspect: Aspect, initial: File, puts: seq<Record>, f: File, log: seq<Entry>, stage: Stage, f': File, log': seq<Entry>)
    requires SyncSafeAt(cfg, aspect, initial, puts, f, log, stage)
    requires (stage.PApply? || stage.PSave?) && Renders(cfg, stage.desired)
    requires f'.recoverable <= f.recoverable
    ensures SyncSafe(cfg, aspect, initial, puts, f', log')
  {
  }

  // What a save does: the saved record stands.
  lemma SyncSaved(
    cfg: Config, aspect: Aspect, initial: File, puts: seq<Record>, f: File, log: seq<Entry>, stage: Stage, f': File)
    requires SyncSafeAt(cfg, aspect, initial, puts, f, log, stage)
    requires stage.PSave? && Renders(cfg, stage.desired) && stage.desired in puts
    requires f'.visible == State(stage.desired.target, stage.desired.uuid) || f'.recoverable <= f.recoverable
    requires forall st | st in f'.recoverable :: st in f.recoverable || st == State(stage.desired.target, stage.desired.uuid)
    ensures SyncSafe(cfg, aspect, initial, puts, f', log)
    ensures forall st | st in f'.recoverable && st.uuid != stage.desired.uuid ::
              st in initial.recoverable || Gone(cfg, puts, st.uuid)
  {
    var i :| 0 <= i < |puts| && puts[i] == stage.desired;
    assert Offers(cfg, puts, i, stage.desired.uuid);
  }

  lemma SameLastApply(
    cfg: Config, aspect: Aspect, initial: File, puts: seq<Record>, f: File, log: seq<Entry>, log': seq<Entry>)
    requires LastApply(log') == LastApply(log)
    ensures SyncSafe(cfg, aspect, initial, puts, f, log) ==> SyncSafe(cfg, aspect, initial, puts, f, log')
    ensures forall stage ::
              SyncSafeAt(cfg, aspect, initial, puts, f, log, stage) ==> SyncSafeAt(cfg, aspect, initial, puts, f, log', stage)
  {
    if SyncSafe(cfg, aspect, initial, puts, f, log) {
      forall st | st in f.recoverable && Standing(cfg, aspect, puts, f, log, st.uuid)
        ensures Standing(cfg, aspect, puts, f, log', st.uuid)
      {
      }
    }
  }

  lemma SyncInvOn(cfg: Config, aspect: Aspect, initial: File, s: Sys, m: Move, s': Sys)
    requires Core(cfg, s) && AllBacked(cfg, initial, s) && Next(cfg, s, m, s')
    requires SafeReuse(cfg, aspect, initial, s'.puts) && SyncInv(cfg, aspect, initial, s)
    ensures SyncInv(cfg, aspect, initial, s')
  {
    match m
    case Answer(tid, reply) =>
      SyncInvAnswer(cfg, aspect, initial, s, m, s');
    case Acquire(tid) =>
      SyncInvSwitch(cfg, aspect, initial, s, m, s');
    case Release(tid) =>
      SyncInvSwitch(cfg, aspect, initial, s, m, s');
    case Put(record) =>
      SyncInvPut(cfg, aspect, initial, s, m, s');
    case Crash(cut, power) =>
      SyncInvCrash(cfg, aspect, initial, s, m, s');
    case _ =>
  }

  lemma SyncInvSwitch(cfg: Config, aspect: Aspect, initial: File, s: Sys, m: Move, s': Sys)
    requires (m.Acquire? || m.Release?) && Next(cfg, s, m, s') && SyncInv(cfg, aspect, initial, s)
    ensures SyncInv(cfg, aspect, initial, s')
  {
    Logged(s.log, if m.Acquire? then Acquired(m.tid, s.threads[m.tid].job) else Released(m.tid, Current(s).err));
    SameLastApply(cfg, aspect, initial, s.puts, s.world.file, s.log, s'.log);
  }

  lemma SyncInvPut(cfg: Config, aspect: Aspect, initial: File, s: Sys, m: Move, s': Sys)
    requires m.Put? && Next(cfg, s, m, s') && SyncInv(cfg, aspect, initial, s)
    ensures SyncInv(cfg, aspect, initial, s')
  {
    forall uuid {
      HistoryGrows(cfg, initial, s.puts, s'.puts, uuid);
    }
    forall st | st in s.world.file.recoverable && Standing(cfg, aspect, s.puts, s.world.file, s.log, st.uuid)
      ensures Standing(cfg, aspect, s'.puts, s.world.file, s.log, st.uuid)
    {
      var i :| Offers(cfg, s.puts, i, st.uuid) && LastAppliedIs(aspect, s.log, cfg.render(s.puts[i]));
      OffersOn(cfg, s.puts, s'.puts, i, st.uuid);
      assert s'.puts[i] == s.puts[i];
    }
  }

  lemma SyncInvAnswer(cfg: Config, aspect: Aspect, initial: File, s: Sys, m: Move, s': Sys)
    requires Core(cfg, s) && AllBacked(cfg, initial, s) && m.Answer? && Next(cfg, s, m, s')
    requires SafeReuse(cfg, aspect, initial, s.puts) && SyncInv(cfg, aspect, initial, s)
    ensures SyncInv(cfg, aspect, initial, s')
  {
    if Current(s).PApply? {
      SyncInvApply(cfg, aspect, initial, s, m, s');
    } else if Current(s).PSave? {
      SyncInvSave(cfg, aspect, initial, s, m, s');
    } else {
      SyncInvCall(cfg, aspect, initial, s, m, s');
    }
  }

  lemma SyncInvApply(cfg: Config, aspect: Aspect, initial: File, s: Sys, m: Move, s': Sys)
    requires Core(cfg, s) && m.Answer? && Next(cfg, s, m, s') && Current(s).PApply?
    requires SyncInv(cfg, aspect, initial, s)
    ensures SyncInv(cfg, aspect, initial, s')
  {
    var stage := Current(s);
    Logged(s.log, Called(m.tid, Pending(stage), m.reply));
    NothingStands(cfg, aspect, initial, s.puts, s.world.file, s.log, stage, s'.world.file, s'.log);
    assert m.reply.Ack? ==> LastAppliedIs(aspect, s'.log, cfg.render(stage.desired));
  }

  lemma SyncInvSave(cfg: Config, aspect: Aspect, initial: File, s: Sys, m: Move, s': Sys)
    requires Core(cfg, s) && m.Answer? && Next(cfg, s, m, s') && Current(s).PSave?
    requires SyncInv(cfg, aspect, initial, s)
    ensures SyncInv(cfg, aspect, initial, s')
  {
    var stage := Current(s);
    Logged(s.log, Called(m.tid, Pending(stage), m.reply));
    SameLastApply(cfg, aspect, initial, s.puts, s.world.file, s.log, s'.log);
    CallTurns(cfg, s.world, stage, m.reply, s'.world);
    SyncSavedOn(cfg, aspect, initial, s.puts, s.world.file, s'.log, stage, s'.world.file, Current(s'));
  }

  lemma SyncSavedOn(
    cfg: Config, aspect: Aspect, initial: File, puts: seq<Record>, f: File, log: seq<Entry>, stage: Stage, f': File, next: Stage)
    requires SyncSafeAt(cfg, aspect, initial, puts, f, log, stage)
    requires stage.PSave? && Renders(cfg, stage.desired) && stage.desired in puts && Turned(f, stage, f', next) && Possible(f)
    ensures SyncSafe(cfg, aspect, initial, puts, f', log) && SyncSafeAt(cfg, aspect, initial, puts, f', log, next)
  {
    SyncSaved(cfg, aspect, initial, puts, f, log, stage, f');
  }

  lemma SyncInvCall(cfg: Config, aspect: Aspect, initial: File, s: Sys, m: Move, s': Sys)
    requires Core(cfg, s) && AllBacked(cfg, initial, s) && m.Answer? && Next(cfg, s, m, s')
    requires !Current(s).PApply? && !Current(s).PSave?
    requires SafeReuse(cfg, aspect, initial, s.puts) && SyncInv(cfg, aspect, initial, s)
    ensures SyncInv(cfg, aspect, initial, s')
  {
    var stage := Current(s);
    Logged(s.log, Called(m.tid, Pending(stage), m.reply));
    SameLastApply(cfg, aspect, initial, s.puts, s.world.file, s.log, s'.log);
    if Loading(stage) {
      RecoverableIsWritten(cfg, initial, s);
      SyncLoadOn(cfg, aspect, initial, s.puts, s.world, s'.log, stage, m.reply, s'.world);
    } else {
      CallTurns(cfg, s.world, stage, m.reply, s'.world);
      SyncStageOn(cfg, aspect, initial, s.puts, s.world.file, s'.log, stage, Current(s'));
    }
  }

  lemma SyncLoadOn(
    cfg: Config, aspect: Aspect, initial: File, puts: seq<Record>, w: World, log: seq<Entry>, stage: Stage, reply: Reply, w': World)
    requires Loading(stage) && Knows(cfg, w, stage) && Effect(cfg, w, Pending(stage), reply, w')
    requires w.kv.Some? ==> puts != [] && w.kv.value == puts[|puts| - 1]
    requires FromPuts(cfg, initial, puts, w.file) && w.file.visible in w.file.recoverable
    requires SafeReuse(cfg, aspect, initial, puts) && SyncSafe(cfg, aspect, initial, puts, w.file, log)
    ensures w'.file == w.file && SyncSafeAt(cfg, aspect, initial, puts, w.file, log, Resume(stage, reply))
  {
    Loaded(cfg, w, stage, reply, w');
    if DesiredOf(Resume(stage, reply)).Some? {
      SyncLoaded(cfg, aspect, initial, puts, w.file, log, w.kv.value);
    }
  }

  lemma SyncInvCrash(cfg: Config, aspect: Aspect, initial: File, s: Sys, m: Move, s': Sys)
    requires Core(cfg, s) && m.Crash? && Next(cfg, s, m, s') && SyncInv(cfg, aspect, initial, s)
    ensures SyncInv(cfg, aspect, initial, s')
  {
    FileOn(s, m, s');
    if m.cut {
      var stage := Current(s);
      var e := Cut(s.lock.value, Pending(stage));
      Logged(s.log, e);
      Logged(s.log + [e], Crashed);
      if stage.PApply? {
        NothingStands(cfg, aspect, initial, s.puts, s.world.file, s.log, stage, s'.world.file, s'.log);
      } else {
        SameLastApply(cfg, aspect, initial, s.puts, s.world.file, s.log, s'.log);
        if stage.PSave? {
          SyncSaved(cfg, aspect, initial, s.puts, s.world.file, s'.log, stage, s'.world.file);
        } else {
          SyncLost(cfg, aspect, initial, s, m, s');
        }
      }
    } else {
      Logged(s.log, Crashed);
      SameLastApply(cfg, aspect, initial, s.puts, s.world.file, s.log, s'.log);
      SyncLost(cfg, aspect, initial, s, m, s');
    }
  }

  // Losing renames leaves one of the states that the file could show.
  lemma SyncLost(cfg: Config, aspect: Aspect, initial: File, s: Sys, m: Move, s': Sys)
    requires Core(cfg, s) && m.Crash? && Next(cfg, s, m, s') && !CutInSave(s, m)
    requires SyncSafe(cfg, aspect, initial, s.puts, s.world.file, s'.log)
    ensures SyncSafe(cfg, aspect, initial, s'.puts, s'.world.file, s'.log)
  {
    var f, f' := s.world.file, s'.world.file;
    FileOn(s, m, s');
    forall st | st in f'.recoverable && Standing(cfg, aspect, s.puts, f, s'.log, st.uuid)
      ensures Standing(cfg, aspect, s.puts, f', s'.log, st.uuid)
    {
      assert f'.visible.uuid == st.uuid;
    }
  }

  lemma {:induction false} SyncInvAlong(cfg: Config, aspect: Aspect, initial: File, ss: seq<Sys>, i: nat)
    requires Execution(cfg, initial, ss) && i < |ss| && SafeReuse(cfg, aspect, initial, ss[i].puts)
    ensures SyncInv(cfg, aspect, initial, ss[i])
  {
    if i > 0 {
      var m := LastMove(cfg, initial, ss, i);
      SafeReusePrefix(cfg, aspect, initial, ss[i - 1].puts, ss[i].puts);
      SyncInvAlong(cfg, aspect, initial, ss, i - 1);
      InvAlong(cfg, initial, ss, i - 1);
      SyncInvOn(cfg, aspect, initial, ss[i - 1], m, ss[i]);
    }
  }

  // The lock holder found that the checkpoint names this record.
  ghost predicate AtInSync(s: Sys, desired: Record) {
    Holding(s) && FoundInSync(Current(s)) && DesiredOf(Current(s)) == Some(desired)
  }

  ghost predicate DeviceRuns(cfg: Config, s: Sys, desired: Record) {
    Renders(cfg, desired) && s.world.device == cfg.render(desired).value.text
  }

  // Whenever Handle or Reconcile takes the in-sync branch, the last apply ever attempted was a successful apply of
  // that record's rendering; and the device runs it, if it keeps what was applied.
  lemma InSyncMeansApplied(cfg: Config, aspect: Aspect, initial: File, s: Sys, desired: Record)
    requires Reachable(cfg, initial, s) && SafeReuse(cfg, aspect, initial, s.puts) && AtInSync(s, desired)
    ensures LastAppliedIs(aspect, s.log, cfg.render(desired))
    ensures DeviceKeeps(cfg) ==> DeviceRuns(cfg, s, desired)
  {
    var ss :| Execution(cfg, initial, ss) && ss[|ss| - 1] == s;
    SyncInvAlong(cfg, aspect, initial, ss, |ss| - 1);
    InvHolds(cfg, initial, s);
  }
}
