/** The configure system over a disk: every Save is a run of file system calls, and a crash may stop it between any two. */
module ConfigureOnDisk {
  import opened Text
  import opened Checkpoint
  import opened ConfigureProtocol
  import opened ConfigureSystem
  import opened ConfigureSafety
  import D = Disk
  import Store = SaveProtocol

  datatype Place = Place(path: string, codec: D.Codec)

  function TaskOf(place: Place, st: State): Store.Task {
    Store.Task(place.path, st, place.codec)
  }

  ghost predicate Shows(place: Place, d: D.Disk, f: File) {
    D.Sound(d) && D.Shows(place.codec, d, place.path, f)
  }

  /******* Moves over a disk *******/

  // A Save that returned: nil exactly if it is acknowledged.
  ghost predicate SavesBy(place: Place, st: State, d: D.Disk, es: seq<Store.Event>, ok: bool, d': D.Disk) {
    && Store.Conforms(TaskOf(place, st), d, es)
    && var stage := Store.After(TaskOf(place, st), d, es);
    stage.Returned? && (stage.err.None? <==> ok) && d' == Store.DiskAfter(d, es)
  }

  // A Save that a crash stopped after some of its calls.
  ghost predicate StopsBy(place: Place, st: State, d: D.Disk, es: seq<Store.Event>, power: bool, d': D.Disk) {
    && Store.Conforms(TaskOf(place, st), d, es)
    && if power then D.PowerLost(Store.DiskAfter(d, es), d') else d' == Store.DiskAfter(d, es)
  }

  ghost predicate OnDisk(place: Place, d: D.Disk, call: Call, reply: Reply, d': D.Disk) {
    match call
    case LoadState =>
      d' == d && (reply.Local? ==> D.ReadEntry(place.codec, d, D.Entry(d, place.path)) == Some(reply.state))
    case Save(st) => exists es :: SavesBy(place, st, d, es, reply.Ack?, d')
    case _ => d' == d
  }

  ghost predicate DiskMove(place: Place, s: Sys, d: D.Disk, m: Move, d': D.Disk) {
    if m.Answer? && Holding(s) && !Current(s).Done? then OnDisk(place, d, Pending(Current(s)), m.reply, d')
    else if CutInSave(s, m) then exists es :: StopsBy(place, Pending(Current(s)).state, d, es, m.power, d')
    else if m.Crash? && m.power then D.PowerLost(d, d')
    else d' == d
  }

  ghost predicate DiskStep(cfg: Config, place: Place, s: Sys, d: D.Disk, s': Sys, d': D.Disk) {
    exists m :: Around(cfg, s, m, s') && DiskMove(place, s, d, m, d')
  }

  // The files that the states mention play no part.
  ghost predicate DiskExecution(cfg: Config, place: Place, ss: seq<Sys>, ds: seq<D.Disk>) {
    && |ss| == |ds| > 0
    && ss[0] == Sys(ss[0].world, [], map[], None, []) && ss[0].world.kv == None
    && forall i | 0 <= i < |ss| - 1 :: DiskStep(cfg, place, ss[i], ds[i], ss[i + 1], ds[i + 1])
  }

  /******* Simulation *******/

  function WithFile(s: Sys, f: File): Sys {
    s.(world := s.world.(file := f))
  }

  lemma AroundWithFile(cfg: Config, s: Sys, m: Move, s': Sys, f: File, f': File)
    requires Around(cfg, s, m, s')
    ensures Around(cfg, WithFile(s, f), m, WithFile(s', f'))
  {
  }

  lemma CallSimulated(place: Place, d: D.Disk, f: File, call: Call, reply: Reply, d': D.Disk) returns (f': File)
    requires D.Faithful(place.codec) && Shows(place, d, f) && OnDisk(place, d, call, reply, d')
    ensures Shows(place, d', f') && OnFile(f, call, reply, f')
  {
    f' := f;
    if call.Save? {
      var es :| SavesBy(place, call.state, d, es, reply.Ack?, d');
      var task := TaskOf(place, call.state);
      Store.SaveRefines(task, f, d, es);
      f' := Store.FileAt(Store.After(task, d, es), call.state, f, d'.home);
    }
  }

  lemma StopSimulated(place: Place, d: D.Disk, f: File, st: State, power: bool, d': D.Disk) returns (f': File)
    requires D.Faithful(place.codec) && Shows(place, d, f) && exists es :: StopsBy(place, st, d, es, power, d')
    ensures Shows(place, d', f') && if power then LostInSave(f, st, f') else SaveCut(f, st, f')
  {
    var es :| StopsBy(place, st, d, es, power, d');
    var task := TaskOf(place, st);
    if power {
      Store.CrashedSaveRefines(task, f, d, es, d');
      var found := D.StateOf(place.codec, d', D.Entry(d', place.path));
      f' := File(found, {found}, d'.home);
    } else {
      Store.StoppedSaveRefines(task, f, d, es);
      f' := Store.FileAt(Store.After(task, d, es), st, f, d'.home);
    }
  }

  lemma LossSimulated(place: Place, d: D.Disk, f: File, d': D.Disk) returns (f': File)
    requires Shows(place, d, f) && D.PowerLost(d, d')
    ensures Shows(place, d', f') && PowerLoss(f, f')
  {
    D.PowerLostShows(place.codec, d, place.path, f, d');
    var found := D.StateOf(place.codec, d', D.Entry(d', place.path));
    f' := File(found, {found}, d'.home);
  }

  lemma MoveSimulated(place: Place, s: Sys, d: D.Disk, f: File, m: Move, d': D.Disk) returns (f': File)
    requires D.Faithful(place.codec) && Shows(place, d, f) && DiskMove(place, s, d, m, d')
    ensures Shows(place, d', f') && FileMove(WithFile(s, f), m, f')
  {
    if m.Answer? && Holding(s) && !Current(s).Done? {
      f' := CallSimulated(place, d, f, Pending(Current(s)), m.reply, d');
    } else if CutInSave(s, m) {
      f' := StopSimulated(place, d, f, Pending(Current(s)).state, m.power, d');
    } else if m.Crash? && m.power {
      f' := LossSimulated(place, d, f, d');
    } else {
      f' := f;
    }
  }

  // The states, each with the file that the disk shows then.
  function WithFiles(ss: seq<Sys>, fs: seq<File>): (run: seq<Sys>)
    requires |ss| == |fs|
    ensures |run| == |ss| && forall i | 0 <= i < |ss| :: run[i] == WithFile(ss[i], fs[i])
  {
    seq(|ss|, i requires 0 <= i < |ss| => WithFile(ss[i], fs[i]))
  }

  ghost predicate Simulates(cfg: Config, place: Place, ss: seq<Sys>, ds: seq<D.Disk>, fs: seq<File>) {
    && |ss| == |ds| == |fs| > 0
    && (forall i | 0 <= i < |ss| :: Shows(place, ds[i], fs[i]))
    && Execution(cfg, fs[0], WithFiles(ss, fs))
  }

  // Every run of the service over a disk is a run of the configure system with the files that the disk shows.
  lemma {:induction false} DiskRunsAreRuns(cfg: Config, place: Place, ss: seq<Sys>, ds: seq<D.Disk>, f: File)
    returns (fs: seq<File>)
    requires D.Faithful(place.codec) && DiskExecution(cfg, place, ss, ds) && Shows(place, ds[0], f)
    ensures fs != [] && fs[0] == f && Simulates(cfg, place, ss, ds, fs)
  {
    var n := |ss| - 1;
    if n == 0 {
      fs := [f];
      D.ShownIsPossible(place.codec, ds[0], place.path, f);
    } else {
      var before := DiskRunsAreRuns(cfg, place, ss[..n], ds[..n], f);
      assert DiskStep(cfg, place, ss[n - 1], ds[n - 1], ss[n - 1 + 1], ds[n - 1 + 1]);
      fs := OneStepMore(cfg, place, ss, ds, before);
    }
  }

  lemma StepSimulated(cfg: Config, place: Place, s: Sys, d: D.Disk, f: File, s': Sys, d': D.Disk) returns (f': File)
    requires D.Faithful(place.codec) && Shows(place, d, f) && DiskStep(cfg, place, s, d, s', d')
    ensures Shows(place, d', f') && Step(cfg, WithFile(s, f), WithFile(s', f'))
  {
    var m :| Around(cfg, s, m, s') && DiskMove(place, s, d, m, d');
    f' := MoveSimulated(place, s, d, f, m, d');
    AroundWithFile(cfg, s, m, s', f, f');
    assert Next(cfg, WithFile(s, f), m, WithFile(s', f'));
  }

  lemma OneStepMore(cfg: Config, place: Place, ss: seq<Sys>, ds: seq<D.Disk>, fs: seq<File>) returns (more: seq<File>)
    requires D.Faithful(place.codec)
    requires |ss| == |ds| == |fs| + 1 && fs != [] && Simulates(cfg, place, ss[..|fs|], ds[..|fs|], fs)
    requires DiskStep(cfg, place, ss[|fs| - 1], ds[|fs| - 1], ss[|fs|], ds[|fs|])
    ensures fs <= more && Simulates(cfg, place, ss, ds, more)
  {
    var n := |fs|;
    var s, s', d, d' := ss[n - 1], ss[n], ds[n - 1], ds[n];
    assert ds[..n][n - 1] == d && Shows(place, d, fs[n - 1]);
    var f' := StepSimulated(cfg, place, s, d, fs[n - 1], s', d');
    more := fs + [f'];
    WithFilesGrows(ss, fs, f');
    ExecutionGrows(cfg, fs[0], WithFiles(ss[..n], fs), WithFile(s', f'));
    forall i | 0 <= i < |ss| ensures Shows(place, ds[i], more[i]) {
      assert i < n ==> Shows(place, ds[..n][i], fs[i]);
    }
  }

  lemma WithFilesGrows(ss: seq<Sys>, fs: seq<File>, f': File)
    requires |ss| == |fs| + 1
    ensures WithFiles(ss, fs + [f']) == WithFiles(ss[..|fs|], fs) + [WithFile(ss[|fs|], f')]
  {
  }

  lemma ExecutionGrows(cfg: Config, initial: File, run: seq<Sys>, s': Sys)
    requires Execution(cfg, initial, run) && Step(cfg, run[|run| - 1], s')
    ensures Execution(cfg, initial, run + [s'])
  {
    var more := run + [s'];
    forall i | 0 <= i < |more| - 1 ensures Step(cfg, more[i], more[i + 1]) {
      assert i < |run| - 1 ==> Step(cfg, run[i], run[i + 1]);
    }
  }

  /******* What this gives on a disk *******/

  // The state at i, with the file that the disk shows then, is one of the configure system.
  lemma DiskStateIsReachable(cfg: Config, place: Place, ss: seq<Sys>, ds: seq<D.Disk>, f: File, i: nat) returns (now: File)
    requires D.Faithful(place.codec) && DiskExecution(cfg, place, ss, ds) && Shows(place, ds[0], f) && i < |ss|
    ensures Shows(place, ds[i], now) && Reachable(cfg, f, WithFile(ss[i], now))
  {
    var fs := DiskRunsAreRuns(cfg, place, ss, ds, f);
    now := fs[i];
    var run := WithFiles(ss, fs)[..i + 1];
    assert Execution(cfg, f, run) && run[|run| - 1] == WithFile(ss[i], now);
  }

  // With a state directory that is durable when the service begins, no apply is reported twice under one UUID, whatever
  // happens to the service and to the disk.
  lemma ReportedAtMostOnceOnDisk(
    cfg: Config, place: Place, ss: seq<Sys>, ds: seq<D.Disk>, f: File, i: nat, uuid: string)
    requires D.Faithful(place.codec) && DiskExecution(cfg, place, ss, ds) && Shows(place, ds[0], f) && i < |ss|
    requires ReportableOnce(cfg, f, ss[i].puts)
    ensures Count(Reports(uuid), ss[i].log) <= 1
  {
    var now := DiskStateIsReachable(cfg, place, ss, ds, f, i);
    ReportedAtMostOnce(cfg, f, WithFile(ss[i], now), uuid);
  }

  // And with safe reuse of UUIDs, whoever finds a record in sync on the disk finds it applied.
  lemma InSyncMeansAppliedOnDisk(
    cfg: Config, aspect: Aspect, place: Place, ss: seq<Sys>, ds: seq<D.Disk>, f: File, i: nat, desired: Record)
    requires D.Faithful(place.codec) && DiskExecution(cfg, place, ss, ds) && Shows(place, ds[0], f) && i < |ss|
    requires SafeReuse(cfg, aspect, f, ss[i].puts) && AtInSync(ss[i], desired)
    ensures LastAppliedIs(aspect, ss[i].log, cfg.render(desired))
    ensures DeviceKeeps(cfg) ==> DeviceRuns(cfg, ss[i], desired)
  {
    var now := DiskStateIsReachable(cfg, place, ss, ds, f, i);
    InSyncMeansApplied(cfg, aspect, f, WithFile(ss[i], now), desired);
  }
}
