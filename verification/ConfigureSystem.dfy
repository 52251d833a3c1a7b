/** Many callers of Handle and Reconcile around one lock, a KV record that changes underneath, and crashes. */
module ConfigureSystem {
  import opened Text
  import opened Checkpoint
  import opened ConfigureProtocol
  import opened ConfigureFacts

  /******* States and moves *******/

  datatype Thread = Waiting(job: Job) | Running(job: Job, stage: Stage)

  // What an observer of the agent sees. Cut is a call that a crash left without a reply.
  datatype Entry =
    | Acquired(tid: nat, job: Job)
    | Called(tid: nat, call: Call, reply: Reply)
    | Cut(tid: nat, call: Call)
    | Released(tid: nat, err: Option<Error>)
    | Crashed

  // puts lists every record ever written under the agent's key; lock is s.mu.
  datatype Sys = Sys(world: World, puts: seq<Record>, threads: map<nat, Thread>, lock: Option<nat>, log: seq<Entry>)

  datatype Move =
    | Arrive(tid: nat, job: Job)         // Handle or Reconcile is called
    | Acquire(tid: nat)
    | Answer(tid: nat, reply: Reply)     // the lock holder makes its next call
    | Release(tid: nat)
    | Put(record: Record)
    | Delete
    | Reboot                             // the device restarts
    | Crash(cut: bool, power: bool)      // the agent dies, in a call or between calls; power: unsynced data may be lost

  ghost predicate Init(initial: File, s: Sys) {
    && s.world.kv == None && s.world.file == initial && Possible(initial)
    && s.puts == [] && s.threads == map[] && s.lock == None && s.log == []
  }

  predicate Holding(s: Sys) {
    s.lock.Some? && s.lock.value in s.threads && s.threads[s.lock.value].Running?
  }

  function Current(s: Sys): Stage
    requires Holding(s)
  {
    s.threads[s.lock.value].stage
  }

  // A move away from the checkpoint file.
  ghost predicate Around(cfg: Config, s: Sys, m: Move, s': Sys) {
    var w := s.world.(file := s'.world.file);
    match m
    case Arrive(tid, job) =>
      tid !in s.threads && s' == s.(world := w, threads := s.threads[tid := Waiting(job)])
    case Acquire(tid) =>
      && tid in s.threads && s.threads[tid].Waiting? && s.lock == None
      && var job := s.threads[tid].job;
      s' == s.(world := w, threads := s.threads[tid := Running(job, Start(job))], lock := Some(tid),
               log := s.log + [Acquired(tid, job)])
    case Answer(tid, reply) =>
      && Holding(s) && s.lock == Some(tid) && !Current(s).Done?
      && Elsewhere(cfg, s.world, Pending(Current(s)), reply, s'.world)
      && s' == s.(world := s'.world,
                  threads := s.threads[tid := Running(s.threads[tid].job, Resume(Current(s), reply))],
                  log := s.log + [Called(tid, Pending(Current(s)), reply)])
    case Release(tid) =>
      && Holding(s) && s.lock == Some(tid) && Current(s).Done?
      && s' == s.(world := w, threads := s.threads - {tid}, lock := None, log := s.log + [Released(tid, Current(s).err)])
    case Put(record) =>
      s' == s.(world := w.(kv := Some(record)), puts := s.puts + [record])
    case Delete =>
      s' == s.(world := w.(kv := None))
    case Reboot =>
      cfg.reboots && s' == s.(world := w.(device := w.boot))
    case Crash(cut, power) =>
      && (cut ==> Holding(s) && !Current(s).Done?)
      && var applying := cut && Pending(Current(s)).Apply?;
      && s'.world.kv == s.world.kv
      && (!applying ==> s'.world.device == s.world.device)
      && (!applying || !cfg.saves ==> s'.world.boot == s.world.boot)
      && s'.puts == s.puts && s'.threads == map[] && s'.lock == None
      && s'.log == (if cut then s.log + [Cut(s.lock.value, Pending(Current(s)))] else s.log) + [Crashed]
  }

  // A crash that cuts a Save short.
  predicate CutInSave(s: Sys, m: Move) {
    m.Crash? && m.cut && Holding(s) && Current(s).PSave?
  }

  // What a move does to the checkpoint file.
  ghost predicate FileMove(s: Sys, m: Move, f': File) {
    var f := s.world.file;
    if m.Answer? && Holding(s) && !Current(s).Done? then OnFile(f, Pending(Current(s)), m.reply, f')
    else if CutInSave(s, m) then
      var st := Pending(Current(s)).state;
      if m.power then LostInSave(f, st, f') else SaveCut(f, st, f')
    else if m.Crash? && m.power then PowerLoss(f, f')
    else f' == f
  }

  ghost predicate Next(cfg: Config, s: Sys, m: Move, s': Sys) {
    Around(cfg, s, m, s') && FileMove(s, m, s'.world.file)
  }

  ghost predicate Step(cfg: Config, s: Sys, s': Sys) {
    exists m :: Next(cfg, s, m, s')
  }

  ghost predicate Execution(cfg: Config, initial: File, ss: seq<Sys>) {
    && ss != [] && Init(initial, ss[0])
    && forall i | 0 <= i < |ss| - 1 :: Step(cfg, ss[i], ss[i + 1])
  }

  ghost predicate Reachable(cfg: Config, initial: File, s: Sys) {
    exists ss :: Execution(cfg, initial, ss) && ss[|ss| - 1] == s
  }

  lemma Reach(cfg: Config, initial: File, s: Sys, m: Move, s': Sys)
    requires Reachable(cfg, initial, s) && Next(cfg, s, m, s')
    ensures Reachable(cfg, initial, s')
  {
    var ss :| Execution(cfg, initial, ss) && ss[|ss| - 1] == s;
    var more := ss + [s'];
    forall i | 0 <= i < |more| - 1
      ensures Step(cfg, more[i], more[i + 1])
    {
      if i == |ss| - 1 {
        assert Next(cfg, more[i], m, more[i + 1]);
      }
    }
    assert Execution(cfg, initial, more);
  }

  /******* Reading the log *******/

  predicate IsApply(e: Entry) {
    (e.Called? || e.Cut?) && e.call.Apply?
  }

  predicate IsApplied(e: Entry) {
    e.Called? && e.call.Apply? && e.reply.Ack?
  }

  predicate IsSave(e: Entry) {
    (e.Called? || e.Cut?) && e.call.Save?
  }

  // The last attempt to apply anything to the device.
  function LastApply(log: seq<Entry>): Option<Entry> {
    if log == [] then None
    else if IsApply(log[|log| - 1]) then Some(log[|log| - 1])
    else LastApply(log[..|log| - 1])
  }

  datatype Kind =
    | Applies                // attempts to apply
    | ApplyErrors            // that returned an error
    | ApplyCuts              // that a crash cut short
    | Saves                  // attempts to save
    | Orphans                // crashes right after a successful apply
    | Reports(uuid: string)  // attempts to report "configure apply completed"

  // Whether the last entry of a log is of a kind.
  predicate EndsIn(kind: Kind, log: seq<Entry>)
    requires log != []
  {
    var e := log[|log| - 1];
    match kind
    case Applies => IsApply(e)
    case ApplyErrors => IsApply(e) && e.Called? && !e.reply.Ack?
    case ApplyCuts => IsApply(e) && e.Cut?
    case Saves => IsSave(e)
    case Orphans => e.Crashed? && |log| > 1 && IsApplied(log[|log| - 2])
    case Reports(uuid) => (e.Called? || e.Cut?) && e.call.PublishResult? && e.call.verdict.AppliedNow? && e.call.msg.uuid == uuid
  }

  function Count(kind: Kind, log: seq<Entry>): nat {
    if log == [] then 0
    else Count(kind, log[..|log| - 1]) + if EndsIn(kind, log) then 1 else 0
  }

  lemma Counted(kind: Kind, log: seq<Entry>, e: Entry)
    ensures Count(kind, log + [e]) == Count(kind, log) + if EndsIn(kind, log + [e]) then 1 else 0
  {
    assert (log + [e])[..|log|] == log;
  }

  lemma Logged(log: seq<Entry>, e: Entry)
    ensures LastApply(log + [e]) == if IsApply(e) then Some(e) else LastApply(log)
  {
    assert (log + [e])[..|log|] == log;
  }

  /******* Invariants of every run *******/

  ghost predicate Mutex(s: Sys) {
    && (s.lock.Some? ==> s.lock.value in s.threads)
    && forall tid | tid in s.threads :: s.threads[tid].Running? <==> s.lock == Some(tid)
  }

  // What is behind a checkpoint: a rendering, an apply of it three calls later, and the save as the next call, in one run.
  ghost predicate SavedAt(cfg: Config, s: Sys, st: State, desired: Record, n: int) {
    && 4 <= n < |s.log|
    && desired in s.puts && st == State(desired.target, desired.uuid)
    && IsApplied(s.log[n - 1]) && Some(s.log[n - 1].call.rendered) == cfg.render(desired)
    && IsSave(s.log[n]) && s.log[n].call.state == st && s.log[n].tid == s.log[n - 1].tid
    && s.log[n - 4] == Called(s.log[n].tid, Render(desired), RenderedTo(s.log[n - 1].call.rendered))
  }

  ghost predicate Backed(cfg: Config, s: Sys, st: State) {
    exists desired, n :: SavedAt(cfg, s, st, desired, n)
  }

  ghost predicate Balanced(log: seq<Entry>) {
    Count(Applies, log) ==
    Count(ApplyErrors, log) + Count(ApplyCuts, log) + Count(Saves, log) + Count(Orphans, log)
    + if log != [] && IsApplied(log[|log| - 1]) then 1 else 0
  }

  // The lock, the KV register and what the holder of the lock knows.
  ghost predicate Core(cfg: Config, s: Sys) {
    && Mutex(s)
    && (s.world.kv.Some? ==> s.puts != [] && s.world.kv.value == s.puts[|s.puts| - 1])
    && Possible(s.world.file)
    && (Holding(s) ==>
          && Knows(cfg, s.world, Current(s))
          && (DeviceKeeps(cfg) ==> KnowsDevice(cfg, s.world, Current(s)))
          && (DesiredOf(Current(s)).Some? ==> DesiredOf(Current(s)).value in s.puts))
  }

  // The log ends in a successful apply exactly while its caller is about to save.
  ghost predicate AppliedIsPending(cfg: Config, s: Sys) {
    if s.log != [] && IsApplied(s.log[|s.log| - 1]) then
      && Holding(s) && Current(s).PSave?
      && Some(s.log[|s.log| - 1].call.rendered) == cfg.render(Current(s).desired)
      && s.log[|s.log| - 1].tid == s.lock.value
    else
      Holding(s) ==> !Current(s).PSave?
  }

  // How many calls ago the lock holder was told the rendering it works with.
  function CallsSinceRender(stage: Stage): nat {
    if stage.PRendered? then 1 else if stage.PApplying? then 2 else if stage.PApply? then 3 else if stage.PSave? then 4 else 0
  }

  ghost predicate RenderIsBehind(cfg: Config, s: Sys) {
    Holding(s) && CallsSinceRender(Current(s)) > 0 ==>
      Told(cfg, s.log, s.lock.value, Current(s).desired, CallsSinceRender(Current(s)))
  }

  ghost predicate Told(cfg: Config, log: seq<Entry>, tid: nat, desired: Record, back: nat) {
    && Renders(cfg, desired) && 0 < back <= |log|
    && log[|log| - back] == Called(tid, Render(desired), RenderedTo(cfg.render(desired).value))
  }

  ghost predicate DeviceHolds(cfg: Config, s: Sys) {
    var last := LastApply(s.log);
    DeviceKeeps(cfg) && last.Some? && IsApplied(last.value) ==> Holds(cfg, s.world, last.value.call.rendered.text)
  }

  ghost predicate AllBacked(cfg: Config, initial: File, s: Sys) {
    forall st | st in s.world.file.recoverable :: st in initial.recoverable || Backed(cfg, s, st)
  }

  // Once durable, the directory stays so.
  ghost predicate HomeStays(initial: File, s: Sys) {
    initial.home.Anchored? ==> s.world.file.home.Anchored?
  }

  ghost predicate Inv(cfg: Config, initial: File, s: Sys) {
    && Core(cfg, s) && AppliedIsPending(cfg, s) && RenderIsBehind(cfg, s) && DeviceHolds(cfg, s)
    && AllBacked(cfg, initial, s) && HomeStays(initial, s) && Balanced(s.log)
  }

  lemma InvHolds(cfg: Config, initial: File, s: Sys)
    requires Reachable(cfg, initial, s)
    ensures Inv(cfg, initial, s)
  {
    var ss :| Execution(cfg, initial, ss) && ss[|ss| - 1] == s;
    InvAlong(cfg, initial, ss, |ss| - 1);
  }

  lemma {:induction false} InvAlong(cfg: Config, initial: File, ss: seq<Sys>, i: nat)
    requires Execution(cfg, initial, ss) && i < |ss|
    ensures Inv(cfg, initial, ss[i])
  {
    if i > 0 {
      InvAlong(cfg, initial, ss, i - 1);
      assert Step(cfg, ss[i - 1], ss[i - 1 + 1]);
      var m :| Next(cfg, ss[i - 1], m, ss[i]);
      InvOn(cfg, initial, ss[i - 1], m, ss[i]);
    }
  }

  lemma InvOn(cfg: Config, initial: File, s: Sys, m: Move, s': Sys)
    requires Inv(cfg, initial, s) && Next(cfg, s, m, s')
    ensures Inv(cfg, initial, s')
  {
    CoreOn(cfg, s, m, s');
    LogOn(cfg, s, m, s');
    RenderOn(cfg, s, m, s');
    DeviceOn(cfg, s, m, s');
    FileOn(s, m, s');
    BackedOn(cfg, initial, s, m, s');
  }

  // A move adds to what the file may show at most the state being saved.
  lemma FileOn(s: Sys, m: Move, s': Sys)
    requires Possible(s.world.file) && FileMove(s, m, s'.world.file)
    ensures Possible(s'.world.file) && (s.world.file.home.Anchored? ==> s'.world.file.home.Anchored?)
    ensures forall st | st in s'.world.file.recoverable ::
              st in s.world.file.recoverable || (Saving(s, m) && st == Pending(Current(s)).state)
  {
    var f, f' := s.world.file, s'.world.file;
    if Saving(s, m) {
      PossibleOn(f, Pending(Current(s)).state, f');
    } else if m.Crash? && m.power {
      PossibleOn(f, f.visible, f');
    }
  }

  predicate Saving(s: Sys, m: Move) {
    Holding(s) && Current(s).PSave? && (m.Answer? || CutInSave(s, m))
  }

  lemma CoreOn(cfg: Config, s: Sys, m: Move, s': Sys)
    requires Core(cfg, s) && Next(cfg, s, m, s')
    ensures Core(cfg, s')
  {
    FileOn(s, m, s');
    match m
    case Answer(tid, reply) =>
      CoreAnswer(cfg, s, m, s');
    case Acquire(tid) =>
      CoreAcquire(cfg, s, m, s');
    case Release(tid) =>
      CoreLeave(cfg, s, m, s');
    case Crash(cut, power) =>
      CoreLeave(cfg, s, m, s');
    case _ =>
      CoreRest(cfg, s, m, s');
  }

  lemma CoreAcquire(cfg: Config, s: Sys, m: Move, s': Sys)
    requires Core(cfg, s) && m.Acquire? && Next(cfg, s, m, s')
    ensures Core(cfg, s')
  {
    StartKnows(cfg, s.world, s.threads[m.tid].job);
  }

  lemma CoreLeave(cfg: Config, s: Sys, m: Move, s': Sys)
    requires Core(cfg, s) && (m.Release? || m.Crash?) && Next(cfg, s, m, s') && Possible(s'.world.file)
    ensures Core(cfg, s')
  {
  }

  lemma CoreRest(cfg: Config, s: Sys, m: Move, s': Sys)
    requires Core(cfg, s) && (m.Arrive? || m.Put? || m.Delete? || m.Reboot?) && Next(cfg, s, m, s')
    ensures Core(cfg, s')
  {
  }

  lemma CoreAnswer(cfg: Config, s: Sys, m: Move, s': Sys)
    requires Core(cfg, s) && m.Answer? && Next(cfg, s, m, s') && Possible(s'.world.file)
    ensures Core(cfg, s')
  {
    KnowsOn(cfg, s.world, Current(s), m.reply, s'.world);
    if DeviceKeeps(cfg) {
      KnowsDeviceOn(cfg, s.world, Current(s), m.reply, s'.world);
    }
    DesiredIsListed(cfg, s, m.reply, s');
  }

  lemma RenderOn(cfg: Config, s: Sys, m: Move, s': Sys)
    requires Core(cfg, s) && RenderIsBehind(cfg, s) && Next(cfg, s, m, s')
    ensures RenderIsBehind(cfg, s')
  {
    if m.Answer? {
      CountsCalls(Current(s), m.reply);
    }
  }

  lemma CountsCalls(stage: Stage, reply: Reply)
    requires !stage.Done? && Answers(Pending(stage), reply)
    ensures var back := CallsSinceRender(Resume(stage, reply));
      && (back > 1 ==> CallsSinceRender(stage) == back - 1 && Resume(stage, reply).desired == stage.desired)
      && (back == 1 ==> stage.PRender? && reply.RenderedTo? && Resume(stage, reply).desired == stage.desired)
  {
  }

  lemma DeviceOn(cfg: Config, s: Sys, m: Move, s': Sys)
    requires DeviceHolds(cfg, s) && Next(cfg, s, m, s')
    ensures DeviceHolds(cfg, s')
  {
    match m
    case Answer(tid, reply) =>
      Logged(s.log, Called(tid, Pending(Current(s)), reply));
    case Acquire(tid) =>
      Logged(s.log, Acquired(tid, s.threads[tid].job));
    case Release(tid) =>
      Logged(s.log, Released(tid, Current(s).err));
    case Crash(cut, power) =>
      DeviceCrash(cfg, s, m, s');
    case _ =>
  }

  lemma DeviceCrash(cfg: Config, s: Sys, m: Move, s': Sys)
    requires DeviceHolds(cfg, s) && m.Crash? && Next(cfg, s, m, s')
    ensures DeviceHolds(cfg, s')
  {
    if m.cut {
      var e := Cut(s.lock.value, Pending(Current(s)));
      Logged(s.log, e);
      Logged(s.log + [e], Crashed);
    } else {
      Logged(s.log, Crashed);
    }
  }

  lemma DesiredIsListed(cfg: Config, s: Sys, reply: Reply, s': Sys)
    requires Core(cfg, s) && Holding(s) && !Current(s).Done?
    requires Effect(cfg, s.world, Pending(Current(s)), reply, s'.world)
    ensures var stage := Resume(Current(s), reply);
      DesiredOf(stage).Some? ==> DesiredOf(stage).value in s.puts
  {
  }

  lemma LogOn(cfg: Config, s: Sys, m: Move, s': Sys)
    requires Core(cfg, s) && AppliedIsPending(cfg, s) && Balanced(s.log) && Next(cfg, s, m, s')
    ensures AppliedIsPending(cfg, s') && Balanced(s'.log)
  {
    match m
    case Answer(tid, reply) =>
      LogAnswer(cfg, s, m, s');
    case Acquire(tid) =>
      LogSwitch(cfg, s, m, s');
    case Release(tid) =>
      LogSwitch(cfg, s, m, s');
    case Crash(cut, power) =>
      LogCrash(cfg, s, m, s');
    case _ =>
  }

  lemma LogSwitch(cfg: Config, s: Sys, m: Move, s': Sys)
    requires Core(cfg, s) && AppliedIsPending(cfg, s) && Balanced(s.log)
    requires (m.Acquire? || m.Release?) && Next(cfg, s, m, s')
    ensures AppliedIsPending(cfg, s') && Balanced(s'.log)
  {
    LogEntry(cfg, s, if m.Acquire? then Acquired(m.tid, s.threads[m.tid].job) else Released(m.tid, Current(s).err));
  }

  lemma LogAnswer(cfg: Config, s: Sys, m: Move, s': Sys)
    requires Core(cfg, s) && AppliedIsPending(cfg, s) && Balanced(s.log)
    requires m.Answer? && Next(cfg, s, m, s')
    ensures AppliedIsPending(cfg, s') && Balanced(s'.log)
  {
    LogEntry(cfg, s, Called(m.tid, Pending(Current(s)), m.reply));
  }

  lemma LogCrash(cfg: Config, s: Sys, m: Move, s': Sys)
    requires Core(cfg, s) && AppliedIsPending(cfg, s) && Balanced(s.log)
    requires m.Crash? && Next(cfg, s, m, s')
    ensures AppliedIsPending(cfg, s') && Balanced(s'.log)
  {
    if m.cut {
      var e := Cut(s.lock.value, Pending(Current(s)));
      LogEntry(cfg, s, e);
      Logged(s.log + [e], Crashed);
      BalanceOn(s.log + [e], Crashed);
    } else {
      Logged(s.log, Crashed);
      BalanceOn(s.log, Crashed);
    }
  }

  lemma LogEntry(cfg: Config, s: Sys, e: Entry)
    requires Core(cfg, s) && AppliedIsPending(cfg, s) && Balanced(s.log) && !e.Crashed?
    requires e.Called? || e.Cut? ==> Holding(s) && !Current(s).Done? && e.call == Pending(Current(s))
    requires !e.Called? && !e.Cut? ==> !Holding(s) || Current(s).Done?
    ensures LastApply(s.log + [e]) == if IsApply(e) then Some(e) else LastApply(s.log)
    ensures Balanced(s.log + [e])
  {
    Logged(s.log, e);
    BalanceOn(s.log, e);
  }

  // A successful apply is followed by its save, or by a crash; a save follows a successful apply.
  lemma BalanceOn(log: seq<Entry>, e: Entry)
    requires Balanced(log)
    requires log != [] && IsApplied(log[|log| - 1]) ==> IsSave(e) || e.Crashed?
    requires IsSave(e) ==> log != [] && IsApplied(log[|log| - 1])
    ensures Balanced(log + [e])
  {
    Counted(Applies, log, e);
    Counted(ApplyErrors, log, e);
    Counted(ApplyCuts, log, e);
    Counted(Saves, log, e);
    Counted(Orphans, log, e);
  }

  // Whatever was backed stays backed, and what a Save adds is backed.
  lemma BackedOn(cfg: Config, initial: File, s: Sys, m: Move, s': Sys)
    requires Core(cfg, s) && AppliedIsPending(cfg, s) && RenderIsBehind(cfg, s) && AllBacked(cfg, initial, s)
    requires Next(cfg, s, m, s')
    ensures AllBacked(cfg, initial, s')
  {
    FileOn(s, m, s');
    StaysBacked(cfg, s, m, s');
    if Saving(s, m) {
      SaveIsBacked(cfg, s, m, s');
    }
  }

  lemma SaveIsBacked(cfg: Config, s: Sys, m: Move, s': Sys)
    requires Core(cfg, s) && AppliedIsPending(cfg, s) && RenderIsBehind(cfg, s) && Next(cfg, s, m, s') && Saving(s, m)
    ensures Backed(cfg, s', Pending(Current(s)).state)
  {
    assert s'.log[..|s.log|] == s.log;
    assert SavedAt(cfg, s', Pending(Current(s)).state, Current(s).desired, |s.log|);
  }

  lemma StaysBacked(cfg: Config, s: Sys, m: Move, s': Sys)
    requires Next(cfg, s, m, s')
    ensures forall st | Backed(cfg, s, st) :: Backed(cfg, s', st)
  {
    forall st | Backed(cfg, s, st)
      ensures Backed(cfg, s', st)
    {
      var desired, n :| SavedAt(cfg, s, st, desired, n);
      assert s'.log[n - 4] == s.log[n - 4] && s'.log[n - 1] == s.log[n - 1] && s'.log[n] == s.log[n];
      assert SavedAt(cfg, s', st, desired, n);
    }
  }

  /******* Whole-run theorems *******/

  // Every state the checkpoint file can ever show, now or after a power loss, is one it could show at first or was saved
  // right after a successful apply of what the renderer returned for a record from the KV store, by the same caller.
  lemma CheckpointProvenance(cfg: Config, initial: File, s: Sys, st: State)
    requires Reachable(cfg, initial, s)
    requires st == s.world.file.visible || st in s.world.file.recoverable
    ensures st in initial.recoverable || Backed(cfg, s, st)
  {
    InvHolds(cfg, initial, s);
  }

  // Every attempt to apply ended in an error, was cut short, was saved, was orphaned by a crash, or is about to be saved.
  lemma AppliesAreConserved(cfg: Config, initial: File, s: Sys)
    requires Reachable(cfg, initial, s)
    ensures Count(Applies, s.log) ==
            Count(ApplyErrors, s.log) + Count(ApplyCuts, s.log) + Count(Saves, s.log) + Count(Orphans, s.log)
            + if Holding(s) && Current(s).PSave? then 1 else 0
  {
    InvHolds(cfg, initial, s);
  }

  // The checkpoint never stutters: a move that renames a checkpoint in changes the UUID it names.
  lemma CheckpointNeverStutters(cfg: Config, initial: File, s: Sys, m: Move, s': Sys)
    requires Reachable(cfg, initial, s) && Next(cfg, s, m, s')
    requires Saving(s, m) && !(m.Crash? && m.power)
    ensures s'.world.file.visible == s.world.file.visible || s'.world.file.visible.uuid != s.world.file.visible.uuid
  {
    InvHolds(cfg, initial, s);
  }

  // Only a Save or a power loss ever changes what the checkpoint file shows.
  lemma OnlySavesMoveTheCheckpoint(cfg: Config, initial: File, s: Sys, m: Move, s': Sys)
    requires Reachable(cfg, initial, s) && Next(cfg, s, m, s')
    requires s'.world.file.visible != s.world.file.visible
    ensures || (m.Crash? && m.power)
            || (Saving(s, m) && s'.world.file.visible == State(Current(s).desired.target, Current(s).desired.uuid))
  {
    InvHolds(cfg, initial, s);
  }
}
