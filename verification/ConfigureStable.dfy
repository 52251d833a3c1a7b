/** How often the checkpoint still moves once the KV record stays the same. */
module ConfigureStable {
  import opened Text
  import opened Checkpoint
  import opened ConfigureProtocol
  import opened ConfigureFacts
  import opened ConfigureSystem
  import opened ConfigureRuns

  /******* Runs with a steady record *******/

  ghost predicate SteadyMove(cfg: Config, power: bool, desired: Record, s: Sys, m: Move, s': Sys) {
    Next(cfg, s, m, s') && (m.Crash? && m.power ==> power) && s'.world.kv == Some(desired)
  }

  ghost predicate Steadily(cfg: Config, power: bool, desired: Record, s: Sys, s': Sys) {
    exists m :: SteadyMove(cfg, power, desired, s, m, s')
  }

  // Any moves, crashes included, that do not change the record; power tells whether they may lose power.
  ghost predicate SteadyPath(cfg: Config, power: bool, desired: Record, ss: seq<Sys>) {
    && ss != [] && ss[0].world.kv == Some(desired)
    && forall i | 0 <= i < |ss| - 1 :: Steadily(cfg, power, desired, ss[i], ss[i + 1])
  }

  function Visible(s: Sys): State {
    s.world.file.visible
  }

  function Advances(ss: seq<Sys>): nat {
    if |ss| <= 1 then 0
    else Advances(ss[..|ss| - 1]) + if Visible(ss[|ss| - 1]) != Visible(ss[|ss| - 2]) then 1 else 0
  }

  ghost predicate AdvancesAtMostOnce(cfg: Config, power: bool, desired: Record, s: Sys) {
    forall ss :: SteadyPath(cfg, power, desired, ss) && ss[0] == s ==> Advances(ss) <= 1
  }

  predicate BeforeSave(stage: Stage, visible: State) {
    BeforeApply(stage) || stage.PSave? || (stage.HLoadState? && visible.uuid != stage.desired.uuid)
  }

  // It works on a record that has a rendering, so it may come to save it.
  predicate Willing(cfg: Config, stage: Stage, visible: State) {
    BeforeSave(stage, visible) && Renders(cfg, stage.desired)
  }

  // The lock holder is on its way to save a record of another UUID, which it loaded before, and the current record can
  // be saved as well.
  predicate Overtaken(cfg: Config, s: Sys, desired: Record) {
    && Renders(cfg, desired)
    && Holding(s) && Willing(cfg, Current(s), Visible(s)) && Current(s).desired.uuid != desired.uuid
  }

  // Once the record is steady and as long as the power stays on, the checkpoint moves at most once more if and only if no
  // run is under way that loaded another UUID before; and with such a run it can move twice.
  lemma AtMostOnceIffNotOvertaken(cfg: Config, initial: File, desired: Record, s: Sys)
    requires Reachable(cfg, initial, s) && s.world.kv == Some(desired)
    ensures AdvancesAtMostOnce(cfg, false, desired, s) <==> !Overtaken(cfg, s, desired)
  {
    if Overtaken(cfg, s, desired) {
      var ss := AdvanceTwice(cfg, initial, desired, s);
    } else {
      forall ss | SteadyPath(cfg, false, desired, ss) && ss[0] == s ensures Advances(ss) <= 1 {
        AdvancesBounded(cfg, initial, desired, ss);
      }
    }
  }

  // Nobody is on the way to a save, and every state that the file can show names the record, if it can be saved at all.
  ghost predicate AtRest(cfg: Config, s: Sys, desired: Record) {
    && (Holding(s) ==> !Willing(cfg, Current(s), Visible(s)))
    && (Renders(cfg, desired) ==> forall st | st in s.world.file.recoverable :: st.uuid == desired.uuid)
  }

  // Over runs that may lose power, which can take a save back, it moves at most once more if and only if the system is at
  // rest already.
  lemma AtMostOnceWithLossesIffAtRest(cfg: Config, initial: File, desired: Record, s: Sys)
    requires Reachable(cfg, initial, s) && s.world.kv == Some(desired)
    ensures AdvancesAtMostOnce(cfg, true, desired, s) <==> AtRest(cfg, s, desired)
  {
    if AtRest(cfg, s, desired) {
      forall ss | SteadyPath(cfg, true, desired, ss) && ss[0] == s ensures Advances(ss) <= 1 {
        RestBounded(cfg, initial, desired, ss);
      }
    } else {
      var ss := MoveBack(cfg, initial, desired, s);
    }
  }

  /******* At most once *******/

  // The last move of the checkpoint is made, with no caller left that could make another: the file names the current
  // record, or that record has no rendering.
  ghost predicate Settling(cfg: Config, desired: Record, s: Sys) {
    if Visible(s).uuid == desired.uuid then !Unlike(cfg, desired, s)
    else !Renders(cfg, desired) && (Holding(s) ==> !Willing(cfg, Current(s), Visible(s)))
  }

  // The lock holder may save another UUID than the current one.
  ghost predicate Unlike(cfg: Config, desired: Record, s: Sys) {
    Holding(s) && Willing(cfg, Current(s), Visible(s)) && Current(s).desired.uuid != desired.uuid
  }

  lemma {:induction false} AdvancesBounded(cfg: Config, initial: File, desired: Record, ss: seq<Sys>)
    requires SteadyPath(cfg, false, desired, ss) && Reachable(cfg, initial, ss[0]) && !Overtaken(cfg, ss[0], desired)
    ensures var last := ss[|ss| - 1];
      && Reachable(cfg, initial, last) && last.world.kv == Some(desired) && !Overtaken(cfg, last, desired)
      && (Advances(ss) == 0 || (Advances(ss) == 1 && Settling(cfg, desired, last)))
  {
    var n := |ss| - 1;
    if n > 0 {
      AdvancesBounded(cfg, initial, desired, ss[..n]);
      assert Steadily(cfg, false, desired, ss[n - 1], ss[n - 1 + 1]);
      var m :| SteadyMove(cfg, false, desired, ss[n - 1], m, ss[n]);
      Reach(cfg, initial, ss[n - 1], m, ss[n]);
      InvHolds(cfg, initial, ss[n - 1]);
      StaysAhead(cfg, desired, ss[n - 1], m, ss[n]);
    }
  }

  lemma StaysAhead(cfg: Config, desired: Record, s: Sys, m: Move, s': Sys)
    requires Core(cfg, s) && s.world.kv == Some(desired) && !Overtaken(cfg, s, desired)
    requires SteadyMove(cfg, false, desired, s, m, s')
    ensures !Overtaken(cfg, s', desired)
    ensures Visible(s') != Visible(s) || Settling(cfg, desired, s) ==> Settling(cfg, desired, s')
    ensures Settling(cfg, desired, s) ==> Visible(s') == Visible(s)
  {
    if m.Answer? {
      StageAhead(cfg, desired, s.world, Current(s), m.reply, s'.world);
    } else if m.Crash? {
      CutAhead(cfg, desired, s, m, s');
    }
  }

  // A call either moves the file, and its stage is then done with saving, or keeps it; and a stage that becomes willing
  // loaded the current record just now.
  lemma StageAhead(cfg: Config, desired: Record, w: World, stage: Stage, reply: Reply, w': World)
    requires !stage.Done? && Knows(cfg, w, stage) && w.kv == Some(desired) && Effect(cfg, w, Pending(stage), reply, w')
    ensures w'.file.visible != w.file.visible ==>
              && Willing(cfg, stage, w.file.visible) && w.file.visible.uuid != stage.desired.uuid
              && w'.file.visible.uuid == stage.desired.uuid && !Willing(cfg, Resume(stage, reply), w'.file.visible)
    ensures Willing(cfg, Resume(stage, reply), w'.file.visible) ==>
              && w'.file.visible.uuid != Resume(stage, reply).desired.uuid
              && (Resume(stage, reply).desired == desired
                  || (Willing(cfg, stage, w.file.visible) && Resume(stage, reply).desired == stage.desired))
  {
  }

  lemma CutAhead(cfg: Config, desired: Record, s: Sys, m: Move, s': Sys)
    requires Core(cfg, s) && m.Crash? && SteadyMove(cfg, false, desired, s, m, s')
    ensures Visible(s') != Visible(s) ==>
              && Holding(s) && Willing(cfg, Current(s), Visible(s))
              && Visible(s).uuid != Current(s).desired.uuid && Visible(s').uuid == Current(s).desired.uuid
  {
  }

  /******* At most once, with losses of power *******/

  // Whatever moved the file at rest left it nothing else to show.
  lemma {:induction false} RestBounded(cfg: Config, initial: File, desired: Record, ss: seq<Sys>)
    requires SteadyPath(cfg, true, desired, ss) && Reachable(cfg, initial, ss[0]) && AtRest(cfg, ss[0], desired)
    ensures var last := ss[|ss| - 1];
      && Reachable(cfg, initial, last) && last.world.kv == Some(desired) && AtRest(cfg, last, desired)
      && (Advances(ss) == 0 || (Advances(ss) == 1 && last.world.file.recoverable == {Visible(last)}))
  {
    var n := |ss| - 1;
    if n > 0 {
      RestBounded(cfg, initial, desired, ss[..n]);
      assert Steadily(cfg, true, desired, ss[n - 1], ss[n - 1 + 1]);
      RestStep(cfg, initial, desired, ss[n - 1], ss[n]);
    }
  }

  lemma RestStep(cfg: Config, initial: File, desired: Record, s: Sys, s': Sys)
    requires Reachable(cfg, initial, s) && s.world.kv == Some(desired) && AtRest(cfg, s, desired)
    requires Steadily(cfg, true, desired, s, s')
    ensures Reachable(cfg, initial, s') && s'.world.kv == Some(desired) && AtRest(cfg, s', desired)
    ensures Settles(s.world.file, s'.world.file)
  {
    var m :| SteadyMove(cfg, true, desired, s, m, s');
    Reach(cfg, initial, s, m, s');
    InvHolds(cfg, initial, s);
    StaysAtRest(cfg, desired, s, m, s');
  }

  // What the file may show stays the same or becomes what it shows, and it changes only while there is something else.
  ghost predicate Settles(f: File, f': File) {
    && (f'.recoverable == f.recoverable || f'.recoverable == {f'.visible})
    && (f'.visible != f.visible ==> f.recoverable != {f.visible} && f'.recoverable == {f'.visible})
  }

  lemma StaysAtRest(cfg: Config, desired: Record, s: Sys, m: Move, s': Sys)
    requires Core(cfg, s) && s.world.kv == Some(desired) && AtRest(cfg, s, desired)
    requires SteadyMove(cfg, true, desired, s, m, s')
    ensures AtRest(cfg, s', desired)
    ensures Settles(s.world.file, s'.world.file)
  {
    FileOn(s, m, s');
    if m.Answer? {
      StageAhead(cfg, desired, s.world, Current(s), m.reply, s'.world);
      RestingCall(cfg, desired, s.world, Current(s), m.reply, s'.world);
    }
  }

  // A stage that is not on its way to a save leaves the file alone.
  lemma RestingCall(cfg: Config, desired: Record, w: World, stage: Stage, reply: Reply, w': World)
    requires !stage.Done? && Knows(cfg, w, stage) && Effect(cfg, w, Pending(stage), reply, w')
    requires !Willing(cfg, stage, w.file.visible)
    ensures w'.file == w.file
  {
  }

  /******* Twice *******/

  lemma Go(cfg: Config, power: bool, desired: Record, ss: seq<Sys>, m: Move, s': Sys) returns (ss': seq<Sys>)
    requires SteadyPath(cfg, power, desired, ss) && SteadyMove(cfg, power, desired, ss[|ss| - 1], m, s')
    ensures SteadyPath(cfg, power, desired, ss') && ss'[0] == ss[0] && ss'[|ss'| - 1] == s'
    ensures Advances(ss') == Advances(ss) + if Visible(s') != Visible(ss[|ss| - 1]) then 1 else 0
  {
    ss' := ss + [s'];
    assert ss'[..|ss|] == ss;
    assert Steadily(cfg, power, desired, ss[|ss| - 1], s');
    forall i | 0 <= i < |ss'| - 1 ensures Steadily(cfg, power, desired, ss'[i], ss'[i + 1]) {
      assert i < |ss| - 1 ==> ss'[i + 1] == ss[i + 1];
    }
  }

  lemma GoTell(cfg: Config, power: bool, desired: Record, ss: seq<Sys>, reply: Reply, w: World) returns (ss': seq<Sys>)
    requires SteadyPath(cfg, power, desired, ss)
    requires var s := ss[|ss| - 1];
      Holding(s) && !Current(s).Done? && Effect(cfg, s.world, Pending(Current(s)), reply, w) && w.kv == Some(desired)
    ensures SteadyPath(cfg, power, desired, ss') && ss'[0] == ss[0]
    ensures var s, s' := ss[|ss| - 1], ss'[|ss'| - 1];
      && s'.world == w && Holding(s') && Current(s') == Resume(Current(s), reply)
      && Advances(ss') == Advances(ss) + if w.file.visible != Visible(s) then 1 else 0
  {
    var s := ss[|ss| - 1];
    var tid := s.lock.value;
    var s' := s.(world := w, threads := s.threads[tid := Running(s.threads[tid].job, Resume(Current(s), reply))],
                 log := s.log + [Called(tid, Pending(Current(s)), reply)]);
    assert Next(cfg, s, Answer(tid, reply), s');
    ss' := Go(cfg, power, desired, ss, Answer(tid, reply), s');
  }

  function Distance(stage: Stage): nat {
    match stage
    case HLoadState(_, _) => 6
    case PRendering(_, _) => 5
    case PRender(_, _) => 4
    case PRendered(_, _, _) => 3
    case PApplying(_, _, _) => 2
    case PApply(_, _, _) => 1
    case _ => 0
  }

  lemma Succeed(cfg: Config, w: World, stage: Stage) returns (reply: Reply, w': World)
    requires Willing(cfg, stage, w.file.visible) && !stage.PSave?
    ensures Effect(cfg, w, Pending(stage), reply, w') && w'.kv == w.kv && w'.file == w.file
    ensures var next := Resume(stage, reply);
      Willing(cfg, next, w.file.visible) && next.desired == stage.desired && Distance(next) < Distance(stage)
  {
    reply, w' := Ack, w;
    if stage.HLoadState? {
      reply := Local(w.file.visible);
    } else if stage.PRender? {
      reply := RenderedTo(cfg.render(stage.desired).value);
    } else if stage.PApply? {
      w' := w.(device := stage.output.text, boot := if cfg.saves then stage.output.text else w.boot);
    }
  }

  // Every call succeeds until the state is to be saved.
  lemma {:induction false} GoToSave(cfg: Config, power: bool, desired: Record, ss: seq<Sys>) returns (ss': seq<Sys>)
    requires SteadyPath(cfg, power, desired, ss) && ss[|ss| - 1].world.kv == Some(desired)
    requires Holding(ss[|ss| - 1]) && Willing(cfg, Current(ss[|ss| - 1]), Visible(ss[|ss| - 1]))
    ensures SteadyPath(cfg, power, desired, ss') && ss'[0] == ss[0] && Advances(ss') == Advances(ss)
    ensures var s, s' := ss[|ss| - 1], ss'[|ss'| - 1];
      && s'.world.kv == Some(desired) && s'.world.file == s.world.file && Holding(s')
      && Current(s').PSave? && Current(s').desired == Current(s).desired
    decreases Distance(Current(ss[|ss| - 1]))
  {
    var s := ss[|ss| - 1];
    var stage := Current(s);
    if stage.PSave? {
      ss' := ss;
    } else {
      var reply, w := Succeed(cfg, s.world, stage);
      ss' := GoTell(cfg, power, desired, ss, reply, w);
      ss' := GoToSave(cfg, power, desired, ss');
    }
  }

  lemma GoSave(cfg: Config, power: bool, desired: Record, ss: seq<Sys>) returns (ss': seq<Sys>)
    requires SteadyPath(cfg, power, desired, ss) && ss[|ss| - 1].world.kv == Some(desired)
    requires var s := ss[|ss| - 1];
      Holding(s) && Willing(cfg, Current(s), Visible(s)) && Visible(s).uuid != Current(s).desired.uuid
    ensures SteadyPath(cfg, power, desired, ss') && ss'[0] == ss[0] && Advances(ss') == Advances(ss) + 1
    ensures var s, s' := ss[|ss| - 1], ss'[|ss'| - 1];
      s'.world.kv == Some(desired) && Visible(s').uuid == Current(s).desired.uuid && Holding(s')
  {
    var there := GoToSave(cfg, power, desired, ss);
    var s := there[|there| - 1];
    var st := State(Current(s).msg.target, Current(s).desired.uuid);
    var f := s.world.file;
    ss' := GoTell(cfg, power, desired, there, Ack, s.world.(file := File(st, {st} + Spare(f.home), Made(f.home))));
  }

  // The process dies and the next one begins to reconcile.
  lemma GoRestart(cfg: Config, power: bool, desired: Record, ss: seq<Sys>) returns (ss': seq<Sys>)
    requires SteadyPath(cfg, power, desired, ss) && ss[|ss| - 1].world.kv == Some(desired)
    ensures SteadyPath(cfg, power, desired, ss') && ss'[0] == ss[0] && Advances(ss') == Advances(ss)
    ensures var s, s' := ss[|ss| - 1], ss'[|ss'| - 1];
      s'.world == s.world && Holding(s') && Current(s') == RLoadState(cfg.target)
  {
    var s := ss[|ss| - 1];
    var dead := s.(threads := map[], lock := None, log := s.log + [Crashed]);
    ss' := Go(cfg, power, desired, ss, Crash(false, false), dead);
    var job := ReconcileJob(cfg.target);
    var arrived := dead.(threads := dead.threads[0 := Waiting(job)]);
    ss' := Go(cfg, power, desired, ss', Arrive(0, job), arrived);
    var began := arrived.(threads := arrived.threads[0 := Running(job, Start(job))], lock := Some(0),
                          log := arrived.log + [Acquired(0, job)]);
    ss' := Go(cfg, power, desired, ss', Acquire(0), began);
  }

  lemma AdvanceTwice(cfg: Config, initial: File, desired: Record, s: Sys) returns (ss: seq<Sys>)
    requires Reachable(cfg, initial, s) && s.world.kv == Some(desired) && Overtaken(cfg, s, desired)
    ensures SteadyPath(cfg, false, desired, ss) && ss[0] == s && Advances(ss) == 2
  {
    InvHolds(cfg, initial, s);
    ss := GoSave(cfg, false, desired, [s]);
    ss := GoDrift(cfg, false, desired, ss);
    ss := GoSave(cfg, false, desired, ss);
  }

  /******* Back and forth, with losses of power *******/

  // The next save gets past its rename and fails.
  lemma GoLand(cfg: Config, power: bool, desired: Record, ss: seq<Sys>) returns (ss': seq<Sys>)
    requires SteadyPath(cfg, power, desired, ss) && ss[|ss| - 1].world.kv == Some(desired)
    requires var s := ss[|ss| - 1];
      && Holding(s) && Willing(cfg, Current(s), Visible(s)) && Visible(s).uuid != Current(s).desired.uuid
      && Visible(s) in s.world.file.recoverable
    ensures SteadyPath(cfg, power, desired, ss') && ss'[0] == ss[0] && Advances(ss') == Advances(ss) + 1
    ensures var s, s' := ss[|ss| - 1], ss'[|ss'| - 1];
      s'.world.kv == Some(desired) && Landing(s.world.file, Current(s).desired.uuid, s'.world.file)
  {
    var there := GoToSave(cfg, power, desired, ss);
    var s := there[|there| - 1];
    var f, st := s.world.file, State(Current(s).msg.target, Current(s).desired.uuid);
    ss' := GoTell(cfg, power, desired, there, Failed(Cause(0, false)),
                  s.world.(file := File(st, f.recoverable + {st}, Made(f.home))));
  }

  // The file shows this UUID, and may still go back to what it showed before.
  ghost predicate Landing(f: File, uuid: string, f': File) {
    f'.visible.uuid == uuid && !f'.home.Absent? && f.visible in f'.recoverable
  }

  // The power is lost, and the file shows one of the other states it may show.
  lemma GoLose(cfg: Config, desired: Record, ss: seq<Sys>, st: State) returns (ss': seq<Sys>)
    requires SteadyPath(cfg, true, desired, ss) && ss[|ss| - 1].world.kv == Some(desired)
    requires var s := ss[|ss| - 1];
      !s.world.file.home.Absent? && st in s.world.file.recoverable && st != Visible(s)
    ensures SteadyPath(cfg, true, desired, ss') && ss'[0] == ss[0] && Advances(ss') == Advances(ss) + 1
    ensures var s' := ss'[|ss'| - 1];
      s'.world.kv == Some(desired) && Visible(s') == st && s'.world.file == File(st, {st}, Anchored)
  {
    var s := ss[|ss| - 1];
    var dead := s.(world := s.world.(file := File(st, {st}, Anchored)), threads := map[], lock := None,
                   log := s.log + [Crashed]);
    ss' := Go(cfg, true, desired, ss, Crash(false, true), dead);
  }

  // A restarted agent reads a checkpoint that does not name the record.
  lemma GoDrift(cfg: Config, power: bool, desired: Record, ss: seq<Sys>) returns (ss': seq<Sys>)
    requires SteadyPath(cfg, power, desired, ss) && ss[|ss| - 1].world.kv == Some(desired)
    requires Renders(cfg, desired) && Visible(ss[|ss| - 1]).uuid != desired.uuid
    ensures SteadyPath(cfg, power, desired, ss') && ss'[0] == ss[0] && Advances(ss') == Advances(ss)
    ensures var s, s' := ss[|ss| - 1], ss'[|ss'| - 1];
      && s'.world == s.world && Holding(s') && Willing(cfg, Current(s'), Visible(s')) && Current(s').desired == desired
  {
    ss' := GoRestart(cfg, power, desired, ss);
    var w := ss'[|ss'| - 1].world;
    ss' := GoTell(cfg, power, desired, ss', Local(w.file.visible), w);
    ss' := GoTell(cfg, power, desired, ss', Desired(Some(desired)), w);
  }

  // Not at rest, the file can move there and back.
  lemma MoveBack(cfg: Config, initial: File, desired: Record, s: Sys) returns (ss: seq<Sys>)
    requires Reachable(cfg, initial, s) && s.world.kv == Some(desired) && !AtRest(cfg, s, desired)
    ensures SteadyPath(cfg, true, desired, ss) && ss[0] == s && Advances(ss) == 2
  {
    InvHolds(cfg, initial, s);
    if Holding(s) && Willing(cfg, Current(s), Visible(s)) {
      ss := LandAndLose(cfg, desired, [s]);
    } else if Visible(s).uuid != desired.uuid {
      ss := GoDrift(cfg, true, desired, [s]);
      ss := LandAndLose(cfg, desired, ss);
    } else {
      var st :| st in s.world.file.recoverable && st.uuid != desired.uuid;
      ss := GoLose(cfg, desired, [s], st);
      ss := GoDrift(cfg, true, desired, ss);
      ss := GoSave(cfg, true, desired, ss);
    }
  }

  lemma LandAndLose(cfg: Config, desired: Record, ss: seq<Sys>) returns (ss': seq<Sys>)
    requires SteadyPath(cfg, true, desired, ss) && ss[|ss| - 1].world.kv == Some(desired)
    requires var s := ss[|ss| - 1];
      && Holding(s) && Willing(cfg, Current(s), Visible(s)) && Visible(s).uuid != Current(s).desired.uuid
      && Visible(s) in s.world.file.recoverable
    ensures SteadyPath(cfg, true, desired, ss') && ss'[0] == ss[0] && Advances(ss') == Advances(ss) + 2
    ensures var s, s' := ss[|ss| - 1], ss'[|ss'| - 1];
      s'.world.kv == Some(desired) && s'.world.file == File(Visible(s), {Visible(s)}, Anchored)
  {
    ss' := GoLand(cfg, true, desired, ss);
    ss' := GoLose(cfg, desired, ss', Visible(ss[|ss| - 1]));
  }

  // With one record ever written, a durable directory and nobody else running, the file still moves three times: a save
  // that fails past its rename, a power loss that takes it back, and the save of the next Reconcile.
  lemma MovesThrice(cfg: Config, initial: File, desired: Record) returns (s: Sys, ss: seq<Sys>)
    requires Possible(initial) && initial.home.Anchored? && Renders(cfg, desired) && initial.visible.uuid != desired.uuid
    ensures Reachable(cfg, initial, s) && Idle(s) && s.puts == [desired] && s.world.kv == Some(desired)
    ensures !Overtaken(cfg, s, desired)
    ensures SteadyPath(cfg, true, desired, ss) && ss[0] == s && Advances(ss) == 3
  {
    s := Began(cfg, initial, "", "");
    s := PutUpTo(cfg, initial, s, [desired], 1);
    ss := GoDrift(cfg, true, desired, [s]);
    ss := LandAndLose(cfg, desired, ss);
    ss := GoDrift(cfg, true, desired, ss);
    ss := GoSave(cfg, true, desired, ss);
  }
}
