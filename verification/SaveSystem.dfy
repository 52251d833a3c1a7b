/** Any number of Saves at once, on one path, with crashes and power losses at any step. */
module SaveSystem {
  import opened Text
  import opened Checkpoint
  import opened Disk
  import opened SaveProtocol

  datatype Writer = Writer(state: State, stage: Stage)

  // offered holds the state the file began with and every state given to a Save.
  datatype Store = Store(disk: Disk, writers: map<nat, Writer>, offered: set<State>)

  datatype Place = Place(path: string, codec: Codec)

  datatype Move =
    | Begin(tid: nat, state: State)
    | Advance(tid: nat, answer: Answer)
    | Leave(tid: nat)
    | Kill                // the process dies
    | Lose                // and the power with it

  function TaskOf(place: Place, writer: Writer): Task {
    Task(place.path, writer.state, place.codec)
  }

  ghost predicate Init(place: Place, s: Store) {
    && Sound(s.disk) && s.writers == map[]
    && Shows(place.codec, s.disk, place.path, File(StateOf(place.codec, s.disk, Entry(s.disk, place.path)), s.offered, s.disk.home))
  }

  ghost predicate Next(place: Place, s: Store, m: Move, s': Store) {
    match m
    case Begin(tid, st) =>
      tid !in s.writers && s' == s.(writers := s.writers[tid := Writer(st, Entering)], offered := s.offered + {st})
    case Advance(tid, answer) =>
      && tid in s.writers && !s.writers[tid].stage.Returned?
      && var writer := s.writers[tid];
      var task := TaskOf(place, writer);
      && Effect(task, s.disk, Pending(task, writer.stage), answer, s'.disk)
      && s' == s.(disk := s'.disk, writers := s.writers[tid := writer.(stage := Resume(task, writer.stage, answer))])
    case Leave(tid) =>
      tid in s.writers && s.writers[tid].stage.Returned? && s' == s.(writers := s.writers - {tid})
    case Kill => s' == s.(writers := map[])
    case Lose => PowerLost(s.disk, s'.disk) && s' == s.(disk := s'.disk, writers := map[])
  }

  ghost predicate Step(place: Place, s: Store, s': Store) {
    exists m :: Next(place, s, m, s')
  }

  ghost predicate Execution(place: Place, ss: seq<Store>) {
    && ss != [] && Init(place, ss[0])
    && forall i | 0 <= i < |ss| - 1 :: Step(place, ss[i], ss[i + 1])
  }

  // Whatever the checkpoint's name may point at is one complete state that was offered.
  ghost predicate AllWhole(place: Place, d: Disk, offered: set<State>) {
    forall entry | entry in MayHold(d, place.path) ::
      Whole(place.codec, d, entry) && StateOf(place.codec, d, entry) in offered
  }

  ghost predicate Apart(a: Stage, b: Stage) {
    TempOf(a).Some? && TempOf(b).Some? ==>
      TempOf(a).value.name != TempOf(b).value.name && TempOf(a).value.node != TempOf(b).value.node
  }

  ghost predicate Inv(place: Place, s: Store) {
    && Sound(s.disk) && AllWhole(place, s.disk, s.offered)
    && (forall tid | tid in s.writers ::
          TempReady(TaskOf(place, s.writers[tid]), s.disk, s.writers[tid].stage) && s.writers[tid].state in s.offered)
    && (forall t, u | t in s.writers && u in s.writers && t != u :: Apart(s.writers[t].stage, s.writers[u].stage))
  }

  lemma InvOn(place: Place, s: Store, m: Move, s': Store)
    requires Faithful(place.codec) && Inv(place, s) && Next(place, s, m, s')
    ensures Inv(place, s')
  {
    match m
    case Advance(tid, answer) =>
      AdvanceOn(place, s, m, s');
    case Lose =>
      LoseOn(place, s, s');
    case _ =>
  }

  lemma LoseOn(place: Place, s: Store, s': Store)
    requires Inv(place, s) && Next(place, s, Lose, s')
    ensures Inv(place, s')
  {
    var entry := Entry(s'.disk, place.path);
    assert MayHold(s'.disk, place.path) == {entry} && entry in MayHold(s.disk, place.path);
    assert Whole(place.codec, s.disk, entry);
    forall name, entry | entry in MayHold(s'.disk, name) && entry.Some?
      ensures entry.value in s'.disk.nodes
    {
      assert entry in MayHold(s.disk, name);
    }
  }

  lemma AdvanceOn(place: Place, s: Store, m: Move, s': Store)
    requires Faithful(place.codec) && Inv(place, s) && m.Advance? && Next(place, s, m, s')
    ensures Inv(place, s')
  {
    var writer := s.writers[m.tid];
    var task := TaskOf(place, writer);
    SoundOn(task, s.disk, writer.stage, m.answer, s'.disk);
    TempReadyOn(task, s.disk, writer.stage, m.answer, s'.disk);
    WholeOn(task, s.disk, writer.stage, m.answer, s'.disk, s.offered);
    forall u | u in s.writers && u != m.tid
      ensures TempReady(TaskOf(place, s.writers[u]), s'.disk, s.writers[u].stage)
      ensures Apart(Resume(task, writer.stage, m.answer), s.writers[u].stage)
    {
      OthersReady(task, s.disk, writer.stage, m.answer, s'.disk, TaskOf(place, s.writers[u]), s.writers[u].stage);
    }
  }

  // A writer does not disturb the temp file of another one.
  lemma OthersReady(task: Task, d: Disk, stage: Stage, answer: Answer, d': Disk, other: Task, its: Stage)
    requires !stage.Returned? && Effect(task, d, Pending(task, stage), answer, d')
    requires TempReady(task, d, stage) && TempReady(other, d, its) && Apart(stage, its)
    requires other.path == task.path && other.codec == task.codec
    ensures TempReady(other, d', its) && Apart(Resume(task, stage, answer), its)
  {
    if TempOf(its).Some? {
      LeavesAlone(task, d, stage, answer, d', TempOf(its).value);
    }
  }

  // A temp file that no name of the checkpoint may revert to.
  ghost predicate Secluded(path: string, d: Disk, tmp: Temp) {
    && tmp.name != path && Entry(d, tmp.name) == Some(tmp.node) && tmp.node in d.nodes
    && Some(tmp.node) !in MayHold(d, path)
  }

  ghost predicate Distinct(mine: Option<Temp>, tmp: Temp) {
    mine.Some? ==> mine.value.name != tmp.name && mine.value.node != tmp.node
  }

  lemma LeavesAlone(task: Task, d: Disk, stage: Stage, answer: Answer, d': Disk, tmp: Temp)
    requires !stage.Returned? && Effect(task, d, Pending(task, stage), answer, d') && TempReady(task, d, stage)
    requires Secluded(task.path, d, tmp) && Distinct(TempOf(stage), tmp)
    ensures Secluded(task.path, d', tmp) && d'.nodes[tmp.node] == d.nodes[tmp.node]
    ensures Distinct(TempOf(Resume(task, stage, answer)), tmp)
  {
    if stage.Creating? {
      CreateLeavesAlone(task, d, answer, d', tmp);
    } else if stage.Renaming? || stage.Removing? {
      MoveLeavesAlone(task, d, stage, answer, d', tmp);
    } else {
      Touches(task, d, stage, answer, d');
      TempStays(task, d, stage, answer, d');
    }
  }

  lemma CreateLeavesAlone(task: Task, d: Disk, answer: Answer, d': Disk, tmp: Temp)
    requires Effect(task, d, CreateTemp, answer, d') && Secluded(task.path, d, tmp)
    ensures Secluded(task.path, d', tmp) && d'.nodes[tmp.node] == d.nodes[tmp.node]
    ensures answer.Created? ==> Distinct(Some(answer.tmp), tmp)
  {
    if answer.Created? {
      var made := WithNode(d, answer.tmp.node, Node([], false, PRIVATE));
      assert MayHold(made, task.path) == MayHold(d, task.path) && Entry(made, tmp.name) == Entry(d, tmp.name);
    }
  }

  lemma MoveLeavesAlone(task: Task, d: Disk, stage: Stage, answer: Answer, d': Disk, tmp: Temp)
    requires stage.Renaming? || stage.Removing?
    requires Effect(task, d, Pending(task, stage), answer, d') && stage.tmp.name != task.path
    requires Secluded(task.path, d, tmp) && Distinct(Some(stage.tmp), tmp)
    ensures Secluded(task.path, d', tmp) && d'.nodes[tmp.node] == d.nodes[tmp.node]
    ensures Distinct(TempOf(Resume(task, stage, answer)), tmp)
  {
  }

  lemma WholeOn(task: Task, d: Disk, stage: Stage, answer: Answer, d': Disk, offered: set<State>)
    requires Faithful(task.codec) && !stage.Returned? && Effect(task, d, Pending(task, stage), answer, d')
    requires TempReady(task, d, stage) && task.state in offered
    requires AllWhole(Place(task.path, task.codec), d, offered)
    ensures AllWhole(Place(task.path, task.codec), d', offered)
  {
    Touches(task, d, stage, answer, d');
    if stage.Renaming? {
      TempIsWhole(task, d, stage);
      WholeRenamed(task, d, stage, answer, d', offered);
    } else {
      assert MayHold(d', task.path) <= MayHold(d, task.path);
      WholeKept(task, d, stage, d', offered);
    }
  }

  lemma WholeRenamed(task: Task, d: Disk, stage: Stage, answer: Answer, d': Disk, offered: set<State>)
    requires stage.Renaming? && stage.tmp.name != task.path && Effect(task, d, Rename(stage.tmp), answer, d')
    requires Whole(task.codec, d, Some(stage.tmp.node)) && StateOf(task.codec, d, Some(stage.tmp.node)) in offered
    requires AllWhole(Place(task.path, task.codec), d, offered)
    ensures AllWhole(Place(task.path, task.codec), d', offered)
  {
    assert MayHold(d', task.path) <= MayHold(d, task.path) + {Some(stage.tmp.node)};
    assert d'.nodes == d.nodes;
  }

  lemma WholeKept(task: Task, d: Disk, stage: Stage, d': Disk, offered: set<State>)
    requires AllWhole(Place(task.path, task.codec), d, offered) && MayHold(d', task.path) <= MayHold(d, task.path)
    requires TempReady(task, d, stage)
    requires forall n | n in d.nodes ::
               n in d'.nodes && ((TempOf(stage).Some? && TempOf(stage).value.node == n) || d'.nodes[n] == d.nodes[n])
    ensures AllWhole(Place(task.path, task.codec), d', offered)
  {
    forall entry | entry in MayHold(d', task.path)
      ensures Whole(task.codec, d', entry) && StateOf(task.codec, d', entry) in offered
    {
      assert entry in MayHold(d, task.path);
      assert Whole(task.codec, d, entry);
    }
  }

  lemma {:induction false} InvAlong(place: Place, ss: seq<Store>, i: nat)
    requires Faithful(place.codec) && Execution(place, ss) && i < |ss|
    ensures Inv(place, ss[i])
  {
    if i > 0 {
      InvAlong(place, ss, i - 1);
      assert Step(place, ss[i - 1], ss[i - 1 + 1]);
      var m :| Next(place, ss[i - 1], m, ss[i]);
      InvOn(place, ss[i - 1], m, ss[i]);
    }
  }

  // At every moment of every run, what Load reads, then and after a power loss, is the original checkpoint or one
  // writer's complete state; it always decodes.
  lemma AlwaysOneCompleteState(place: Place, ss: seq<Store>, i: nat, lost: Disk)
    requires Faithful(place.codec) && Execution(place, ss) && i < |ss| && PowerLost(ss[i].disk, lost)
    ensures var now := ReadEntry(place.codec, ss[i].disk, Entry(ss[i].disk, place.path));
      now.Some? && now.value in ss[i].offered
    ensures var later := ReadEntry(place.codec, lost, Entry(lost, place.path));
      later.Some? && later.value in ss[i].offered
  {
    InvAlong(place, ss, i);
    assert Entry(lost, place.path) in MayHold(ss[i].disk, place.path);
  }

  /******* What concurrent Saves leave in the directory *******/

  // A move other than a kill, a power loss and a failed removal of a temp file.
  ghost predicate TidyMove(s: Store, m: Move) {
    && !m.Kill? && !m.Lose?
    && (m.Advance? && m.tid in s.writers && s.writers[m.tid].stage.Removing? ==> !m.answer.Failed?)
  }

  ghost predicate TidyStep(place: Place, s: Store, s': Store) {
    exists m :: Next(place, s, m, s') && TidyMove(s, m)
  }

  ghost predicate TidyExecution(place: Place, ss: seq<Store>) {
    && Execution(place, ss)
    && forall i | 0 <= i < |ss| - 1 :: TidyStep(place, ss[i], ss[i + 1])
  }

  predicate Names(s: Store, tid: nat, name: string) {
    tid in s.writers && TempOf(s.writers[tid].stage).Some? && TempOf(s.writers[tid].stage).value.name == name
  }

  // A name is what it was at first, or the temp file of a Save that is going on, which was not there at first.
  ghost predicate NameTidy(d0: Disk, s: Store, name: string) {
    if exists tid :: Names(s, tid, name) then Entry(d0, name) == None else Entry(s.disk, name) == Entry(d0, name)
  }

  ghost predicate NamesTidy(place: Place, d0: Disk, s: Store) {
    forall name | name != place.path :: NameTidy(d0, s, name)
  }

  lemma NamesTidyOn(place: Place, d0: Disk, s: Store, m: Move, s': Store)
    requires Inv(place, s) && NamesTidy(place, d0, s) && Next(place, s, m, s') && TidyMove(s, m)
    ensures NamesTidy(place, d0, s')
  {
    forall name | name != place.path ensures NameTidy(d0, s', name) {
      assert NameTidy(d0, s, name);
      match m
      case Begin(tid, st) =>
        SameNames(s, s', name);
      case Leave(tid) =>
        SameNames(s, s', name);
      case Advance(tid, answer) =>
        AdvanceTidy(place, d0, s, m, s', name);
    }
  }

  lemma SameNames(s: Store, s': Store, name: string)
    requires forall tid :: Names(s, tid, name) <==> Names(s', tid, name)
    ensures (exists tid :: Names(s, tid, name)) <==> exists tid :: Names(s', tid, name)
  {
    if tid :| Names(s, tid, name) {
      assert Names(s', tid, name);
    }
    if tid :| Names(s', tid, name) {
      assert Names(s, tid, name);
    }
  }

  // What one writer's step does to a name: nothing, unless it is that writer's temp file.
  lemma StepNames(task: Task, d: Disk, stage: Stage, answer: Answer, d': Disk, name: string)
    requires !stage.Returned? && Effect(task, d, Pending(task, stage), answer, d') && name != task.path
    requires !(stage.Removing? && answer.Failed?)
    ensures var before, after := TempOf(stage), TempOf(Resume(task, stage, answer));
      var named, named' := before.Some? && before.value.name == name, after.Some? && after.value.name == name;
      && (named == named' ==> Entry(d', name) == Entry(d, name) || named)
      && (named && !named' ==> Entry(d', name) == None)
      && (!named && named' ==> Entry(d, name) == None)
  {
    if !stage.Creating? && !stage.Renaming? && !stage.Removing? {
      TempStays(task, d, stage, answer, d');
    }
  }

  lemma AdvanceTidy(place: Place, d0: Disk, s: Store, m: Move, s': Store, name: string)
    requires Inv(place, s) && name != place.path && NameTidy(d0, s, name)
    requires m.Advance? && Next(place, s, m, s') && TidyMove(s, m)
    ensures NameTidy(d0, s', name)
  {
    var writer := s.writers[m.tid];
    StepNames(TaskOf(place, writer), s.disk, writer.stage, m.answer, s'.disk, name);
    assert forall tid | tid != m.tid :: Names(s, tid, name) <==> Names(s', tid, name);
    if Names(s, m.tid, name) == Names(s', m.tid, name) {
      SameNames(s, s', name);
    } else if Names(s, m.tid, name) {
      assert forall tid | tid in s.writers && tid != m.tid :: Apart(writer.stage, s.writers[tid].stage);
      assert !exists tid :: Names(s', tid, name);
    } else {
      assert Names(s', m.tid, name);
      assert forall tid | Names(s, tid, name) :: Entry(s.disk, name).Some?;
    }
  }

  lemma NamesTidyAlong(place: Place, ss: seq<Store>, i: nat)
    requires Faithful(place.codec) && TidyExecution(place, ss) && i < |ss|
    ensures NamesTidy(place, ss[0].disk, ss[i])
  {
    forall k | 0 <= k < |ss|
      ensures Inv(place, ss[k])
    {
      InvAlong(place, ss, k);
    }
    NamesTidySpreads(place, ss[0].disk, ss, i);
  }

  lemma {:induction false} NamesTidySpreads(place: Place, d0: Disk, ss: seq<Store>, i: nat)
    requires i < |ss| && NamesTidy(place, d0, ss[0])
    requires forall k | 0 <= k < |ss| :: Inv(place, ss[k])
    requires forall k | 0 <= k < |ss| - 1 :: TidyStep(place, ss[k], ss[k + 1])
    ensures NamesTidy(place, d0, ss[i])
  {
    if i > 0 {
      TidyStepOn(place, d0, ss[i - 1], ss[i - 1 + 1]);
      NamesTidySpreads(place, d0, ss, i - 1);
    }
  }

  lemma TidyStepOn(place: Place, d0: Disk, s: Store, s': Store)
    ensures Inv(place, s) && TidyStep(place, s, s') && NamesTidy(place, d0, s) ==> NamesTidy(place, d0, s')
  {
    if Inv(place, s) && TidyStep(place, s, s') && NamesTidy(place, d0, s) {
      var m :| Next(place, s, m, s') && TidyMove(s, m);
      NamesTidyOn(place, d0, s, m, s');
    }
  }

  // Once all the Saves of a run have returned, without a kill, a power loss or a failed removal, every other name of the
  // directory is what it was at first.
  lemma ConcurrentSavesLeaveNoTemp(place: Place, ss: seq<Store>, i: nat, name: string)
    requires Faithful(place.codec) && TidyExecution(place, ss) && i < |ss| && name != place.path
    requires forall tid | tid in ss[i].writers :: ss[i].writers[tid].stage.Returned?
    ensures Entry(ss[i].disk, name) == Entry(ss[0].disk, name)
  {
    NamesTidyAlong(place, ss, i);
    assert NameTidy(ss[0].disk, ss[i], name);
  }
}
