/** The control flow of FileStore.Save, and what each of its steps does to the disk. */
module SaveProtocol {
  import opened Text
  import opened Checkpoint
  import opened Disk

  datatype Temp = Temp(name: string, node: nat)

  datatype Op =
    | CheckContext
    | MakeDir
    | Encode(state: State)
    | CreateTemp
    | Write(tmp: Temp, data: Bytes)
    | SyncFile(tmp: Temp)
    | Chmod(tmp: Temp)
    | CloseFile(tmp: Temp)
    | Remove(tmp: Temp)
    | Rename(tmp: Temp)
    | OpenDir
    | SyncDir
    | CloseDir

  datatype Answer = Fine | Encoded(data: Bytes) | Created(tmp: Temp) | Failed

  // Which step a returned error names.
  datatype Fault =
    | ContextDone | PathEmpty | MakeDirFailed | EncodeFailed | CreateFailed | WriteFailed | SyncFailed
    | ChmodFailed | CloseFailed | RenameFailed | OpenDirFailed | SyncDirFailed

  datatype Stage =
    | Entering
    | MakingDir
    | Encoding
    | Rechecking(data: Bytes)
    | Creating(data: Bytes)
    | Writing(tmp: Temp, data: Bytes)
    | Syncing(tmp: Temp)
    | Chmodding(tmp: Temp)
    | Closing(tmp: Temp)
    | LastCheck(tmp: Temp)
    | Renaming(tmp: Temp)
    | Abandoning(tmp: Temp, fault: Fault)  // close, ignoring its error
    | Removing(tmp: Temp, fault: Fault)    // remove, ignoring its error
    | OpeningDir
    | SyncingDir
    | ClosingDir(err: Option<Fault>)       // deferred, ignoring its error
    | Returned(err: Option<Fault>)

  // One Save: where the file is and what is saved.
  datatype Task = Task(path: string, state: State, codec: Codec)

  function Pending(task: Task, stage: Stage): Op
    requires !stage.Returned?
  {
    match stage
    case Entering => CheckContext
    case MakingDir => MakeDir
    case Encoding => Encode(task.state)
    case Rechecking(_) => CheckContext
    case Creating(_) => CreateTemp
    case Writing(tmp, data) => Write(tmp, data)
    case Syncing(tmp) => SyncFile(tmp)
    case Chmodding(tmp) => Chmod(tmp)
    case Closing(tmp) => CloseFile(tmp)
    case LastCheck(_) => CheckContext
    case Renaming(tmp) => Rename(tmp)
    case Abandoning(tmp, _) => CloseFile(tmp)
    case Removing(tmp, _) => Remove(tmp)
    case OpeningDir => OpenDir
    case SyncingDir => SyncDir
    case ClosingDir(_) => CloseDir
  }

  ghost predicate Answers(op: Op, answer: Answer) {
    answer.Failed? || match op
      case Encode(_) => answer.Encoded?
      case CreateTemp => answer.Created?
      case _ => answer.Fine?
  }

  function Resume(task: Task, stage: Stage, answer: Answer): Stage
    requires !stage.Returned? && Answers(Pending(task, stage), answer)
  {
    var failed := answer.Failed?;
    match stage
    case Entering =>
      if failed then Returned(Some(ContextDone))
      else if Blank(task.path) then Returned(Some(PathEmpty))
      else MakingDir
    case MakingDir => if failed then Returned(Some(MakeDirFailed)) else Encoding
    case Encoding => if failed then Returned(Some(EncodeFailed)) else Rechecking(answer.data)
    case Rechecking(data) => if failed then Returned(Some(ContextDone)) else Creating(data)
    case Creating(data) => if failed then Returned(Some(CreateFailed)) else Writing(answer.tmp, data)
    case Writing(tmp, _) => if failed then Abandoning(tmp, WriteFailed) else Syncing(tmp)
    case Syncing(tmp) => if failed then Abandoning(tmp, SyncFailed) else Chmodding(tmp)
    case Chmodding(tmp) => if failed then Abandoning(tmp, ChmodFailed) else Closing(tmp)
    case Closing(tmp) => if failed then Removing(tmp, CloseFailed) else LastCheck(tmp)
    case LastCheck(tmp) => if failed then Removing(tmp, ContextDone) else Renaming(tmp)
    case Renaming(tmp) => if failed then Removing(tmp, RenameFailed) else OpeningDir
    case Abandoning(tmp, fault) => Removing(tmp, fault)
    case Removing(_, fault) => Returned(Some(fault))
    case OpeningDir => if failed then Returned(Some(OpenDirFailed)) else SyncingDir
    case SyncingDir => ClosingDir(if failed then Some(SyncDirFailed) else None)
    case ClosingDir(err) => Returned(err)
  }

  // Owner read and write only, 0o600.
  const PRIVATE := 384

  function WithNode(d: Disk, n: nat, node: Node): Disk {
    d.(nodes := d.nodes[n := node])
  }

  // What a step may do. A failed write leaves any bytes; every other failed step changes nothing that is relied on.
  ghost predicate Effect(task: Task, d: Disk, op: Op, answer: Answer, d': Disk) {
    && Answers(op, answer)
    && match op
       case MakeDir => d' == if answer.Fine? then d.(home := Made(d.home)) else d
       case Encode(st) => d' == d && (answer.Encoded? ==> answer.data == task.codec.encode(st))
       case CreateTemp =>
         if answer.Failed? then d' == d
         else
           var tmp := answer.tmp;
           && !d.home.Absent? && tmp.name != task.path && tmp.name !in d.dir && tmp.node !in d.nodes
           && d' == SetEntry(WithNode(d, tmp.node, Node([], false, PRIVATE)), tmp.name, Some(tmp.node))
       case Write(tmp, data) =>
         && tmp.node in d.nodes && tmp.node in d'.nodes
         && d' == WithNode(d, tmp.node, d'.nodes[tmp.node]) && !d'.nodes[tmp.node].flushed
         && (answer.Fine? ==> d'.nodes[tmp.node].data == d.nodes[tmp.node].data + data)
       case SyncFile(tmp) =>
         && tmp.node in d.nodes
         && d' == if answer.Fine? then WithNode(d, tmp.node, d.nodes[tmp.node].(flushed := true)) else d
       case Chmod(tmp) =>
         && tmp.node in d.nodes
         && d' == if answer.Fine? then WithNode(d, tmp.node, d.nodes[tmp.node].(mode := PRIVATE)) else d
       case Remove(tmp) => d' == if answer.Fine? then SetEntry(d, tmp.name, None) else d
       case Rename(tmp) =>
         d' == if answer.Fine? then SetEntry(SetEntry(d, task.path, Some(tmp.node)), tmp.name, None) else d
       case SyncDir => d' == if answer.Fine? then d.(stale := map[]) else d
       case _ => d' == d
  }

  function TempOf(stage: Stage): Option<Temp> {
    match stage
    case Writing(tmp, _) => Some(tmp)
    case Syncing(tmp) => Some(tmp)
    case Chmodding(tmp) => Some(tmp)
    case Closing(tmp) => Some(tmp)
    case LastCheck(tmp) => Some(tmp)
    case Renaming(tmp) => Some(tmp)
    case Abandoning(tmp, _) => Some(tmp)
    case Removing(tmp, _) => Some(tmp)
    case _ => None
  }

  predicate PastRename(stage: Stage) {
    stage.OpeningDir? || stage.SyncingDir? || stage.ClosingDir?
    || stage == Returned(None) || stage == Returned(Some(OpenDirFailed)) || stage == Returned(Some(SyncDirFailed))
  }

  // The temp file of a Save, as far as it got. No name that the checkpoint may revert to points at it.
  ghost predicate TempReady(task: Task, d: Disk, stage: Stage) {
    && (stage.Abandoning? || stage.Removing? ==> !stage.fault.OpenDirFailed? && !stage.fault.SyncDirFailed?)
    && (stage.ClosingDir? ==> stage.err == None || stage.err == Some(SyncDirFailed))
    && (stage.Rechecking? || stage.Creating? || stage.Writing? ==> stage.data == task.codec.encode(task.state))
    && (TempOf(stage).Some? ==>
          var tmp := TempOf(stage).value;
          && tmp.name != task.path && Entry(d, tmp.name) == Some(tmp.node) && tmp.node in d.nodes
          && Some(tmp.node) !in MayHold(d, task.path)
          && (stage.Writing? ==> d.nodes[tmp.node].data == [])
          && (stage.Syncing? || stage.Chmodding? || stage.Closing? || stage.LastCheck? || stage.Renaming? ==>
                d.nodes[tmp.node].data == task.codec.encode(task.state))
          && (stage.Chmodding? || stage.Closing? || stage.LastCheck? || stage.Renaming? ==> d.nodes[tmp.node].flushed)
          && (stage.Closing? || stage.LastCheck? || stage.Renaming? ==> d.nodes[tmp.node].mode == PRIVATE))
  }

  // The file a Save has made so far, given the one it began with and what became of the directory.
  function FileAt(stage: Stage, st: State, f: File, home: Home): File {
    if !PastRename(stage) then f.(home := home)
    else if stage == ClosingDir(None) || stage == Returned(None) then File(st, {st} + Spare(home), home)
    else File(st, f.recoverable + {st}, home)
  }

  predicate PrivateAt(d: Disk, path: string) {
    var entry := Entry(d, path);
    entry.Some? && entry.value in d.nodes && d.nodes[entry.value].mode == PRIVATE
  }

  ghost predicate Saving(task: Task, f: File, d: Disk, stage: Stage) {
    && Sound(d)
    && Shows(task.codec, d, task.path, FileAt(stage, task.state, f, d.home))
    && TempReady(task, d, stage)
    && (PastRename(stage) ==> PrivateAt(d, task.path))
    && (d.home == f.home || d.home == Made(f.home))
  }

  /******* Every step keeps the file whole *******/

  lemma ShowsFrame(codec: Codec, d: Disk, path: string, f: File, d': Disk)
    requires Shows(codec, d, path, f)
    requires Entry(d', path) == Entry(d, path) && MayHold(d', path) == MayHold(d, path)
    requires forall n | n in d.nodes && Some(n) in MayHold(d, path) :: n in d'.nodes && d'.nodes[n] == d.nodes[n]
    ensures Shows(codec, d', path, f.(home := d'.home))
  {
    assert forall entry | entry in MayHold(d, path) ::
        Whole(codec, d', entry) && StateOf(codec, d', entry) == StateOf(codec, d, entry);
  }

  lemma SavingOn(task: Task, f: File, d: Disk, stage: Stage, answer: Answer, d': Disk)
    requires Faithful(task.codec) && !stage.Returned? && Saving(task, f, d, stage)
    requires Effect(task, d, Pending(task, stage), answer, d')
    ensures Saving(task, f, d', Resume(task, stage, answer))
  {
    SoundOn(task, d, stage, answer, d');
    TempReadyOn(task, d, stage, answer, d');
    ShowsOn(task, f, d, stage, answer, d');
    PrivateOn(task, d, stage, answer, d');
    Touches(task, d, stage, answer, d');
  }

  // Which names a step touches, and which nodes.
  lemma Touches(task: Task, d: Disk, stage: Stage, answer: Answer, d': Disk)
    requires !stage.Returned? && Effect(task, d, Pending(task, stage), answer, d')
    requires TempOf(stage).Some? ==> TempOf(stage).value.name != task.path
    ensures forall n | n in d.nodes ::
              n in d'.nodes && ((TempOf(stage).Some? && TempOf(stage).value.node == n) || d'.nodes[n] == d.nodes[n])
    ensures !stage.Renaming? && !stage.SyncingDir? ==>
              Entry(d', task.path) == Entry(d, task.path) && MayHold(d', task.path) == MayHold(d, task.path)
    ensures !stage.Renaming? && !stage.SyncingDir? && !stage.Creating? && !stage.Removing? ==>
              d'.dir == d.dir && d'.stale == d.stale
    ensures d'.home == if stage.MakingDir? && answer.Fine? then Made(d.home) else d.home
  {
    if stage.Creating? && answer.Created? {
      var made := WithNode(d, answer.tmp.node, Node([], false, PRIVATE));
      assert MayHold(made, task.path) == MayHold(d, task.path) && Entry(made, task.path) == Entry(d, task.path);
    }
  }

  lemma SoundOn(task: Task, d: Disk, stage: Stage, answer: Answer, d': Disk)
    requires !stage.Returned? && Effect(task, d, Pending(task, stage), answer, d')
    requires Sound(d) && TempReady(task, d, stage)
    ensures Sound(d')
  {
    forall name, entry | entry in MayHold(d', name) && entry.Some?
      ensures entry.value in d'.nodes
    {
      assert entry in MayHold(d, name) ==> entry.value in d.nodes;
    }
    if TempOf(stage).Some? {
      assert Entry(d, TempOf(stage).value.name).Some?;
    }
  }

  lemma TempReadyOn(task: Task, d: Disk, stage: Stage, answer: Answer, d': Disk)
    requires !stage.Returned? && Effect(task, d, Pending(task, stage), answer, d')
    requires Sound(d) && TempReady(task, d, stage)
    ensures TempReady(task, d', Resume(task, stage, answer))
  {
    if stage.Creating? {
      CreateMakesTemp(task, d, stage, answer, d');
    } else if stage.Writing? {
      WriteFillsTemp(task, d, stage, answer, d');
    } else if TempOf(stage).Some? {
      TempStaysReady(task, d, stage, answer, d');
    }
  }

  lemma CreateMakesTemp(task: Task, d: Disk, stage: Stage, answer: Answer, d': Disk)
    requires stage.Creating? && Effect(task, d, Pending(task, stage), answer, d')
    requires Sound(d) && TempReady(task, d, stage)
    ensures TempReady(task, d', Resume(task, stage, answer))
  {
    Touches(task, d, stage, answer, d');
  }

  lemma TempStaysReady(task: Task, d: Disk, stage: Stage, answer: Answer, d': Disk)
    requires TempOf(stage).Some? && !stage.Writing?
    requires Effect(task, d, Pending(task, stage), answer, d') && TempReady(task, d, stage)
    ensures TempReady(task, d', Resume(task, stage, answer))
  {
  }

  lemma WriteFillsTemp(task: Task, d: Disk, stage: Stage, answer: Answer, d': Disk)
    requires stage.Writing? && Effect(task, d, Pending(task, stage), answer, d') && TempReady(task, d, stage)
    ensures TempReady(task, d', Resume(task, stage, answer))
  {
    assert d.nodes[stage.tmp.node].data + stage.data == stage.data;
  }

  lemma PrivateOn(task: Task, d: Disk, stage: Stage, answer: Answer, d': Disk)
    requires !stage.Returned? && Effect(task, d, Pending(task, stage), answer, d')
    requires Sound(d) && TempReady(task, d, stage)
    requires PastRename(stage) ==> PrivateAt(d, task.path)
    ensures PastRename(Resume(task, stage, answer)) ==> PrivateAt(d', task.path)
  {
    if PastRename(stage) {
      assert Entry(d', task.path) == Entry(d, task.path) && d'.nodes == d.nodes;
    } else if stage.Renaming? {
      assert answer.Fine? ==> Entry(d', task.path) == Some(stage.tmp.node) && d'.nodes == d.nodes;
    } else {
      NotPastRename(task, d, stage, answer);
    }
  }

  // Only the rename leads past itself.
  lemma NotPastRename(task: Task, d: Disk, stage: Stage, answer: Answer)
    requires !stage.Returned? && Answers(Pending(task, stage), answer) && TempReady(task, d, stage)
    requires !PastRename(stage) && !stage.Renaming?
    ensures !PastRename(Resume(task, stage, answer))
  {
  }

  lemma ShowsOn(task: Task, f: File, d: Disk, stage: Stage, answer: Answer, d': Disk)
    requires Faithful(task.codec) && !stage.Returned? && TempReady(task, d, stage)
    requires Shows(task.codec, d, task.path, FileAt(stage, task.state, f, d.home))
    requires Effect(task, d, Pending(task, stage), answer, d')
    ensures Shows(task.codec, d', task.path, FileAt(Resume(task, stage, answer), task.state, f, d'.home))
  {
    if stage.Renaming? {
      RenamingShows(task, f, d, stage, answer, d');
    } else if stage.SyncingDir? {
      if answer.Fine? {
        SyncDirShows(task.codec, d, task.path, FileAt(stage, task.state, f, d.home), d');
      }
    } else {
      OtherShows(task, FileAt(stage, task.state, f, d.home), d, stage, answer, d');
      FileStays(task, f, d, stage, answer, d'.home);
    }
  }

  // Only the rename and the directory sync change the file that is shown.
  lemma FileStays(task: Task, f: File, d: Disk, stage: Stage, answer: Answer, home: Home)
    requires !stage.Returned? && !stage.Renaming? && !stage.SyncingDir? && TempReady(task, d, stage)
    requires Answers(Pending(task, stage), answer)
    requires PastRename(stage) ==> home == d.home
    ensures FileAt(Resume(task, stage, answer), task.state, f, home) == FileAt(stage, task.state, f, d.home).(home := home)
  {
  }

  lemma RenamingShows(task: Task, f: File, d: Disk, stage: Stage, answer: Answer, d': Disk)
    requires Faithful(task.codec) && stage.Renaming? && TempReady(task, d, stage)
    requires Shows(task.codec, d, task.path, f.(home := d.home))
    requires Effect(task, d, Pending(task, stage), answer, d')
    ensures Shows(task.codec, d', task.path, FileAt(Resume(task, stage, answer), task.state, f, d'.home))
  {
    if answer.Fine? {
      TempIsWhole(task, d, stage);
      RenameShows(task.codec, d, task.path, f.(home := d.home), stage.tmp, task.state, d');
    }
  }

  lemma TempIsWhole(task: Task, d: Disk, stage: Stage)
    requires Faithful(task.codec) && stage.Renaming? && TempReady(task, d, stage)
    ensures Whole(task.codec, d, Some(stage.tmp.node)) && StateOf(task.codec, d, Some(stage.tmp.node)) == task.state
  {
  }

  lemma OtherShows(task: Task, f: File, d: Disk, stage: Stage, answer: Answer, d': Disk)
    requires !stage.Returned? && !stage.Renaming? && !stage.SyncingDir? && TempReady(task, d, stage)
    requires Shows(task.codec, d, task.path, f)
    requires Effect(task, d, Pending(task, stage), answer, d')
    ensures Shows(task.codec, d', task.path, f.(home := d'.home))
  {
    Touches(task, d, stage, answer, d');
    ShowsFrame(task.codec, d, task.path, f, d');
  }

  lemma RenameShows(codec: Codec, d: Disk, path: string, f: File, tmp: Temp, st: State, d': Disk)
    requires Shows(codec, d, path, f) && tmp.name != path
    requires Whole(codec, d, Some(tmp.node)) && StateOf(codec, d, Some(tmp.node)) == st
    requires d' == SetEntry(SetEntry(d, path, Some(tmp.node)), tmp.name, None)
    ensures Shows(codec, d', path, File(st, f.recoverable + {st}, d.home))
  {
    var earlier, renamed := MayHold(d, path), Some(tmp.node);
    assert MayHold(d', path) == earlier + {renamed};
    assert forall entry :: StateOf(codec, d', entry) == StateOf(codec, d, entry);
    assert (set entry | entry in earlier + {renamed} :: StateOf(codec, d', entry))
        == (set entry | entry in earlier :: StateOf(codec, d, entry)) + {StateOf(codec, d, renamed)};
  }

  lemma SyncDirShows(codec: Codec, d: Disk, path: string, f: File, d': Disk)
    requires Shows(codec, d, path, f) && d' == d.(stale := map[])
    ensures Shows(codec, d', path, File(f.visible, {f.visible} + Spare(d.home), d.home))
  {
    assert MayHold(d', path) == {Entry(d, path)} + if d.home.Anchored? then {} else {None};
    assert StateOf(codec, d, None) == EMPTY && StateOf(codec, d', None) == EMPTY;
    assert forall entry :: StateOf(codec, d', entry) == StateOf(codec, d, entry);
    assert (set entry | entry in MayHold(d', path) :: StateOf(codec, d', entry)) == {f.visible} + Spare(d.home);
  }

  /******* Runs of Save *******/

  datatype Event = Event(op: Op, answer: Answer, after: Disk)

  function DiskAfter(d: Disk, es: seq<Event>): Disk {
    if es == [] then d else es[|es| - 1].after
  }

  // What a Save may do from a disk, step by step, with no other Save going on.
  ghost predicate Conforms(task: Task, d: Disk, es: seq<Event>)
    decreases |es|, 0
  {
    es == [] ||
    var n := |es| - 1;
    && Conforms(task, d, es[..n])
    && var stage := After(task, d, es[..n]);
    && !stage.Returned?
    && es[n].op == Pending(task, stage)
    && Effect(task, DiskAfter(d, es[..n]), es[n].op, es[n].answer, es[n].after)
  }

  ghost function After(task: Task, d: Disk, es: seq<Event>): Stage
    requires Conforms(task, d, es)
    decreases |es|, 1
  {
    if es == [] then Entering else Resume(task, After(task, d, es[..|es| - 1]), es[|es| - 1].answer)
  }

  lemma Extend(task: Task, d: Disk, es: seq<Event>, e: Event)
    requires Conforms(task, d, es) && !After(task, d, es).Returned?
    requires e.op == Pending(task, After(task, d, es)) && Effect(task, DiskAfter(d, es), e.op, e.answer, e.after)
    ensures Conforms(task, d, es + [e])
    ensures After(task, d, es + [e]) == Resume(task, After(task, d, es), e.answer)
    ensures DiskAfter(d, es + [e]) == e.after
  {
    assert (es + [e])[..|es|] == es;
  }

  lemma {:induction false} SavingAlong(task: Task, f: File, d: Disk, es: seq<Event>)
    requires Faithful(task.codec) && Sound(d) && Shows(task.codec, d, task.path, f)
    requires Conforms(task, d, es)
    ensures Saving(task, f, DiskAfter(d, es), After(task, d, es))
  {
    if es != [] {
      var n := |es| - 1;
      SavingAlong(task, f, d, es[..n]);
      SavingOn(task, f, DiskAfter(d, es[..n]), After(task, d, es[..n]), es[n].answer, es[n].after);
    }
  }

  // A returned Save did to the file what the configure service relies on: nil means that the new state is as durable
  // as the directory, an error before or at the rename means that the file is what it was, and a later error means
  // that the new state is visible but may still be lost.
  lemma SaveRefines(task: Task, f: File, d: Disk, es: seq<Event>)
    requires Faithful(task.codec) && Sound(d) && Shows(task.codec, d, task.path, f)
    requires Conforms(task, d, es) && After(task, d, es).Returned?
    ensures var err := After(task, d, es).err;
      var f' := FileAt(After(task, d, es), task.state, f, DiskAfter(d, es).home);
      && Sound(DiskAfter(d, es)) && Shows(task.codec, DiskAfter(d, es), task.path, f')
      && SaveEffect(f, task.state, err.None?, f')
      && (err.None? ==> PrivateAt(DiskAfter(d, es), task.path))
      && (err.Some? && !err.value.OpenDirFailed? && !err.value.SyncDirFailed? ==> f' == f || Housed(f, f'))
      && (err.Some? && (err.value.OpenDirFailed? || err.value.SyncDirFailed?) ==> Landed(f, task.state, f'))
  {
    SavingAlong(task, f, d, es);
    var d' := DiskAfter(d, es);
    if PastRename(After(task, d, es)) {
      assert Entry(d', task.path).Some? && !d'.home.Absent?;
    }
  }

  // A crash between any two steps of a Save: what the process leaves behind ...
  lemma StoppedSaveRefines(task: Task, f: File, d: Disk, es: seq<Event>)
    requires Faithful(task.codec) && Sound(d) && Shows(task.codec, d, task.path, f) && Conforms(task, d, es)
    ensures var left := FileAt(After(task, d, es), task.state, f, DiskAfter(d, es).home);
      Sound(DiskAfter(d, es)) && Shows(task.codec, DiskAfter(d, es), task.path, left) && SaveCut(f, task.state, left)
  {
    SavingAlong(task, f, d, es);
    if PastRename(After(task, d, es)) {
      assert Entry(DiskAfter(d, es), task.path).Some?;
    }
  }

  // ... and what a power loss leaves of that.
  lemma CrashedSaveRefines(task: Task, f: File, d: Disk, es: seq<Event>, lost: Disk)
    requires Faithful(task.codec) && Sound(d) && Shows(task.codec, d, task.path, f)
    requires Conforms(task, d, es) && PowerLost(DiskAfter(d, es), lost)
    ensures var found := File(StateOf(task.codec, lost, Entry(lost, task.path)),
                              {StateOf(task.codec, lost, Entry(lost, task.path))}, lost.home);
      Sound(lost) && Shows(task.codec, lost, task.path, found) && LostInSave(f, task.state, found)
  {
    StoppedSaveRefines(task, f, d, es);
    ShownIsPossible(task.codec, d, task.path, f);
    PowerLostShows(task.codec, DiskAfter(d, es), task.path, FileAt(After(task, d, es), task.state, f, DiskAfter(d, es).home), lost);
    LostInSaveIsCutThenLost(f, task.state, File(StateOf(task.codec, lost, Entry(lost, task.path)),
                                                {StateOf(task.codec, lost, Entry(lost, task.path))}, lost.home));
  }

  /******* What a Save leaves in the directory *******/

  ghost predicate RemoveFailed(es: seq<Event>) {
    exists i :: 0 <= i < |es| && es[i].op.Remove? && es[i].answer.Failed?
  }

  ghost predicate OthersUntouched(task: Task, d0: Disk, d: Disk) {
    forall name | name != task.path :: Entry(d, name) == Entry(d0, name)
  }

  // Away from the checkpoint, the only new entry is the temp file.
  ghost predicate Tidy(task: Task, d0: Disk, d: Disk, stage: Stage) {
    if TempOf(stage).Some? then
      var tmp := TempOf(stage).value;
      && tmp.name != task.path && Entry(d0, tmp.name) == None && Entry(d, tmp.name).Some?
      && forall name | name != task.path && name != tmp.name :: Entry(d, name) == Entry(d0, name)
    else
      OthersUntouched(task, d0, d)
  }

  lemma TidyOn(task: Task, d0: Disk, d: Disk, stage: Stage, answer: Answer, d': Disk)
    requires !stage.Returned? && Effect(task, d, Pending(task, stage), answer, d')
    requires Tidy(task, d0, d, stage) && !(stage.Removing? && answer.Failed?)
    ensures Tidy(task, d0, d', Resume(task, stage, answer))
  {
    if stage.Creating? {
      TidyCreated(task, d0, d, stage, answer, d');
    } else if stage.Renaming? || stage.Removing? {
      TidyMoved(task, d0, d, stage, answer, d');
    } else {
      TempStays(task, d, stage, answer, d');
      assert forall name :: Entry(d', name) == Entry(d, name);
    }
  }

  lemma TidyCreated(task: Task, d0: Disk, d: Disk, stage: Stage, answer: Answer, d': Disk)
    requires stage.Creating? && Effect(task, d, CreateTemp, answer, d') && OthersUntouched(task, d0, d)
    ensures Tidy(task, d0, d', Resume(task, stage, answer))
  {
  }

  lemma TidyMoved(task: Task, d0: Disk, d: Disk, stage: Stage, answer: Answer, d': Disk)
    requires (stage.Renaming? || stage.Removing?) && Effect(task, d, Pending(task, stage), answer, d')
    requires Tidy(task, d0, d, stage) && !(stage.Removing? && answer.Failed?)
    ensures Tidy(task, d0, d', Resume(task, stage, answer))
  {
    if answer.Fine? {
      assert forall name | name != task.path :: Entry(d', name) == if name == stage.tmp.name then None else Entry(d, name);
    } else {
      assert d' == d;
    }
  }

  // Between creating the temp file and renaming or removing it, a step keeps to it and to the directory.
  lemma TempStays(task: Task, d: Disk, stage: Stage, answer: Answer, d': Disk)
    requires !stage.Returned? && Effect(task, d, Pending(task, stage), answer, d')
    requires !stage.Creating? && !stage.Renaming? && !stage.Removing?
    ensures TempOf(Resume(task, stage, answer)) == TempOf(stage)
    ensures d'.dir == d.dir && (stage.SyncingDir? || d'.stale == d.stale)
  {
  }

  lemma RemoveFailedGrows(es: seq<Event>, n: nat)
    requires n <= |es|
    ensures RemoveFailed(es[..n]) ==> RemoveFailed(es)
  {
  }

  lemma {:induction false} TidyAlong(task: Task, d: Disk, es: seq<Event>)
    requires Conforms(task, d, es) && !RemoveFailed(es)
    ensures Tidy(task, d, DiskAfter(d, es), After(task, d, es))
  {
    if es != [] {
      var n := |es| - 1;
      RemoveFailedGrows(es, n);
      TidyAlong(task, d, es[..n]);
      TidyOn(task, d, DiskAfter(d, es[..n]), After(task, d, es[..n]), es[n].answer, es[n].after);
    }
  }

  // Every returning path leaves the other names of the directory as they were, so no temp file, exactly when the
  // clean-up, if there was one, removed it.
  lemma NoTempLeft(task: Task, d: Disk, es: seq<Event>)
    requires Conforms(task, d, es) && After(task, d, es).Returned?
    ensures OthersUntouched(task, d, DiskAfter(d, es)) <==> !RemoveFailed(es)
  {
    if RemoveFailed(es) {
      var i :| 0 <= i < |es| && es[i].op.Remove? && es[i].answer.Failed?;
      RemoveIsLast(task, d, es, i);
      TempLeft(task, d, es);
    } else {
      TidyAlong(task, d, es);
    }
  }

  lemma {:induction false} RemoveIsLast(task: Task, d: Disk, es: seq<Event>, i: nat)
    requires Conforms(task, d, es) && i < |es| && es[i].op.Remove?
    ensures i == |es| - 1
  {
    var n := |es| - 1;
    if i < n {
      RemoveIsLast(task, d, es[..n], i);
    }
  }

  lemma TempLeft(task: Task, d: Disk, es: seq<Event>)
    requires Conforms(task, d, es) && es != [] && es[|es| - 1].op.Remove? && es[|es| - 1].answer.Failed?
    ensures !OthersUntouched(task, d, DiskAfter(d, es))
  {
    var n := |es| - 1;
    assert !RemoveFailed(es[..n]) by {
      if RemoveFailed(es[..n]) {
        var i :| 0 <= i < n && es[..n][i].op.Remove? && es[..n][i].answer.Failed?;
        RemoveIsLast(task, d, es, i);
      }
    }
    TidyAlong(task, d, es[..n]);
    var tmp := TempOf(After(task, d, es[..n])).value;
    assert Entry(DiskAfter(d, es), tmp.name) != Entry(d, tmp.name);
  }
}
