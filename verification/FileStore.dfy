/** The JSON-file state store as the source writes it: Save and Load over a file system that may fail at any call. */
module FileStore {
  import opened Text
  import opened Checkpoint
  import opened Disk
  import opened SaveProtocol

  // How one file system call goes: whether it fails, what a failed write leaves, and which temp file is picked.
  datatype Fate = Fate(fails: bool, torn: Bytes, tmp: Temp)

  // The context and the file system.
  class Volume {
    const fate: nat -> Fate
    var calls: nat
    var disk: Disk

    constructor (fate: nat -> Fate, disk: Disk)
      ensures this.disk == disk
    {
      this.fate, this.calls, this.disk := fate, 0, disk;
    }

    // Whether the next call fails, for the calls that touch nothing.
    method Check() returns (ok: bool)
      modifies this`calls
      ensures ok == !fate(old(calls)).fails && calls == old(calls) + 1
    {
      ok := !fate(calls).fails;
      calls := calls + 1;
    }

    method Perform(task: Task, op: Op) returns (answer: Answer)
      requires op.Write? || op.SyncFile? || op.Chmod? ==> op.tmp.node in disk.nodes
      modifies this
      ensures Effect(task, old(disk), op, answer, disk)
    {
      var f := fate(calls);
      calls := calls + 1;
      answer := if f.fails then Failed else Fine;
      match op {
        case MakeDir =>
          if !f.fails {
            disk := disk.(home := Made(disk.home));
          }
        case Encode(st) =>
          answer := if f.fails then Failed else Encoded(task.codec.encode(st));
        case CreateTemp =>
          var tmp := f.tmp;
          if f.fails || disk.home.Absent? || tmp.name == task.path || tmp.name in disk.dir || tmp.node in disk.nodes {
            answer := Failed;
          } else {
            answer := Created(tmp);
            disk := SetEntry(WithNode(disk, tmp.node, Node([], false, PRIVATE)), tmp.name, Some(tmp.node));
          }
        case Write(tmp, data) =>
          var node := disk.nodes[tmp.node];
          disk := WithNode(disk, tmp.node, Node(if f.fails then f.torn else node.data + data, false, node.mode));
        case SyncFile(tmp) =>
          if !f.fails {
            disk := WithNode(disk, tmp.node, disk.nodes[tmp.node].(flushed := true));
          }
        case Chmod(tmp) =>
          if !f.fails {
            disk := WithNode(disk, tmp.node, disk.nodes[tmp.node].(mode := PRIVATE));
          }
        case Remove(tmp) =>
          if !f.fails {
            disk := SetEntry(disk, tmp.name, None);
          }
        case Rename(tmp) =>
          if !f.fails {
            disk := SetEntry(SetEntry(disk, task.path, Some(tmp.node)), tmp.name, None);
          }
        case SyncDir =>
          if !f.fails {
            disk := disk.(stale := map[]);
          }
        case _ =>
      }
    }
  }

  lemma TempIsThere(task: Task, d: Disk, stage: Stage, answer: Answer, d': Disk)
    requires !stage.Returned? && Effect(task, d, Pending(task, stage), answer, d')
    requires TempOf(stage).Some? ==> TempOf(stage).value.node in d.nodes
    ensures var next := TempOf(Resume(task, stage, answer)); next.Some? ==> next.value.node in d'.nodes
  {
  }

  class FileStore {
    const path: string
    const codec: Codec
    const vol: Volume
    // The Save in progress, or the last one: its task, the disk it began with, its steps and its stage.
    var task: Task
    ghost var start: Disk
    ghost var trace: seq<Event>
    ghost var at: Stage

    constructor (path: string, codec: Codec, vol: Volume)
      ensures this.path == path && this.codec == codec && this.vol == vol
    {
      this.path, this.codec, this.vol := path, codec, vol;
      task := Task(path, EMPTY, codec);
    }

    ghost predicate Tracked()
      reads this, vol
    {
      && task.path == path && task.codec == codec
      && Conforms(task, start, trace) && After(task, start, trace) == at
      && vol.disk == DiskAfter(start, trace)
      && (TempOf(at).Some? ==> TempOf(at).value.node in vol.disk.nodes)
    }

    method Do(op: Op) returns (answer: Answer)
      requires Tracked() && !at.Returned? && op == Pending(task, at)
      modifies this`trace, this`at, vol
      ensures Tracked() && Answers(op, answer) && at == Resume(task, old(at), answer)
    {
      answer := vol.Perform(task, op);
      TempIsThere(task, DiskAfter(start, trace), at, answer, vol.disk);
      Extend(task, start, trace, Event(op, answer, vol.disk));
      trace, at := trace + [Event(op, answer, vol.disk)], Resume(task, at, answer);
    }

    // The steps of a Save are a run of the protocol that ended with this error.
    method Save(st: State) returns (err: Option<Fault>)
      modifies this, vol
      ensures task == Task(path, st, codec) && start == old(vol.disk)
      ensures Conforms(task, start, trace) && After(task, start, trace) == Returned(err)
      ensures vol.disk == DiskAfter(start, trace)
    {
      task, start, trace, at := Task(path, st, codec), vol.disk, [], Entering;
      var answer := Do(CheckContext);
      if answer.Failed? {
        return Some(ContextDone);
      }
      if Blank(path) {
        return Some(PathEmpty);
      }
      answer := Do(MakeDir);
      if answer.Failed? {
        return Some(MakeDirFailed);
      }
      err := WriteState(st);
    }

    // The rest of Save, once the directory is there.
    method WriteState(st: State) returns (err: Option<Fault>)
      requires Tracked() && at == Encoding && task.state == st
      modifies this`trace, this`at, vol
      ensures Tracked() && at == Returned(err)
    {
      var answer := Do(Encode(st));
      if answer.Failed? {
        return Some(EncodeFailed);
      }
      var payload := answer.data;
      answer := Do(CheckContext);
      if answer.Failed? {
        return Some(ContextDone);
      }
      answer := Do(CreateTemp);
      if answer.Failed? {
        return Some(CreateFailed);
      }
      err := WriteTemp(answer.tmp, payload);
    }

    // Write, sync and chmod of the temp file; each failure closes and removes it.
    method WriteTemp(tmp: Temp, payload: Bytes) returns (err: Option<Fault>)
      requires Tracked() && at == Writing(tmp, payload)
      modifies this`trace, this`at, vol
      ensures Tracked() && at == Returned(err)
    {
      var answer := Do(Write(tmp, payload));
      if answer.Failed? {
        err := Abandon(tmp, WriteFailed);
        return;
      }
      answer := Do(SyncFile(tmp));
      if answer.Failed? {
        err := Abandon(tmp, SyncFailed);
        return;
      }
      answer := Do(Chmod(tmp));
      if answer.Failed? {
        err := Abandon(tmp, ChmodFailed);
        return;
      }
      err := RenameTemp(tmp);
    }

    method RenameTemp(tmp: Temp) returns (err: Option<Fault>)
      requires Tracked() && at == Closing(tmp)
      modifies this`trace, this`at, vol
      ensures Tracked() && at == Returned(err)
    {
      var answer := Do(CloseFile(tmp));
      if answer.Failed? {
        err := Cleanup(tmp, CloseFailed);
        return;
      }
      answer := Do(CheckContext);
      if answer.Failed? {
        err := Cleanup(tmp, ContextDone);
        return;
      }
      answer := Do(Rename(tmp));
      if answer.Failed? {
        err := Cleanup(tmp, RenameFailed);
        return;
      }
      err := SyncDirectory();
    }

    method SyncDirectory() returns (err: Option<Fault>)
      requires Tracked() && at == OpeningDir
      modifies this`trace, this`at, vol
      ensures Tracked() && at == Returned(err)
    {
      var answer := Do(OpenDir);
      if answer.Failed? {
        return Some(OpenDirFailed);
      }
      answer := Do(SyncDir);
      err := if answer.Failed? then Some(SyncDirFailed) else None;
      var _ := Do(CloseDir);
    }

    method Abandon(tmp: Temp, fault: Fault) returns (err: Option<Fault>)
      requires Tracked() && at == Abandoning(tmp, fault)
      modifies this`trace, this`at, vol
      ensures Tracked() && at == Returned(err) && err == Some(fault)
    {
      var _ := Do(CloseFile(tmp));
      err := Cleanup(tmp, fault);
    }

    method Cleanup(tmp: Temp, fault: Fault) returns (err: Option<Fault>)
      requires Tracked() && at == Removing(tmp, fault)
      modifies this`trace, this`at, vol
      ensures Tracked() && at == Returned(err) && err == Some(fault)
    {
      var _ := Do(Remove(tmp));
      err := Some(fault);
    }

    // Load never touches the disk. It fails exactly on a context that is done before or after the read, on no path, on a
    // read that fails and on contents that do not decode; a missing file is read as the empty state.
    method Load() returns (st: Option<State>)
      modifies vol`calls
      ensures st.Some? ==> st == ReadEntry(codec, vol.disk, Entry(vol.disk, path))
      ensures st.Some? && Entry(vol.disk, path).None? ==> st.value == EMPTY
      ensures st.None? <==>
        || vol.fate(old(vol.calls)).fails || Blank(path) || vol.fate(old(vol.calls) + 1).fails
        || (Entry(vol.disk, path).Some? &&
              (vol.fate(old(vol.calls) + 2).fails || ReadEntry(codec, vol.disk, Entry(vol.disk, path)).None?))
    {
      var ok := vol.Check();
      if !ok || Blank(path) {
        return None;
      }
      ok := vol.Check();
      if !ok {
        return None;
      }
      var entry := Entry(vol.disk, path);
      if entry.None? {
        return Some(EMPTY);
      }
      ok := vol.Check();
      if !ok {
        return None;
      }
      return ReadEntry(codec, vol.disk, entry);
    }
  }

  // What a Save that returned nil wrote is what Load reads, and it is still that after every power loss exactly when
  // the directory was durable before the call: Save syncs the directory it made, but not the parent's entry for it.
  lemma SavedIsLoaded(task: Task, f: File, d: Disk, es: seq<Event>)
    requires Faithful(task.codec) && Sound(d) && Shows(task.codec, d, task.path, f)
    requires Conforms(task, d, es) && After(task, d, es) == Returned(None)
    ensures ReadEntry(task.codec, DiskAfter(d, es), Entry(DiskAfter(d, es), task.path)) == Some(task.state)
    ensures (forall lost | PowerLost(DiskAfter(d, es), lost) ::
               ReadEntry(task.codec, lost, Entry(lost, task.path)) == Some(task.state))
            <==> d.home.Anchored? || task.state == EMPTY
  {
    SaveRefines(task, f, d, es);
    var d' := DiskAfter(d, es);
    var f' := FileAt(After(task, d, es), task.state, f, d'.home);
    assert f' == File(task.state, {task.state} + Spare(d'.home), d'.home);
    if d.home.Anchored? || task.state == EMPTY {
      forall lost | PowerLost(d', lost) ensures ReadEntry(task.codec, lost, Entry(lost, task.path)) == Some(task.state) {
        PowerLostShows(task.codec, d', task.path, f', lost);
        assert StateOf(task.codec, lost, Entry(lost, task.path)) in f'.recoverable;
      }
    } else {
      var lost := DirectoryLost(d');
      assert ReadEntry(task.codec, lost, Entry(lost, task.path)) == Some(EMPTY);
    }
  }

  lemma DirectoryLost(d: Disk) returns (lost: Disk)
    requires !d.home.Anchored?
    ensures PowerLost(d, lost) && lost.dir == map[]
  {
    lost := Disk(map n | n in d.nodes :: d.nodes[n].(flushed := true), map[], map[], Absent);
  }
}
