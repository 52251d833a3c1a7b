/** What a Handle that returned nil is worth: the checkpoint names the UUID then, and maybe not after a power loss. */
module ConfigureDurability {
  import opened Text
  import opened Checkpoint
  import opened ConfigureProtocol
  import opened ConfigureFacts
  import opened ConfigureErrors
  import opened ConfigureSystem
  import opened ConfigureSerial
  import opened ConfigureRuns
  import opened ConfigureFailures

  // The lock holder is a Handle for this notification that is about to return nil.
  ghost predicate ReturnsNil(s: Sys, msg: Msg) {
    && Holding(s) && s.threads[s.lock.value].job == HandleJob(msg)
    && Current(s).Done? && Current(s).err.None?
  }

  // In every run of the system: it works on a record of the notified UUID, and the checkpoint names it.
  lemma NilNamesTheUuid(cfg: Config, initial: File, s: Sys, msg: Msg)
    requires Reachable(cfg, initial, s) && ReturnsNil(s, msg)
    ensures s.world.file.visible.uuid == msg.uuid && !Blank(msg.uuid)
    ensures Current(s).outcome.InSync? || Current(s).outcome.Completed?
    ensures DesiredOf(Current(s)).value.uuid == msg.uuid
  {
    LogIsSerial(cfg, initial, s);
    var sections: seq<Section> :| Serial(s, sections);
    var last := sections[|sections| - 1];
    NilRun(msg, last.es);
    InvHolds(cfg, initial, s);
  }

  lemma NilRun(msg: Msg, es: seq<Event>)
    requires Conforms(Start(HandleJob(msg)), es)
    requires After(Start(HandleJob(msg)), es).Done? && After(Start(HandleJob(msg)), es).err.None?
    ensures var stage := After(Start(HandleJob(msg)), es);
      && !Blank(msg.uuid)
      && (stage.outcome.InSync? || stage.outcome.Completed?)
      && DesiredOf(stage).Some? && DesiredOf(stage).value.uuid == msg.uuid
  {
    var job := HandleJob(msg);
    RunsAccount(job, es);
    DoneHasLeaves(job, es);
    HandleNeverIdle(msg, es);
  }

  // Whatever a power loss leaves of the file names this UUID.
  ghost predicate Survives(f: File, uuid: string) {
    forall f' | PowerLoss(f, f') :: f'.visible.uuid == uuid
  }

  lemma SurvivesIffAllName(f: File, uuid: string)
    requires Possible(f)
    ensures Survives(f, uuid) <==> forall st | st in f.recoverable :: st.uuid == uuid
  {
    if Survives(f, uuid) {
      forall st | st in f.recoverable ensures st.uuid == uuid {
        if f.home.Absent? {
          assert PowerLoss(f, GONE);
        } else {
          assert PowerLoss(f, File(st, {st}, Anchored));
        }
      }
    }
  }

  // That outlives a power loss exactly when every state the file can show names the UUID; after an apply in this run,
  // exactly when the state directory is durable.
  lemma NilSurvivesIff(cfg: Config, initial: File, s: Sys, msg: Msg)
    requires Reachable(cfg, initial, s) && ReturnsNil(s, msg)
    ensures Survives(s.world.file, msg.uuid) <==> forall st | st in s.world.file.recoverable :: st.uuid == msg.uuid
    ensures Current(s).outcome.Completed? ==> (Survives(s.world.file, msg.uuid) <==> s.world.file.home.Anchored?)
  {
    InvHolds(cfg, initial, s);
    NilNamesTheUuid(cfg, initial, s, msg);
    SurvivesIffAllName(s.world.file, msg.uuid);
    if Current(s).outcome.Completed? {
      assert SettledAt(s.world.file.visible, s.world.file);
      assert EMPTY.uuid != msg.uuid;
    }
  }

  // A save got past its rename and failed; the next notification finds its UUID in sync and Handle returns nil, although
  // a power loss can still take the file back to what it showed before.
  lemma NilMayBeLost(cfg: Config, initial: File, desired: Record) returns (s: Sys)
    requires Possible(initial) && desired.uuid != initial.visible.uuid && Renders(cfg, desired)
    requires desired.target == cfg.target && !Blank(desired.target) && !Blank(desired.uuid)
    ensures Reachable(cfg, initial, s) && ReturnsNil(s, MsgOf(desired)) && Current(s).outcome.InSync?
    ensures PowerLoss(s.world.file, File(initial.visible, {initial.visible}, Anchored))
    ensures !Survives(s.world.file, desired.uuid)
  {
    s := Began(cfg, initial, "", "");
    s := PutUpTo(cfg, initial, s, [desired], 1);
    s := ReconcileLands(cfg, initial, s, desired);
    s := HandleReturnsInSync(cfg, initial, s, desired);
    assert PowerLoss(s.world.file, File(initial.visible, {initial.visible}, Anchored));
  }

  // A Reconcile whose apply succeeds and whose save fails past its rename.
  lemma ReconcileLands(cfg: Config, initial: File, s: Sys, desired: Record) returns (s': Sys)
    requires Reachable(cfg, initial, s) && Idle(s) && s.world.kv == Some(desired)
    requires s.world.file.visible.uuid != desired.uuid && Renders(cfg, desired)
    ensures Reachable(cfg, initial, s') && Idle(s') && s'.world.kv == s.world.kv
    ensures Landed(s.world.file, State(desired.target, desired.uuid), s'.world.file)
  {
    s' := ReconcileAppliesOnly(cfg, initial, s, desired);
    var f, st := s.world.file, State(desired.target, desired.uuid);
    s' := Hear(cfg, initial, s', Failed(Cause(0, false)), s'.world.(file := File(st, f.recoverable + {st}, Made(f.home))));
    s' := Fails(cfg, initial, s');
  }

  // A Handle that finds the record in sync and reports so, up to its return.
  lemma HandleReturnsInSync(cfg: Config, initial: File, s: Sys, desired: Record) returns (s': Sys)
    requires Reachable(cfg, initial, s) && Idle(s) && s.world.kv == Some(desired)
    requires desired.target == cfg.target && !Blank(desired.target) && !Blank(desired.uuid)
    requires s.world.file.visible.uuid == desired.uuid
    ensures Reachable(cfg, initial, s') && s'.world == s.world && ReturnsNil(s', MsgOf(desired))
    ensures Current(s') == Done(InSync(desired), None)
  {
    s' := Enter(cfg, initial, s, 0, HandleJob(MsgOf(desired)));
    s' := HandleFindsInSync(cfg, initial, s', MsgOf(desired), desired);
    s' := ReportsInSync(cfg, initial, s', desired);
  }

  lemma ReportsInSync(cfg: Config, initial: File, s: Sys, desired: Record) returns (s': Sys)
    requires Reachable(cfg, initial, s) && Alone(s) && s.threads[0].job == HandleJob(MsgOf(desired))
    requires Current(s) == HSyncStatus(MsgOf(desired), desired)
    ensures Reachable(cfg, initial, s') && s'.world == s.world && ReturnsNil(s', MsgOf(desired))
    ensures Current(s') == Done(InSync(desired), None)
  {
    s' := Hear(cfg, initial, s, Ack, s.world);
    s' := Hear(cfg, initial, s', Ack, s.world);
  }
}
