/** The exact histories of the KV key under which the whole-run safety properties hold. */
module ConfigureExact {
  import opened Text
  import opened Checkpoint
  import opened ConfigureProtocol
  import opened ConfigureFacts
  import opened ConfigureSystem
  import opened ConfigureSafety
  import opened ConfigureRuns

  /******* In sync means applied last *******/

  ghost predicate InSyncIsSound(cfg: Config, aspect: Aspect, initial: File, puts: seq<Record>) {
    forall s, desired ::
      Reachable(cfg, initial, s) && s.puts <= puts && AtInSync(s, desired) ==>
        LastAppliedIs(aspect, s.log, cfg.render(desired))
  }

  // A history of the key is safe for the in-sync short cut if and only if no UUID that the file could show at first is
  // written, no UUID comes back after another one, and none is rewritten with another rendering.
  lemma InSyncSoundIffSafeReuse(cfg: Config, aspect: Aspect, initial: File, puts: seq<Record>)
    requires Possible(initial)
    ensures InSyncIsSound(cfg, aspect, initial, puts) <==> SafeReuse(cfg, aspect, initial, puts)
  {
    if SafeReuse(cfg, aspect, initial, puts) {
      forall s, desired | Reachable(cfg, initial, s) && s.puts <= puts && AtInSync(s, desired)
        ensures LastAppliedIs(aspect, s.log, cfg.render(desired))
      {
        SafeReusePrefix(cfg, aspect, initial, s.puts, puts);
        InSyncMeansApplied(cfg, aspect, initial, s, desired);
      }
    } else {
      var s, desired := UnsoundInSync(cfg, aspect, initial, puts, "");
    }
  }

  ghost predicate NamedAtFirst(initial: File, puts: seq<Record>, i: int, st: State) {
    0 <= i < |puts| && st in initial.recoverable && puts[i].uuid == st.uuid
  }

  ghost predicate Rewritten(cfg: Config, aspect: Aspect, puts: seq<Record>, i: int, k: int) {
    && 0 <= i < k < |puts| && Offers(cfg, puts, i, puts[k].uuid)
    && Seen(aspect, cfg.render(puts[k])) != Seen(aspect, cfg.render(puts[i]))
  }

  ghost predicate ComesBack(cfg: Config, puts: seq<Record>, i: int, j: int, k: int) {
    0 <= i < j < k < |puts| && Offers(cfg, puts, i, puts[k].uuid) && Replaces(cfg, puts, j, puts[k].uuid)
  }

  lemma UnsafeReuse(cfg: Config, aspect: Aspect, initial: File, puts: seq<Record>)
    requires !SafeReuse(cfg, aspect, initial, puts)
    ensures || (exists i, st :: NamedAtFirst(initial, puts, i, st))
            || (exists i, k :: Rewritten(cfg, aspect, puts, i, k))
            || (exists i, j, k :: ComesBack(cfg, puts, i, j, k))
  {
    if (forall i, st :: !NamedAtFirst(initial, puts, i, st)) && (forall i, k :: !Rewritten(cfg, aspect, puts, i, k))
        && (forall i, j, k :: !ComesBack(cfg, puts, i, j, k)) {
      forall i, st | 0 <= i < |puts| && st in initial.recoverable ensures puts[i].uuid != st.uuid {
        assert !NamedAtFirst(initial, puts, i, st);
      }
      forall i, k | 0 <= i <= k < |puts| && Offers(cfg, puts, i, puts[k].uuid)
        ensures Seen(aspect, cfg.render(puts[k])) == Seen(aspect, cfg.render(puts[i]))
      {
        assert !Rewritten(cfg, aspect, puts, i, k);
      }
      forall i, j, k | 0 <= i < j < k < |puts| && Offers(cfg, puts, i, puts[k].uuid)
        ensures !Replaces(cfg, puts, j, puts[k].uuid)
      {
        assert !ComesBack(cfg, puts, i, j, k);
      }
    }
  }

  // The run that each unsafe reuse makes possible. Where nothing or a failed apply decides the device, it can be any.
  lemma UnsoundInSync(cfg: Config, aspect: Aspect, initial: File, puts: seq<Record>, device: string)
    returns (s: Sys, desired: Record)
    requires Possible(initial) && !SafeReuse(cfg, aspect, initial, puts)
    ensures Reachable(cfg, initial, s) && s.puts <= puts && FoundSame(s, desired) && AtInSync(s, desired)
    ensures desired in s.puts
    ensures !LastAppliedIs(aspect, s.log, cfg.render(desired))
    ensures || s.world.device == device
            || (Renders(cfg, desired) ==>
                  exists other :: Renders(cfg, other) && s.world.device == cfg.render(other).value.text
                                  && Seen(aspect, cfg.render(other)) != Seen(aspect, cfg.render(desired)))
  {
    UnsafeReuse(cfg, aspect, initial, puts);
    if i, st :| NamedAtFirst(initial, puts, i, st) {
      s := InSyncAtFirst(cfg, initial, puts, i, st, device);
      desired := puts[i];
    } else if i, k :| Rewritten(cfg, aspect, puts, i, k) {
      assert !NamedAtFirst(initial, puts, i, initial.visible);
      s := UuidRewritten(cfg, aspect, initial, puts, i, k);
      desired := puts[k];
    } else {
      var i, j, k :| ComesBack(cfg, puts, i, j, k);
      assert !NamedAtFirst(initial, puts, i, initial.visible);
      s := UuidComesBack(cfg, initial, puts, i, j, k, device);
      desired := puts[k];
    }
  }

  // A UUID that the file names from before: in sync although nothing was ever applied.
  lemma InSyncAtFirst(cfg: Config, initial: File, puts: seq<Record>, i: nat, st: State, device: string) returns (s: Sys)
    requires Possible(initial) && NamedAtFirst(initial, puts, i, st)
    ensures Reachable(cfg, initial, s) && s.puts == puts[..i + 1] && FoundSame(s, puts[i]) && AtInSync(s, puts[i])
    ensures LastApply(s.log) == None && s.world.device == device
  {
    s := Began(cfg, initial, device, "");
    s := LoseTo(cfg, initial, s, st);
    s := PutInSync(cfg, initial, s, puts, i);
  }

  // A was saved, B failed to apply, A is back: in sync with a device left to whatever the failure made of it.
  lemma UuidComesBack(cfg: Config, initial: File, puts: seq<Record>, i: nat, j: nat, k: nat, device: string) returns (s: Sys)
    requires Possible(initial) && ComesBack(cfg, puts, i, j, k) && initial.visible.uuid != puts[i].uuid
    ensures Reachable(cfg, initial, s) && s.puts == puts[..k + 1] && FoundSame(s, puts[k]) && AtInSync(s, puts[k])
    ensures LastApply(s.log).Some? && !IsApplied(LastApply(s.log).value) && s.world.device == device
  {
    s := Began(cfg, initial, "", "");
    s := PutAndApply(cfg, initial, s, puts, i);
    s := PutAndFail(cfg, initial, s, puts, j, device);
    s := PutInSync(cfg, initial, s, puts, k);
  }

  // A was saved, B was applied and its save failed, A is back: in sync with a device that runs B.
  lemma OtherStaysApplied(cfg: Config, initial: File, puts: seq<Record>, i: nat, j: nat, k: nat) returns (s: Sys)
    requires Possible(initial) && ComesBack(cfg, puts, i, j, k) && initial.visible.uuid != puts[i].uuid
    ensures Reachable(cfg, initial, s) && s.puts == puts[..k + 1] && FoundSame(s, puts[k]) && AtInSync(s, puts[k])
    ensures LastAppliedIs(Whole, s.log, cfg.render(puts[j])) && DeviceRuns(cfg, s, puts[j])
  {
    s := Began(cfg, initial, "", "");
    s := PutAndApply(cfg, initial, s, puts, i);
    s := PutUpTo(cfg, initial, s, puts, j + 1);
    s := ReconcileUnsaved(cfg, initial, s, puts[j]);
    s := PutInSync(cfg, initial, s, puts, k);
  }

  // The same UUID with another rendering: in sync with the rendering it had before.
  lemma UuidRewritten(cfg: Config, aspect: Aspect, initial: File, puts: seq<Record>, i: nat, k: nat) returns (s: Sys)
    requires Possible(initial) && Rewritten(cfg, aspect, puts, i, k) && initial.visible.uuid != puts[i].uuid
    ensures Reachable(cfg, initial, s) && s.puts == puts[..k + 1] && FoundSame(s, puts[k]) && AtInSync(s, puts[k])
    ensures !LastAppliedIs(aspect, s.log, cfg.render(puts[k])) && DeviceRuns(cfg, s, puts[i])
  {
    s := Began(cfg, initial, "", "");
    s := PutAndApply(cfg, initial, s, puts, i);
    s := PutInSync(cfg, initial, s, puts, k);
  }

  /******* In sync means that the device runs it *******/

  ghost predicate DeviceIsSound(cfg: Config, initial: File, puts: seq<Record>) {
    forall s, desired ::
      Reachable(cfg, initial, s) && s.puts <= puts && AtInSync(s, desired) ==> DeviceRuns(cfg, s, desired)
  }

  // Only the texts matter to the device; and it has to keep what was applied, if anything ever is.
  ghost predicate DeviceSafe(cfg: Config, initial: File, puts: seq<Record>) {
    && SafeReuse(cfg, TextOnly, initial, puts)
    && (DeviceKeeps(cfg) || forall i :: 0 <= i < |puts| ==> !Renders(cfg, puts[i]))
  }

  // Being in sync means that the device runs the record if and only if UUIDs are reused safely, as far as the texts go,
  // and the device either never restarts or restarts with what was applied.
  lemma DeviceSoundIffDeviceSafe(cfg: Config, initial: File, puts: seq<Record>)
    requires Possible(initial)
    ensures DeviceIsSound(cfg, initial, puts) <==> DeviceSafe(cfg, initial, puts)
  {
    if DeviceSafe(cfg, initial, puts) {
      forall s, desired | Reachable(cfg, initial, s) && s.puts <= puts && AtInSync(s, desired)
        ensures DeviceRuns(cfg, s, desired)
      {
        SafeReusePrefix(cfg, TextOnly, initial, s.puts, puts);
        InSyncRuns(cfg, initial, s, puts, desired);
      }
    } else if !SafeReuse(cfg, TextOnly, initial, puts) {
      var s, desired := OtherDevice(cfg, initial, puts);
    } else {
      var i :| 0 <= i < |puts| && Renders(cfg, puts[i]);
      var s := RestartForgets(cfg, initial, puts, i);
    }
  }

  lemma InSyncRuns(cfg: Config, initial: File, s: Sys, puts: seq<Record>, desired: Record)
    requires Reachable(cfg, initial, s) && s.puts <= puts && AtInSync(s, desired)
    requires DeviceSafe(cfg, initial, puts) && SafeReuse(cfg, TextOnly, initial, s.puts)
    ensures DeviceRuns(cfg, s, desired)
  {
    InSyncMeansApplied(cfg, TextOnly, initial, s, desired);
    InvHolds(cfg, initial, s);
    var i :| 0 <= i < |s.puts| && s.puts[i] == desired;
    assert puts[i] == desired;
  }

  lemma OtherDevice(cfg: Config, initial: File, puts: seq<Record>) returns (s: Sys, desired: Record)
    requires Possible(initial) && !SafeReuse(cfg, TextOnly, initial, puts)
    ensures Reachable(cfg, initial, s) && s.puts <= puts && FoundSame(s, desired) && AtInSync(s, desired)
    ensures !DeviceRuns(cfg, s, desired)
  {
    var texts := set i | 0 <= i < |puts| && Renders(cfg, puts[i]) :: cfg.render(puts[i]).value.text;
    var device := NoneOf(texts);
    s, desired := UnsoundInSync(cfg, TextOnly, initial, puts, device);
    if s.world.device == device && Renders(cfg, desired) {
      var i :| 0 <= i < |s.puts| && s.puts[i] == desired;
      assert puts[i] == desired;
    }
  }

  // A device text that is none of these.
  lemma NoneOf(texts: set<string>) returns (text: string)
    ensures text !in texts
  {
    text := Longer(texts);
  }

  lemma {:induction false} Longer(texts: set<string>) returns (text: string)
    ensures forall t | t in texts :: |t| < |text|
  {
    text := "x";
    if texts != {} {
      var t :| t in texts;
      var rest := Longer(texts - {t});
      text := rest + t + "x";
      assert texts == texts - {t} + {t};
    }
  }

  // A was applied and saved, the device restarts with what it was saved with before: still in sync.
  lemma RestartForgets(cfg: Config, initial: File, puts: seq<Record>, i: nat) returns (s: Sys)
    requires Possible(initial) && SafeReuse(cfg, TextOnly, initial, puts)
    requires !DeviceKeeps(cfg) && i < |puts| && Renders(cfg, puts[i])
    ensures Reachable(cfg, initial, s) && s.puts == puts[..i + 1] && FoundSame(s, puts[i]) && AtInSync(s, puts[i])
    ensures !DeviceRuns(cfg, s, puts[i])
  {
    s := Began(cfg, initial, "", cfg.render(puts[i]).value.text + "x");
    s := PutAndApply(cfg, initial, s, puts, i);
    s := Restart(cfg, initial, s);
    s := ReconcileReads(cfg, initial, s, puts[i]);
  }

  /******* At most one report *******/

  ghost predicate ReportsAreUnique(cfg: Config, initial: File, puts: seq<Record>) {
    forall s, uuid :: Reachable(cfg, initial, s) && s.puts <= puts ==> Count(Reports(uuid), s.log) <= 1
  }

  // For every checkpoint file to begin with and every history of the key, no UUID is reported as applied twice if and
  // only if the directory is durable (or only the empty UUID is applied), and no UUID that may be applied is applied
  // again after another one.
  lemma ReportsUniqueIffReportableOnce(cfg: Config, initial: File, puts: seq<Record>)
    requires Possible(initial)
    ensures ReportsAreUnique(cfg, initial, puts) <==> ReportableOnce(cfg, initial, puts)
  {
    if ReportableOnce(cfg, initial, puts) {
      forall s, uuid | Reachable(cfg, initial, s) && s.puts <= puts
        ensures Count(Reports(uuid), s.log) <= 1
      {
        ReportableOncePrefix(cfg, initial, s.puts, puts);
        ReportedAtMostOnce(cfg, initial, s, uuid);
      }
    } else if i :| !initial.home.Anchored? && 0 <= i < |puts| && Renders(cfg, puts[i]) && puts[i].uuid != "" {
      var s := DirectoryForgets(cfg, initial, puts, i);
      assert s.puts <= puts && Count(Reports(puts[i].uuid), s.log) > 1;
    } else {
      var i, j, k :| 0 <= i < j < k < |puts| && EarnedAt(cfg, initial, puts, i, puts[k].uuid)
        && Renders(cfg, puts[k]) && Replaces(cfg, puts, j, puts[k].uuid);
      var s := ReportedTwice(cfg, initial, puts, i, j, k);
      assert s.puts <= puts && Count(Reports(puts[k].uuid), s.log) > 1;
    }
  }

  // The first Save makes the directory, returns nil, and the power is lost: the same record is applied and reported again.
  lemma DirectoryForgets(cfg: Config, initial: File, puts: seq<Record>, i: nat) returns (s: Sys)
    requires Possible(initial) && !initial.home.Anchored?
    requires i < |puts| && Renders(cfg, puts[i]) && puts[i].uuid != ""
    ensures Reachable(cfg, initial, s) && s.puts == puts[..i + 1] && Count(Reports(puts[i].uuid), s.log) == 2
  {
    s := Began(cfg, initial, "", "");
    s := LosePower(cfg, initial, s, GONE);
    s := PutAndApply(cfg, initial, s, puts, i);
    s := LosePower(cfg, initial, s, GONE);
    s := ReconcileApplies(cfg, initial, s, puts[i]);
  }

  lemma ReportedTwice(cfg: Config, initial: File, puts: seq<Record>, i: nat, j: nat, k: nat) returns (s: Sys)
    requires Possible(initial) && i < j < k < |puts| && EarnedAt(cfg, initial, puts, i, puts[k].uuid)
    requires Renders(cfg, puts[k]) && Replaces(cfg, puts, j, puts[k].uuid)
    ensures Reachable(cfg, initial, s) && s.puts == puts[..k + 1] && Count(Reports(puts[k].uuid), s.log) >= 2
  {
    s := MovedAway(cfg, initial, puts, i);
    s := PutAndApply(cfg, initial, s, puts, i);
    var once := s;
    s := PutAndApply(cfg, initial, s, puts, j);
    s := PutAndApply(cfg, initial, s, puts, k);
    assert Count(Reports(puts[k].uuid), once.log) >= 1;
  }

  // Before a record that may be applied, the file can name something else.
  lemma MovedAway(cfg: Config, initial: File, puts: seq<Record>, i: nat) returns (s: Sys)
    requires Possible(initial) && i < |puts| && Away(cfg, initial, puts, i, puts[i].uuid)
    ensures Reachable(cfg, initial, s) && Idle(s) && |s.puts| <= i && s.puts == puts[..|s.puts|]
    ensures s.world.file.visible.uuid != puts[i].uuid
  {
    s := Began(cfg, initial, "", "");
    if st :| st in initial.recoverable && st.uuid != puts[i].uuid {
      s := LoseTo(cfg, initial, s, st);
    } else {
      var h :| h < i && Replaces(cfg, puts, h, puts[i].uuid);
      s := PutAndApply(cfg, initial, s, puts, h);
    }
  }
}
