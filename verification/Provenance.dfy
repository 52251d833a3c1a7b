/** From the KV record through both adapters to the backends: under whose UUID the device was configured. */
module Provenance {
  import opened Text
  import opened Checkpoint
  import opened ConfigureProtocol
  import opened ConfigureSystem
  import opened ConfigureSafety
  import opened ConfigureExact
  import Renderer = RendererAdapter
  import Applier = ApplyAdapter

  /******* The placeholder renderer *******/

  method RenderPlaceholder(cancelled: bool, desired: Record) returns (output: Option<Output>)
    ensures output == if cancelled then None else Placeholder(desired)
    ensures output.Some? <==> !cancelled && desired.target != "" && desired.uuid != ""
    ensures output.Some? ==>
      && output.value.target == desired.target && output.value.uuid == desired.uuid
      && output.value.text ==
         "# placeholder vyos config\n" + "# target: " + desired.target + "\n" + "# uuid: " + desired.uuid + "\n"
  {
    if cancelled || desired.target == "" || desired.uuid == "" {
      return None;
    }
    return Some(Output(desired.target, desired.uuid, PlaceholderText(desired.target, desired.uuid)));
  }

  function PlaceholderText(target: string, uuid: string): string {
    "# placeholder vyos config\n" + "# target: " + target + "\n" + "# uuid: " + uuid + "\n"
  }

  function Placeholder(desired: Record): Option<Output> {
    if desired.target == "" || desired.uuid == "" then None
    else Some(Output(desired.target, desired.uuid, PlaceholderText(desired.target, desired.uuid)))
  }

  // The placeholder ignores the payload, so rewriting a UUID is harmless with it: in sync is sound exactly when no
  // UUID was there at first and none comes back.
  lemma PlaceholderReuse(cfg: Config, initial: File, puts: seq<Record>)
    requires cfg.render == Placeholder && Possible(initial)
    requires forall i | 0 <= i < |puts| :: puts[i].target == cfg.target
    ensures InSyncIsSound(cfg, Whole, initial, puts) <==>
            && (forall i, st :: !NamedAtFirst(initial, puts, i, st))
            && (forall i, j, k :: !ComesBack(cfg, puts, i, j, k))
  {
    InSyncSoundIffSafeReuse(cfg, Whole, initial, puts);
    if SafeReuse(cfg, Whole, initial, puts) {
      forall i, j, k ensures !ComesBack(cfg, puts, i, j, k) {
      }
    } else {
      UnsafeReuse(cfg, Whole, initial, puts);
      forall i, k ensures !Rewritten(cfg, Whole, puts, i, k) {
        assert 0 <= i < k < |puts| && Offers(cfg, puts, i, puts[k].uuid) ==>
            Placeholder(puts[i]) == Placeholder(puts[k]);
      }
    }
  }

  /******* Identity *******/

  ghost predicate KeepsIdentity(render: Record -> Option<Output>) {
    forall desired: Record :: Keeps(render(desired), desired)
  }

  predicate Keeps(output: Option<Output>, desired: Record) {
    output.Some? ==> output.value.target == desired.target && output.value.uuid == desired.uuid
  }

  lemma PlaceholderKeepsIdentity()
    ensures KeepsIdentity(Placeholder)
  {
  }

  // With any renderer that keeps identities, a state the file can show that it could not show at first was saved right
  // after an apply under its own target and UUID.
  lemma AppliedAsItself(cfg: Config, initial: File, s: Sys, st: State) returns (desired: Record, n: nat)
    requires KeepsIdentity(cfg.render) && Reachable(cfg, initial, s)
    requires st == s.world.file.visible || st in s.world.file.recoverable
    requires st !in initial.recoverable
    ensures SavedAt(cfg, s, st, desired, n)
    ensures s.log[n - 1].call.rendered.target == st.target && s.log[n - 1].call.rendered.uuid == st.uuid
  {
    CheckpointProvenance(cfg, initial, s, st);
    desired, n :| SavedAt(cfg, s, st, desired, n);
    assert Keeps(cfg.render(desired), desired);
  }

  // With the placeholder, what was applied is the text that names that target and UUID.
  lemma PlaceholderApplied(cfg: Config, initial: File, s: Sys, st: State) returns (n: nat)
    requires cfg.render == Placeholder && Reachable(cfg, initial, s)
    requires st == s.world.file.visible || st in s.world.file.recoverable
    requires st !in initial.recoverable
    ensures 0 < n < |s.log| && IsApplied(s.log[n - 1]) && IsSave(s.log[n]) && s.log[n].call.state == st
    ensures s.log[n - 1].call.rendered == Output(st.target, st.uuid, PlaceholderText(st.target, st.uuid))
  {
    PlaceholderKeepsIdentity();
    var desired;
    desired, n := AppliedAsItself(cfg, initial, s, st);
  }

  // What the renderer adapter hands on; None is an error.
  ghost function Adapted(codec: Renderer.Codec, info: Renderer.Info, backend: Renderer.Backend): Record -> Option<Output> {
    (desired: Record) => Renderer.RenderingOf(codec, info, backend, desired)
  }

  // The backend returns the identity it was given, for every input the adapter can give it.
  ghost predicate BackendKeepsIdentity(codec: Renderer.Codec, info: Renderer.Info, backend: Renderer.Backend) {
    forall desired: Record :: BackendKeeps(codec, info, backend, desired)
  }

  ghost predicate BackendKeeps(
    codec: Renderer.Codec, info: Renderer.Info, backend: Renderer.Backend, desired: Record) {
    var input := Renderer.InputOf(codec, info, desired);
    input.Some? && backend.render(input.value).Some? ==>
      var output := backend.render(input.value).value;
      output.target == input.value.target && output.uuid == input.value.uuid
  }

  // The adapter keeps the identity of every record exactly when its backend does.
  lemma AdapterKeepsIdentityIffBackendDoes(codec: Renderer.Codec, info: Renderer.Info, backend: Renderer.Backend)
    ensures KeepsIdentity(Adapted(codec, info, backend)) <==> BackendKeepsIdentity(codec, info, backend)
  {
    var render := Adapted(codec, info, backend);
    if KeepsIdentity(render) {
      forall desired ensures BackendKeeps(codec, info, backend, desired) {
        assert Keeps(render(desired), desired);
      }
    }
    if BackendKeepsIdentity(codec, info, backend) {
      forall desired: Record ensures Keeps(render(desired), desired) {
        assert BackendKeeps(codec, info, backend, desired);
      }
    }
  }

  /******* The apply backend behind the log *******/

  // The steps that the backend may take for one entry of the log: those of the adapter for an apply, a first part of
  // them if a crash cut it short, and none for anything else.
  ghost predicate StepsOf(prepares: bool, e: Entry, steps: seq<Applier.Step>) {
    if e.Called? && e.call.Apply? then
      exists err :: Applier.Takes(prepares, e.call.rendered, steps, err) && (err.None? <==> e.reply.Ack?)
    else if e.Cut? && e.call.Apply? then
      exists whole, err :: Applier.Takes(prepares, e.call.rendered, whole, err) && steps <= whole
    else
      steps == []
  }

  // All the steps the backend took, cut at the entry of the log that each belongs to.
  ghost predicate Traced(prepares: bool, log: seq<Entry>, steps: seq<Applier.Step>) {
    if log == [] then steps == []
    else
      exists cut :: 0 <= cut <= |steps| && SplitAt(prepares, log, steps, cut)
  }

  ghost predicate SplitAt(prepares: bool, log: seq<Entry>, steps: seq<Applier.Step>, cut: int)
    requires log != [] && 0 <= cut <= |steps|
  {
    && Traced(prepares, log[..|log| - 1], steps[..cut])
    && StepsOf(prepares, log[|log| - 1], steps[cut..])
  }

  // Every log has such a trace.
  lemma {:induction false} TraceExists(prepares: bool, log: seq<Entry>) returns (steps: seq<Applier.Step>)
    ensures Traced(prepares, log, steps)
  {
    steps := [];
    if log != [] {
      var before := TraceExists(prepares, log[..|log| - 1]);
      var own := SomeSteps(prepares, log[|log| - 1]);
      steps := before + own;
      assert steps[..|before|] == before && steps[|before|..] == own;
      assert SplitAt(prepares, log, steps, |before|);
    }
  }

  lemma SomeSteps(prepares: bool, e: Entry) returns (steps: seq<Applier.Step>)
    ensures StepsOf(prepares, e, steps)
  {
    steps := [];
    if (e.Called? || e.Cut?) && e.call.Apply? {
      var input, ok := Applier.BuildInput(e.call.rendered), e.Called? && e.reply.Ack?;
      steps := Applier.Prepared(prepares, input) + [Applier.Step(Applier.ApplyNow(input), ok)];
      assert Applier.Takes(prepares, e.call.rendered, steps, if ok then None else Some(Applier.NotApplied));
    }
  }

  // What the backend did up to the n-th entry of the log.
  lemma {:induction false} TraceUpTo(prepares: bool, log: seq<Entry>, steps: seq<Applier.Step>, n: nat) returns (cut: nat)
    requires Traced(prepares, log, steps) && n <= |log|
    ensures cut <= |steps| && Traced(prepares, log[..n], steps[..cut])
    decreases |log|
  {
    if n == |log| {
      cut := |steps|;
      assert log[..n] == log && steps[..cut] == steps;
    } else {
      var mid :| 0 <= mid <= |steps| && SplitAt(prepares, log, steps, mid);
      cut := TraceUpTo(prepares, log[..|log| - 1], steps[..mid], n);
      assert log[..|log| - 1][..n] == log[..n] && steps[..mid][..cut] == steps[..cut];
    }
  }

  // The backend ends with a successful apply of this input, prepared on it before if it can prepare.
  ghost predicate JustApplied(prepares: bool, steps: seq<Applier.Step>, input: Applier.Input) {
    var n := |steps| - 1;
    && n >= 0 && steps[n] == Applier.Step(Applier.ApplyNow(input), true)
    && (prepares ==> n >= 1 && steps[n - 1] == Applier.Step(Applier.Prepare(input), true))
  }

  lemma AppliedIsJustApplied(prepares: bool, log: seq<Entry>, steps: seq<Applier.Step>)
    requires log != [] && IsApplied(log[|log| - 1]) && Traced(prepares, log, steps)
    ensures JustApplied(prepares, steps, Applier.BuildInput(log[|log| - 1].call.rendered))
  {
    var cut :| 0 <= cut <= |steps| && SplitAt(prepares, log, steps, cut);
    var own, e := steps[cut..], log[|log| - 1];
    var err :| Applier.Takes(prepares, e.call.rendered, own, err) && (err.None? <==> e.reply.Ack?);
    Applier.PreparedFirst(prepares, e.call.rendered, own, err, |own| - 1);
    assert forall i | 0 <= i < |own| :: own[i] == steps[cut + i];
  }

  /******* Checkpoints *******/

  // The whole way of a checkpoint: the record, the input the renderer backend was given and what it returned, and the
  // input the apply backend had just accepted when the save began.
  datatype Way = Way(desired: Record, at: nat, input: Renderer.Input, output: Output, cut: nat)

  ghost predicate CameBy(
    cfg: Config, codec: Renderer.Codec, info: Renderer.Info, backend: Renderer.Backend, prepares: bool,
    s: Sys, steps: seq<Applier.Step>, st: State, way: Way)
  {
    && SavedAt(cfg, s, st, way.desired, way.at)
    && Renderer.InputOf(codec, info, way.desired) == Some(way.input)
    && way.input.target == st.target && way.input.uuid == st.uuid
    && Renderer.Unwrapped(codec, way.desired.payload, way.input.payload)
    && backend.render(way.input) == Some(way.output)
    && s.log[way.at - 1].call.rendered == way.output
    && way.cut <= |steps| && Traced(prepares, s.log[..way.at], steps[..way.cut])
    && JustApplied(prepares, steps[..way.cut], Applier.Input(st.target, st.uuid, way.output.text))
  }

  // With the VyOS adapters on both sides, every state the checkpoint file can show that it could not show at first came
  // this way: through an input built from a KV record of its UUID, rendered by the backend without error, and accepted
  // by the apply backend under that UUID, whatever steps the backend took over the whole run.
  lemma CheckpointNamesTheAppliedInput(
    cfg: Config, codec: Renderer.Codec, info: Renderer.Info, backend: Renderer.Backend, prepares: bool,
    initial: File, s: Sys, steps: seq<Applier.Step>, st: State)
    returns (way: Way)
    requires cfg.render == Adapted(codec, info, backend) && BackendKeepsIdentity(codec, info, backend)
    requires Reachable(cfg, initial, s) && Traced(prepares, s.log, steps)
    requires st == s.world.file.visible || st in s.world.file.recoverable
    requires st !in initial.recoverable
    ensures CameBy(cfg, codec, info, backend, prepares, s, steps, st, way)
  {
    CheckpointProvenance(cfg, initial, s, st);
    var desired, n :| SavedAt(cfg, s, st, desired, n);
    way := WayOfSave(cfg, codec, info, backend, prepares, s, steps, st, desired, n);
  }

  lemma WayOfSave(
    cfg: Config, codec: Renderer.Codec, info: Renderer.Info, backend: Renderer.Backend, prepares: bool,
    s: Sys, steps: seq<Applier.Step>, st: State, desired: Record, n: nat)
    returns (way: Way)
    requires cfg.render == Adapted(codec, info, backend) && BackendKeepsIdentity(codec, info, backend)
    requires Traced(prepares, s.log, steps) && SavedAt(cfg, s, st, desired, n)
    ensures CameBy(cfg, codec, info, backend, prepares, s, steps, st, way)
  {
    var output := s.log[n - 1].call.rendered;
    var input := RenderedFrom(codec, info, backend, desired, output);
    var cut := TraceUpTo(prepares, s.log, steps, n);
    assert s.log[..n][n - 1] == s.log[n - 1];
    AppliedIsJustApplied(prepares, s.log[..n], steps[..cut]);
    way := Way(desired, n, input, output, cut);
  }

  lemma RenderedFrom(
    codec: Renderer.Codec, info: Renderer.Info, backend: Renderer.Backend, desired: Record, output: Output)
    returns (input: Renderer.Input)
    requires Adapted(codec, info, backend)(desired) == Some(output) && BackendKeepsIdentity(codec, info, backend)
    ensures Renderer.InputOf(codec, info, desired) == Some(input) && backend.render(input) == Some(output)
    ensures input.target == desired.target == output.target && input.uuid == desired.uuid == output.uuid
  {
    input := Renderer.InputOf(codec, info, desired).value;
    assert BackendKeeps(codec, info, backend, desired);
  }
}
