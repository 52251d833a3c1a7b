/** The apply adapter: prepare a plan when the backend can, then apply, both on the same input. */
module ApplyAdapter {
  import opened Text
  import opened ConfigureProtocol

  datatype Input = Input(target: string, uuid: string, commands: string)

  datatype Action = Prepare(input: Input) | ApplyNow(input: Input)

  datatype Step = Step(action: Action, ok: bool)

  datatype ApplyError = NotPrepared | NotApplied

  function BuildInput(rendered: Output): Input {
    Input(rendered.target, rendered.uuid, rendered.text)
  }

  // The configurations of a device are told apart by the commands that make them.
  datatype Fate = Fate(fails: bool, device: string, boot: string)

  // The device behind the backend: what it runs, and what it boots with, which an apply saves if the backend is told to.
  class Backend {
    const prepares: bool
    const saves: bool
    const fate: nat -> Fate
    var device: string
    var boot: string
    ghost var steps: seq<Step>

    constructor (prepares: bool, saves: bool, fate: nat -> Fate, device: string, boot: string)
      ensures this.prepares == prepares && this.saves == saves && this.fate == fate
      ensures this.device == device && this.boot == boot && steps == []
    {
      this.prepares, this.saves, this.fate := prepares, saves, fate;
      this.device, this.boot, this.steps := device, boot, [];
    }

    method Prepare(call: nat, input: Input) returns (ok: bool)
      modifies this`steps
      ensures steps == old(steps) + [Step(Action.Prepare(input), ok)]
    {
      ok := !fate(call).fails;
      steps := steps + [Step(Action.Prepare(input), ok)];
    }

    // A failed apply can leave anything on the device.
    method Apply(call: nat, input: Input) returns (ok: bool)
      modifies this
      ensures steps == old(steps) + [Step(ApplyNow(input), ok)]
      ensures ok ==> device == input.commands
      ensures if saves then ok ==> boot == input.commands else boot == old(boot)
    {
      ok := !fate(call).fails;
      device := if ok then input.commands else fate(call).device;
      if saves {
        boot := if ok then input.commands else fate(call).boot;
      }
      steps := steps + [Step(ApplyNow(input), ok)];
    }
  }

  // The steps that a call may take and the error it then returns.
  predicate Takes(prepares: bool, rendered: Output, steps: seq<Step>, err: Option<ApplyError>) {
    var input := BuildInput(rendered);
    match err
    case Some(NotPrepared) => prepares && steps == [Step(Prepare(input), false)]
    case Some(NotApplied) => steps == Prepared(prepares, input) + [Step(ApplyNow(input), false)]
    case None => steps == Prepared(prepares, input) + [Step(ApplyNow(input), true)]
  }

  function Prepared(prepares: bool, input: Input): seq<Step> {
    if prepares then [Step(Prepare(input), true)] else []
  }

  // The apply call of the configure service, away from everything but the device.
  ghost predicate IsCall(saves: bool, rendered: Output, before: (string, string), failed: bool, after: (string, string)) {
    if failed then
      forall cfg: Config, kv, file, cause: Cause ::
        cfg.saves == saves ==>
          Effect(cfg, World(kv, file, before.0, before.1), Call.Apply(rendered), Failed(cause), World(kv, file, after.0, after.1))
    else
      forall cfg: Config, kv, file ::
        cfg.saves == saves ==>
          Effect(cfg, World(kv, file, before.0, before.1), Call.Apply(rendered), Ack, World(kv, file, after.0, after.1))
  }

  class Adapter {
    const backend: Backend

    constructor (backend: Backend)
      ensures this.backend == backend
    {
      this.backend := backend;
    }

    method Apply(call: nat, rendered: Output) returns (err: Option<ApplyError>)
      modifies backend
      ensures |old(backend.steps)| <= |backend.steps| && backend.steps[..|old(backend.steps)|] == old(backend.steps)
      ensures Takes(backend.prepares, rendered, backend.steps[|old(backend.steps)|..], err)
      ensures err == Some(NotPrepared) ==> backend.device == old(backend.device) && backend.boot == old(backend.boot)
      ensures err.None? ==> backend.device == rendered.text
      ensures IsCall(backend.saves, rendered, old((backend.device, backend.boot)), err.Some?, (backend.device, backend.boot))
    {
      var input := BuildInput(rendered);
      ghost var before := backend.steps;
      if backend.prepares {
        var prepared := backend.Prepare(call, input);
        if !prepared {
          assert backend.steps[|before|..] == [Step(Prepare(input), false)];
          return Some(NotPrepared);
        }
        assert backend.steps[|before|..] == Prepared(true, input);
      }
      var applied := backend.Apply(call + 1, input);
      assert backend.steps[|before|..] == Prepared(backend.prepares, input) + [Step(ApplyNow(input), applied)];
      if !applied {
        return Some(NotApplied);
      }
      return None;
    }
  }

  // Nothing is applied before its preparation, on the same input, succeeded.
  lemma PreparedFirst(prepares: bool, rendered: Output, steps: seq<Step>, err: Option<ApplyError>, i: nat)
    requires Takes(prepares, rendered, steps, err) && i < |steps| && steps[i].action.ApplyNow?
    ensures i == |steps| - 1 && steps[i].action.input == Input(rendered.target, rendered.uuid, rendered.text)
    ensures if prepares then i == 1 else i == 0
    ensures prepares ==> steps[0] == Step(Prepare(steps[i].action.input), true)
    ensures err.None? <==> steps[i].ok
  {
  }
}
