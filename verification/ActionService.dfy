/** The action service as the source writes it: a constructor that filters its tables, and Handle with its failure path. */
module ActionService {
  import opened Text
  import opened Actions

  /******* Construction *******/

  datatype Refusal = NilExecutor(action: string) | NoExecutors

  function EnabledOf(names: seq<string>): set<string> {
    set i | 0 <= i < |names| && !Blank(names[i]) :: TrimSpace(names[i])
  }

  // None is a nil executor.
  function ExecutorsOf(given: map<string, Option<nat>>): map<string, nat> {
    map action | action in given && !Blank(action) && given[action].Some? :: given[action].value
  }

  predicate HasNil(given: map<string, Option<nat>>, action: string) {
    action in given && !Blank(action) && given[action].None?
  }

  ghost predicate NoNil(given: map<string, Option<nat>>) {
    forall action :: !HasNil(given, action)
  }

  method FilterEnabled(names: seq<string>) returns (enabled: set<string>)
    ensures enabled == EnabledOf(names)
  {
    enabled := {};
    for i := 0 to |names|
      invariant enabled == EnabledOf(names[..i])
    {
      BlankMeansTrimmedAway(names[i]);
      EnabledGrow(names[..i], names[i]);
      assert names[..i + 1] == names[..i] + [names[i]];
      var trimmed := TrimSpace(names[i]);
      if trimmed == "" {
        continue;
      }
      enabled := enabled + {trimmed};
    }
    assert names[..|names|] == names;
  }

  lemma EnabledGrow(names: seq<string>, name: string)
    ensures EnabledOf(names + [name]) == EnabledOf(names) + if Blank(name) then {} else {TrimSpace(name)}
  {
    var more := names + [name];
    assert more[|names|] == name;
    forall x | x in EnabledOf(names) ensures x in EnabledOf(more) {
      var i :| 0 <= i < |names| && !Blank(names[i]) && TrimSpace(names[i]) == x;
      assert more[i] == names[i];
    }
  }

  // The map is visited in any order.
  method FilterExecutors(given: map<string, Option<nat>>) returns (executors: map<string, nat>, refusal: Option<Refusal>)
    ensures refusal.None? ==> executors == ExecutorsOf(given) && executors != map[]
    ensures refusal.None? ==> NoNil(given)
    ensures refusal == Some(NoExecutors) ==> ExecutorsOf(given) == map[] && NoNil(given)
    ensures refusal.Some? && refusal.value.NilExecutor? ==> HasNil(given, refusal.value.action)
  {
    executors := map[];
    var rest := given.Keys;
    ghost var seen: map<string, Option<nat>> := map[];
    while rest != {}
      invariant rest <= given.Keys && seen == map action | action in given && action !in rest :: given[action]
      invariant executors == ExecutorsOf(seen)
      invariant NoNil(seen)
      decreases |rest|
    {
      var action :| action in rest;
      BlankMeansTrimmedAway(action);
      ExecutorsGrow(seen, action, given[action]);
      rest := rest - {action};
      if TrimSpace(action) != "" {
        if given[action].None? {
          return executors, Some(NilExecutor(action));
        }
        executors := executors[action := given[action].value];
      }
      seen := seen[action := given[action]];
    }
    assert seen == given;
    refusal := if |executors| == 0 then Some(NoExecutors) else None;
  }

  lemma ExecutorsGrow(given: map<string, Option<nat>>, action: string, executor: Option<nat>)
    requires action !in given
    ensures ExecutorsOf(given[action := executor]) ==
      if Blank(action) || executor.None? then ExecutorsOf(given) else ExecutorsOf(given)[action := executor.value]
    ensures NoNil(given[action := executor]) <==> NoNil(given) && (Blank(action) || executor.Some?)
  {
    var more := given[action := executor];
    assert forall a | HasNil(given, a) :: HasNil(more, a);
    assert forall a | HasNil(more, a) :: HasNil(given, a) || a == action;
    assert HasNil(more, action) <==> !Blank(action) && executor.None?;
  }

  // Names are trimmed when they are enabled but not when they are looked up: however the service was configured, an
  // action whose name has white space at an end, or none but white space, is never carried out.
  lemma SpacedActionIsNeverRun(names: seq<string>, executors: map<string, nat>, cmd: Command, es: seq<Event>)
    requires Conforms(Registry(EnabledOf(names), executors), cmd, es)
    requires cmd.action == "" || IsSpace(cmd.action[0]) || IsSpace(cmd.action[|cmd.action| - 1])
    ensures forall i | 0 <= i < |es| :: !es[i].call.Execute?
  {
    if cmd.action in EnabledOf(names) {
      var i :| 0 <= i < |names| && !Blank(names[i]) && TrimSpace(names[i]) == cmd.action;
      TrimGivesInkEnds(names[i]);
      BlankMeansTrimmedAway(names[i]);
      assert false;
    }
    forall i | 0 <= i < |es| ensures !es[i].call.Execute? {
      if es[i].call.Execute? {
        ExecutesAtMostOnce(Registry(EnabledOf(names), executors), cmd, es, i);
      }
    }
  }

  /******* The service *******/

  datatype Fate = Fate(fails: bool, cause: Cause, output: Output)

  // The agentcore client and the executors.
  class Dependencies {
    const fate: nat -> Fate
    var calls: nat
    ghost var trace: seq<Event>

    constructor (fate: nat -> Fate)
      ensures this.fate == fate && trace == []
    {
      this.fate, this.calls, this.trace := fate, 0, [];
    }

    method Invoke(call: Call) returns (reply: Reply)
      modifies this
      ensures Answers(call, reply) && trace == old(trace) + [Event(call, reply)]
    {
      var f := fate(calls);
      calls := calls + 1;
      reply := if f.fails then Failed(f.cause) else if call.Execute? then Produced(f.output) else Ack;
      trace := trace + [Event(call, reply)];
    }
  }

  class Service {
    const deps: Dependencies
    const enabled: set<string>
    const executors: map<string, nat>
    // The call in progress: its command, the trace before it, and the stage it has reached.
    ghost var cmd: Command
    ghost var before: seq<Event>
    ghost var at: Stage

    constructor (deps: Dependencies, enabled: set<string>, executors: map<string, nat>)
      ensures this.deps == deps && this.enabled == enabled && this.executors == executors
    {
      this.deps, this.enabled, this.executors := deps, enabled, executors;
    }

    static method New(deps: Dependencies, names: seq<string>, given: map<string, Option<nat>>)
      returns (service: Service?, refusal: Option<Refusal>)
      ensures service == null <==> refusal.Some?
      ensures refusal.None? <==> ExecutorsOf(given) != map[] && NoNil(given)
      ensures service != null ==>
        && fresh(service) && service.deps == deps && service.Table() == Registry(EnabledOf(names), ExecutorsOf(given))
        && (forall action :: action in service.enabled <==>
              exists i :: 0 <= i < |names| && !Blank(names[i]) && TrimSpace(names[i]) == action)
        && (forall action :: action in service.executors <==> action in given && !Blank(action))
        && (forall action | action in service.executors :: given[action] == Some(service.executors[action]))
    {
      var enabled := FilterEnabled(names);
      var executors;
      executors, refusal := FilterExecutors(given);
      if refusal.Some? {
        return null, refusal;
      }
      forall action | action in given && !Blank(action) ensures given[action].Some? {
        assert !HasNil(given, action);
      }
      service := new Service(deps, enabled, executors);
    }

    function Table(): Registry {
      Registry(enabled, executors)
    }

    ghost predicate Tracked()
      reads this, deps
    {
      && |before| <= |deps.trace| && deps.trace[..|before|] == before
      && Conforms(Table(), cmd, deps.trace[|before|..])
      && After(Table(), cmd, deps.trace[|before|..]) == at
    }

    method Do(call: Call) returns (reply: Reply)
      requires Tracked() && !at.Done? && call == Pending(cmd, at)
      modifies this`at, deps
      ensures Tracked() && Answers(call, reply) && at == Resume(Table(), cmd, old(at), reply)
    {
      ghost var es := deps.trace[|before|..];
      reply := deps.Invoke(call);
      Extend(Table(), cmd, es, Event(call, reply));
      assert deps.trace[|before|..] == es + [Event(call, reply)];
      at := Resume(Table(), cmd, at, reply);
    }

    // The calls made are a finished run for this command, which ended with these errors.
    method Handle(msg: Command) returns (err: seq<Leaf>)
      modifies this, deps
      ensures |old(deps.trace)| <= |deps.trace| && deps.trace[..|old(deps.trace)|] == old(deps.trace)
      ensures Finished(Table(), msg, deps.trace[|old(deps.trace)|..])
      ensures After(Table(), msg, deps.trace[|old(deps.trace)|..]) == Done(err)
    {
      cmd, before, at := msg, deps.trace, Receiving;
      assert deps.trace[|before|..] == [];
      var reply := Do(PublishStatus(msg, Received));
      if reply.Failed? {
        err := Fail(msg, StatusPublishFailed, Fault(PublishStatus(msg, Received), reply.cause));
        return;
      }
      if msg.action !in enabled {
        err := Fail(msg, DisabledAction, NotEnabled);
        return;
      }
      if msg.action !in executors {
        err := Fail(msg, UnsupportedAction, NoExecutor);
        return;
      }
      err := Carry(msg, executors[msg.action]);
    }

    // The rest of Handle, once the executor is known.
    method Carry(msg: Command, executor: nat) returns (err: seq<Leaf>)
      requires Tracked() && cmd == msg && at == Beginning(executor)
      modifies this`at, deps
      ensures Tracked() && at == Done(err)
    {
      var reply := Do(PublishStatus(msg, Executing));
      if reply.Failed? {
        err := Fail(msg, StatusPublishFailed, Fault(PublishStatus(msg, Executing), reply.cause));
        return;
      }
      reply := Do(Execute(executor, msg));
      if reply.Failed? {
        var code := ActionExecuteFailed;
        if reply.cause.badPayload {
          code := InvalidActionPayload;
        }
        err := Fail(msg, code, Fault(Execute(executor, msg), reply.cause));
        return;
      }
      var output := reply.output;
      reply := Do(PublishStatus(msg, Completed));
      if reply.Failed? {
        err := Fail(msg, StatusPublishFailed, Fault(PublishStatus(msg, Completed), reply.cause));
        return;
      }
      reply := Do(PublishResult(msg, Succeeded(output)));
      if reply.Failed? {
        err := Fail(msg, ResultPublishFailed, Fault(PublishResult(msg, Succeeded(output)), reply.cause));
        return;
      }
      return [];
    }

    method Fail(msg: Command, code: Code, original: Leaf) returns (err: seq<Leaf>)
      requires Tracked() && cmd == msg && at == FailStatus(code, original)
      modifies this`at, deps
      ensures Tracked() && at == Done(err) && err != []
    {
      var reply := Do(PublishStatus(msg, Failing));
      var statusErr := if reply.Failed? then Some(Fault(PublishStatus(msg, Failing), reply.cause)) else None;
      reply := Do(PublishResult(msg, Failure(code)));
      var resultErr := if reply.Failed? then Some(Fault(PublishResult(msg, Failure(code)), reply.cause)) else None;
      return [original] + Listed(statusErr) + Listed(resultErr);
    }
  }
}
