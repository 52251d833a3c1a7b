/** The action workflow: received, executing, the executor, completed, and one result. */
module Actions {
  import opened Text

  /******* Data *******/

  datatype Command = Command(target: string, action: string, rpcId: string, payload: string)

  datatype Output = Output(message: string, payload: string)

  // The stage field of a published status, with the status it is sent under.
  datatype Phase =
    | Received   // running
    | Executing  // running
    | Completed  // success
    | Failing    // failure, stage "failed"

  datatype Code =
    | StatusPublishFailed | DisabledAction | UnsupportedAction
    | InvalidActionPayload | ActionExecuteFailed | ResultPublishFailed

  datatype Verdict = Succeeded(output: Output) | Failure(code: Code)

  datatype Call =
    | PublishStatus(cmd: Command, phase: Phase)
    | PublishResult(cmd: Command, verdict: Verdict)
    | Execute(executor: nat, cmd: Command)

  // An error a call returned; an executor may mark it as a bad payload.
  datatype Cause = Cause(id: nat, badPayload: bool)

  datatype Reply = Ack | Failed(cause: Cause) | Produced(output: Output)

  predicate Answers(call: Call, reply: Reply) {
    reply.Failed? || if call.Execute? then reply.Produced? else reply.Ack?
  }

  // What NewService keeps: the enabled names and, by name, the executors.
  datatype Registry = Registry(enabled: set<string>, executors: map<string, nat>)

  predicate Permitted(reg: Registry, cmd: Command) {
    cmd.action in reg.enabled && cmd.action in reg.executors
  }

  datatype Leaf = Fault(call: Call, cause: Cause) | NotEnabled | NoExecutor

  function Listed(leaf: Option<Leaf>): seq<Leaf> {
    if leaf.Some? then [leaf.value] else []
  }

  /******* Control *******/

  // Each stage but Done is about to make one call. Done holds the joined errors; none means nil.
  datatype Stage =
    | Receiving
    | Beginning(executor: nat)
    | Running(executor: nat)
    | Completing(output: Output)
    | Delivering(output: Output)
    | FailStatus(code: Code, original: Leaf)
    | FailResult(code: Code, original: Leaf, statusErr: Option<Leaf>)
    | Done(leaves: seq<Leaf>)

  function Pending(cmd: Command, stage: Stage): Call
    requires !stage.Done?
  {
    match stage
    case Receiving => PublishStatus(cmd, Received)
    case Beginning(_) => PublishStatus(cmd, Executing)
    case Running(executor) => Execute(executor, cmd)
    case Completing(_) => PublishStatus(cmd, Completed)
    case Delivering(output) => PublishResult(cmd, Succeeded(output))
    case FailStatus(_, _) => PublishStatus(cmd, Failing)
    case FailResult(code, _, _) => PublishResult(cmd, Failure(code))
  }

  function Resume(reg: Registry, cmd: Command, stage: Stage, reply: Reply): Stage
    requires !stage.Done? && Answers(Pending(cmd, stage), reply)
  {
    var fault := if reply.Failed? then Some(Fault(Pending(cmd, stage), reply.cause)) else None;
    match stage
    case Receiving =>
      if fault.Some? then FailStatus(StatusPublishFailed, fault.value)
      else if cmd.action !in reg.enabled then FailStatus(DisabledAction, NotEnabled)
      else if cmd.action !in reg.executors then FailStatus(UnsupportedAction, NoExecutor)
      else Beginning(reg.executors[cmd.action])
    case Beginning(executor) =>
      if fault.Some? then FailStatus(StatusPublishFailed, fault.value) else Running(executor)
    case Running(_) =>
      if fault.Some? then
        FailStatus(if reply.cause.badPayload then InvalidActionPayload else ActionExecuteFailed, fault.value)
      else Completing(reply.output)
    case Completing(output) =>
      if fault.Some? then FailStatus(StatusPublishFailed, fault.value) else Delivering(output)
    case Delivering(_) =>
      if fault.Some? then FailStatus(ResultPublishFailed, fault.value) else Done([])
    case FailStatus(code, original) => FailResult(code, original, fault)
    case FailResult(_, original, statusErr) => Done([original] + Listed(statusErr) + Listed(fault))
  }

  /******* Runs *******/

  datatype Event = Event(call: Call, reply: Reply)

  ghost predicate Conforms(reg: Registry, cmd: Command, es: seq<Event>)
    decreases |es|, 0
  {
    es == [] ||
    var n := |es| - 1;
    && Conforms(reg, cmd, es[..n])
    && var stage := After(reg, cmd, es[..n]);
    && !stage.Done?
    && es[n].call == Pending(cmd, stage)
    && Answers(es[n].call, es[n].reply)
  }

  ghost function After(reg: Registry, cmd: Command, es: seq<Event>): Stage
    requires Conforms(reg, cmd, es)
    decreases |es|, 1
  {
    if es == [] then Receiving
    else Resume(reg, cmd, After(reg, cmd, es[..|es| - 1]), es[|es| - 1].reply)
  }

  lemma Extend(reg: Registry, cmd: Command, es: seq<Event>, e: Event)
    requires Conforms(reg, cmd, es) && !After(reg, cmd, es).Done?
    requires e.call == Pending(cmd, After(reg, cmd, es)) && Answers(e.call, e.reply)
    ensures Conforms(reg, cmd, es + [e])
    ensures After(reg, cmd, es + [e]) == Resume(reg, cmd, After(reg, cmd, es), e.reply)
  {
    assert (es + [e])[..|es|] == es;
  }

  ghost predicate Finished(reg: Registry, cmd: Command, es: seq<Event>) {
    Conforms(reg, cmd, es) && After(reg, cmd, es).Done?
  }

  /******* The language of runs *******/

  // A first part of the one successful run, whether or not its last call was acknowledged.
  predicate Along(reg: Registry, cmd: Command, es: seq<Event>) {
    && |es| <= 5
    && (|es| > 0 ==> es[0].call == PublishStatus(cmd, Received))
    && (|es| > 1 ==> Permitted(reg, cmd) && es[1].call == PublishStatus(cmd, Executing))
    && (|es| > 2 ==> es[2].call == Execute(reg.executors[cmd.action], cmd))
    && (|es| > 3 ==> es[2].reply.Produced? && es[3].call == PublishStatus(cmd, Completed))
    && (|es| > 4 ==> es[4].call == PublishResult(cmd, Succeeded(es[2].reply.output)))
  }

  predicate AllAcked(es: seq<Event>) {
    forall i | 0 <= i < |es| :: !es[i].reply.Failed?
  }

  function CodeOf(e: Event): Code
    requires e.reply.Failed?
  {
    match e.call
    case PublishStatus(_, _) => StatusPublishFailed
    case PublishResult(_, _) => ResultPublishFailed
    case Execute(_, _) => if e.reply.cause.badPayload then InvalidActionPayload else ActionExecuteFailed
  }

  // The part of a failing run before its report: one call failed, or the action was turned down once received.
  predicate Interrupted(reg: Registry, cmd: Command, es: seq<Event>, code: Code) {
    var n := |es| - 1;
    && n >= 0
    && Along(reg, cmd, es)
    && AllAcked(es[..n])
    && if es[n].reply.Failed? then code == CodeOf(es[n])
       else n == 0 && !Permitted(reg, cmd) && code == if cmd.action !in reg.enabled then DisabledAction else UnsupportedAction
  }

  predicate Turned(reg: Registry, cmd: Command, es: seq<Event>) {
    |es| > 0 && !es[0].reply.Failed? && !Permitted(reg, cmd)
  }

  predicate Word(reg: Registry, cmd: Command, es: seq<Event>) {
    || (|es| == 5 && Along(reg, cmd, es) && AllAcked(es) && Permitted(reg, cmd))
    || (|es| >= 3 &&
        var n := |es| - 2;
        && es[n].call == PublishStatus(cmd, Failing)
        && es[n + 1].call.PublishResult? && es[n + 1].call.cmd == cmd && es[n + 1].call.verdict.Failure?
        && Interrupted(reg, cmd, es[..n], es[n + 1].call.verdict.code))
  }

  predicate SoFar(reg: Registry, cmd: Command, stage: Stage, es: seq<Event>) {
    var n := |es|;
    match stage
    case Receiving => n == 0
    case Beginning(executor) =>
      n == 1 && Along(reg, cmd, es) && AllAcked(es) && Permitted(reg, cmd) && executor == reg.executors[cmd.action]
    case Running(executor) =>
      n == 2 && Along(reg, cmd, es) && AllAcked(es) && executor == reg.executors[cmd.action]
    case Completing(output) =>
      n == 3 && Along(reg, cmd, es) && AllAcked(es) && es[2].reply == Produced(output)
    case Delivering(output) =>
      n == 4 && Along(reg, cmd, es) && AllAcked(es) && es[2].reply == Produced(output)
    case FailStatus(code, _) => Interrupted(reg, cmd, es, code)
    case FailResult(code, _, _) =>
      n > 1 && Interrupted(reg, cmd, es[..n - 1], code) && es[n - 1].call == PublishStatus(cmd, Failing)
    case Done(_) => Word(reg, cmd, es)
  }

  // For every way its calls may fail, what a call of Handle did so far is a first part of a word, and all of it is one.
  lemma {:induction false} RunsAreWords(reg: Registry, cmd: Command, es: seq<Event>)
    requires Conforms(reg, cmd, es)
    ensures SoFar(reg, cmd, After(reg, cmd, es), es)
  {
    if es != [] {
      var n := |es| - 1;
      RunsAreWords(reg, cmd, es[..n]);
      assert es == es[..n] + [es[n]];
      NextLetter(reg, cmd, After(reg, cmd, es[..n]), es[..n], es[n]);
    }
  }

  lemma NextLetter(reg: Registry, cmd: Command, stage: Stage, es: seq<Event>, e: Event)
    requires !stage.Done? && e.call == Pending(cmd, stage) && Answers(e.call, e.reply)
    requires SoFar(reg, cmd, stage, es)
    ensures SoFar(reg, cmd, Resume(reg, cmd, stage, e.reply), es + [e])
  {
    var more := es + [e];
    assert more[..|es|] == es;
    if stage.FailResult? {
      assert more[..|more| - 2] == es[..|es| - 1];
    }
  }

  /******* What a word says *******/

  predicate IsResult(e: Event) {
    e.call.PublishResult?
  }

  // The executor runs only for a permitted action and after both running statuses were acknowledged, and only once.
  lemma ExecutesAtMostOnce(reg: Registry, cmd: Command, es: seq<Event>, i: nat)
    requires Conforms(reg, cmd, es) && i < |es| && es[i].call.Execute?
    ensures i == 2 && Permitted(reg, cmd) && es[2].call == Execute(reg.executors[cmd.action], cmd)
    ensures es[0] == Event(PublishStatus(cmd, Received), Ack) && es[1] == Event(PublishStatus(cmd, Executing), Ack)
  {
    RunsAreWords(reg, cmd, es);
    RepliesFit(reg, cmd, es, 0);
    if i > 1 {
      RepliesFit(reg, cmd, es, 1);
    }
  }

  lemma {:induction false} RepliesFit(reg: Registry, cmd: Command, es: seq<Event>, i: nat)
    requires Conforms(reg, cmd, es) && i < |es|
    ensures Answers(es[i].call, es[i].reply)
  {
    if i < |es| - 1 {
      RepliesFit(reg, cmd, es[..|es| - 1], i);
    }
  }

  // A finished call attempted a result, last of all, and only that one can have been acknowledged.
  lemma ReportsOnce(reg: Registry, cmd: Command, es: seq<Event>)
    requires Finished(reg, cmd, es)
    ensures 3 <= |es| <= 7 && IsResult(es[|es| - 1])
    ensures forall i | 0 <= i < |es| - 1 :: IsResult(es[i]) ==> es[i].reply.Failed? && i == 4
  {
    RunsAreWords(reg, cmd, es);
  }

  // A success result carries the output of the executor and is acknowledged exactly when Handle returns nil.
  lemma SuccessIsTheOutput(reg: Registry, cmd: Command, es: seq<Event>, i: nat)
    requires Finished(reg, cmd, es) && i < |es| && IsResult(es[i]) && es[i].call.verdict.Succeeded?
    ensures i == 4 && es[2].call.Execute? && es[2].reply == Produced(es[i].call.verdict.output)
    ensures !es[i].reply.Failed? <==> |es| == 5
  {
    RunsAreWords(reg, cmd, es);
  }

  /******* What the returned error says *******/

  function ErrorsOf(es: seq<Event>): seq<Leaf> {
    if es == [] then []
    else
      var e := es[|es| - 1];
      ErrorsOf(es[..|es| - 1]) + if e.reply.Failed? then [Fault(e.call, e.reply.cause)] else []
  }

  function Objection(reg: Registry, cmd: Command, es: seq<Event>): seq<Leaf> {
    if !Turned(reg, cmd, es) then []
    else if cmd.action !in reg.enabled then [NotEnabled]
    else [NoExecutor]
  }

  function Held(stage: Stage): seq<Leaf> {
    match stage
    case FailStatus(_, original) => [original]
    case FailResult(_, original, statusErr) => [original] + Listed(statusErr)
    case Done(leaves) => leaves
    case _ => []
  }

  lemma ErrorsGrow(es: seq<Event>, e: Event)
    ensures ErrorsOf(es + [e]) == ErrorsOf(es) + if e.reply.Failed? then [Fault(e.call, e.reply.cause)] else []
  {
    assert (es + [e])[..|es|] == es;
  }

  // The errors held are the ones the calls returned, in order, after the objection if there is one.
  lemma {:induction false} RunsAccount(reg: Registry, cmd: Command, es: seq<Event>)
    requires Conforms(reg, cmd, es)
    ensures Held(After(reg, cmd, es)) == Objection(reg, cmd, es) + ErrorsOf(es)
  {
    if es != [] {
      var n := |es| - 1;
      RunsAccount(reg, cmd, es[..n]);
      RunsAreWords(reg, cmd, es[..n]);
      assert es == es[..n] + [es[n]];
      AccountsOn(reg, cmd, After(reg, cmd, es[..n]), es[..n], es[n]);
    }
  }

  lemma AccountsOn(reg: Registry, cmd: Command, stage: Stage, es: seq<Event>, e: Event)
    requires !stage.Done? && e.call == Pending(cmd, stage) && Answers(e.call, e.reply)
    requires (stage.Receiving? <==> es == []) && Held(stage) == Objection(reg, cmd, es) + ErrorsOf(es)
    ensures Held(Resume(reg, cmd, stage, e.reply)) == Objection(reg, cmd, es + [e]) + ErrorsOf(es + [e])
  {
    ErrorsGrow(es, e);
    ObjectsAtFirst(reg, cmd, es, e);
    HeldNext(reg, cmd, stage, e);
  }

  lemma ObjectsAtFirst(reg: Registry, cmd: Command, es: seq<Event>, e: Event)
    ensures Objection(reg, cmd, es + [e]) == Objection(reg, cmd, if es == [] then [e] else es)
  {
    if es != [] {
      assert (es + [e])[0] == es[0];
    } else {
      assert es + [e] == [e];
    }
  }

  lemma HeldNext(reg: Registry, cmd: Command, stage: Stage, e: Event)
    requires !stage.Done? && e.call == Pending(cmd, stage) && Answers(e.call, e.reply)
    ensures Held(Resume(reg, cmd, stage, e.reply))
      == Held(stage) + (if stage.Receiving? then Objection(reg, cmd, [e]) else [])
         + if e.reply.Failed? then [Fault(e.call, e.reply.cause)] else []
  {
  }

  // Handle returns nil exactly for a permitted action whose calls were all acknowledged.
  lemma NilMeansDelivered(reg: Registry, cmd: Command, es: seq<Event>)
    requires Finished(reg, cmd, es)
    ensures After(reg, cmd, es).leaves == Objection(reg, cmd, es) + ErrorsOf(es)
    ensures After(reg, cmd, es).leaves == [] <==> Permitted(reg, cmd) && AllAcked(es)
  {
    RunsAccount(reg, cmd, es);
    RunsAreWords(reg, cmd, es);
    NoErrors(es);
  }

  lemma {:induction false} NoErrors(es: seq<Event>)
    ensures ErrorsOf(es) == [] <==> AllAcked(es)
  {
    if es != [] {
      var n := |es| - 1;
      NoErrors(es[..n]);
      assert es == es[..n] + [es[n]];
    }
  }
}
