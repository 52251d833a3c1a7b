/** Any number of action Handle calls at once: there is no lock, and each call still keeps to its own word. */
module ActionSystem {
  import opened Actions

  datatype Thread = Thread(cmd: Command, stage: Stage)

  datatype Entry = Entry(tid: nat, event: Event)

  datatype Sys = Sys(threads: map<nat, Thread>, log: seq<Entry>)

  datatype Move = Arrive(tid: nat, cmd: Command) | Answer(tid: nat, reply: Reply)

  ghost predicate Next(reg: Registry, s: Sys, m: Move, s': Sys) {
    match m
    case Arrive(tid, cmd) => tid !in s.threads && s' == s.(threads := s.threads[tid := Thread(cmd, Receiving)])
    case Answer(tid, reply) =>
      && tid in s.threads
      && var t := s.threads[tid];
      && !t.stage.Done?
      && Answers(Pending(t.cmd, t.stage), reply)
      && s' == Sys(s.threads[tid := t.(stage := Resume(reg, t.cmd, t.stage, reply))],
                   s.log + [Entry(tid, Event(Pending(t.cmd, t.stage), reply))])
  }

  ghost predicate Moves(reg: Registry, s: Sys, s': Sys) {
    exists m :: Next(reg, s, m, s')
  }

  ghost predicate Execution(reg: Registry, ss: seq<Sys>) {
    ss != [] && ss[0] == Sys(map[], []) && forall i | 0 <= i < |ss| - 1 :: Moves(reg, ss[i], ss[i + 1])
  }

  // What one call did, taken out of the common log.
  function Projection(log: seq<Entry>, tid: nat): seq<Event> {
    if log == [] then []
    else
      var last := log[|log| - 1];
      Projection(log[..|log| - 1], tid) + if last.tid == tid then [last.event] else []
  }

  ghost predicate Keeps(reg: Registry, s: Sys, tid: nat) {
    var es := Projection(s.log, tid);
    if tid in s.threads then
      Conforms(reg, s.threads[tid].cmd, es) && After(reg, s.threads[tid].cmd, es) == s.threads[tid].stage
    else es == []
  }

  ghost predicate Inv(reg: Registry, s: Sys) {
    forall tid :: Keeps(reg, s, tid)
  }

  lemma ProjectionGrows(log: seq<Entry>, e: Entry, tid: nat)
    ensures Projection(log + [e], tid) == Projection(log, tid) + if e.tid == tid then [e.event] else []
  {
    assert (log + [e])[..|log|] == log;
  }

  lemma KeepsOn(reg: Registry, s: Sys, m: Move, s': Sys, tid: nat)
    requires Keeps(reg, s, tid) && Next(reg, s, m, s')
    ensures Keeps(reg, s', tid)
  {
    if m.Answer? {
      var t := s.threads[m.tid];
      var e := Event(Pending(t.cmd, t.stage), m.reply);
      ProjectionGrows(s.log, Entry(m.tid, e), tid);
      if tid == m.tid {
        Extend(reg, t.cmd, Projection(s.log, tid), e);
      } else {
        assert Projection(s'.log, tid) == Projection(s.log, tid);
      }
    }
  }

  lemma InvOn(reg: Registry, s: Sys, m: Move, s': Sys)
    requires Inv(reg, s) && Next(reg, s, m, s')
    ensures Inv(reg, s')
  {
    forall tid ensures Keeps(reg, s', tid) {
      KeepsOn(reg, s, m, s', tid);
    }
  }

  lemma {:induction false} InvAlong(reg: Registry, ss: seq<Sys>, i: nat)
    requires Execution(reg, ss) && i < |ss|
    ensures Inv(reg, ss[i])
  {
    if i > 0 {
      InvAlong(reg, ss, i - 1);
      assert Moves(reg, ss[i - 1], ss[i - 1 + 1]);
      var m :| Next(reg, ss[i - 1], m, ss[i]);
      InvOn(reg, ss[i - 1], m, ss[i]);
    }
  }

  // In every interleaving, each call did a first part of a word of its own command, and all of one if it returned.
  lemma CallsAreWords(reg: Registry, ss: seq<Sys>, i: nat, tid: nat)
    requires Execution(reg, ss) && i < |ss| && tid in ss[i].threads
    ensures var t := ss[i].threads[tid];
      && Conforms(reg, t.cmd, Projection(ss[i].log, tid))
      && SoFar(reg, t.cmd, t.stage, Projection(ss[i].log, tid))
      && (t.stage.Done? ==> Word(reg, t.cmd, Projection(ss[i].log, tid)))
  {
    InvAlong(reg, ss, i);
    assert Keeps(reg, ss[i], tid);
    RunsAreWords(reg, ss[i].threads[tid].cmd, Projection(ss[i].log, tid));
  }

  // How many times a call asked an executor to run, and how many of its results were acknowledged.
  function Executions(es: seq<Event>): nat {
    if es == [] then 0
    else Executions(es[..|es| - 1]) + if es[|es| - 1].call.Execute? then 1 else 0
  }

  function Acknowledged(es: seq<Event>): nat {
    if es == [] then 0
    else Acknowledged(es[..|es| - 1]) + if IsResult(es[|es| - 1]) && !es[|es| - 1].reply.Failed? then 1 else 0
  }

  lemma {:induction false} ExecutionsCounted(reg: Registry, cmd: Command, es: seq<Event>)
    requires Conforms(reg, cmd, es)
    ensures Executions(es) <= 1 && (|es| <= 2 ==> Executions(es) == 0)
  {
    if es != [] {
      var n := |es| - 1;
      ExecutionsCounted(reg, cmd, es[..n]);
      if es[n].call.Execute? {
        ExecutesAtMostOnce(reg, cmd, es, n);
      }
    }
  }

  lemma {:induction false} ResultsCounted(reg: Registry, cmd: Command, es: seq<Event>)
    requires Conforms(reg, cmd, es)
    ensures Acknowledged(es) <= if After(reg, cmd, es).Done? then 1 else 0
  {
    if es != [] {
      ResultsCounted(reg, cmd, es[..|es| - 1]);
    }
  }

  // Whatever the other calls do, no call runs an executor twice or has two results acknowledged.
  lemma OnceEach(reg: Registry, ss: seq<Sys>, i: nat, tid: nat)
    requires Execution(reg, ss) && i < |ss|
    ensures Executions(Projection(ss[i].log, tid)) <= 1
    ensures Acknowledged(Projection(ss[i].log, tid)) <= 1
  {
    InvAlong(reg, ss, i);
    assert Keeps(reg, ss[i], tid);
    if tid in ss[i].threads {
      ExecutionsCounted(reg, ss[i].threads[tid].cmd, Projection(ss[i].log, tid));
      ResultsCounted(reg, ss[i].threads[tid].cmd, Projection(ss[i].log, tid));
    }
  }
}
