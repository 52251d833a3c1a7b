/** Serializability: however callers interleave, the log reads as whole runs one after another. */
module ConfigureSerial {
  import opened Text
  import opened Checkpoint
  import opened ConfigureProtocol
  import opened ConfigureSystem

  // How a section of the log ends. Only the last one can be Open: it belongs to the holder of the lock.
  datatype End = Open | Returned(err: Option<Error>) | Killed | KilledIn(call: Call)

  datatype Section =
    | Outage                                                        // a crash while nobody held the lock
    | Session(tid: nat, job: Job, es: seq<Event>, end: End)

  // A session is one caller's run of its job: complete when it returned, a beginning of one otherwise.
  ghost predicate Lawful(section: Section) {
    section.Session? ==>
      && Conforms(Start(section.job), section.es)
      && var stage := After(Start(section.job), section.es);
      match section.end
      case Returned(err) => stage.Done? && stage.err == err
      case KilledIn(call) => !stage.Done? && call == Pending(stage)
      case _ => true
  }

  function Calls(tid: nat, es: seq<Event>): seq<Entry> {
    if es == [] then []
    else Calls(tid, es[..|es| - 1]) + [Called(tid, es[|es| - 1].call, es[|es| - 1].reply)]
  }

  function Ending(tid: nat, end: End): seq<Entry> {
    match end
    case Open => []
    case Returned(err) => [Released(tid, err)]
    case Killed => [Crashed]
    case KilledIn(call) => [Cut(tid, call), Crashed]
  }

  function Entries(section: Section): seq<Entry> {
    match section
    case Outage => [Crashed]
    case Session(tid, job, es, end) => [Acquired(tid, job)] + Calls(tid, es) + Ending(tid, end)
  }

  function Flat(sections: seq<Section>): seq<Entry> {
    if sections == [] then [] else Flat(sections[..|sections| - 1]) + Entries(sections[|sections| - 1])
  }

  predicate IsOpen(section: Section) {
    section.Session? && section.end.Open?
  }

  ghost predicate Serial(s: Sys, sections: seq<Section>) {
    && s.log == Flat(sections)
    && (forall i | 0 <= i < |sections| :: Lawful(sections[i]))
    && (forall i | 0 <= i < |sections| :: IsOpen(sections[i]) ==> Holding(s) && i == |sections| - 1)
    && (Holding(s) ==>
          && sections != []
          && var last := sections[|sections| - 1];
          && IsOpen(last) && last.tid == s.lock.value && last.job == s.threads[last.tid].job
          && After(Start(last.job), last.es) == Current(s))
  }

  lemma LogIsSerial(cfg: Config, initial: File, s: Sys)
    requires Reachable(cfg, initial, s)
    ensures exists sections :: Serial(s, sections)
  {
    var ss :| Execution(cfg, initial, ss) && ss[|ss| - 1] == s;
    var sections := SerialAlong(cfg, initial, ss, |ss| - 1);
  }

  lemma {:induction false} SerialAlong(cfg: Config, initial: File, ss: seq<Sys>, i: nat) returns (sections: seq<Section>)
    requires Execution(cfg, initial, ss) && i < |ss|
    ensures Serial(ss[i], sections)
  {
    if i == 0 {
      sections := [];
    } else {
      sections := SerialAlong(cfg, initial, ss, i - 1);
      InvAlong(cfg, initial, ss, i - 1);
      assert Step(cfg, ss[i - 1], ss[i - 1 + 1]);
      var m :| Next(cfg, ss[i - 1], m, ss[i]);
      sections := SerialOn(cfg, ss[i - 1], sections, m, ss[i]);
    }
  }

  // What one move does to the sections.
  lemma SerialOn(cfg: Config, s: Sys, sections: seq<Section>, m: Move, s': Sys) returns (sections': seq<Section>)
    requires Mutex(s) && Serial(s, sections) && Next(cfg, s, m, s')
    ensures Serial(s', sections')
  {
    match m
    case Acquire(tid) =>
      sections' := SerialAcquire(cfg, s, sections, m, s');
    case Answer(tid, reply) =>
      sections' := SerialAnswer(cfg, s, sections, m, s');
    case Release(tid) =>
      sections' := SerialRelease(cfg, s, sections, m, s');
    case Crash(cut, power) =>
      sections' := SerialCrash(cfg, s, sections, m, s');
    case _ =>
      sections' := sections;
  }

  lemma SerialAcquire(cfg: Config, s: Sys, sections: seq<Section>, m: Move, s': Sys) returns (sections': seq<Section>)
    requires m.Acquire? && Mutex(s) && Serial(s, sections) && Next(cfg, s, m, s')
    ensures Serial(s', sections')
  {
    sections' := Begin(s, sections, Session(m.tid, s.threads[m.tid].job, [], Open), s');
  }

  lemma SerialAnswer(cfg: Config, s: Sys, sections: seq<Section>, m: Move, s': Sys) returns (sections': seq<Section>)
    requires m.Answer? && Mutex(s) && Serial(s, sections) && Next(cfg, s, m, s')
    ensures Serial(s', sections')
  {
    var last := sections[|sections| - 1];
    var e := Event(Pending(Current(s)), m.reply);
    Extend(Start(last.job), last.es, e);
    SessionGrows(last, e);
    sections' := Amend(s, sections, last.(es := last.es + [e]), [Called(m.tid, e.call, e.reply)], s');
  }

  lemma SerialRelease(cfg: Config, s: Sys, sections: seq<Section>, m: Move, s': Sys) returns (sections': seq<Section>)
    requires m.Release? && Mutex(s) && Serial(s, sections) && Next(cfg, s, m, s')
    ensures Serial(s', sections')
  {
    var last, err := sections[|sections| - 1], Current(s).err;
    sections' := Amend(s, sections, last.(end := Returned(err)), [Released(m.tid, err)], s');
  }

  lemma SessionGrows(section: Section, e: Event)
    requires IsOpen(section)
    ensures Entries(section.(es := section.es + [e])) == Entries(section) + [Called(section.tid, e.call, e.reply)]
  {
    assert (section.es + [e])[..|section.es|] == section.es;
  }

  lemma SerialCrash(cfg: Config, s: Sys, sections: seq<Section>, m: Move, s': Sys) returns (sections': seq<Section>)
    requires m.Crash? && Mutex(s) && Serial(s, sections) && Next(cfg, s, m, s')
    ensures Serial(s', sections')
  {
    if !Holding(s) {
      sections' := Begin(s, sections, Outage, s');
    } else if m.cut {
      var last, call := sections[|sections| - 1], Pending(Current(s));
      assert s.log + [Cut(last.tid, call)] + [Crashed] == s.log + [Cut(last.tid, call), Crashed];
      sections' := Amend(s, sections, last.(end := KilledIn(call)), [Cut(last.tid, call), Crashed], s');
    } else {
      sections' := Amend(s, sections, sections[|sections| - 1].(end := Killed), [Crashed], s');
    }
  }

  // An open section is the run of the lock holder, and there is one exactly while the lock is held.
  ghost predicate Belongs(s: Sys, section: Section) {
    if Holding(s) then
      && IsOpen(section) && section.tid == s.lock.value && section.job == s.threads[section.tid].job
      && Conforms(Start(section.job), section.es)
      && After(Start(section.job), section.es) == Current(s)
    else !IsOpen(section)
  }

  lemma Begin(s: Sys, sections: seq<Section>, section: Section, s': Sys) returns (sections': seq<Section>)
    requires !Holding(s) && Serial(s, sections) && Lawful(section)
    requires s'.log == s.log + Entries(section) && Belongs(s', section)
    ensures Serial(s', sections')
  {
    Append(sections, section);
    sections' := sections + [section];
  }

  // Giving the last section more entries gives the log the same entries.
  lemma Amend(s: Sys, sections: seq<Section>, section: Section, more: seq<Entry>, s': Sys) returns (sections': seq<Section>)
    requires Holding(s) && Serial(s, sections) && Lawful(section)
    requires Entries(section) == Entries(sections[|sections| - 1]) + more
    requires s'.log == s.log + more && Belongs(s', section)
    ensures Serial(s', sections')
  {
    FlatAmend(sections, section, more);
    sections' := sections[..|sections| - 1] + [section];
  }

  lemma FlatAmend(sections: seq<Section>, section: Section, more: seq<Entry>)
    requires sections != [] && Entries(section) == Entries(sections[|sections| - 1]) + more
    ensures Flat(sections[..|sections| - 1] + [section]) == Flat(sections) + more
  {
    var init, last := sections[..|sections| - 1], sections[|sections| - 1];
    Append(init, section);
    ConcatAssociates(Flat(init), Entries(last), more);
  }

  lemma ConcatAssociates(a: seq<Entry>, b: seq<Entry>, c: seq<Entry>)
    ensures a + (b + c) == a + b + c
  {
  }

  lemma Append(sections: seq<Section>, section: Section)
    ensures Flat(sections + [section]) == Flat(sections) + Entries(section)
  {
    assert (sections + [section])[..|sections|] == sections;
  }
}
