/** The checkpoint file as its user sees it: what Load returns now and what it may return after a power loss. */
module Checkpoint {

  // The persisted checkpoint; the apply timestamp is not part of this model. A missing file reads as EMPTY.
  datatype State = State(target: string, uuid: string)

  const EMPTY := State("", "")

  // The directory of the file: not there, made but gone again if the power is lost before the system writes its own
  // entry out, or durable. Nothing the agent does makes its entry durable.
  datatype Home = Absent | Fresh | Anchored

  function Made(home: Home): Home {
    if home.Absent? then Fresh else home
  }

  // What the file reads as when its directory is gone.
  function Spare(home: Home): set<State> {
    if home.Anchored? then {} else {EMPTY}
  }

  // recoverable holds every state that may be found after a power loss: renames whose directory entry was never
  // synced may be lost, each of them, and so may the whole directory.
  datatype File = File(visible: State, recoverable: set<State>, home: Home)

  const GONE := File(EMPTY, {EMPTY}, Absent)

  ghost predicate Possible(f: File) {
    && f.visible in f.recoverable
    && Spare(f.home) <= f.recoverable
    && (f.home.Absent? ==> f == GONE)
  }

  ghost predicate Housed(f: File, f': File) {
    f' == f.(home := Made(f.home))
  }

  ghost predicate Landed(f: File, st: State, f': File) {
    f' == File(st, f.recoverable + {st}, Made(f.home))
  }

  // As durable as the directory: an unanchored one may still take the file with it.
  ghost predicate SettledAt(st: State, f: File) {
    f.visible == st && f.recoverable == {st} + Spare(f.home)
  }

  ghost predicate Settled(f: File, st: State, f': File) {
    SettledAt(st, f') && f'.home == Made(f.home)
  }

  // What a returning Save may have done. After an error the file is untouched, but for a directory made for it, or
  // renamed but not synced.
  ghost predicate SaveEffect(f: File, st: State, ok: bool, f': File) {
    if ok then Settled(f, st, f') else f' == f || Housed(f, f') || Landed(f, st, f')
  }

  // What a Save that a crash cuts short may have done.
  ghost predicate SaveCut(f: File, st: State, f': File) {
    f' == f || Housed(f, f') || Landed(f, st, f') || Settled(f, st, f')
  }

  // A directory that survives a power loss is durable from then on.
  ghost predicate PowerLoss(f: File, f': File) {
    || (!f.home.Anchored? && f' == GONE)
    || (!f.home.Absent? && f'.visible in f.recoverable && f' == File(f'.visible, {f'.visible}, Anchored))
  }

  // A Save that a power loss cuts short: before the directory is made, before the rename, after it, or after the sync.
  ghost predicate LostInSave(f: File, st: State, f': File) {
    || (!f.home.Anchored? && f' == GONE)
    || (f'.visible in f.recoverable + {st} && f' == File(f'.visible, {f'.visible}, Anchored))
  }

  lemma LostInSaveIsCutThenLost(f: File, st: State, f': File)
    requires Possible(f)
    ensures LostInSave(f, st, f') <==> exists mid :: SaveCut(f, st, mid) && PowerLoss(mid, f')
  {
    if LostInSave(f, st, f') {
      var mid := File(st, f.recoverable + {st}, Made(f.home));
      assert SaveCut(f, st, mid) && PowerLoss(mid, f');
    }
  }

  // Saving and losing power keep a file possible, and an anchored directory anchored.
  lemma PossibleOn(f: File, st: State, f': File)
    requires Possible(f) && (SaveCut(f, st, f') || PowerLoss(f, f') || LostInSave(f, st, f'))
    ensures Possible(f') && (f.home.Anchored? ==> f'.home.Anchored?)
    ensures forall x | x in f'.recoverable :: x == st || x in f.recoverable
  {
  }
}
