/** A file system with what is visible now and what may be found after a power loss. */
module Disk {
  import opened Text
  import opened Checkpoint

  type Bytes = seq<bv8>

  // flushed: the data was synced since it was last written, so a power loss keeps it.
  datatype Node = Node(data: Bytes, flushed: bool, mode: nat)

  // One directory. stale holds, for each name, the entries it had since the directory was last synced: a power loss
  // may bring any of them back. home tells whether the directory's own entry, in its parent, is durable.
  datatype Disk = Disk(nodes: map<nat, Node>, dir: map<string, nat>, stale: map<string, set<Option<nat>>>, home: Home)

  function Entry(d: Disk, name: string): Option<nat> {
    if name in d.dir then Some(d.dir[name]) else None
  }

  // The entries a name may revert to with its directory still there.
  function Held(d: Disk, name: string): set<Option<nat>> {
    {Entry(d, name)} + if name in d.stale then d.stale[name] else {}
  }

  function MayHold(d: Disk, name: string): set<Option<nat>> {
    Held(d, name) + if d.home.Anchored? then {} else {None}
  }

  function SetEntry(d: Disk, name: string, entry: Option<nat>): (d': Disk)
    ensures d'.nodes == d.nodes && d'.home == d.home
    ensures Entry(d', name) == entry && MayHold(d', name) == MayHold(d, name) + {entry}
    ensures forall other | other != name :: Entry(d', other) == Entry(d, other) && MayHold(d', other) == MayHold(d, other)
  {
    Disk(d.nodes,
         if entry.Some? then d.dir[name := entry.value] else d.dir - {name},
         d.stale[name := Held(d, name)], d.home)
  }

  ghost predicate Sound(d: Disk) {
    && (forall name, entry | entry in MayHold(d, name) && entry.Some? :: entry.value in d.nodes)
    && (d.home.Absent? ==> d.dir == map[] && d.stale == map[])
  }

  // A power loss: an unanchored directory may be gone; otherwise each name reverts to some entry it may hold. Data
  // that was not flushed may be torn.
  ghost predicate PowerLost(d: Disk, d': Disk) {
    && d'.stale == map[]
    && d'.nodes.Keys == d.nodes.Keys
    && (forall n | n in d.nodes :: d'.nodes[n].flushed && (d.nodes[n].flushed ==> d'.nodes[n].data == d.nodes[n].data))
    && if d'.home.Absent? then !d.home.Anchored? && d'.dir == map[]
       else d'.home.Anchored? && !d.home.Absent? && forall name :: Entry(d', name) in Held(d, name)
  }

  /******* The checkpoint on disk *******/

  // JSON encoding and decoding, of which only the round trip is used.
  datatype Codec = Codec(encode: State -> Bytes, decode: Bytes -> Option<State>)

  ghost predicate Faithful(codec: Codec) {
    forall st :: codec.decode(codec.encode(st)) == Some(st)
  }

  // What Load makes of an entry: no file is the empty state, and a file that does not decode is an error.
  function ReadEntry(codec: Codec, d: Disk, entry: Option<nat>): Option<State> {
    if entry.None? then Some(EMPTY)
    else if entry.value in d.nodes then codec.decode(d.nodes[entry.value].data)
    else None
  }

  // An entry that survives a power loss, and decodes.
  predicate Whole(codec: Codec, d: Disk, entry: Option<nat>) {
    && (entry.Some? ==> entry.value in d.nodes && d.nodes[entry.value].flushed)
    && ReadEntry(codec, d, entry).Some?
  }

  function StateOf(codec: Codec, d: Disk, entry: Option<nat>): State {
    var st := ReadEntry(codec, d, entry);
    if st.Some? then st.value else EMPTY
  }

  // The disk shows this checkpoint file: the abstraction the configure service works with.
  ghost predicate Shows(codec: Codec, d: Disk, path: string, f: File) {
    && (forall entry | entry in MayHold(d, path) :: Whole(codec, d, entry))
    && f == File(StateOf(codec, d, Entry(d, path)), set entry | entry in MayHold(d, path) :: StateOf(codec, d, entry), d.home)
  }

  lemma ShownIsPossible(codec: Codec, d: Disk, path: string, f: File)
    requires Sound(d) && Shows(codec, d, path, f)
    ensures Possible(f)
  {
    assert StateOf(codec, d, None) == EMPTY;
    assert !d.home.Anchored? ==> None in MayHold(d, path);
    assert d.home.Absent? ==> MayHold(d, path) == {None};
  }

  // A power loss of the disk is a power loss of the file it shows: an old or the new complete state, never a mixture.
  lemma PowerLostShows(codec: Codec, d: Disk, path: string, f: File, d': Disk)
    requires Sound(d) && Shows(codec, d, path, f) && PowerLost(d, d')
    ensures var st := StateOf(codec, d', Entry(d', path));
      PowerLoss(f, File(st, {st}, d'.home)) && Shows(codec, d', path, File(st, {st}, d'.home))
    ensures Sound(d')
  {
    var entry := Entry(d', path);
    assert entry in MayHold(d, path);
    assert MayHold(d', path) == {entry};
    assert StateOf(codec, d', entry) == StateOf(codec, d, entry);
    forall name, e | e in MayHold(d', name) && e.Some?
      ensures e.value in d'.nodes
    {
      assert e == Entry(d', name) && e in MayHold(d, name);
    }
  }
}
