/** The client's inode table (`inodes.rs`) as a value: the nodes the kernel knows, the names each was reached through, and
    the number each file goes by. */
module Nodes {
  import opened Files

  const ROOT: nat := 1
  /** One more than the largest inode number. */
  const LIMIT := 0x1_0000_0000_0000_0000
  /** The steps an alias chain may take, less one. */
  const MAX_DEPTH := PATH_MAX / 2

  datatype Alias = Alias(parent: nat, name: Name)

  /** What a reply tells of a file. */
  datatype Seen = Seen(ino: U64, identity: Identity, foreign: bool, kind: FileKind)
  {
    function Key(): KeyNode {
      KeyNode(ino, identity)
    }
  }

  datatype Node = Node(aliases: seq<Alias>, lookups: nat, key: Option<KeyNode>, unlinked: bool, kind: FileKind,
                       children: map<Name, nat>)

  datatype Table = Table(nodes: map<nat, Node>, byKey: map<KeyNode, nat>)
  {
    function With(id: nat, node: Node): Table {
      this.(nodes := nodes[id := node])
    }

    function Child(parent: nat, name: Name): Option<nat> {
      if parent in nodes && name in nodes[parent].children then Some(nodes[parent].children[name]) else None
    }

    function Aliases(id: nat): seq<Alias> {
      if id in nodes then nodes[id].aliases else []
    }
  }

  const EMPTY := Table(map[ROOT := Node([], 1, None, false, Directory, map[])], map[])

  // ---- Numbering ----

  /** The numbers a node other than the root may have. */
  predicate IsId(id: nat) {
    2 <= id < LIMIT
  }

  function LittleEndian(n: bv32): seq<bv8> {
    [(n & 0xff) as bv8, ((n >> 8) & 0xff) as bv8, ((n >> 16) & 0xff) as bv8, ((n >> 24) & 0xff) as bv8]
  }

  /** Exclusive or, of the lowest `bits` bits. */
  function Xor(a: nat, b: nat, bits: nat): nat {
    if bits == 0 then 0 else (if a % 2 == b % 2 then 0 else 1) + 2 * Xor(a / 2, b / 2, bits - 1)
  }

  /** One byte more, of 64-bit FNV-1a: the byte only reaches the hash's lowest, and the product wraps. */
  function Mix(hash: nat, byte: bv8): (mixed: nat)
    ensures mixed < LIMIT
  {
    (hash - hash % 256 + Xor(hash % 256, byte as nat, 8)) * 0x0000_0100_0000_01b3 % LIMIT
  }

  function Fnv(bytes: seq<bv8>): (hash: nat)
    ensures hash < LIMIT
  {
    if bytes == [] then 0xcbf2_9ce4_8422_2325 else Mix(Fnv(bytes[..|bytes| - 1]), bytes[|bytes| - 1])
  }

  function Substitute(identity: Identity): (id: nat)
    ensures IsId(id)
  {
    var hash := Fnv(LittleEndian(identity.handleType) + identity.handle);
    if hash < 2 then 2 else hash
  }

  /** The number probed after `id`. */
  function Successor(id: nat): (next: nat)
    requires IsId(id)
    ensures IsId(next)
  {
    if id + 1 == LIMIT then 2 else id + 1
  }

  /** How many probes lead from one number to another. */
  function Probes(from: nat, to: nat): nat
    requires IsId(from) && IsId(to)
  {
    if from <= to then to - from else LIMIT - 2 - (from - to)
  }

  /** Fewer nodes are remembered than there are numbers for them. */
  predicate Room(t: Table) {
    |t.nodes.Keys - {ROOT}| < LIMIT - 2
  }

  ghost function Below(n: nat): (ids: set<nat>)
    ensures |ids| == n
    ensures forall id: nat :: id in ids <==> id < n
  {
    if n == 0 then {} else var rest := Below(n - 1); assert n - 1 !in rest; rest + {n - 1}
  }

  lemma {:induction false} PartSize(part: set<nat>, whole: set<nat>)
    requires part <= whole
    ensures |part| <= |whole|
  {
    assert whole == part + (whole - part);
  }

  lemma FreeBelow(taken: set<nat>, limit: nat)
    requires limit >= 2 && |taken| < limit - 2
    ensures exists id :: 2 <= id < limit && id !in taken
  {
    var ids := Below(limit) - {0} - {1};
    if ids <= taken {
      PartSize(ids, taken);
    } else {
      var id :| id in ids && id !in taken;
      assert 2 <= id < limit;
    }
  }

  /** While there is room, some number is free. */
  lemma RoomMeansFree(t: Table)
    requires Room(t)
    ensures exists id :: IsId(id) && id !in t.nodes
  {
    FreeBelow(t.nodes.Keys - {ROOT}, LIMIT);
    var id :| 2 <= id < LIMIT && id !in t.nodes.Keys - {ROOT};
    assert IsId(id) && id !in t.nodes;
  }

  ghost function SomeFree(t: Table): (id: nat)
    requires Room(t)
    ensures IsId(id) && id !in t.nodes
  {
    RoomMeansFree(t);
    var id :| IsId(id) && id !in t.nodes;
    id
  }

  /** The first free number from `id` on, round the end. */
  ghost function FirstFree(t: Table, id: nat): (free: nat)
    requires Room(t) && IsId(id)
    ensures IsId(free) && free !in t.nodes
    decreases Probes(id, SomeFree(t))
  {
    if id in t.nodes then FirstFree(t, Successor(id)) else id
  }

  /** Whether a file is taken for the root. */
  predicate IsRoot(t: Table, seen: Seen)
    requires ROOT in t.nodes
  {
    seen.ino == ROOT && (t.nodes[ROOT].key.None? || t.nodes[ROOT].key.value.identity == seen.identity)
  }

  /** The number a reply's file is to go by. */
  ghost function IdFor(t: Table, seen: Seen): nat
    requires ROOT in t.nodes && Room(t)
  {
    if IsRoot(t, seen) then ROOT
    else if seen.Key() in t.byKey then t.byKey[seen.Key()]
    else if !seen.foreign && seen.ino > ROOT && seen.ino !in t.nodes then seen.ino
    else FirstFree(t, Substitute(seen.identity))
  }

  // ---- Edits ----

  function Without(aliases: seq<Alias>, alias: Alias): (kept: seq<Alias>)
    ensures forall a :: a in kept <==> a in aliases && a != alias
    ensures |kept| <= |aliases|
    ensures alias !in aliases ==> kept == aliases
  {
    if aliases == [] then []
    else
      var last := aliases[|aliases| - 1];
      assert aliases == aliases[..|aliases| - 1] + [last];
      Without(aliases[..|aliases| - 1], alias) + if last == alias then [] else [last]
  }

  function PutChild(t: Table, parent: nat, name: Name, id: nat): Table {
    if parent in t.nodes then t.With(parent, t.nodes[parent].(children := t.nodes[parent].children[name := id])) else t
  }

  function CutChild(t: Table, parent: nat, name: Name): Table {
    if parent in t.nodes then t.With(parent, t.nodes[parent].(children := t.nodes[parent].children - {name})) else t
  }

  /** The entry goes only if it is `id`'s. */
  function CutChildOf(t: Table, id: nat, alias: Alias): Table {
    if t.Child(alias.parent, alias.name) == Some(id) then CutChild(t, alias.parent, alias.name) else t
  }

  function DropAlias(t: Table, id: nat, parent: nat, name: Name): Table {
    if id in t.nodes then
      var kept := Without(t.nodes[id].aliases, Alias(parent, name));
      t.With(id, t.nodes[id].(aliases := kept, unlinked := kept == [] || t.nodes[id].unlinked))
    else t
  }

  /** `id`'s alias `from` becomes its newest alias `to`. */
  function MoveAlias(t: Table, id: nat, from: Alias, to: Alias): Table {
    if id in t.nodes then t.With(id, t.nodes[id].(aliases := Without(t.nodes[id].aliases, from) + [to])) else t
  }

  /** `id`, known or not yet, was seen once more, by `alias`. */
  function Count(t: Table, id: nat, alias: Alias, seen: Seen): Table {
    var node := if id in t.nodes then t.nodes[id] else Node([], 0, Some(seen.Key()), false, seen.kind, map[]);
    Table(t.nodes[id := node.(aliases := Without(node.aliases, alias) + [alias], lookups := node.lookups + 1,
                              unlinked := false, kind := seen.kind)],
          t.byKey[seen.Key() := id])
  }

  // ---- Operations ----

  /** The table once `parent/name` is `id`'s entry, and no longer another's alias. */
  function Replaced(t: Table, parent: nat, name: Name, id: nat): Table {
    var previous := t.Child(parent, name);
    var put := PutChild(t, parent, name, id);
    if previous.Some? && previous != Some(id) then DropAlias(put, previous.value, parent, name) else put
  }

  /** A name was answered with a file. */
  ghost function Lookup(t: Table, parent: nat, name: Name, seen: Seen): Table
    requires ROOT in t.nodes && Room(t)
  {
    var id := IdFor(t, seen);
    if id == ROOT then t else Count(Replaced(t, parent, name, id), id, Alias(parent, name), seen)
  }

  function RootSeen(t: Table, identity: Identity): Table
    requires ROOT in t.nodes
  {
    t.With(ROOT, t.nodes[ROOT].(key := Some(KeyNode(ROOT, identity))))
  }

  /** The entries of `aliases` that are `id`'s go from their directories. */
  function CutChildrenOf(t: Table, id: nat, aliases: seq<Alias>): Table {
    if aliases == [] then t
    else CutChildOf(CutChildrenOf(t, id, aliases[..|aliases| - 1]), id, aliases[|aliases| - 1])
  }

  /** The node goes with its number, its key and its entries. */
  function Removed(t: Table, id: nat): Table
    requires id in t.nodes
  {
    var node := t.nodes[id];
    CutChildrenOf(Table(t.nodes - {id}, if node.key.Some? then t.byKey - {node.key.value} else t.byKey),
                  id, node.aliases)
  }

  function Sub(n: nat, m: nat): nat {
    if n < m then 0 else n - m
  }

  /** Whether `n` lookups fewer leave `id` none. */
  predicate Forgotten(t: Table, id: nat, n: nat) {
    id != ROOT && id in t.nodes && Sub(t.nodes[id].lookups, n) == 0
  }

  /** Lookups are given back; the last takes the node with it. */
  function Forget(t: Table, id: nat, n: nat): Table {
    if id == ROOT || id !in t.nodes then t
    else if Forgotten(t, id, n) then Removed(t, id)
    else t.With(id, t.nodes[id].(lookups := Sub(t.nodes[id].lookups, n)))
  }

  function Unlink(t: Table, parent: nat, name: Name): Table {
    match t.Child(parent, name)
    case Some(child) => DropAlias(CutChild(t, parent, name), child, parent, name)
    case None => t
  }

  /** Whether a rename does anything to the table: the name is known, and the target is not the same node. */
  predicate Renames(t: Table, from: Alias, to: Alias) {
    t.Child(from.parent, from.name).Some? && t.Child(to.parent, to.name) != t.Child(from.parent, from.name)
  }

  /** The directories once `child`'s entry has moved. */
  function Entered(t: Table, from: Alias, to: Alias, child: nat): Table {
    PutChild(CutChild(t, from.parent, from.name), to.parent, to.name, child)
  }

  function Rename(t: Table, from: Alias, to: Alias): Table {
    if !Renames(t, from, to) then t
    else
      var child := t.Child(from.parent, from.name).value;
      var replaced := CutChild(t, from.parent, from.name).Child(to.parent, to.name);
      var entered := Entered(t, from, to, child);
      var dropped := if replaced.Some? then DropAlias(entered, replaced.value, to.parent, to.name) else entered;
      MoveAlias(dropped, child, from, to)
  }

  /** The directories once the entries of `a` and `b` have swapped. */
  function Swapped(t: Table, one: Alias, other: Alias, a: nat, b: nat): Table {
    PutChild(PutChild(t, one.parent, one.name, b), other.parent, other.name, a)
  }

  /** Each of two entries takes the other's node. */
  function Exchange(t: Table, one: Alias, other: Alias): Table {
    var a, b := t.Child(one.parent, one.name), t.Child(other.parent, other.name);
    if a.None? || b.None? then Unlink(Unlink(t, one.parent, one.name), other.parent, other.name)
    else if a == b then t
    else
      MoveAlias(MoveAlias(Swapped(t, one, other, a.value, b.value), a.value, one, other), b.value, other, one)
  }

  // ---- Paths ----

  /** Names that spell a way down to `id` of at most `steps` steps, later aliases tried before earlier ones. */
  function NamesTo(t: Table, id: nat, steps: nat): Option<seq<Name>>
    decreases steps, 0
  {
    if id == ROOT then Some([])
    else if steps == 0 then None
    else NamesThrough(t, t.Aliases(id), steps)
  }

  /** The names through the newest of `aliases` whose directory can be reached in `steps - 1` steps. */
  function NamesThrough(t: Table, aliases: seq<Alias>, steps: nat): Option<seq<Name>>
    requires steps > 0
    decreases steps - 1, |aliases| + 1
  {
    if aliases == [] then None
    else
      var last := aliases[|aliases| - 1];
      var names := NamesTo(t, last.parent, steps - 1);
      if names.Some? then Some(names.value + [last.name]) else NamesThrough(t, aliases[..|aliases| - 1], steps)
  }

  /** A chain from depth zero may take one step more than `MAX_DEPTH`. */
  const STEPS := MAX_DEPTH + 1

  function PathOf(t: Table, id: nat): Option<seq<Name>> {
    var names := NamesTo(t, id, STEPS);
    if names.Some? && IsPath(names.value) then names else None
  }

  function ResolveFrom(t: Table, from: nat, names: seq<Name>): Option<nat>
    decreases |names|
  {
    if names == [] then Some(from)
    else
      var next := t.Child(from, names[0]);
      if next.Some? then ResolveFrom(t, next.value, names[1..]) else None
  }

  /** Walk down the entries by name. */
  function Resolve(t: Table, names: seq<Name>): Option<nat> {
    ResolveFrom(t, ROOT, names)
  }

  /** Whether `path` is the alias's own name after the names to its directory. */
  predicate LeadsTo(t: Table, alias: Alias, path: seq<Name>)
    requires path != []
  {
    alias.name == path[|path| - 1] && NamesTo(t, alias.parent, STEPS) == Some(path[..|path| - 1])
  }

  /** The newest of `aliases` that `path` leads to. */
  function AliasOf(t: Table, aliases: seq<Alias>, path: seq<Name>): (at: Option<nat>)
    requires path != []
    ensures at.Some? ==> at.value < |aliases| && LeadsTo(t, aliases[at.value], path)
    ensures forall i | 0 <= i < |aliases| && (at.Some? ==> at.value < i) :: !LeadsTo(t, aliases[i], path)
  {
    if aliases == [] then None
    else if LeadsTo(t, aliases[|aliases| - 1], path) then Some(|aliases| - 1)
    else AliasOf(t, aliases[..|aliases| - 1], path)
  }

  /** The alias that `AliasWasWrong` forgets, by its place. */
  function Wrong(t: Table, id: nat, path: seq<Name>): (at: Option<nat>)
    ensures at.Some? ==> id in t.nodes && at.value < |t.nodes[id].aliases|
  {
    if path == [] || id !in t.nodes then None else AliasOf(t, t.nodes[id].aliases, path)
  }

  function RemoveAt<T>(s: seq<T>, at: nat): seq<T>
    requires at < |s|
  {
    s[..at] + s[at + 1..]
  }

  function ForgetAlias(t: Table, id: nat, at: nat): Table
    requires id in t.nodes && at < |t.nodes[id].aliases|
  {
    var kept := RemoveAt(t.nodes[id].aliases, at);
    CutChildOf(t.With(id, t.nodes[id].(aliases := kept, unlinked := kept == [] || t.nodes[id].unlinked)),
               id, t.nodes[id].aliases[at])
  }

  /** The path taken for `id` was another file's. */
  function AliasWasWrong(t: Table, id: nat, path: seq<Name>): Table {
    var at := Wrong(t, id, path);
    if at.Some? then ForgetAlias(t, id, at.value) else t
  }

  // ---- Runs ----

  datatype Op =
    | OpLookup(parent: nat, name: Name, seen: Seen)
    | OpRootSeen(identity: Identity)
    | OpForget(id: nat, n: nat)
    | OpUnlink(parent: nat, name: Name)
    | OpRename(from: Alias, to: Alias)
    | OpExchange(from: Alias, to: Alias)
    | OpWrongAlias(id: nat, path: seq<Name>)

  predicate Allowed(t: Table, op: Op) {
    ROOT in t.nodes && (op.OpLookup? ==> Room(t))
  }

  ghost function Apply(t: Table, op: Op): Table
    requires Allowed(t, op)
  {
    match op
    case OpLookup(parent, name, seen) => Lookup(t, parent, name, seen)
    case OpRootSeen(identity) => RootSeen(t, identity)
    case OpForget(id, n) => Forget(t, id, n)
    case OpUnlink(parent, name) => Unlink(t, parent, name)
    case OpRename(from, to) => Rename(t, from, to)
    case OpExchange(one, other) => Exchange(t, one, other)
    case OpWrongAlias(id, path) => AliasWasWrong(t, id, path)
  }

  ghost predicate IsRun(tables: seq<Table>, ops: seq<Op>) {
    && |tables| == |ops| + 1
    && tables[0] == EMPTY
    && (forall i | 0 <= i < |ops| :: Allowed(tables[i], ops[i]) && tables[i + 1] == Apply(tables[i], ops[i]))
  }
}
