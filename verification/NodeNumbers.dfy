/** The numbers files go by: unique, and each file's own from its first lookup until the forget that takes back the last of
    them. Only a file with the root's own number is left out, since it may turn out to be the root. */
module NodeNumbers {
  import opened Files
  import opened Nodes
  import opened NodeInvariant

  /** Probing skips no free number. */
  lemma {:induction false} FirstFreeIsFirst(t: Table, start: nat, id: nat)
    requires Room(t) && IsId(start) && IsId(id)
    requires Probes(start, id) < Probes(start, FirstFree(t, start))
    ensures id in t.nodes
    decreases Probes(start, FirstFree(t, start))
  {
    if id != start {
      FirstFreeIsFirst(t, Successor(start), id);
    }
  }

  /** A number is free to a file, or the file's own, whatever the table holds. */
  lemma NumberIsFree(t: Table, seen: Seen)
    requires Inv(t) && Room(t)
    ensures var id := IdFor(t, seen);
      id == ROOT || (IsId(id) && (id in t.nodes ==> t.nodes[id].key == Some(seen.Key())))
  {
    if IdFor(t, seen) != ROOT {
      IdForFits(t, seen);
    }
  }

  /** Two remembered files never share a number, over every run. */
  lemma UniqueNumbers(tables: seq<Table>, ops: seq<Op>, i: nat, one: KeyNode, other: KeyNode)
    requires IsRun(tables, ops) && i < |tables|
    requires one in tables[i].byKey && other in tables[i].byKey && tables[i].byKey[one] == tables[i].byKey[other]
    ensures one == other
  {
    RunKeeps(tables, ops, i);
    assert KeyAt(tables[i], one) && KeyAt(tables[i], other);
  }

  /** What an operation does to the net lookups of the file with `key` and number `id`. */
  function Change(op: Op, key: KeyNode, id: nat): int {
    match op
    case OpLookup(_, _, seen) => if seen.Key() == key then 1 else 0
    case OpForget(d, n) => 0 - (if d == id then n else 0)
    case _ => 0
  }

  lemma LookupStable(t: Table, parent: nat, name: Name, seen: Seen, key: KeyNode)
    requires Inv(t) && Room(t) && key in t.byKey && key.ino != ROOT
    ensures var id, t' := t.byKey[key], Lookup(t, parent, name, seen);
      && key in t'.byKey && t'.byKey[key] == id && id in t.nodes && id in t'.nodes
      && t'.nodes[id].lookups == t.nodes[id].lookups + (if seen.Key() == key then 1 else 0)
  {
    var id := IdFor(t, seen);
    assert KeyAt(t, key);
    if id != ROOT {
      IdForFits(t, seen);
      ReplacedKeeps(t, parent, name, id);
    }
  }

  lemma ForgetStable(t: Table, d: nat, n: nat, key: KeyNode)
    requires Inv(t) && key in t.byKey
    ensures var id, t' := t.byKey[key], Forget(t, d, n);
      && id in t.nodes
      && (if d == id && t.nodes[id].lookups <= n then key !in t'.byKey && id !in t'.nodes
          else key in t'.byKey && t'.byKey[key] == id && id in t'.nodes
               && t'.nodes[id].lookups == t.nodes[id].lookups - (if d == id then n else 0))
  {
    assert KeyAt(t, key);
    if Forgotten(t, d, n) {
      assert NodeKeyed(t, d);
      var gone := Table(t.nodes - {d}, t.byKey - {t.nodes[d].key.value});
      CutForEach(gone, d, t.nodes[d].aliases);
    }
  }

  /** One operation changes a file's net lookups as it says, keeps its number while they last, and forgets it then. */
  lemma StepStable(t: Table, op: Op, key: KeyNode)
    requires Inv(t) && Allowed(t, op) && key in t.byKey && key.ino != ROOT
    ensures var id, t' := t.byKey[key], Apply(t, op);
      && id in t.nodes
      && (if t.nodes[id].lookups + Change(op, key, id) <= 0 then key !in t'.byKey && id !in t'.nodes
          else key in t'.byKey && t'.byKey[key] == id && id in t'.nodes
               && t'.nodes[id].lookups == t.nodes[id].lookups + Change(op, key, id))
  {
    assert KeyAt(t, key) && NodeKeyed(t, t.byKey[key]);
    match op
    case OpLookup(parent, name, seen) => LookupStable(t, parent, name, seen, key);
    case OpRootSeen(identity) =>
    case OpForget(id, n) => ForgetStable(t, id, n, key);
    case OpUnlink(parent, name) => UnlinkKeeps(t, parent, name);
    case OpRename(from, to) => RenameKeeps(t, from, to);
    case OpExchange(one, other) => ExchangeKeeps(t, one, other);
    case OpWrongAlias(id, path) => WrongAliasKeeps(t, id, path);
  }

  /** The net lookups of a file after `ops[i..j]`, from `count` before them: what the kernel was told, less what it
      forgot. */
  function NetLookups(count: int, ops: seq<Op>, key: KeyNode, id: nat, i: nat, j: nat): int
    requires i <= j <= |ops|
    decreases j
  {
    if i == j then count else NetLookups(count, ops, key, id, i, j - 1) + Change(ops[j - 1], key, id)
  }

  /** The net lookups never run out over `ops[i..j]`. */
  predicate Lasting(count: int, ops: seq<Op>, key: KeyNode, id: nat, i: nat, j: nat)
    requires i <= j <= |ops|
    decreases j
  {
    NetLookups(count, ops, key, id, i, j) > 0 && (i < j ==> Lasting(count, ops, key, id, i, j - 1))
  }

  /** A file keeps its number while its net lookups last, and its node counts exactly those. */
  lemma {:induction false} StableNumber(tables: seq<Table>, ops: seq<Op>, key: KeyNode, i: nat, j: nat)
    requires IsRun(tables, ops) && i <= j < |tables| && key in tables[i].byKey && key.ino != ROOT
    requires tables[i].byKey[key] in tables[i].nodes
    requires var id := tables[i].byKey[key]; Lasting(tables[i].nodes[id].lookups, ops, key, id, i, j)
    ensures var id := tables[i].byKey[key];
      && key in tables[j].byKey && tables[j].byKey[key] == id && id in tables[j].nodes
      && tables[j].nodes[id].lookups == NetLookups(tables[i].nodes[id].lookups, ops, key, id, i, j)
  {
    if i < j {
      StableNumber(tables, ops, key, i, j - 1);
      RunKeeps(tables, ops, j - 1);
      StepStable(tables[j - 1], ops[j - 1], key);
    }
  }

  /** The operation that takes a file's net lookups to nothing forgets it, and its number is free. */
  lemma {:induction false} ForgottenAtZero(tables: seq<Table>, ops: seq<Op>, key: KeyNode, i: nat, j: nat)
    requires IsRun(tables, ops) && i < j < |tables| && key in tables[i].byKey && key.ino != ROOT
    requires tables[i].byKey[key] in tables[i].nodes
    requires var id := tables[i].byKey[key];
      && Lasting(tables[i].nodes[id].lookups, ops, key, id, i, j - 1)
      && NetLookups(tables[i].nodes[id].lookups, ops, key, id, i, j) <= 0
    ensures key !in tables[j].byKey && tables[i].byKey[key] !in tables[j].nodes
  {
    StableNumber(tables, ops, key, i, j - 1);
    RunKeeps(tables, ops, j - 1);
    StepStable(tables[j - 1], ops[j - 1], key);
  }

  /** The first lookup of a file gives it a number and one lookup. */
  lemma FirstLookup(t: Table, parent: nat, name: Name, seen: Seen)
    requires Inv(t) && Room(t) && seen.ino != ROOT && seen.Key() !in t.byKey
    ensures var id, t' := IdFor(t, seen), Lookup(t, parent, name, seen);
      && id !in t.nodes && id in t'.nodes && t'.nodes[id].lookups == 1
      && seen.Key() in t'.byKey && t'.byKey[seen.Key()] == id
  {
    IdForFits(t, seen);
    ReplacedKeeps(t, parent, name, IdFor(t, seen));
  }
}
