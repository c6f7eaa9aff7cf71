/** What every operation on the inode table keeps: the directory entries, the aliases and the numbering agree. Aliases may
    dangle, since the kernel forgets a directory whose children it still holds, so the agreement is one-sided: every entry
    has its alias, and not the other way about. */
module NodeInvariant {
  import opened Files
  import opened Nodes

  // ---- The numbering ----

  ghost predicate NodeKeyed(t: Table, id: nat)
    requires id in t.nodes
  {
    var node := t.nodes[id];
    IsId(id) && node.lookups > 0 && node.key.Some? && node.key.value in t.byKey && t.byKey[node.key.value] == id
  }

  ghost predicate KeyAt(t: Table, key: KeyNode)
    requires key in t.byKey
  {
    var id := t.byKey[key];
    id != ROOT && id in t.nodes && t.nodes[id].key == Some(key)
  }

  /** `byKey` is the inverse of the keys of the nodes other than the root, whose numbers the kernel does not reserve. */
  ghost predicate Keyed(t: Table) {
    && (forall id | id in t.nodes && id != ROOT :: NodeKeyed(t, id))
    && (forall key | key in t.byKey :: KeyAt(t, key))
  }

  // ---- The names ----

  ghost predicate NamedAt(t: Table, id: nat)
    requires id in t.nodes
  {
    t.nodes[id].unlinked <==> id != ROOT && t.nodes[id].aliases == []
  }

  /** A node other than the root is unlinked exactly when it has no alias; the root never has one. */
  ghost predicate Named(t: Table) {
    && ROOT in t.nodes
    && t.nodes[ROOT].aliases == []
    && (forall id | id in t.nodes :: NamedAt(t, id))
  }

  /** The entry is of a remembered node other than the root that has the matching alias, unless it is among `but`. */
  ghost predicate LinkAt(t: Table, but: set<Alias>, parent: nat, name: Name)
    requires parent in t.nodes && name in t.nodes[parent].children
  {
    var child := t.nodes[parent].children[name];
    child != ROOT && (Alias(parent, name) in but || (child in t.nodes && Alias(parent, name) in t.nodes[child].aliases))
  }

  ghost predicate Linked(t: Table, but: set<Alias>) {
    forall parent, name | parent in t.nodes && name in t.nodes[parent].children :: LinkAt(t, but, parent, name)
  }

  ghost predicate Inv(t: Table) {
    Keyed(t) && Named(t) && Linked(t, {})
  }

  // ---- Edits ----

  /** The nodes are the same, and each has the same key and lookups. */
  ghost predicate SameKeys(t: Table, t': Table) {
    && t'.nodes.Keys == t.nodes.Keys
    && t'.byKey == t.byKey
    && (forall id | id in t.nodes :: t'.nodes[id].key == t.nodes[id].key && t'.nodes[id].lookups == t.nodes[id].lookups)
  }

  lemma SameKeyed(t: Table, t': Table)
    requires Keyed(t) && SameKeys(t, t')
    ensures Keyed(t')
  {
    forall id | id in t'.nodes && id != ROOT ensures NodeKeyed(t', id) {
      assert NodeKeyed(t, id);
    }
    forall key | key in t'.byKey ensures KeyAt(t', key) {
      assert KeyAt(t, key);
    }
  }

  lemma PutKeeps(t: Table, but: set<Alias>, parent: nat, name: Name, id: nat)
    requires Named(t) && Linked(t, but) && id != ROOT
    ensures var t' := PutChild(t, parent, name, id);
      Named(t') && Linked(t', but + {Alias(parent, name)}) && SameKeys(t, t')
  {
    var t' := PutChild(t, parent, name, id);
    forall d | d in t'.nodes ensures NamedAt(t', d) {
      assert NamedAt(t, d);
    }
    forall p, n | p in t'.nodes && n in t'.nodes[p].children ensures LinkAt(t', but + {Alias(parent, name)}, p, n) {
      assert Alias(p, n) != Alias(parent, name) ==> LinkAt(t, but, p, n);
    }
  }

  lemma CutKeeps(t: Table, but: set<Alias>, parent: nat, name: Name)
    requires Named(t) && Linked(t, but)
    ensures var t' := CutChild(t, parent, name); Named(t') && Linked(t', but) && SameKeys(t, t')
  {
    var t' := CutChild(t, parent, name);
    forall d | d in t'.nodes ensures NamedAt(t', d) {
      assert NamedAt(t, d);
    }
    forall p, n | p in t'.nodes && n in t'.nodes[p].children ensures LinkAt(t', but, p, n) {
      assert LinkAt(t, but, p, n);
    }
  }

  /** A node loses aliases: those of the entries that are not its own. */
  lemma AliasesKeep(t: Table, but: set<Alias>, id: nat, aliases: seq<Alias>, unlinked: bool)
    requires Named(t) && Linked(t, but) && id in t.nodes
    requires if id == ROOT then aliases == [] && !unlinked else unlinked == (aliases == [])
    requires forall a | a in t.nodes[id].aliases && a !in aliases :: a in but || t.Child(a.parent, a.name) != Some(id)
    ensures var t' := t.With(id, t.nodes[id].(aliases := aliases, unlinked := unlinked));
      Named(t') && Linked(t', but) && SameKeys(t, t')
  {
    var t' := t.With(id, t.nodes[id].(aliases := aliases, unlinked := unlinked));
    forall d | d in t'.nodes ensures NamedAt(t', d) {
      assert NamedAt(t, d);
    }
    forall p, n | p in t'.nodes && n in t'.nodes[p].children ensures LinkAt(t', but, p, n) {
      assert LinkAt(t, but, p, n);
      assert t.Child(p, n) == Some(t.nodes[p].children[n]);
    }
  }

  lemma DropKeeps(t: Table, but: set<Alias>, id: nat, parent: nat, name: Name)
    requires Named(t) && Linked(t, but) && id != ROOT
    requires Alias(parent, name) in but || t.Child(parent, name) != Some(id)
    ensures var t' := DropAlias(t, id, parent, name); Named(t') && Linked(t', but) && SameKeys(t, t')
  {
    if id in t.nodes {
      assert NamedAt(t, id);
      AliasesKeep(t, but, id, Without(t.nodes[id].aliases, Alias(parent, name)),
                  Without(t.nodes[id].aliases, Alias(parent, name)) == [] || t.nodes[id].unlinked);
    }
  }

  /** A node's entry that was excused has its alias now. */
  lemma ExcuseOver(t: Table, but: set<Alias>, alias: Alias)
    requires Linked(t, but)
    requires var child := t.Child(alias.parent, alias.name);
      child.Some? ==> child.value in t.nodes && alias in t.nodes[child.value].aliases
    ensures Linked(t, but - {alias})
  {
    forall p, n | p in t.nodes && n in t.nodes[p].children ensures LinkAt(t, but - {alias}, p, n) {
      assert LinkAt(t, but, p, n);
      assert t.Child(p, n) == Some(t.nodes[p].children[n]);
    }
  }

  lemma MoveKeeps(t: Table, but: set<Alias>, id: nat, from: Alias, to: Alias)
    requires Named(t) && Linked(t, but) && id in t.nodes && id != ROOT && t.nodes[id].aliases != []
    requires from in but || t.Child(from.parent, from.name) != Some(id)
    requires t.Child(to.parent, to.name) in {None, Some(id)}
    ensures var t' := MoveAlias(t, id, from, to); Named(t') && Linked(t', but - {to}) && SameKeys(t, t')
  {
    assert NamedAt(t, id);
    AliasesKeep(t, but, id, Without(t.nodes[id].aliases, from) + [to], false);
    ExcuseOver(MoveAlias(t, id, from, to), but, to);
  }

  // ---- Operations ----

  lemma UnlinkKeeps(t: Table, parent: nat, name: Name)
    requires Inv(t)
    ensures Inv(Unlink(t, parent, name)) && SameKeys(t, Unlink(t, parent, name))
  {
    var child := t.Child(parent, name);
    if child.Some? {
      assert LinkAt(t, {}, parent, name);
      CutKeeps(t, {}, parent, name);
      DropKeeps(CutChild(t, parent, name), {}, child.value, parent, name);
      SameKeyed(t, Unlink(t, parent, name));
    }
  }

  /** Every node has the aliases it had. */
  ghost predicate SameAliases(t: Table, t': Table) {
    t'.nodes.Keys == t.nodes.Keys && (forall id | id in t.nodes :: t'.nodes[id].aliases == t.nodes[id].aliases)
  }

  lemma EnteredIs(t: Table, from: Alias, to: Alias, child: nat)
    requires Renames(t, from, to) && t.Child(from.parent, from.name) == Some(child)
    ensures var t' := Entered(t, from, to, child);
      && SameAliases(t, t')
      && t'.Child(from.parent, from.name) != Some(child)
      && t'.Child(to.parent, to.name) == if to.parent in t.nodes then Some(child) else None
    ensures CutChild(t, from.parent, from.name).Child(to.parent, to.name) == t.Child(to.parent, to.name)
  {
  }

  lemma EnteredKeeps(t: Table, from: Alias, to: Alias, child: nat)
    requires Inv(t) && Renames(t, from, to) && t.Child(from.parent, from.name) == Some(child)
    ensures var t' := Entered(t, from, to, child); Named(t') && Linked(t', {to}) && SameKeys(t, t')
    ensures child != ROOT && child in t.nodes && from in t.nodes[child].aliases
  {
    assert LinkAt(t, {}, from.parent, from.name);
    CutKeeps(t, {}, from.parent, from.name);
    PutKeeps(CutChild(t, from.parent, from.name), {}, to.parent, to.name, child);
    assert {} + {to} == {to};
  }

  lemma RenameKeeps(t: Table, from: Alias, to: Alias)
    requires Inv(t)
    ensures Inv(Rename(t, from, to)) && SameKeys(t, Rename(t, from, to))
  {
    if Renames(t, from, to) {
      var child, replaced := t.Child(from.parent, from.name).value, t.Child(to.parent, to.name);
      var entered := Entered(t, from, to, child);
      EnteredIs(t, from, to, child);
      EnteredKeeps(t, from, to, child);
      var dropped := if replaced.Some? then DropAlias(entered, replaced.value, to.parent, to.name) else entered;
      if replaced.Some? {
        assert LinkAt(t, {}, to.parent, to.name);
        DropKeeps(entered, {to}, replaced.value, to.parent, to.name);
      }
      MovedKeeps(t, dropped, child, from, to);
    }
  }

  /** The last step of a rename. */
  lemma MovedKeeps(t: Table, dropped: Table, child: nat, from: Alias, to: Alias)
    requires Keyed(t) && SameKeys(t, dropped)
    requires Named(dropped) && Linked(dropped, {to})
    requires child in dropped.nodes && child != ROOT && dropped.nodes[child].aliases != []
    requires dropped.Child(from.parent, from.name) != Some(child)
    requires dropped.Child(to.parent, to.name) in {None, Some(child)}
    ensures var t' := MoveAlias(dropped, child, from, to); Inv(t') && SameKeys(t, t')
  {
    MoveKeeps(dropped, {to}, child, from, to);
    assert {to} - {to} == {};
    SameKeyed(t, MoveAlias(dropped, child, from, to));
  }

  lemma SwappedIs(t: Table, one: Alias, other: Alias, a: nat, b: nat)
    requires a != b
    requires t.Child(one.parent, one.name) == Some(a) && t.Child(other.parent, other.name) == Some(b)
    ensures var t' := Swapped(t, one, other, a, b);
      && SameAliases(t, t')
      && t'.Child(one.parent, one.name) == Some(b) && t'.Child(other.parent, other.name) == Some(a)
  {
  }

  lemma SwappedKeeps(t: Table, one: Alias, other: Alias, a: nat, b: nat)
    requires Inv(t)
    requires t.Child(one.parent, one.name) == Some(a) && t.Child(other.parent, other.name) == Some(b)
    ensures var t' := Swapped(t, one, other, a, b); Named(t') && Linked(t', {one, other}) && SameKeys(t, t')
    ensures a != ROOT && a in t.nodes && one in t.nodes[a].aliases
    ensures b != ROOT && b in t.nodes && other in t.nodes[b].aliases
  {
    assert LinkAt(t, {}, one.parent, one.name) && LinkAt(t, {}, other.parent, other.name);
    PutKeeps(t, {}, one.parent, one.name, b);
    assert {} + {one} == {one} && {one} + {other} == {one, other};
    PutKeeps(PutChild(t, one.parent, one.name, b), {one}, other.parent, other.name, a);
  }

  lemma ExchangeKeeps(t: Table, one: Alias, other: Alias)
    requires Inv(t)
    ensures Inv(Exchange(t, one, other)) && SameKeys(t, Exchange(t, one, other))
  {
    var a, b := t.Child(one.parent, one.name), t.Child(other.parent, other.name);
    if a.None? || b.None? {
      UnlinkKeeps(t, one.parent, one.name);
      UnlinkKeeps(Unlink(t, one.parent, one.name), other.parent, other.name);
    } else if a != b {
      var swapped := Swapped(t, one, other, a.value, b.value);
      SwappedIs(t, one, other, a.value, b.value);
      SwappedKeeps(t, one, other, a.value, b.value);
      MoveKeeps(swapped, {one, other}, a.value, one, other);
      assert {one, other} - {other} == {one};
      MovedKeeps(t, MoveAlias(swapped, a.value, one, other), b.value, other, one);
    }
  }

  lemma WrongAliasKeeps(t: Table, id: nat, path: seq<Name>)
    requires Inv(t)
    ensures Inv(AliasWasWrong(t, id, path)) && SameKeys(t, AliasWasWrong(t, id, path))
  {
    var at := Wrong(t, id, path);
    if at.Some? {
      ForgetAliasKeeps(t, id, at.value);
    }
  }

  lemma LessLinked(t: Table, but: set<Alias>, alias: Alias)
    requires Linked(t, but)
    ensures Linked(t, but + {alias})
  {
    forall p, n | p in t.nodes && n in t.nodes[p].children ensures LinkAt(t, but + {alias}, p, n) {
      assert LinkAt(t, but, p, n);
    }
  }

  /** `id` has lost `alias`, and then its entry goes, if it is `id`'s. */
  lemma CutOfKeeps(t: Table, lost: Table, id: nat, alias: Alias)
    requires Linked(t, {}) && id in t.nodes && id in lost.nodes
    requires lost == t.With(id, lost.nodes[id]) && lost.nodes[id].children == t.nodes[id].children
    requires Named(lost) && Linked(lost, {alias})
    ensures var t' := CutChildOf(lost, id, alias); Named(t') && Linked(t', {}) && SameKeys(lost, t')
  {
    assert lost.Child(alias.parent, alias.name) == t.Child(alias.parent, alias.name);
    if lost.Child(alias.parent, alias.name) == Some(id) {
      CutKeeps(lost, {alias}, alias.parent, alias.name);
    } else {
      assert t.Child(alias.parent, alias.name).Some? ==> LinkAt(t, {}, alias.parent, alias.name);
    }
    ExcuseOver(CutChildOf(lost, id, alias), {alias}, alias);
    assert {alias} - {alias} == {};
  }

  lemma ForgetAliasKeeps(t: Table, id: nat, at: nat)
    requires Inv(t) && id in t.nodes && at < |t.nodes[id].aliases|
    ensures Inv(ForgetAlias(t, id, at)) && SameKeys(t, ForgetAlias(t, id, at))
  {
    var aliases := t.nodes[id].aliases;
    var alias, kept := aliases[at], RemoveAt(aliases, at);
    assert NamedAt(t, id);
    assert forall a | a in aliases && a !in kept :: a == alias;
    LessLinked(t, {}, alias);
    assert {} + {alias} == {alias};
    AliasesKeep(t, {alias}, id, kept, kept == [] || t.nodes[id].unlinked);
    CutOfKeeps(t, t.With(id, t.nodes[id].(aliases := kept, unlinked := kept == [] || t.nodes[id].unlinked)), id, alias);
    SameKeyed(t, ForgetAlias(t, id, at));
  }

  lemma RootSeenKeeps(t: Table, identity: Identity)
    requires Inv(t)
    ensures Inv(RootSeen(t, identity))
  {
    var t' := RootSeen(t, identity);
    forall id | id in t'.nodes && id != ROOT ensures NodeKeyed(t', id) {
      assert NodeKeyed(t, id);
    }
    forall key | key in t'.byKey ensures KeyAt(t', key) {
      assert KeyAt(t, key);
    }
    forall id | id in t'.nodes ensures NamedAt(t', id) {
      assert NamedAt(t, id);
    }
    forall p, n | p in t'.nodes && n in t'.nodes[p].children ensures LinkAt(t', {}, p, n) {
      assert LinkAt(t, {}, p, n);
    }
  }

  // ---- Lookups ----

  /** The number a file gets is its own, or free. */
  lemma IdForFits(t: Table, seen: Seen)
    requires Keyed(t) && ROOT in t.nodes && Room(t) && IdFor(t, seen) != ROOT
    ensures var id := IdFor(t, seen);
      && IsId(id)
      && (if seen.Key() in t.byKey then t.byKey[seen.Key()] == id && id in t.nodes && t.nodes[id].key == Some(seen.Key())
          else id !in t.nodes)
  {
    if seen.Key() in t.byKey {
      assert KeyAt(t, seen.Key());
      assert NodeKeyed(t, IdFor(t, seen));
    }
  }

  lemma CountKeyed(t: Table, id: nat, alias: Alias, seen: Seen)
    requires Keyed(t) && IsId(id)
    requires if seen.Key() in t.byKey then t.byKey[seen.Key()] == id else id !in t.nodes
    ensures Keyed(Count(t, id, alias, seen))
  {
    var t' := Count(t, id, alias, seen);
    assert seen.Key() in t.byKey ==> KeyAt(t, seen.Key());
    forall d | d in t'.nodes && d != ROOT ensures NodeKeyed(t', d) {
      assert d in t.nodes ==> NodeKeyed(t, d);
    }
    forall key | key in t'.byKey ensures KeyAt(t', key) {
      assert key in t.byKey ==> KeyAt(t, key);
    }
  }

  lemma CountNamed(t: Table, id: nat, alias: Alias, seen: Seen)
    requires Named(t) && Linked(t, {alias}) && id != ROOT
    requires t.Child(alias.parent, alias.name) in {None, Some(id)}
    ensures Named(Count(t, id, alias, seen)) && Linked(Count(t, id, alias, seen), {})
  {
    var t' := Count(t, id, alias, seen);
    forall d | d in t'.nodes ensures NamedAt(t', d) {
      assert d in t.nodes ==> NamedAt(t, d);
    }
    forall p, n | p in t'.nodes && n in t'.nodes[p].children ensures LinkAt(t', {}, p, n) {
      assert LinkAt(t, {alias}, p, n);
      assert t.Child(p, n) == Some(t.nodes[p].children[n]);
    }
  }

  lemma ReplacedKeeps(t: Table, parent: nat, name: Name, id: nat)
    requires Inv(t) && id != ROOT
    ensures var t' := Replaced(t, parent, name, id);
      && Named(t') && Linked(t', {Alias(parent, name)}) && SameKeys(t, t')
      && t'.Child(parent, name) == if parent in t.nodes then Some(id) else None
  {
    var previous, put := t.Child(parent, name), PutChild(t, parent, name, id);
    PutKeeps(t, {}, parent, name, id);
    assert {} + {Alias(parent, name)} == {Alias(parent, name)};
    if previous.Some? && previous != Some(id) {
      assert LinkAt(t, {}, parent, name);
      DropKeeps(put, {Alias(parent, name)}, previous.value, parent, name);
    }
  }

  lemma LookupKeeps(t: Table, parent: nat, name: Name, seen: Seen)
    requires Inv(t) && Room(t)
    ensures Inv(Lookup(t, parent, name, seen))
  {
    var id := IdFor(t, seen);
    if id != ROOT {
      var replaced := Replaced(t, parent, name, id);
      IdForFits(t, seen);
      ReplacedKeeps(t, parent, name, id);
      SameKeyed(t, replaced);
      CountKeyed(replaced, id, Alias(parent, name), seen);
      CountNamed(replaced, id, Alias(parent, name), seen);
    }
  }

  // ---- Forgets ----

  /** What cutting a node's entries leaves: every node as it was, but for the entries cut. */
  ghost predicate CutFor(t: Table, t': Table, id: nat, aliases: seq<Alias>) {
    && t'.byKey == t.byKey
    && t'.nodes.Keys == t.nodes.Keys
    && (forall d | d in t.nodes :: t'.nodes[d] == t.nodes[d].(children := t'.nodes[d].children))
    && (forall p, n :: t'.Child(p, n) == if t.Child(p, n) == Some(id) && Alias(p, n) in aliases then None else t.Child(p, n))
  }

  lemma CutForOne(t: Table, rest: Table, id: nat, aliases: seq<Alias>, last: Alias)
    requires CutFor(t, rest, id, aliases)
    ensures CutFor(t, CutChildOf(rest, id, last), id, aliases + [last])
  {
    var t' := CutChildOf(rest, id, last);
    forall p, n
      ensures t'.Child(p, n) == if rest.Child(p, n) == Some(id) && Alias(p, n) == last then None else rest.Child(p, n)
    {
    }
  }

  lemma {:induction false} CutForEach(t: Table, id: nat, aliases: seq<Alias>)
    ensures CutFor(t, CutChildrenOf(t, id, aliases), id, aliases)
  {
    if aliases != [] {
      var rest, last := aliases[..|aliases| - 1], aliases[|aliases| - 1];
      CutForEach(t, id, rest);
      CutForOne(t, CutChildrenOf(t, id, rest), id, rest, last);
      assert aliases == rest + [last];
    }
  }

  lemma RemovedKeeps(t: Table, id: nat)
    requires Inv(t) && id in t.nodes && id != ROOT
    ensures Inv(Removed(t, id))
  {
    assert NodeKeyed(t, id);
    var node := t.nodes[id];
    var gone := Table(t.nodes - {id}, t.byKey - {node.key.value});
    CutForEach(gone, id, node.aliases);
    var t' := Removed(t, id);
    assert Keyed(gone) by {
      forall d | d in gone.nodes && d != ROOT ensures NodeKeyed(gone, d) {
        assert NodeKeyed(t, d);
      }
      forall key | key in gone.byKey ensures KeyAt(gone, key) {
        assert KeyAt(t, key);
      }
    }
    SameKeyed(gone, t');
    RemovedLinked(t, gone, t', id);
  }

  lemma RemovedLinked(t: Table, gone: Table, t': Table, id: nat)
    requires Named(t) && Linked(t, {}) && id in t.nodes && id != ROOT
    requires gone.nodes == t.nodes - {id}
    requires CutFor(gone, t', id, t.nodes[id].aliases)
    ensures Named(t') && Linked(t', {})
  {
    forall d | d in t'.nodes ensures NamedAt(t', d) {
      assert NamedAt(t, d);
    }
    forall p, n | p in t'.nodes && n in t'.nodes[p].children ensures LinkAt(t', {}, p, n) {
      assert t'.Child(p, n).Some?;
      assert gone.Child(p, n) == t.Child(p, n);
      assert LinkAt(t, {}, p, n);
    }
  }

  lemma ForgetKeeps(t: Table, id: nat, n: nat)
    requires Inv(t)
    ensures Inv(Forget(t, id, n))
  {
    if Forgotten(t, id, n) {
      RemovedKeeps(t, id);
    } else if id != ROOT && id in t.nodes {
      var t' := Forget(t, id, n);
      forall d | d in t'.nodes && d != ROOT ensures NodeKeyed(t', d) {
        assert NodeKeyed(t, d);
      }
      forall key | key in t'.byKey ensures KeyAt(t', key) {
        assert KeyAt(t, key);
      }
      forall d | d in t'.nodes ensures NamedAt(t', d) {
        assert NamedAt(t, d);
      }
      forall p, m | p in t'.nodes && m in t'.nodes[p].children ensures LinkAt(t', {}, p, m) {
        assert LinkAt(t, {}, p, m);
      }
    }
  }

  // ---- Runs ----

  /** Every operation keeps the table's own agreement. */
  lemma StepKeeps(t: Table, op: Op)
    requires Inv(t) && Allowed(t, op)
    ensures Inv(Apply(t, op))
  {
    match op
    case OpLookup(parent, name, seen) => LookupKeeps(t, parent, name, seen);
    case OpRootSeen(identity) => RootSeenKeeps(t, identity);
    case OpForget(id, n) => ForgetKeeps(t, id, n);
    case OpUnlink(parent, name) => UnlinkKeeps(t, parent, name);
    case OpRename(from, to) => RenameKeeps(t, from, to);
    case OpExchange(one, other) => ExchangeKeeps(t, one, other);
    case OpWrongAlias(id, path) => WrongAliasKeeps(t, id, path);
  }

  /** The agreement holds over every sequence of operations. */
  lemma {:induction false} RunKeeps(tables: seq<Table>, ops: seq<Op>, i: nat)
    requires IsRun(tables, ops) && i < |tables|
    ensures Inv(tables[i])
  {
    if i > 0 {
      RunKeeps(tables, ops, i - 1);
      StepKeeps(tables[i - 1], ops[i - 1]);
    }
  }

  /** `forget` leaves no dangling entry: no directory names a node that is not remembered. */
  lemma NoDanglingChild(tables: seq<Table>, ops: seq<Op>, i: nat, parent: nat, name: Name)
    requires IsRun(tables, ops) && i < |tables|
    ensures var child := tables[i].Child(parent, name);
      child.Some? ==> child.value in tables[i].nodes && child.value != ROOT
                      && Alias(parent, name) in tables[i].nodes[child.value].aliases
                      && !tables[i].nodes[child.value].unlinked
  {
    RunKeeps(tables, ops, i);
    var child := tables[i].Child(parent, name);
    if child.Some? {
      assert LinkAt(tables[i], {}, parent, name);
      assert NamedAt(tables[i], child.value);
    }
  }
}
