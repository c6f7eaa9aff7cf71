/** The inode table updated in place, as `inodes.rs` does, and the two loops of `fuse.rs` that try a node's names one by one.
    Every method is proved to take the step of `Nodes`, about which the other modules prove what the table promises. */
module InodeTable {
  import opened Files
  import opened Nodes
  import opened NodeInvariant
  import opened NodeWrongNames

  /** The hash that a substitute number is probed from. */
  method SubstituteFor(identity: Identity) returns (id: nat)
    ensures id == Substitute(identity)
  {
    var bytes := LittleEndian(identity.handleType) + identity.handle;
    var hash := 0xcbf2_9ce4_8422_2325;
    for i := 0 to |bytes|
      invariant hash == Fnv(bytes[..i])
    {
      assert bytes[..i + 1][..i] == bytes[..i];
      hash := Mix(hash, bytes[i]);
    }
    assert bytes[..|bytes|] == bytes;
    id := if hash < 2 then 2 else hash;
  }

  class NodeTable {
    var nodes: map<nat, Node>
    var byKey: map<KeyNode, nat>

    function View(): Table
      reads this
    {
      Table(nodes, byKey)
    }

    ghost predicate Valid()
      reads this
    {
      Inv(View())
    }

    constructor ()
      ensures Valid() && View() == EMPTY
    {
      nodes := map[ROOT := Node([], 1, None, false, Directory, map[])];
      byKey := map[];
    }

    /** The number a reply's file is to go by. */
    method IdFor(seen: Seen) returns (id: nat)
      requires Valid() && Room(View())
      ensures id == Nodes.IdFor(View(), seen)
    {
      if seen.ino == ROOT && (nodes[ROOT].key.None? || nodes[ROOT].key.value.identity == seen.identity) {
        return ROOT;
      }
      if seen.Key() in byKey {
        return byKey[seen.Key()];
      }
      if !seen.foreign && seen.ino > ROOT && seen.ino !in nodes {
        return seen.ino;
      }
      id := SubstituteFor(seen.identity);
      while id in nodes
        invariant IsId(id) && FirstFree(View(), id) == FirstFree(View(), Substitute(seen.identity))
        decreases Probes(id, SomeFree(View()))
      {
        id := if id + 1 == LIMIT then 2 else id + 1;
      }
    }

    method Child(parent: nat, name: Name) returns (child: Option<nat>)
      ensures child == View().Child(parent, name)
    {
      if parent in nodes && name in nodes[parent].children {
        child := Some(nodes[parent].children[name]);
      } else {
        child := None;
      }
    }

    method DropAlias(id: nat, parent: nat, name: Name)
      modifies this`nodes
      ensures View() == Nodes.DropAlias(old(View()), id, parent, name)
    {
      if id in nodes {
        var kept := Without(nodes[id].aliases, Alias(parent, name));
        nodes := nodes[id := nodes[id].(aliases := kept, unlinked := kept == [] || nodes[id].unlinked)];
      }
    }

    /** A name was answered with a file: one lookup more for its node. */
    method InsertLookup(parent: nat, name: Name, seen: Seen) returns (known: Option<nat>)
      requires Valid() && Room(View())
      modifies this
      ensures Valid() && View() == Lookup(old(View()), parent, name, seen)
      ensures var id := Nodes.IdFor(old(View()), seen); known == if id == ROOT then None else Some(id)
    {
      LookupKeeps(View(), parent, name, seen);
      var id := IdFor(seen);
      if id == ROOT {
        return None;
      }
      var previous := Child(parent, name);
      PutChild(parent, name, id);
      if previous.Some? && previous.value != id {
        DropAlias(previous.value, parent, name);
      }
      Count(id, Alias(parent, name), seen);
      return Some(id);
    }

    method Count(id: nat, alias: Alias, seen: Seen)
      modifies this
      ensures View() == Nodes.Count(old(View()), id, alias, seen)
    {
      if id !in nodes {
        nodes := nodes[id := Node([], 0, Some(seen.Key()), false, seen.kind, map[])];
      }
      byKey := byKey[seen.Key() := id];
      var node := nodes[id];
      nodes := nodes[id := node.(unlinked := false, kind := seen.kind, lookups := node.lookups + 1,
                                 aliases := Without(node.aliases, alias) + [alias])];
      assert nodes == Nodes.Count(old(View()), id, alias, seen).nodes;
    }

    method PutChild(parent: nat, name: Name, id: nat)
      modifies this`nodes
      ensures View() == Nodes.PutChild(old(View()), parent, name, id)
    {
      if parent in nodes {
        nodes := nodes[parent := nodes[parent].(children := nodes[parent].children[name := id])];
      }
    }

    method RootSeen(identity: Identity)
      requires Valid()
      modifies this`nodes
      ensures Valid() && View() == Nodes.RootSeen(old(View()), identity)
      ensures 1 in old(nodes) && nodes == old(nodes)[1 := old(nodes)[1].(key := Some(KeyNode(1, identity)))]
    {
      RootSeenKeeps(View(), identity);
      nodes := nodes[ROOT := nodes[ROOT].(key := Some(KeyNode(ROOT, identity)))];
    }

    /** Lookups are given back; `forgotten` if these were the last. */
    method Forget(id: nat, n: nat) returns (forgotten: bool)
      requires Valid()
      modifies this
      ensures Valid() && View() == Nodes.Forget(old(View()), id, n) && forgotten == Forgotten(old(View()), id, n)
    {
      ForgetKeeps(View(), id, n);
      if id == ROOT || id !in nodes {
        return false;
      }
      var node := nodes[id];
      var left := if node.lookups < n then 0 else node.lookups - n;
      if left > 0 {
        nodes := nodes[id := node.(lookups := left)];
        return false;
      }
      nodes := nodes - {id};
      if node.key.Some? {
        byKey := byKey - {node.key.value};
      }
      CutChildren(id, node.aliases);
      return true;
    }

    /** The entries of a forgotten node go from their directories. */
    method CutChildren(id: nat, aliases: seq<Alias>)
      modifies this`nodes
      ensures View() == CutChildrenOf(old(View()), id, aliases)
    {
      for i := 0 to |aliases|
        invariant View() == CutChildrenOf(old(View()), id, aliases[..i])
      {
        assert aliases[..i + 1][..i] == aliases[..i];
        CutChild(id, aliases[i]);
      }
      assert aliases[..|aliases|] == aliases;
    }

    method CutChild(id: nat, alias: Alias)
      modifies this`nodes
      ensures View() == CutChildOf(old(View()), id, alias)
    {
      if alias.parent in nodes {
        var dir := nodes[alias.parent];
        if alias.name in dir.children && dir.children[alias.name] == id {
          nodes := nodes[alias.parent := dir.(children := dir.children - {alias.name})];
        }
      }
    }

    /** Walk down the entries by name, as far as they are known. */
    method ResolvePath(path: seq<Name>) returns (id: Option<nat>)
      ensures id == Resolve(View(), path)
    {
      var current := ROOT;
      for i := 0 to |path|
        invariant ResolveFrom(View(), current, path[i..]) == Resolve(View(), path)
      {
        var next := Child(current, path[i]);
        if next.None? {
          return None;
        }
        current := next.value;
        assert path[i..][1..] == path[i + 1..];
      }
      return Some(current);
    }

    /** The path taken for `id` was another file's: the node loses an alias for it, if one matches. */
    method AliasWasWrong(id: nat, path: seq<Name>) returns (wrong: Option<Alias>)
      requires Valid()
      modifies this`nodes
      ensures Valid() && View() == Nodes.AliasWasWrong(old(View()), id, path)
      ensures var at := Wrong(old(View()), id, path);
        wrong == if at.Some? then Some(old(View()).nodes[id].aliases[at.value]) else None
    {
      WrongAliasKeeps(View(), id, path);
      if path == [] || id !in nodes {
        return None;
      }
      var at := AliasOf(View(), nodes[id].aliases, path);
      if at.None? {
        return None;
      }
      var alias := nodes[id].aliases[at.value];
      var kept := RemoveAt(nodes[id].aliases, at.value);
      nodes := nodes[id := nodes[id].(aliases := kept, unlinked := kept == [] || nodes[id].unlinked)];
      CutChild(id, alias);
      return Some(alias);
    }

    /** An entry goes, and the alias with it. */
    method Unlink(parent: nat, name: Name)
      requires Valid()
      modifies this`nodes
      ensures Valid() && View() == Nodes.Unlink(old(View()), parent, name)
    {
      UnlinkKeeps(View(), parent, name);
      var child := Child(parent, name);
      if child.Some? {
        nodes := nodes[parent := nodes[parent].(children := nodes[parent].children - {name})];
        DropAlias(child.value, parent, name);
      }
    }

    /** An entry moves, over whatever was there. */
    method Rename(from: Alias, to: Alias)
      requires Valid()
      modifies this`nodes
      ensures Valid() && View() == Nodes.Rename(old(View()), from, to)
    {
      RenameKeeps(View(), from, to);
      var child := Child(from.parent, from.name);
      var target := Child(to.parent, to.name);
      if child.None? || target == child {
        return;
      }
      nodes := nodes[from.parent := nodes[from.parent].(children := nodes[from.parent].children - {from.name})];
      var replaced := Child(to.parent, to.name);
      PutChild(to.parent, to.name, child.value);
      if replaced.Some? {
        DropAlias(replaced.value, to.parent, to.name);
      }
      MoveAlias(child.value, from, to);
    }

    method MoveAlias(id: nat, from: Alias, to: Alias)
      modifies this`nodes
      ensures View() == Nodes.MoveAlias(old(View()), id, from, to)
    {
      if id in nodes {
        nodes := nodes[id := nodes[id].(aliases := Without(nodes[id].aliases, from) + [to])];
      }
    }

    /** Each of two entries takes the other's node. */
    method Exchange(one: Alias, other: Alias)
      requires Valid()
      modifies this`nodes
      ensures Valid() && View() == Nodes.Exchange(old(View()), one, other)
    {
      ExchangeKeeps(View(), one, other);
      var a := Child(one.parent, one.name);
      var b := Child(other.parent, other.name);
      if a.None? || b.None? {
        Unlink(one.parent, one.name);
        Unlink(other.parent, other.name);
        return;
      }
      if a == b {
        return;
      }
      PutChild(one.parent, one.name, b.value);
      PutChild(other.parent, other.name, a.value);
      MoveAlias(a.value, one, other);
      MoveAlias(b.value, other, one);
    }

    /** A request for `id` by name, as `getattr` and `open` make it: by one name after another, each that leads to another
        file forgotten, until one is among `right`, those that lead to the node's own file, or no name is left. `stuck` is a
        wrong name that nothing is forgotten for: every try from then on goes by it again. */
    method ByName(id: nat, right: set<seq<Name>>) returns (path: Option<seq<Name>>, tries: nat, stuck: bool)
      requires Valid()
      modifies this`nodes
      ensures Valid() && path == PathOf(View(), id)
      ensures path.Some? && !stuck ==> id == ROOT || path.value in right
      ensures stuck ==> id != ROOT && path.Some? && path.value !in right && Wrong(View(), id, path.value) == None
                        && !SameFromTop(View(), id)
      ensures tries + |View().Aliases(id)| == |old(View()).Aliases(id)|
      ensures Shallow(old(View())) ==> Shallow(View()) && !stuck
    {
      tries, stuck := 0, false;
      while true
        invariant Valid() && !stuck && (Shallow(old(View())) ==> Shallow(View()))
        invariant tries + |View().Aliases(id)| == |old(View()).Aliases(id)|
        decreases |View().Aliases(id)|
      {
        ghost var t := View();
        path := PathOf(View(), id);
        if path.None? || id == ROOT || path.value in right {
          return;
        }
        WrongCostsOne(t, id, path.value);
        WrongIsUsed(t, id);
        var wrong := AliasWasWrong(id, path.value);
        if wrong.None? {
          if Shallow(t) {
            ShallowIsSame(t, id);
          }
          stuck := true;
          return;
        }
        if Shallow(t) {
          WrongKeepsShallow(t, id, path.value);
        }
        tries := tries + 1;
      }
    }
  }
}
