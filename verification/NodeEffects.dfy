/** What each operation does to any entry and to any node's aliases. */
module NodeEffects {
  import opened Files
  import opened Nodes
  import opened NodeInvariant

  /** At the entry `e` and the node `d`, the table after has `child` and `aliases`. */
  ghost predicate Has(t: Table, e: Alias, child: Option<nat>, d: nat, aliases: seq<Alias>) {
    t.Child(e.parent, e.name) == child && t.Aliases(d) == aliases
  }

  ghost predicate SameNodes(t: Table, t': Table) {
    t'.nodes.Keys == t.nodes.Keys
  }

  lemma PutAt(t: Table, parent: nat, name: Name, id: nat, e: Alias, d: nat)
    ensures var t' := PutChild(t, parent, name, id);
      && SameNodes(t, t')
      && Has(t', e, if e == Alias(parent, name) && parent in t.nodes then Some(id) else t.Child(e.parent, e.name),
             d, t.Aliases(d))
  {
  }

  lemma CutAt(t: Table, parent: nat, name: Name, e: Alias, d: nat)
    ensures var t' := CutChild(t, parent, name);
      && SameNodes(t, t')
      && Has(t', e, if e == Alias(parent, name) then None else t.Child(e.parent, e.name), d, t.Aliases(d))
  {
  }

  lemma DropAt(t: Table, id: nat, parent: nat, name: Name, e: Alias, d: nat)
    ensures var t' := DropAlias(t, id, parent, name);
      && SameNodes(t, t')
      && Has(t', e, t.Child(e.parent, e.name),
             d, if d == id then Without(t.Aliases(d), Alias(parent, name)) else t.Aliases(d))
  {
  }

  lemma MoveAt(t: Table, id: nat, from: Alias, to: Alias, e: Alias, d: nat)
    requires id in t.nodes
    ensures var t' := MoveAlias(t, id, from, to);
      && SameNodes(t, t')
      && Has(t', e, t.Child(e.parent, e.name), d, if d == id then Without(t.Aliases(d), from) + [to] else t.Aliases(d))
  {
  }

  lemma ReplacedAt(t: Table, parent: nat, name: Name, id: nat, e: Alias, d: nat)
    ensures var alias, t' := Alias(parent, name), Replaced(t, parent, name, id);
      && SameNodes(t, t')
      && Has(t', e, if e == alias && parent in t.nodes then Some(id) else t.Child(e.parent, e.name),
             d, if d != id && t.Child(parent, name) == Some(d) then Without(t.Aliases(d), alias) else t.Aliases(d))
  {
    var previous, put := t.Child(parent, name), PutChild(t, parent, name, id);
    PutAt(t, parent, name, id, e, d);
    if previous.Some? && previous != Some(id) {
      DropAt(put, previous.value, parent, name, e, d);
    }
  }

  lemma CountAt(t: Table, id: nat, alias: Alias, seen: Seen, e: Alias, d: nat)
    ensures var t' := Count(t, id, alias, seen);
      && t'.nodes.Keys == t.nodes.Keys + {id}
      && Has(t', e, t.Child(e.parent, e.name), d, if d == id then Without(t.Aliases(d), alias) + [alias] else t.Aliases(d))
  {
  }

  lemma LookupAt(t: Table, parent: nat, name: Name, seen: Seen, e: Alias, d: nat)
    requires ROOT in t.nodes && Room(t) && IdFor(t, seen) != ROOT
    ensures var id, alias, t' := IdFor(t, seen), Alias(parent, name), Lookup(t, parent, name, seen);
      && t'.nodes.Keys == t.nodes.Keys + {id}
      && Has(t', e, if e == alias && parent in t.nodes then Some(id) else t.Child(e.parent, e.name),
             d, if d == id then Without(t.Aliases(d), alias) + [alias]
                else if t.Child(parent, name) == Some(d) then Without(t.Aliases(d), alias)
                else t.Aliases(d))
  {
    var id := IdFor(t, seen);
    ReplacedAt(t, parent, name, id, e, d);
    CountAt(Replaced(t, parent, name, id), id, Alias(parent, name), seen, e, d);
  }

  lemma UnlinkAt(t: Table, parent: nat, name: Name, e: Alias, d: nat)
    requires t.Child(parent, name).Some?
    ensures var alias, t' := Alias(parent, name), Unlink(t, parent, name);
      && SameNodes(t, t')
      && Has(t', e, if e == alias then None else t.Child(e.parent, e.name),
             d, if t.Child(parent, name) == Some(d) then Without(t.Aliases(d), alias) else t.Aliases(d))
  {
    CutAt(t, parent, name, e, d);
    DropAt(CutChild(t, parent, name), t.Child(parent, name).value, parent, name, e, d);
  }

  lemma EnteredAt(t: Table, from: Alias, to: Alias, child: nat, e: Alias, d: nat)
    ensures var t' := Entered(t, from, to, child);
      && SameNodes(t, t')
      && Has(t', e, if e == to && to.parent in t.nodes then Some(child)
                    else if e == from then None
                    else t.Child(e.parent, e.name),
             d, t.Aliases(d))
  {
    CutAt(t, from.parent, from.name, e, d);
    PutAt(CutChild(t, from.parent, from.name), to.parent, to.name, child, e, d);
  }

  lemma RenameAt(t: Table, from: Alias, to: Alias, e: Alias, d: nat)
    requires Inv(t) && Renames(t, from, to)
    ensures var t', child := Rename(t, from, to), t.Child(from.parent, from.name).value;
      && SameNodes(t, t')
      && Has(t', e, if e == to && to.parent in t.nodes then Some(child)
                    else if e == from then None
                    else t.Child(e.parent, e.name),
             d, if d == child then Without(t.Aliases(d), from) + [to]
                else if t.Child(to.parent, to.name) == Some(d) then Without(t.Aliases(d), to)
                else t.Aliases(d))
  {
    var child, replaced := t.Child(from.parent, from.name).value, t.Child(to.parent, to.name);
    EnteredIs(t, from, to, child);
    EnteredKeeps(t, from, to, child);
    EnteredAt(t, from, to, child, e, d);
    var entered := Entered(t, from, to, child);
    var dropped := if replaced.Some? then DropAlias(entered, replaced.value, to.parent, to.name) else entered;
    if replaced.Some? {
      DropAt(entered, replaced.value, to.parent, to.name, e, d);
    }
    MoveAt(dropped, child, from, to, e, d);
  }

  /** A rename of a name that is not known, or onto another name of the same node, changes nothing. */
  lemma RenameNothing(t: Table, from: Alias, to: Alias)
    requires t.Child(from.parent, from.name) == None || t.Child(from.parent, from.name) == t.Child(to.parent, to.name)
    ensures Rename(t, from, to) == t
  {
  }

  /** An exchange of two names of one node changes nothing, and one with a name that is not known leaves neither known. */
  lemma ExchangeUnknown(t: Table, one: Alias, other: Alias)
    requires Inv(t)
    ensures var a, b := t.Child(one.parent, one.name), t.Child(other.parent, other.name);
      var t' := Exchange(t, one, other);
      && (a == b != None ==> t' == t)
      && (a == None || b == None ==>
            t'.Child(one.parent, one.name) == None && t'.Child(other.parent, other.name) == None)
  {
    var a, b := t.Child(one.parent, one.name), t.Child(other.parent, other.name);
    if a == None || b == None {
      var u := Unlink(t, one.parent, one.name);
      if a.Some? {
        UnlinkAt(t, one.parent, one.name, one, 0);
        UnlinkAt(t, one.parent, one.name, other, 0);
      }
      if u.Child(other.parent, other.name).Some? {
        UnlinkAt(u, other.parent, other.name, one, 0);
        UnlinkAt(u, other.parent, other.name, other, 0);
      }
    }
  }

  lemma ExchangeAt(t: Table, one: Alias, other: Alias, a: nat, b: nat, e: Alias, d: nat)
    requires Inv(t) && a != b
    requires t.Child(one.parent, one.name) == Some(a) && t.Child(other.parent, other.name) == Some(b)
    ensures var t' := Exchange(t, one, other);
      && SameNodes(t, t')
      && Has(t', e, if e == other then Some(a) else if e == one then Some(b) else t.Child(e.parent, e.name),
             d, if d == a then Without(t.Aliases(d), one) + [other]
                else if d == b then Without(t.Aliases(d), other) + [one]
                else t.Aliases(d))
  {
    SwappedIs(t, one, other, a, b);
    SwappedKeeps(t, one, other, a, b);
    var put1, swapped := PutChild(t, one.parent, one.name, b), Swapped(t, one, other, a, b);
    PutAt(t, one.parent, one.name, b, e, d);
    PutAt(put1, other.parent, other.name, a, e, d);
    MoveAt(swapped, a, one, other, e, d);
    MoveAt(MoveAlias(swapped, a, one, other), b, other, one, e, d);
  }

  lemma NodeAt(t: Table, id: nat, node: Node, e: Alias, d: nat)
    requires id in t.nodes && node.children == t.nodes[id].children
    ensures var t' := t.With(id, node);
      SameNodes(t, t') && Has(t', e, t.Child(e.parent, e.name), d, if d == id then node.aliases else t.Aliases(d))
  {
  }

  lemma ForgetAliasAt(t: Table, id: nat, at: nat, e: Alias, d: nat)
    requires id in t.nodes && at < |t.nodes[id].aliases|
    ensures var t', alias := ForgetAlias(t, id, at), t.nodes[id].aliases[at];
      && SameNodes(t, t')
      && Has(t', e, if e == alias && t.Child(e.parent, e.name) == Some(id) then None else t.Child(e.parent, e.name),
             d, if d == id then RemoveAt(t.nodes[id].aliases, at) else t.Aliases(d))
  {
    var kept, alias := RemoveAt(t.nodes[id].aliases, at), t.nodes[id].aliases[at];
    var node := t.nodes[id].(aliases := kept, unlinked := kept == [] || t.nodes[id].unlinked);
    NodeAt(t, id, node, alias, d);
    NodeAt(t, id, node, e, d);
    CutAt(t.With(id, node), alias.parent, alias.name, e, d);
  }

  /** The node goes, with every entry of it and every entry in it. */
  lemma RemovedAt(t: Table, id: nat, e: Alias, d: nat)
    requires Inv(t) && id in t.nodes && id != ROOT
    ensures var t' := Removed(t, id);
      && t'.nodes.Keys == t.nodes.Keys - {id}
      && Has(t', e, if e.parent == id || t.Child(e.parent, e.name) == Some(id) then None else t.Child(e.parent, e.name),
             d, if d == id then [] else t.Aliases(d))
  {
    assert NodeKeyed(t, id);
    var gone := Table(t.nodes - {id}, t.byKey - {t.nodes[id].key.value});
    CutForEach(gone, id, t.nodes[id].aliases);
    assert gone.Child(e.parent, e.name) == if e.parent == id then None else t.Child(e.parent, e.name);
    assert t.Child(e.parent, e.name).Some? ==> LinkAt(t, {}, e.parent, e.name);
  }
}
