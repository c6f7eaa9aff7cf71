/** Which number a file goes by: the root by its identity, a known file by its own, a new one by its inode number if that can
    be told apart, and by a substitute made of its identity alone otherwise. */
module NodeIdentities {
  import opened Files
  import opened Nodes
  import opened NodeInvariant

  /** The same file: inode number and identity. */
  predicate SameFile(one: Seen, other: Seen) {
    one.ino == other.ino && one.identity == other.identity
  }

  /** No node is of this file. */
  ghost predicate Unknown(t: Table, seen: Seen) {
    forall id | id in t.nodes && id != ROOT :: t.nodes[id].key != Some(KeyNode(seen.ino, seen.identity))
  }

  lemma UnknownKey(t: Table, seen: Seen)
    requires Inv(t)
    ensures Unknown(t, seen) <==> seen.Key() !in t.byKey
  {
    if seen.Key() in t.byKey {
      assert KeyAt(t, seen.Key());
    }
    forall id | id in t.nodes && id != ROOT && t.nodes[id].key == Some(KeyNode(seen.ino, seen.identity))
      ensures seen.Key() in t.byKey
    {
      assert NodeKeyed(t, id);
    }
  }

  /** A file is taken for the root exactly if it has number 1 and, where the root's identity is known, that identity. */
  lemma RootByIdentity(t: Table, seen: Seen)
    requires Inv(t) && Room(t)
    ensures IdFor(t, seen) == 1
            <==> seen.ino == 1 && (t.nodes[1].key == None || t.nodes[1].key.value.identity == seen.identity)
  {
    if IdFor(t, seen) != ROOT {
      IdForFits(t, seen);
    } else if seen.Key() in t.byKey {
      assert KeyAt(t, seen.Key());
    }
  }

  /** Once a reply has described the root, that file is the root and no other is. */
  lemma RootOnceSeen(t: Table, identity: Identity, seen: Seen)
    requires Inv(t) && Room(RootSeen(t, identity))
    ensures IdFor(RootSeen(t, identity), seen) == 1 <==> seen.ino == 1 && seen.identity == identity
  {
    RootSeenKeeps(t, identity);
    RootByIdentity(RootSeen(t, identity), seen);
  }

  /** A new file of the root's own subvolume goes by its inode number where that is above 1 and free. */
  lemma OwnNumber(t: Table, seen: Seen)
    requires Inv(t) && Room(t) && !seen.foreign && Unknown(t, seen) && seen.ino > 1 && seen.ino !in t.nodes
    ensures IdFor(t, seen) == seen.ino
  {
    UnknownKey(t, seen);
  }

  /** A new file from elsewhere goes by a number made of its identity alone, whatever its inode number, whatever the table
      holds and in whatever order it came to, as long as that number is free. */
  lemma ForeignNumber(t: Table, u: Table, seen: Seen, other: Seen)
    requires Inv(t) && Room(t) && Inv(u) && Room(u) && seen.identity == other.identity
    requires seen.foreign && seen.ino != 1 && Unknown(t, seen) && Substitute(seen.identity) !in t.nodes
    requires other.foreign && other.ino != 1 && Unknown(u, other) && Substitute(seen.identity) !in u.nodes
    ensures IdFor(t, seen) == IdFor(u, other) == Substitute(seen.identity)
  {
    UnknownKey(t, seen);
    UnknownKey(u, other);
  }

  /** So is any new file whose number is taken. */
  lemma TakenNumber(t: Table, seen: Seen)
    requires Inv(t) && Room(t) && Unknown(t, seen) && seen.ino > 1 && seen.ino in t.nodes
    requires Substitute(seen.identity) !in t.nodes
    ensures IdFor(t, seen) == Substitute(seen.identity) != seen.ino
  {
    UnknownKey(t, seen);
  }

  lemma LookedUp(t: Table, parent: nat, name: Name, seen: Seen)
    requires Inv(t) && Room(t) && IdFor(t, seen) != ROOT
    ensures var id, t' := IdFor(t, seen), Lookup(t, parent, name, seen);
      && id in t'.nodes && ROOT in t'.nodes && t'.nodes[ROOT].key == t.nodes[ROOT].key
      && t'.byKey == t.byKey[KeyNode(seen.ino, seen.identity) := id]
  {
    IdForFits(t, seen);
    ReplacedKeeps(t, parent, name, IdFor(t, seen));
  }

  /** The node is as the reply described it, under the name it was looked up by, which is its newest. */
  lemma LookupDescribes(t: Table, parent: nat, name: Name, seen: Seen)
    requires Inv(t) && Room(t) && IdFor(t, seen) != ROOT
    ensures var id, t' := IdFor(t, seen), Lookup(t, parent, name, seen);
      && id in t'.nodes && t'.nodes[id].kind == seen.kind && !t'.nodes[id].unlinked
      && t'.nodes[id].key == Some(KeyNode(seen.ino, seen.identity))
      && t'.nodes[id].aliases != [] && t'.nodes[id].aliases[|t'.nodes[id].aliases| - 1] == Alias(parent, name)
  {
    IdForFits(t, seen);
    ReplacedKeeps(t, parent, name, IdFor(t, seen));
  }

  /** After a file is looked up, another reply is of the same node exactly if it is of the same file: one number in two lives
      is two files. */
  lemma SameNumberSameFile(t: Table, parent: nat, name: Name, seen: Seen, other: Seen)
    requires Inv(t) && Room(t) && IdFor(t, seen) != 1
    requires Room(Lookup(t, parent, name, seen))
    ensures IdFor(Lookup(t, parent, name, seen), other) == IdFor(t, seen) <==> SameFile(seen, other)
  {
    var id, t' := IdFor(t, seen), Lookup(t, parent, name, seen);
    LookedUp(t, parent, name, seen);
    LookupKeeps(t, parent, name, seen);
    RootByIdentity(t, seen);
    RootByIdentity(t', other);
    IdForFits(t, seen);
    if IdFor(t', other) == id {
      IdForFits(t', other);
    }
  }
}
