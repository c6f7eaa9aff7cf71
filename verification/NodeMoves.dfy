/** A rename carries the subtree: what was known below the old name is known below the new one, at any depth. */
module NodeMoves {
  import opened Files
  import opened Nodes
  import opened NodeInvariant
  import opened NodeEffects

  /** No known names lead from `from` to `id`: it does not lie beneath, nor is it, `from`. */
  ghost predicate Clear(t: Table, from: nat, id: nat) {
    forall names :: ResolveFrom(t, from, names) != Some(id)
  }

  lemma ClearBelow(t: Table, from: nat, name: Name, id: nat)
    requires Clear(t, from, id) && t.Child(from, name).Some?
    ensures Clear(t, t.Child(from, name).value, id)
  {
    forall names ensures ResolveFrom(t, t.Child(from, name).value, names) != Some(id) {
      assert ([name] + names)[1..] == names;
      assert ResolveFrom(t, from, [name] + names) == ResolveFrom(t, t.Child(from, name).value, names);
    }
  }

  /** The entries outside the two directories are the same. */
  ghost predicate SameOutside(t: Table, t': Table, one: nat, other: nat) {
    forall p: nat, n | p != one && p != other :: t'.Child(p, n) == t.Child(p, n)
  }

  /** Below a node that neither directory lies beneath, everything is where it was. */
  lemma {:induction false} SameBelow(t: Table, t': Table, from: nat, names: seq<Name>, one: nat, other: nat)
    requires SameOutside(t, t', one, other) && Clear(t, from, one) && Clear(t, from, other)
    ensures ResolveFrom(t', from, names) == ResolveFrom(t, from, names)
    decreases |names|
  {
    if names != [] {
      assert ResolveFrom(t, from, []) == Some(from);
      var next := t.Child(from, names[0]);
      assert t'.Child(from, names[0]) == next;
      if next.Some? {
        ClearBelow(t, from, names[0], one);
        ClearBelow(t, from, names[0], other);
        SameBelow(t, t', next.value, names[1..], one, other);
      }
    }
  }

  /** `names` lead from `from` to `id`, and no fewer of them do. */
  ghost predicate Arrives(t: Table, from: nat, names: seq<Name>, id: nat)
    decreases |names|
  {
    if names == [] then from == id
    else from != id && t.Child(from, names[0]).Some? && Arrives(t, t.Child(from, names[0]).value, names[1..], id)
  }

  lemma {:induction false} ArrivesResolves(t: Table, from: nat, names: seq<Name>, id: nat)
    requires Arrives(t, from, names, id)
    ensures ResolveFrom(t, from, names) == Some(id)
    decreases |names|
  {
    if names != [] {
      ArrivesResolves(t, t.Child(from, names[0]).value, names[1..], id);
    }
  }

  /** Any names that lead to a directory begin with some that arrive there. */
  lemma {:induction false} SomeArrive(t: Table, from: nat, names: seq<Name>, id: nat) returns (k: nat)
    requires ResolveFrom(t, from, names) == Some(id)
    ensures k <= |names| && Arrives(t, from, names[..k], id)
    decreases |names|
  {
    k := 0;
    if from != id {
      var rest := SomeArrive(t, t.Child(from, names[0]).value, names[1..], id);
      k := rest + 1;
      assert names[..k][1..] == names[1..][..rest];
    }
  }

  lemma {:induction false} ResolveOn(t: Table, from: nat, names: seq<Name>, more: seq<Name>)
    ensures ResolveFrom(t, from, names + more)
            == match ResolveFrom(t, from, names) { case Some(id) => ResolveFrom(t, id, more) case None => None }
    decreases |names|
  {
    if names == [] {
      assert names + more == more;
    } else {
      assert (names + more)[1..] == names[1..] + more;
      var next := t.Child(from, names[0]);
      if next.Some? {
        ResolveOn(t, next.value, names[1..], more);
      }
    }
  }

  /** The way to the new directory is the way it was: it goes neither through the target nor through the node moved. */
  lemma {:induction false} SameWay(t: Table, t': Table, from: nat, names: seq<Name>, was: Alias, to: Alias, child: nat)
    requires t.Child(was.parent, was.name) == Some(child) && Clear(t, child, to.parent)
    requires forall e: Alias :: e != was && e != to ==> t'.Child(e.parent, e.name) == t.Child(e.parent, e.name)
    requires Arrives(t, from, names, to.parent)
    ensures Arrives(t', from, names, to.parent)
    decreases |names|
  {
    if names != [] {
      var e := Alias(from, names[0]);
      ArrivesResolves(t, t.Child(from, names[0]).value, names[1..], to.parent);
      assert e != was && e != to;
      SameWay(t, t', t.Child(from, names[0]).value, names[1..], was, to, child);
    }
  }

  /** Every known path through the old name leads, through the new one, to the same node. */
  lemma RenameCarries(t: Table, from: Alias, to: Alias, before: seq<Name>, after: seq<Name>, below: seq<Name>)
    requires Inv(t) && Renames(t, from, to) && to.parent in t.nodes
    requires Clear(t, t.Child(from.parent, from.name).value, from.parent)
    requires Clear(t, t.Child(from.parent, from.name).value, to.parent)
    requires Resolve(t, before) == Some(from.parent)
    requires Arrives(t, ROOT, after, to.parent)
    ensures Resolve(Rename(t, from, to), after + ([to.name] + below)) == Resolve(t, before + ([from.name] + below))
  {
    var t', child := Rename(t, from, to), t.Child(from.parent, from.name).value;
    ResolveOn(t, ROOT, before, [from.name] + below);
    assert ([from.name] + below)[1..] == below && ([to.name] + below)[1..] == below;
    assert Resolve(t, before + ([from.name] + below)) == ResolveFrom(t, child, below);
    forall e: Alias | e != from && e != to ensures t'.Child(e.parent, e.name) == t.Child(e.parent, e.name) {
      RenameAt(t, from, to, e, 0);
    }
    SameWay(t, t', ROOT, after, from, to, child);
    ArrivesResolves(t', ROOT, after, to.parent);
    ResolveOn(t', ROOT, after, [to.name] + below);
    RenameAt(t, from, to, to, 0);
    assert Resolve(t', after + ([to.name] + below)) == ResolveFrom(t', child, below);
    RenameOutside(t, from, to);
    SameBelow(t, t', child, below, from.parent, to.parent);
  }

  lemma RenameOutside(t: Table, from: Alias, to: Alias)
    requires Inv(t) && Renames(t, from, to)
    ensures SameOutside(t, Rename(t, from, to), from.parent, to.parent)
  {
    forall p: nat, n | p != from.parent && p != to.parent
      ensures Rename(t, from, to).Child(p, n) == t.Child(p, n)
    {
      RenameAt(t, from, to, Alias(p, n), 0);
    }
  }

  /** The old name leads nowhere any more. */
  lemma OldNameIsGone(t: Table, from: Alias, to: Alias, before: seq<Name>, below: seq<Name>)
    requires Inv(t) && Renames(t, from, to)
    requires Resolve(Rename(t, from, to), before) == Some(from.parent)
    ensures Resolve(Rename(t, from, to), before + ([from.name] + below)) == None
  {
    RenameAt(t, from, to, from, 0);
    ResolveOn(Rename(t, from, to), ROOT, before, [from.name] + below);
  }

  /** A replaced target loses exactly that alias, the node moved exchanges one alias for another, and no other node loses
      or gains any. */
  lemma RenameAliases(t: Table, from: Alias, to: Alias, d: nat, a: Alias)
    requires Inv(t) && Renames(t, from, to)
    ensures var t', child := Rename(t, from, to), t.Child(from.parent, from.name).value;
      a in t'.Aliases(d) <==> if d == child then a == to || (a in t.Aliases(d) && a != from)
                              else a in t.Aliases(d) && !(a == to && t.Child(to.parent, to.name) == Some(d))
  {
    RenameAt(t, from, to, a, d);
  }
}
