/** When the operations keep every alias matched by its entry, so that the path to a node leads back to it: exactly when the
    directory that gets a name is known, and when a node forgotten was not remembered as a directory of others. */
module NodeMatching {
  import opened Files
  import opened Nodes
  import opened NodeInvariant
  import opened NodeNames
  import opened NodeEffects

  predicate NoTwice(aliases: seq<Alias>) {
    forall i, j | 0 <= i < j < |aliases| :: aliases[i] != aliases[j]
  }

  ghost predicate TidyAt(t: Table, id: nat) {
    NoTwice(t.Aliases(id)) && (forall a | a in t.Aliases(id) :: t.Child(a.parent, a.name) == Some(id))
  }

  /** Every alias has its entry, and no node has an alias twice. */
  ghost predicate Tidy(t: Table) {
    forall id | id in t.nodes :: TidyAt(t, id)
  }

  lemma TidyIsMatched(t: Table)
    requires Tidy(t)
    ensures Matched(t)
  {
    forall id, a | id in t.nodes && a in t.nodes[id].aliases ensures t.Child(a.parent, a.name) == Some(id) {
      assert TidyAt(t, id);
    }
  }

  lemma {:induction false} WithoutNoTwice(aliases: seq<Alias>, alias: Alias)
    requires NoTwice(aliases)
    ensures NoTwice(Without(aliases, alias))
  {
    if aliases != [] {
      WithoutNoTwice(aliases[..|aliases| - 1], alias);
      assert aliases[|aliases| - 1] !in aliases[..|aliases| - 1];
    }
  }

  lemma MovedNoTwice(aliases: seq<Alias>, from: Alias, to: Alias)
    requires NoTwice(aliases) && to !in aliases
    ensures NoTwice(Without(aliases, from) + [to])
  {
    WithoutNoTwice(aliases, from);
  }

  /** `t'` is what `Lookup` makes of `t`, at the entry `e` and the node `d`. */
  ghost predicate LookedUp(t: Table, t': Table, alias: Alias, id: nat, e: Alias, d: nat) {
    Has(t', e, if e == alias && alias.parent in t.nodes then Some(id) else t.Child(e.parent, e.name),
        d, if d == id then Without(t.Aliases(d), alias) + [alias]
           else if t.Child(alias.parent, alias.name) == Some(d) then Without(t.Aliases(d), alias)
           else t.Aliases(d))
  }

  lemma LookedUpTidy(t: Table, t': Table, alias: Alias, id: nat, d: nat)
    requires TidyAt(t, d) && alias.parent in t.nodes
    requires forall e :: LookedUp(t, t', alias, id, e, d)
    ensures TidyAt(t', d)
  {
    assert LookedUp(t, t', alias, id, alias, d);
    WithoutNoTwice(t.Aliases(d), alias);
    forall a | a in t'.Aliases(d) ensures t'.Child(a.parent, a.name) == Some(d) {
      assert LookedUp(t, t', alias, id, a, d);
    }
  }

  /** A lookup keeps the aliases matched exactly when its directory is known. */
  lemma LookupTidy(t: Table, parent: nat, name: Name, seen: Seen)
    requires Inv(t) && Room(t) && Tidy(t) && IdFor(t, seen) != ROOT
    ensures Tidy(Lookup(t, parent, name, seen)) <==> parent in t.nodes
  {
    var id, alias, t' := IdFor(t, seen), Alias(parent, name), Lookup(t, parent, name, seen);
    LookupAt(t, parent, name, seen, alias, id);
    if parent in t.nodes {
      forall d | d in t'.nodes ensures TidyAt(t', d) {
        forall e ensures LookedUp(t, t', alias, id, e, d) {
          LookupAt(t, parent, name, seen, e, d);
        }
        assert TidyAt(t, d);
        LookedUpTidy(t, t', alias, id, d);
      }
    } else {
      assert alias in t'.Aliases(id) && !TidyAt(t', id);
    }
  }

  lemma UnlinkTidy(t: Table, parent: nat, name: Name)
    requires Tidy(t)
    ensures Tidy(Unlink(t, parent, name))
  {
    var alias, t' := Alias(parent, name), Unlink(t, parent, name);
    if t.Child(parent, name).Some? {
      UnlinkAt(t, parent, name, alias, 0);
      forall d | d in t'.nodes ensures TidyAt(t', d) {
        UnlinkAt(t, parent, name, alias, d);
        assert TidyAt(t, d);
        WithoutNoTwice(t.Aliases(d), alias);
        forall a | a in t'.Aliases(d) ensures t'.Child(a.parent, a.name) == Some(d) {
          UnlinkAt(t, parent, name, a, d);
        }
      }
    }
  }

  /** `t'` is what `Rename` makes of `t`, at the entry `e` and the node `d`. */
  ghost predicate MovedTo(t: Table, t': Table, from: Alias, to: Alias, child: nat, e: Alias, d: nat) {
    Has(t', e, if e == to && to.parent in t.nodes then Some(child)
               else if e == from then None
               else t.Child(e.parent, e.name),
        d, if d == child then Without(t.Aliases(d), from) + [to]
           else if t.Child(to.parent, to.name) == Some(d) then Without(t.Aliases(d), to)
           else t.Aliases(d))
  }

  lemma MovedToTidy(t: Table, t': Table, from: Alias, to: Alias, child: nat, d: nat)
    requires TidyAt(t, d) && to.parent in t.nodes
    requires t.Child(from.parent, from.name) == Some(child) && t.Child(to.parent, to.name) != Some(child)
    requires forall e :: MovedTo(t, t', from, to, child, e, d)
    ensures TidyAt(t', d)
  {
    assert MovedTo(t, t', from, to, child, to, d);
    if d == child {
      MovedNoTwice(t.Aliases(d), from, to);
    }
    WithoutNoTwice(t.Aliases(d), to);
    forall a | a in t'.Aliases(d) ensures t'.Child(a.parent, a.name) == Some(d) {
      assert MovedTo(t, t', from, to, child, a, d);
    }
  }

  /** A rename keeps the aliases matched exactly when the directory it goes to is known. */
  lemma RenameTidy(t: Table, from: Alias, to: Alias)
    requires Inv(t) && Tidy(t) && Renames(t, from, to)
    ensures Tidy(Rename(t, from, to)) <==> to.parent in t.nodes
  {
    var t', child := Rename(t, from, to), t.Child(from.parent, from.name).value;
    RenameAt(t, from, to, to, child);
    assert LinkAt(t, {}, from.parent, from.name);
    if to.parent in t.nodes {
      forall d | d in t'.nodes ensures TidyAt(t', d) {
        forall e ensures MovedTo(t, t', from, to, child, e, d) {
          RenameAt(t, from, to, e, d);
        }
        assert TidyAt(t, d);
        MovedToTidy(t, t', from, to, child, d);
      }
    } else {
      assert to in t'.Aliases(child) && !TidyAt(t', child);
    }
  }

  /** `t'` is what `Exchange` makes of `t`, at the entry `e` and the node `d`. */
  ghost predicate SwappedTo(t: Table, t': Table, one: Alias, other: Alias, a: nat, b: nat, e: Alias, d: nat) {
    Has(t', e, if e == other then Some(a) else if e == one then Some(b) else t.Child(e.parent, e.name),
        d, if d == a then Without(t.Aliases(d), one) + [other]
           else if d == b then Without(t.Aliases(d), other) + [one]
           else t.Aliases(d))
  }

  lemma SwappedToTidy(t: Table, t': Table, one: Alias, other: Alias, a: nat, b: nat, d: nat)
    requires TidyAt(t, d) && a != b
    requires t.Child(one.parent, one.name) == Some(a) && t.Child(other.parent, other.name) == Some(b)
    requires forall e :: SwappedTo(t, t', one, other, a, b, e, d)
    ensures TidyAt(t', d)
  {
    assert SwappedTo(t, t', one, other, a, b, one, d);
    if d == a {
      MovedNoTwice(t.Aliases(d), one, other);
    } else if d == b {
      MovedNoTwice(t.Aliases(d), other, one);
    }
    forall e | e in t'.Aliases(d) ensures t'.Child(e.parent, e.name) == Some(d) {
      assert SwappedTo(t, t', one, other, a, b, e, d);
    }
  }

  lemma ExchangeTidy(t: Table, one: Alias, other: Alias)
    requires Inv(t) && Tidy(t)
    ensures Tidy(Exchange(t, one, other))
  {
    var a, b := t.Child(one.parent, one.name), t.Child(other.parent, other.name);
    if a.None? || b.None? {
      UnlinkTidy(t, one.parent, one.name);
      UnlinkTidy(Unlink(t, one.parent, one.name), other.parent, other.name);
    } else if a != b {
      var t' := Exchange(t, one, other);
      ExchangeAt(t, one, other, a.value, b.value, one, 0);
      forall d | d in t'.nodes ensures TidyAt(t', d) {
        forall e ensures SwappedTo(t, t', one, other, a.value, b.value, e, d) {
          ExchangeAt(t, one, other, a.value, b.value, e, d);
        }
        assert TidyAt(t, d);
        SwappedToTidy(t, t', one, other, a.value, b.value, d);
      }
    }
  }

  lemma WrongAliasTidy(t: Table, id: nat, path: seq<Name>)
    requires Tidy(t)
    ensures Tidy(AliasWasWrong(t, id, path))
  {
    var at := Wrong(t, id, path);
    if at.Some? {
      var t', alias := AliasWasWrong(t, id, path), t.nodes[id].aliases[at.value];
      ForgetAliasAt(t, id, at.value, alias, id);
      forall d | d in t'.nodes ensures TidyAt(t', d) {
        ForgetAliasAt(t, id, at.value, alias, d);
        assert TidyAt(t, d);
        forall a | a in t'.Aliases(d) ensures t'.Child(a.parent, a.name) == Some(d) {
          ForgetAliasAt(t, id, at.value, a, d);
        }
      }
    }
  }

  /** Where an alias may stand twice, forgetting one copy keeps the aliases matched exactly when there is no other. */
  lemma WrongAliasMatched(t: Table, id: nat, path: seq<Name>)
    requires Matched(t) && Wrong(t, id, path).Some?
    ensures var aliases, at := t.nodes[id].aliases, Wrong(t, id, path).value;
      Matched(AliasWasWrong(t, id, path)) <==> aliases[at] !in RemoveAt(aliases, at)
  {
    var t', aliases, at := AliasWasWrong(t, id, path), t.nodes[id].aliases, Wrong(t, id, path).value;
    ForgetAliasAt(t, id, at, aliases[at], id);
    assert t.Child(aliases[at].parent, aliases[at].name) == Some(id);
    if aliases[at] in RemoveAt(aliases, at) {
      assert id in t'.nodes && aliases[at] in t'.nodes[id].aliases;
    } else {
      forall d, a | d in t'.nodes && a in t'.nodes[d].aliases ensures t'.Child(a.parent, a.name) == Some(d) {
        ForgetAliasAt(t, id, at, a, d);
        assert a in t.nodes[d].aliases;
      }
    }
  }

  /** The node is the directory of no other node it knows. */
  ghost predicate NoOthersIn(t: Table, id: nat) {
    forall name :: t.Child(id, name) in {None, Some(id)}
  }

  /** A forget that leaves a node none keeps the aliases matched exactly when the node held no other. */
  lemma RemovedTidy(t: Table, id: nat)
    requires Inv(t) && Tidy(t) && id in t.nodes && id != ROOT
    ensures Tidy(Removed(t, id)) <==> NoOthersIn(t, id)
  {
    var t' := Removed(t, id);
    RemovedAt(t, id, Alias(id, WITNESS), id);
    if NoOthersIn(t, id) {
      forall d | d in t'.nodes ensures TidyAt(t', d) {
        RemovedAt(t, id, Alias(id, WITNESS), d);
        assert TidyAt(t, d);
        forall a | a in t'.Aliases(d) ensures t'.Child(a.parent, a.name) == Some(d) {
          RemovedAt(t, id, a, d);
        }
      }
    } else {
      var name :| t.Child(id, name) !in {None, Some(id)};
      var d := t.Child(id, name).value;
      assert LinkAt(t, {}, id, name);
      RemovedAt(t, id, Alias(id, name), d);
      assert Alias(id, name) in t'.Aliases(d) && !TidyAt(t', d);
    }
  }

  /** Any name. */
  const WITNESS: Name := [0x61]

  lemma ForgetTidy(t: Table, id: nat, n: nat)
    requires Inv(t) && Tidy(t)
    ensures Tidy(Forget(t, id, n)) <==> (Forgotten(t, id, n) ==> NoOthersIn(t, id))
  {
    if Forgotten(t, id, n) {
      RemovedTidy(t, id);
    } else if id != ROOT && id in t.nodes {
      var t' := Forget(t, id, n);
      forall d | d in t'.nodes ensures TidyAt(t', d) {
        assert TidyAt(t, d);
        forall a | a in t'.Aliases(d) ensures t'.Child(a.parent, a.name) == Some(d) {
          NodeAt(t, id, t'.nodes[id], a, d);
        }
      }
    }
  }

  lemma RootSeenTidy(t: Table, identity: Identity)
    requires ROOT in t.nodes && Tidy(t)
    ensures Tidy(RootSeen(t, identity))
  {
    var t' := RootSeen(t, identity);
    forall d | d in t'.nodes ensures TidyAt(t', d) {
      assert TidyAt(t, d);
      forall a | a in t'.Aliases(d) ensures t'.Child(a.parent, a.name) == Some(d) {
        NodeAt(t, ROOT, t'.nodes[ROOT], a, d);
      }
    }
  }

  /** What the kernel does where nothing dangles: names are given under known directories, and a directory is forgotten
      after what it holds. */
  ghost predicate Orderly(t: Table, op: Op)
    requires Allowed(t, op)
  {
    match op
    case OpLookup(parent, _, seen) => IdFor(t, seen) == ROOT || parent in t.nodes
    case OpForget(id, n) => Forgotten(t, id, n) ==> NoOthersIn(t, id)
    case OpRename(from, to) => Renames(t, from, to) ==> to.parent in t.nodes
    case _ => true
  }

  /** One operation keeps the aliases matched exactly when it is orderly. */
  lemma StepTidy(t: Table, op: Op)
    requires Inv(t) && Tidy(t) && Allowed(t, op)
    ensures Tidy(Apply(t, op)) <==> Orderly(t, op)
  {
    match op
    case OpLookup(parent, name, seen) =>
      if IdFor(t, seen) != ROOT {
        LookupTidy(t, parent, name, seen);
      }
    case OpRootSeen(identity) => RootSeenTidy(t, identity);
    case OpForget(id, n) => ForgetTidy(t, id, n);
    case OpUnlink(parent, name) => UnlinkTidy(t, parent, name);
    case OpRename(from, to) =>
      if Renames(t, from, to) {
        RenameTidy(t, from, to);
      }
    case OpExchange(one, other) => ExchangeTidy(t, one, other);
    case OpWrongAlias(id, path) => WrongAliasTidy(t, id, path);
  }

  ghost predicate OrderlyRun(tables: seq<Table>, ops: seq<Op>)
    requires IsRun(tables, ops)
  {
    forall i | 0 <= i < |ops| :: Orderly(tables[i], ops[i])
  }

  lemma {:induction false} RunTidy(tables: seq<Table>, ops: seq<Op>, i: nat)
    requires IsRun(tables, ops) && OrderlyRun(tables, ops) && i < |tables|
    ensures Tidy(tables[i])
  {
    if i > 0 {
      RunTidy(tables, ops, i - 1);
      RunKeeps(tables, ops, i - 1);
      StepTidy(tables[i - 1], ops[i - 1]);
    }
  }

  /** A run keeps every table's aliases matched, and none twice, exactly when each of its steps is orderly. */
  lemma RunTidyExactly(tables: seq<Table>, ops: seq<Op>)
    requires IsRun(tables, ops)
    ensures (forall i | 0 <= i < |tables| :: Tidy(tables[i])) <==> OrderlyRun(tables, ops)
  {
    if OrderlyRun(tables, ops) {
      forall i | 0 <= i < |tables| ensures Tidy(tables[i]) {
        RunTidy(tables, ops, i);
      }
    } else {
      var i :| 0 <= i < |ops| && !Orderly(tables[i], ops[i]);
      RunKeeps(tables, ops, i);
      if Tidy(tables[i]) {
        StepTidy(tables[i], ops[i]);
        assert !Tidy(tables[i + 1]);
      }
    }
  }

  /** Over every orderly run, the path to a node leads back to it. */
  lemma RunPathResolves(tables: seq<Table>, ops: seq<Op>, i: nat, id: nat)
    requires IsRun(tables, ops) && OrderlyRun(tables, ops) && i < |tables| && PathOf(tables[i], id).Some?
    ensures Resolve(tables[i], PathOf(tables[i], id).value) == Some(id)
  {
    RunTidy(tables, ops, i);
    TidyIsMatched(tables[i]);
    PathResolves(tables[i], id);
  }
}
