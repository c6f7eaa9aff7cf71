/** A path that led to another file costs its node the alias it went by. The alias used and the alias forgotten are looked
    for from different depths, so they are the same exactly when the extra step changes nothing on the way. */
module NodeWrongNames {
  import opened Files
  import opened Nodes
  import opened NodeNames
  import opened NodeEffects

  /** The place of the alias that `PathOf` goes through. */
  function Used(t: Table, id: nat): (at: nat)
    requires id != ROOT && PathOf(t, id).Some?
    ensures id in t.nodes && at < |t.Aliases(id)|
    ensures var a := t.Aliases(id)[at];
      NamesTo(t, a.parent, MAX_DEPTH).Some? && PathOf(t, id).value == NamesTo(t, a.parent, MAX_DEPTH).value + [a.name]
  {
    ThroughNewest(t, t.Aliases(id), STEPS);
    Newest(t, t.Aliases(id), STEPS).value
  }

  /** The names of the directory used are the same when looked for from the top. */
  ghost predicate SameFromTop(t: Table, id: nat)
    requires id != ROOT && PathOf(t, id).Some?
  {
    var dir := t.Aliases(id)[Used(t, id)].parent;
    NamesTo(t, dir, STEPS) == NamesTo(t, dir, MAX_DEPTH)
  }

  /** The alias forgotten is the alias used, exactly when its directory's names are the same from the top. */
  lemma WrongIsUsed(t: Table, id: nat)
    requires id != ROOT && PathOf(t, id).Some?
    ensures Wrong(t, id, PathOf(t, id).value) == Some(Used(t, id)) <==> SameFromTop(t, id)
  {
    var path, aliases, at := PathOf(t, id).value, t.Aliases(id), Used(t, id);
    var dir := path[..|path| - 1];
    ThroughNewest(t, aliases, STEPS);
    assert dir == NamesTo(t, aliases[at].parent, MAX_DEPTH).value;
    NamesAreSound(t, aliases[at].parent, MAX_DEPTH);
    forall i | at < i < |aliases| ensures !LeadsTo(t, aliases[i], path) {
      if LeadsTo(t, aliases[i], path) {
        NamesAreSound(t, aliases[i].parent, STEPS);
        NamesAreComplete(t, aliases[i].parent, dir, MAX_DEPTH);
      }
    }
    assert LeadsTo(t, aliases[at], path) <==> SameFromTop(t, id);
  }

  /** Where no chain to the directory used takes exactly one step too many, the alias forgotten is the alias used. */
  lemma WrongIsUsedIfShallow(t: Table, id: nat)
    requires id != ROOT && PathOf(t, id).Some?
    requires forall names | Spells(t, names, t.Aliases(id)[Used(t, id)].parent) :: |names| != MAX_DEPTH + 1
    ensures Wrong(t, id, PathOf(t, id).value) == Some(Used(t, id))
  {
    OneMoreStep(t, t.Aliases(id)[Used(t, id)].parent, MAX_DEPTH);
    WrongIsUsed(t, id);
  }

  /** Then the wrong path costs the node exactly the alias used. */
  lemma WrongCostsUsed(t: Table, id: nat)
    requires id != ROOT && PathOf(t, id).Some? && SameFromTop(t, id)
    ensures AliasWasWrong(t, id, PathOf(t, id).value) == ForgetAlias(t, id, Used(t, id))
    ensures |AliasWasWrong(t, id, PathOf(t, id).value).Aliases(id)| == |t.Aliases(id)| - 1
  {
    WrongIsUsed(t, id);
    WrongCostsOne(t, id, PathOf(t, id).value);
  }

  /** A wrong path costs the node one alias, or none. */
  lemma WrongCostsOne(t: Table, id: nat, path: seq<Name>)
    ensures |AliasWasWrong(t, id, path).Aliases(id)|
            == |t.Aliases(id)| - if Wrong(t, id, path).Some? then 1 else 0
  {
    var at := Wrong(t, id, path);
    if at.Some? {
      ForgetAliasAt(t, id, at.value, t.nodes[id].aliases[at.value], id);
    }
  }

  /** Every chain to the root is short of the limit. */
  ghost predicate Shallow(t: Table) {
    forall names, id | Spells(t, names, id) :: |names| <= MAX_DEPTH
  }

  lemma ShallowIsSame(t: Table, id: nat)
    requires Shallow(t) && id != ROOT && PathOf(t, id).Some?
    ensures SameFromTop(t, id)
  {
    WrongIsUsedIfShallow(t, id);
    WrongIsUsed(t, id);
  }

  /** Every chain that is left was there before. */
  lemma {:induction false} FewerChains(t: Table, id: nat, at: nat, names: seq<Name>, d: nat)
    requires id in t.nodes && at < |t.nodes[id].aliases| && Spells(ForgetAlias(t, id, at), names, d)
    ensures Spells(t, names, d)
    decreases |names|
  {
    if names != [] {
      var a :| a in ForgetAlias(t, id, at).Aliases(d) && EndsIn(ForgetAlias(t, id, at), names, a);
      ForgetAliasAt(t, id, at, a, d);
      FewerChains(t, id, at, names[..|names| - 1], a.parent);
      assert EndsIn(t, names, a);
    }
  }

  lemma WrongKeepsShallow(t: Table, id: nat, path: seq<Name>)
    requires Shallow(t)
    ensures Shallow(AliasWasWrong(t, id, path))
  {
    var at := Wrong(t, id, path);
    if at.Some? {
      forall names, d | Spells(AliasWasWrong(t, id, path), names, d) ensures |names| <= MAX_DEPTH {
        FewerChains(t, id, at.value, names, d);
      }
    }
  }
}
