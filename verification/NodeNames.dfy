/** The names a node is addressed by: `NamesTo` finds one exactly when an alias chain reaches the root, and where every alias
    has its entry, the path found leads back to the node. */
module NodeNames {
  import opened Files
  import opened Nodes

  /** `names` spell an alias chain from the root to `id`. */
  ghost predicate Spells(t: Table, names: seq<Name>, id: nat)
    decreases |names|
  {
    if names == [] then id == ROOT
    else id != ROOT && exists a :: a in t.Aliases(id) && EndsIn(t, names, a)
  }

  ghost predicate EndsIn(t: Table, names: seq<Name>, a: Alias)
    requires names != []
    decreases |names|, 0
  {
    a.name == names[|names| - 1] && Spells(t, names[..|names| - 1], a.parent)
  }

  /** The place of the newest of `aliases` whose directory can be reached in `steps - 1` steps. */
  function Newest(t: Table, aliases: seq<Alias>, steps: nat): (at: Option<nat>)
    requires steps > 0
    ensures at.Some? ==> at.value < |aliases| && NamesTo(t, aliases[at.value].parent, steps - 1).Some?
    ensures forall i | 0 <= i < |aliases| && (at.Some? ==> at.value < i) :: NamesTo(t, aliases[i].parent, steps - 1).None?
  {
    if aliases == [] then None
    else if NamesTo(t, aliases[|aliases| - 1].parent, steps - 1).Some? then Some(|aliases| - 1)
    else Newest(t, aliases[..|aliases| - 1], steps)
  }

  /** The names go through the newest alias whose directory can itself be addressed. */
  lemma {:induction false} ThroughNewest(t: Table, aliases: seq<Alias>, steps: nat)
    requires steps > 0
    ensures var at := Newest(t, aliases, steps);
      NamesThrough(t, aliases, steps)
      == if at.None? then None
         else Some(NamesTo(t, aliases[at.value].parent, steps - 1).value + [aliases[at.value].name])
  {
    if aliases != [] && NamesTo(t, aliases[|aliases| - 1].parent, steps - 1).None? {
      ThroughNewest(t, aliases[..|aliases| - 1], steps);
    }
  }

  /** The names found spell a chain of no more steps than allowed. */
  lemma {:induction false} NamesAreSound(t: Table, id: nat, steps: nat)
    requires NamesTo(t, id, steps).Some?
    ensures var names := NamesTo(t, id, steps).value; |names| <= steps && Spells(t, names, id)
    decreases steps
  {
    if id != ROOT {
      ThroughNewest(t, t.Aliases(id), steps);
      var a := t.Aliases(id)[Newest(t, t.Aliases(id), steps).value];
      NamesAreSound(t, a.parent, steps - 1);
      var names := NamesTo(t, id, steps).value;
      assert names[..|names| - 1] == NamesTo(t, a.parent, steps - 1).value;
      assert EndsIn(t, names, a);
    }
  }

  /** If any chain of no more steps than allowed reaches the root, names are found. */
  lemma {:induction false} NamesAreComplete(t: Table, id: nat, names: seq<Name>, steps: nat)
    requires Spells(t, names, id) && |names| <= steps
    ensures NamesTo(t, id, steps).Some?
    decreases steps
  {
    if names != [] {
      var a :| a in t.Aliases(id) && EndsIn(t, names, a);
      NamesAreComplete(t, a.parent, names[..|names| - 1], steps - 1);
      ThroughNewest(t, t.Aliases(id), steps);
      var i :| 0 <= i < |t.Aliases(id)| && t.Aliases(id)[i] == a;
      assert NamesTo(t, t.Aliases(id)[i].parent, steps - 1).Some?;
    }
  }

  /** A node can be addressed exactly when some alias chain of at most `MAX_DEPTH + 1` steps, 2049, reaches the root. */
  lemma AddressedExactly(t: Table, id: nat)
    ensures NamesTo(t, id, STEPS).Some? <==> exists names :: Spells(t, names, id) && |names| <= 2049
  {
    if NamesTo(t, id, STEPS).Some? {
      NamesAreSound(t, id, STEPS);
    } else {
      forall names | Spells(t, names, id) ensures |names| > MAX_DEPTH + 1 {
        if |names| <= MAX_DEPTH + 1 {
          NamesAreComplete(t, id, names, STEPS);
        }
      }
    }
  }

  /** Allowing one step more changes the names only where the shortest chain takes exactly that many. */
  lemma {:induction false} OneMoreStep(t: Table, id: nat, steps: nat)
    requires forall names | Spells(t, names, id) :: |names| != steps + 1
    ensures NamesTo(t, id, steps + 1) == NamesTo(t, id, steps)
    decreases steps
  {
    if id != ROOT {
      var aliases := t.Aliases(id);
      forall a, names | a in aliases && Spells(t, names, a.parent) ensures |names| != steps {
        assert (names + [a.name])[..|names|] == names;
        assert EndsIn(t, names + [a.name], a);
      }
      if steps == 0 {
        NoneReachRoot(t, aliases);
      } else {
        forall a | a in aliases ensures NamesTo(t, a.parent, steps) == NamesTo(t, a.parent, steps - 1) {
          OneMoreStep(t, a.parent, steps - 1);
        }
        SameThrough(t, aliases, steps);
      }
    }
  }

  lemma {:induction false} NoneReachRoot(t: Table, aliases: seq<Alias>)
    requires forall a, names | a in aliases && Spells(t, names, a.parent) :: |names| != 0
    ensures NamesThrough(t, aliases, 1).None?
  {
    if aliases != [] {
      var last := aliases[|aliases| - 1];
      assert Spells(t, [], last.parent) ==> false;
      NoneReachRoot(t, aliases[..|aliases| - 1]);
    }
  }

  lemma {:induction false} SameThrough(t: Table, aliases: seq<Alias>, steps: nat)
    requires steps > 0
    requires forall a | a in aliases :: NamesTo(t, a.parent, steps) == NamesTo(t, a.parent, steps - 1)
    ensures NamesThrough(t, aliases, steps + 1) == NamesThrough(t, aliases, steps)
  {
    if aliases != [] {
      assert aliases[|aliases| - 1] in aliases;
      SameThrough(t, aliases[..|aliases| - 1], steps);
    }
  }

  // ---- Resolving ----

  /** Every alias has its entry. */
  ghost predicate Matched(t: Table) {
    forall id, a | id in t.nodes && a in t.nodes[id].aliases :: t.Child(a.parent, a.name) == Some(id)
  }

  lemma {:induction false} ResolveOneMore(t: Table, from: nat, names: seq<Name>, name: Name)
    ensures ResolveFrom(t, from, names + [name])
            == match ResolveFrom(t, from, names) { case Some(id) => t.Child(id, name) case None => None }
    decreases |names|
  {
    if names == [] {
      assert names + [name] == [name];
      assert [name][1..] == [];
    } else {
      assert (names + [name])[1..] == names[1..] + [name];
      var next := t.Child(from, names[0]);
      if next.Some? {
        ResolveOneMore(t, next.value, names[1..], name);
      }
    }
  }

  /** The nodes that the names found pass through, from the root to `id`. */
  function Route(t: Table, id: nat, steps: nat): (route: seq<nat>)
    requires NamesTo(t, id, steps).Some?
    ensures |route| == |NamesTo(t, id, steps).value| + 1 && route[0] == ROOT && route[|route| - 1] == id
    decreases steps
  {
    if id == ROOT then [ROOT]
    else
      ThroughNewest(t, t.Aliases(id), steps);
      Route(t, t.Aliases(id)[Newest(t, t.Aliases(id), steps).value].parent, steps - 1) + [id]
  }

  /** Each name on the way is an alias of the node it leads to. */
  lemma {:induction false} RouteIsAliases(t: Table, id: nat, steps: nat, n: nat)
    requires NamesTo(t, id, steps).Some? && n < |NamesTo(t, id, steps).value|
    ensures var names, route := NamesTo(t, id, steps).value, Route(t, id, steps);
      route[n + 1] in t.nodes && Alias(route[n], names[n]) in t.nodes[route[n + 1]].aliases
    decreases steps
  {
    ThroughNewest(t, t.Aliases(id), steps);
    var a := t.Aliases(id)[Newest(t, t.Aliases(id), steps).value];
    if n < |NamesTo(t, a.parent, steps - 1).value| {
      RouteIsAliases(t, a.parent, steps - 1, n);
    }
  }

  /** The first `n` names lead to the node passed there. */
  predicate Resolves(t: Table, names: seq<Name>, route: seq<nat>, n: nat)
    requires n <= |names| && |route| == |names| + 1
  {
    Resolve(t, names[..n]) == Some(route[n])
  }

  /** The alias used for the step to the next node has its entry. */
  predicate HasEntry(t: Table, names: seq<Name>, route: seq<nat>, n: nat)
    requires n < |names| && |route| == |names| + 1
  {
    t.Child(route[n], names[n]) == Some(route[n + 1])
  }

  lemma OneMoreName(t: Table, names: seq<Name>, route: seq<nat>, n: nat)
    requires n < |names| && |route| == |names| + 1 && Resolves(t, names, route, n)
    ensures Resolves(t, names, route, n + 1) <==> HasEntry(t, names, route, n)
  {
    ResolveOneMore(t, ROOT, names[..n], names[n]);
    assert names[..n + 1] == names[..n] + [names[n]];
  }

  /** Names lead along a route for as long as each step on it has its entry. */
  lemma {:induction false} ResolvesExactly(t: Table, names: seq<Name>, route: seq<nat>, n: nat)
    requires n <= |names| && |route| == |names| + 1 && route[0] == ROOT
    ensures (forall i | 0 <= i <= n :: Resolves(t, names, route, i))
            <==> (forall i | 0 <= i < n :: HasEntry(t, names, route, i))
  {
    if n > 0 {
      ResolvesExactly(t, names, route, n - 1);
      if Resolves(t, names, route, n - 1) {
        OneMoreName(t, names, route, n - 1);
      }
    } else {
      assert names[..0] == [];
    }
  }

  /** Every prefix of `names` leads to the node passed there. */
  ghost predicate LeadsAlong(t: Table, names: seq<Name>, route: seq<nat>)
    requires |route| == |names| + 1
  {
    forall n | 0 <= n <= |names| :: Resolves(t, names, route, n)
  }

  /** Each alias used on the way has its entry. */
  ghost predicate Entered(t: Table, names: seq<Name>, route: seq<nat>)
    requires |route| == |names| + 1
  {
    forall n | 0 <= n < |names| :: HasEntry(t, names, route, n)
  }

  /** Every prefix of the path to a node leads to the node that its names pass there, exactly when each alias used on the way
      has its entry. */
  lemma PathResolvesExactly(t: Table, id: nat)
    requires PathOf(t, id).Some?
    ensures LeadsAlong(t, PathOf(t, id).value, Route(t, id, STEPS))
            <==> Entered(t, PathOf(t, id).value, Route(t, id, STEPS))
  {
    ResolvesExactly(t, PathOf(t, id).value, Route(t, id, STEPS), |PathOf(t, id).value|);
  }

  lemma MatchedIsEntered(t: Table, id: nat, steps: nat)
    requires Matched(t) && NamesTo(t, id, steps).Some?
    ensures Entered(t, NamesTo(t, id, steps).value, Route(t, id, steps))
  {
    var names, route := NamesTo(t, id, steps).value, Route(t, id, steps);
    forall n | 0 <= n < |names| ensures HasEntry(t, names, route, n) {
      RouteIsAliases(t, id, steps, n);
    }
  }

  /** So where every alias has its entry, the path to a node leads back to it. */
  lemma PathResolves(t: Table, id: nat)
    requires Matched(t) && PathOf(t, id).Some?
    ensures Resolve(t, PathOf(t, id).value) == Some(id)
  {
    var path, route := PathOf(t, id).value, Route(t, id, STEPS);
    MatchedIsEntered(t, id, STEPS);
    PathResolvesExactly(t, id);
    assert Resolves(t, path, route, |path|);
    assert path[..|path|] == path;
  }
}
