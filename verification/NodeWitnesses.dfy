/** Runs of the inode table that show the conditions of the theorems are needed: a path that no longer resolves, a matched
    table with an alias twice, and a wrong name that is never found again. */
module NodeWitnesses {
  import opened Files
  import opened Nodes
  import opened NodeInvariant
  import opened NodeNames
  import opened NodeEffects

  const A: Name := [0x61]
  const B: Name := [0x62]
  const F: Name := [0x66]

  /** The file numbered `ino` on the server. */
  function File(ino: U64): Seen {
    Seen(ino, Identity(0, []), false, Directory)
  }

  /** Every file seen so far has a number no larger than its own, and goes by it. */
  ghost predicate Plain(t: Table, top: nat) {
    && Inv(t)
    && (forall id | id in t.nodes :: 1 <= id <= top)
    && (forall ino: U64 | 1 < ino <= top :: File(ino).Key() in t.byKey <==> ino in t.nodes)
    && (forall ino: U64 | 1 < ino <= top && ino in t.nodes :: t.byKey[File(ino).Key()] == ino)
  }

  lemma PlainRoom(t: Table, top: nat)
    requires Plain(t, top) && top < 10000
    ensures Room(t) && ROOT in t.nodes
  {
    PartSize(t.nodes.Keys - {ROOT}, Below(top + 1));
  }

  lemma PlainNumber(t: Table, top: nat, ino: U64)
    requires Plain(t, top) && 1 < ino <= top && Room(t)
    ensures IdFor(t, File(ino)) == ino
  {
    assert File(ino).Key() in t.byKey <==> ino in t.nodes;
  }

  lemma LookupKeys(t: Table, parent: nat, name: Name, seen: Seen)
    requires Inv(t) && Room(t) && IdFor(t, seen) != ROOT
    ensures Lookup(t, parent, name, seen).byKey == t.byKey[seen.Key() := IdFor(t, seen)]
  {
    ReplacedKeeps(t, parent, name, IdFor(t, seen));
  }

  lemma PlainStays(t: Table, t': Table, top: nat, ino: U64)
    requires Plain(t, top) && 1 < ino <= top && Inv(t')
    requires t'.nodes.Keys == t.nodes.Keys + {ino} && t'.byKey == t.byKey[File(ino).Key() := ino]
    ensures Plain(t', top)
  {
    forall other: U64 | 1 < other <= top ensures File(other).Key() in t'.byKey <==> other in t'.nodes {
      assert File(other).Key() in t.byKey <==> other in t.nodes;
    }
  }

  /** `alias`, which no node of interest had, is `id`'s now; every other node has the aliases it had, and every other entry
      is the one it was. */
  ghost predicate Added(t: Table, t': Table, alias: Alias, id: nat) {
    && t'.nodes.Keys == t.nodes.Keys + {id}
    && (forall p, n :: t'.Child(p, n) == if Alias(p, n) == alias && p in t.nodes then Some(id) else t.Child(p, n))
    && forall d: nat :: alias !in t.Aliases(d) ==> t'.Aliases(d) == if d == id then t.Aliases(d) + [alias] else t.Aliases(d)
  }

  lemma LookupAdds(t: Table, parent: nat, name: Name, seen: Seen)
    requires ROOT in t.nodes && Room(t) && IdFor(t, seen) != ROOT
    ensures Added(t, Lookup(t, parent, name, seen), Alias(parent, name), IdFor(t, seen))
  {
    var t', alias, id := Lookup(t, parent, name, seen), Alias(parent, name), IdFor(t, seen);
    LookupAt(t, parent, name, seen, alias, id);
    forall p, n ensures t'.Child(p, n) == if Alias(p, n) == alias && p in t.nodes then Some(id) else t.Child(p, n) {
      LookupAt(t, parent, name, seen, Alias(p, n), id);
    }
    forall d: nat | alias !in t.Aliases(d)
      ensures t'.Aliases(d) == if d == id then t.Aliases(d) + [alias] else t.Aliases(d)
    {
      LookupAt(t, parent, name, seen, alias, d);
    }
  }

  /** A lookup, after a run, of a file that goes by its own number. */
  lemma PlainLookup(tables: seq<Table>, ops: seq<Op>, top: nat, alias: Alias, ino: U64)
    returns (tables': seq<Table>, ops': seq<Op>)
    requires IsRun(tables, ops) && Plain(tables[|ops|], top) && 1 < ino <= top < 10000
    ensures IsRun(tables', ops') && |ops'| == |ops| + 1 && Plain(tables'[|ops'|], top)
    ensures Added(tables[|ops|], tables'[|ops'|], alias, ino)
  {
    var t := tables[|ops|];
    PlainRoom(t, top);
    PlainNumber(t, top, ino);
    var t' := Lookup(t, alias.parent, alias.name, File(ino));
    LookupAdds(t, alias.parent, alias.name, File(ino));
    LookupKeeps(t, alias.parent, alias.name, File(ino));
    LookupKeys(t, alias.parent, alias.name, File(ino));
    PlainStays(t, t', top, ino);
    RunOn(tables, ops, OpLookup(alias.parent, alias.name, File(ino)), t');
    tables', ops' := tables + [t'], ops + [OpLookup(alias.parent, alias.name, File(ino))];
  }

  lemma RunOn(tables: seq<Table>, ops: seq<Op>, op: Op, t': Table)
    requires IsRun(tables, ops) && Allowed(tables[|ops|], op) && t' == Apply(tables[|ops|], op)
    ensures IsRun(tables + [t'], ops + [op])
  {
    forall i | 0 <= i < |ops + [op]|
      ensures Allowed((tables + [t'])[i], (ops + [op])[i])
      ensures (tables + [t'])[i + 1] == Apply((tables + [t'])[i], (ops + [op])[i])
    {
    }
  }

  // ---- A chain of directories ----

  /** Each node up to `n + 1` has one alias, in the node before it. */
  ghost predicate Chain(t: Table, n: nat) {
    forall i | 2 <= i <= n + 1 :: t.Aliases(i) == [Alias(i - 1, B)]
  }

  lemma EmptyPlain(top: nat)
    requires top > 0
    ensures Plain(EMPTY, top) && HasIds(EMPTY, 0)
  {
    assert forall id | id in EMPTY.nodes :: id == ROOT && NamedAt(EMPTY, id);
  }

  /** The nodes are those numbered from the root's to `n + 1`. */
  ghost predicate HasIds(t: Table, n: nat) {
    forall id: nat :: id in t.nodes <==> 1 <= id <= n + 1
  }

  /** A run that looks up `n` directories, each in the one before. */
  lemma {:induction false} ChainRun(n: nat, top: nat) returns (tables: seq<Table>, ops: seq<Op>)
    requires n < top < 10000
    ensures IsRun(tables, ops) && Plain(tables[|ops|], top) && Chain(tables[|ops|], n)
    ensures HasIds(tables[|ops|], n)
  {
    if n == 0 {
      tables, ops := [EMPTY], [];
      EmptyPlain(top);
    } else {
      tables, ops := ChainRun(n - 1, top);
      var t := tables[|ops|];
      tables, ops := PlainLookup(tables, ops, top, Alias(n, B), n + 1);
      ChainOn(t, tables[|ops|], n);
    }
  }

  lemma ChainOn(t: Table, t': Table, n: nat)
    requires n > 0 && Chain(t, n - 1) && HasIds(t, n - 1) && Added(t, t', Alias(n, B), n + 1)
    ensures Chain(t', n) && HasIds(t', n)
  {
    forall id: nat ensures id in t'.nodes <==> 1 <= id <= n + 1 {
      assert id in t.nodes <==> 1 <= id <= n;
    }
    forall i | 2 <= i <= n + 1 ensures t'.Aliases(i) == [Alias(i - 1, B)] {
      assert i <= n ==> t.Aliases(i) == [Alias(i - 1, B)];
    }
  }

  /** A chain of `i - 1` steps is found exactly when that many are allowed. */
  lemma {:induction false} ChainNames(t: Table, n: nat, i: nat, steps: nat)
    requires Chain(t, n) && 1 <= i <= n + 1
    ensures NamesTo(t, i, steps).Some? <==> steps >= i - 1
    ensures NamesTo(t, i, steps).Some? ==> |NamesTo(t, i, steps).value| == i - 1
  {
    if i > 1 && steps > 0 {
      ChainNames(t, n, i - 1, steps - 1);
      var aliases := [Alias(i - 1, B)];
      assert t.Aliases(i) == aliases && aliases[..0] == [];
      assert NamesThrough(t, aliases[..0], steps).None?;
    }
  }

  /** A directory with an old name at the root and a new one at the end of a chain, and a file in it. */
  ghost predicate Deep(t: Table, n: nat) {
    && Chain(t, n)
    && t.Aliases(n + 2) == [Alias(ROOT, A), Alias(n + 1, B)]
    && t.Aliases(n + 3) == [Alias(n + 2, F)]
    && n + 3 in t.nodes
  }

  lemma DeepNames(t: Table, n: nat)
    requires Deep(t, n) && n > 0
    ensures NamesTo(t, n + 2, n) == Some([A])
    ensures NamesTo(t, n + 3, n + 1) == Some([A, F])
    ensures NamesTo(t, n + 2, n + 1) != Some([A])
  {
    ChainNames(t, n, n + 1, n - 1);
    ChainNames(t, n, n + 1, n);
    var aliases := t.Aliases(n + 2);
    assert aliases[..1] == [Alias(ROOT, A)];
    assert [] + [A] == [A];
    assert NamesThrough(t, aliases[..1], n) == Some([A]);
    assert NamesThrough(t, aliases, n) == NamesThrough(t, aliases[..1], n);
    assert [A] + [F] == [A, F];
    assert NamesTo(t, n + 2, n + 1) == Some(NamesTo(t, n + 1, n).value + [B]);
    assert (NamesTo(t, n + 1, n).value + [B])[n] == B;
  }

  lemma DeepRun(n: nat) returns (tables: seq<Table>, ops: seq<Op>)
    requires n > 0 && n + 3 < 10000
    ensures IsRun(tables, ops) && Deep(tables[|ops|], n)
  {
    tables, ops := ChainRun(n, n + 3);
    var t0 := tables[|ops|];
    tables, ops := PlainLookup(tables, ops, n + 3, Alias(ROOT, A), n + 2);
    var t1 := tables[|ops|];
    tables, ops := PlainLookup(tables, ops, n + 3, Alias(n + 1, B), n + 2);
    var t2 := tables[|ops|];
    tables, ops := PlainLookup(tables, ops, n + 3, Alias(n + 2, F), n + 3);
    DeepAliases(t0, t1, t2, tables[|ops|], n);
  }

  lemma DeepAliases(t0: Table, t1: Table, t2: Table, t3: Table, n: nat)
    requires Chain(t0, n) && t0.Aliases(n + 2) == [] && t0.Aliases(n + 3) == []
    requires Added(t0, t1, Alias(ROOT, A), n + 2)
    requires Added(t1, t2, Alias(n + 1, B), n + 2)
    requires Added(t2, t3, Alias(n + 2, F), n + 3)
    ensures Deep(t3, n)
  {
    assert A != B && A != F && B != F;
    forall i | 2 <= i <= n + 1 ensures t3.Aliases(i) == [Alias(i - 1, B)] {
      assert t0.Aliases(i) == [Alias(i - 1, B)];
      assert t1.Aliases(i) == t0.Aliases(i) && t2.Aliases(i) == t1.Aliases(i);
    }
    assert t1.Aliases(n + 2) == [Alias(ROOT, A)] && t2.Aliases(n + 2) == [Alias(ROOT, A), Alias(n + 1, B)];
    assert t1.Aliases(n + 3) == [] && t2.Aliases(n + 3) == [];
  }

  /** Somewhere in reach, a path that led to another file changes nothing, so the next request goes by it again. */
  lemma WrongNameStays() returns (tables: seq<Table>, ops: seq<Op>, id: nat)
    ensures IsRun(tables, ops) && id != ROOT && PathOf(tables[|ops|], id) == Some([A, F])
    ensures AliasWasWrong(tables[|ops|], id, [A, F]) == tables[|ops|]
  {
    tables, ops := DeepRun(MAX_DEPTH);
    id := MAX_DEPTH + 3;
    DeepWrong(tables[|ops|], MAX_DEPTH);
  }

  lemma DeepWrong(t: Table, n: nat)
    requires Deep(t, n) && n == MAX_DEPTH
    ensures PathOf(t, n + 3) == Some([A, F]) && AliasWasWrong(t, n + 3, [A, F]) == t
  {
    DeepNames(t, n);
    assert [A, F][..1] == [A] && [A][..0] == [];
    assert NameBytes([A]) == NameBytes([]) + 1;
    assert IsPath([A, F]);
    assert !LeadsTo(t, Alias(n + 2, F), [A, F]);
  }

  // ---- A name in a directory forgotten and found again ----

  /** `id` is gone, with its entries and the entries in it. */
  ghost predicate Gone(t: Table, t': Table, id: nat) {
    && t'.nodes.Keys == t.nodes.Keys - {id}
    && (forall p, n :: t'.Child(p, n) == if p == id || t.Child(p, n) == Some(id) then None else t.Child(p, n))
    && (forall d: nat :: t'.Aliases(d) == if d == id then [] else t.Aliases(d))
  }

  lemma RemovedGone(t: Table, id: nat)
    requires Inv(t) && id in t.nodes && id != ROOT
    ensures Gone(t, Removed(t, id), id)
  {
    RemovedAt(t, id, Alias(id, A), id);
    forall p, n
      ensures Removed(t, id).Child(p, n) == if p == id || t.Child(p, n) == Some(id) then None else t.Child(p, n)
    {
      RemovedAt(t, id, Alias(p, n), id);
    }
    forall d: nat ensures Removed(t, id).Aliases(d) == if d == id then [] else t.Aliases(d) {
      RemovedAt(t, id, Alias(id, A), d);
    }
  }

  lemma PlainGone(t: Table, t': Table, top: nat, id: U64)
    requires Plain(t, top) && 1 < id <= top && id in t.nodes && t' == Removed(t, id)
    ensures Plain(t', top)
  {
    RemovedKeeps(t, id);
    RemovedGone(t, id);
    assert KeyAt(t, File(id).Key()) && NodeKeyed(t, id);
    CutForEach(Table(t.nodes - {id}, t.byKey - {File(id).Key()}), id, t.nodes[id].aliases);
    assert t'.byKey == t.byKey - {File(id).Key()};
    forall ino: U64 | 1 < ino <= top ensures File(ino).Key() in t'.byKey <==> ino in t'.nodes {
      assert File(ino).Key() in t.byKey <==> ino in t.nodes;
    }
  }

  /** After a run, the kernel forgets a node. */
  lemma PlainForget(tables: seq<Table>, ops: seq<Op>, top: nat, id: U64) returns (tables': seq<Table>, ops': seq<Op>)
    requires IsRun(tables, ops) && Plain(tables[|ops|], top) && 1 < id <= top && id in tables[|ops|].nodes
    ensures IsRun(tables', ops') && |ops'| == |ops| + 1 && Plain(tables'[|ops'|], top)
    ensures Gone(tables[|ops|], tables'[|ops'|], id)
  {
    var t := tables[|ops|];
    var op, t' := OpForget(id, t.nodes[id].lookups), Removed(t, id);
    assert ROOT in t.nodes;
    PlainGone(t, t', top, id);
    RemovedGone(t, id);
    RunOn(tables, ops, op, t');
    tables', ops' := tables + [t'], ops + [op];
  }

  /** The file 3 has a name in the directory 2 that the directory does not know. */
  ghost predicate Dangling(t: Table) {
    && Plain(t, 3) && t.nodes.Keys == {1, 2, 3}
    && t.Aliases(2) == [Alias(ROOT, A)] && t.Aliases(3) == [Alias(2, F), Alias(ROOT, B)]
    && t.Child(ROOT, A) == Some(2) && t.Child(ROOT, B) == Some(3) && t.Child(2, F) == None
  }

  lemma DanglingRun() returns (tables: seq<Table>, ops: seq<Op>)
    ensures IsRun(tables, ops) && Dangling(tables[|ops|])
  {
    tables, ops := [EMPTY], [];
    EmptyPlain(3);
    tables, ops := PlainLookup(tables, ops, 3, Alias(ROOT, A), 2);
    var t1 := tables[|ops|];
    tables, ops := PlainLookup(tables, ops, 3, Alias(2, F), 3);
    var t2 := tables[|ops|];
    tables, ops := PlainLookup(tables, ops, 3, Alias(ROOT, B), 3);
    var t3 := tables[|ops|];
    tables, ops := PlainForget(tables, ops, 3, 2);
    var t4 := tables[|ops|];
    tables, ops := PlainLookup(tables, ops, 3, Alias(ROOT, A), 2);
    DanglingAt(t1, t2, t3, t4, tables[|ops|]);
  }

  lemma BothNames(t1: Table, t2: Table, t3: Table)
    requires Added(EMPTY, t1, Alias(ROOT, A), 2) && Added(t1, t2, Alias(2, F), 3) && Added(t2, t3, Alias(ROOT, B), 3)
    ensures t3.nodes.Keys == {1, 2, 3} && t3.Aliases(3) == [Alias(2, F), Alias(ROOT, B)] && t3.Child(ROOT, B) == Some(3)
  {
    assert A != B && A != F && B != F;
    assert t1.nodes.Keys == {1, 2};
    assert t1.Aliases(3) == EMPTY.Aliases(3) == [];
    assert t2.Aliases(3) == [Alias(2, F)];
  }

  lemma DanglingAt(t1: Table, t2: Table, t3: Table, t4: Table, t5: Table)
    requires Added(EMPTY, t1, Alias(ROOT, A), 2) && Added(t1, t2, Alias(2, F), 3) && Added(t2, t3, Alias(ROOT, B), 3)
    requires Gone(t3, t4, 2) && Added(t4, t5, Alias(ROOT, A), 2) && Plain(t5, 3)
    ensures Dangling(t5)
  {
    BothNames(t1, t2, t3);
    FoundAgain(t3, t4, t5);
  }

  lemma FoundAgain(t3: Table, t4: Table, t5: Table)
    requires t3.nodes.Keys == {1, 2, 3} && t3.Aliases(3) == [Alias(2, F), Alias(ROOT, B)] && t3.Child(ROOT, B) == Some(3)
    requires Gone(t3, t4, 2) && Added(t4, t5, Alias(ROOT, A), 2) && Plain(t5, 3)
    ensures Dangling(t5)
  {
    StillNamed(t3, t4);
    assert A != B && A != F;
    assert t5.Child(2, F) == t4.Child(2, F) && t5.Child(ROOT, B) == t4.Child(ROOT, B);
  }

  lemma StillNamed(t3: Table, t4: Table)
    requires t3.nodes.Keys == {1, 2, 3} && t3.Child(ROOT, B) == Some(3) && Gone(t3, t4, 2)
    ensures t4.nodes.Keys == {1, 3} && t4.Aliases(2) == [] && t4.Aliases(3) == t3.Aliases(3)
    ensures t4.Child(2, F) == None && t4.Child(ROOT, B) == Some(3)
  {
  }

  lemma ShortPath()
    ensures IsPath([A, F])
  {
    assert [A, F][..1] == [A] && [A][..0] == [];
    assert NameBytes([A]) == NameBytes([]) + 1;
  }

  lemma TwoNames(t: Table, older: seq<Alias>, steps: nat)
    requires steps >= 2 && t.Aliases(2) == [Alias(ROOT, A)] && t.Aliases(3) == older + [Alias(2, F)]
    ensures NamesTo(t, 2, steps) == Some([A]) && NamesTo(t, 3, steps) == Some([A, F])
  {
    OneName(t, steps);
    OneName(t, steps - 1);
    assert [A] + [F] == [A, F];
    assert t.Aliases(3)[|t.Aliases(3)| - 1] == Alias(2, F);
  }

  lemma OneName(t: Table, steps: nat)
    requires steps >= 1 && t.Aliases(2) == [Alias(ROOT, A)]
    ensures NamesTo(t, 2, steps) == Some([A])
  {
    assert [] + [A] == [A];
    assert NamesTo(t, ROOT, steps - 1) == Some([]);
  }

  lemma TwoNamesPath(t: Table, older: seq<Alias>)
    requires t.Aliases(2) == [Alias(ROOT, A)] && t.Aliases(3) == older + [Alias(2, F)]
    ensures PathOf(t, 3) == Some([A, F])
  {
    TwoNames(t, older, STEPS);
    ShortPath();
  }

  lemma TwoNamesResolve(t: Table)
    requires t.Child(ROOT, A) == Some(2)
    ensures Resolve(t, [A, F]) == t.Child(2, F)
  {
    assert [A, F][1..] == [F] && [F][1..] == [];
    assert ResolveFrom(t, 2, [F]) == t.Child(2, F);
  }

  /** The file 3's one name is not known to its directory. */
  ghost predicate Lost(t: Table) {
    && t.Aliases(2) == [Alias(ROOT, A)] && t.Aliases(3) == [] + [Alias(2, F)]
    && t.Child(ROOT, A) == Some(2) && t.Child(2, F) == None
  }

  lemma LostRun() returns (tables: seq<Table>, ops: seq<Op>)
    ensures IsRun(tables, ops) && Lost(tables[|ops|])
  {
    tables, ops := DanglingRun();
    var t, op := tables[|ops|], OpUnlink(ROOT, B);
    DanglingUnlinked(t, op);
    RunOn(tables, ops, op, Apply(t, op));
    tables, ops := tables + [Apply(t, op)], ops + [op];
  }

  /** Somewhere in reach, the path to a node does not lead back to it. */
  lemma PathMayNotResolve() returns (tables: seq<Table>, ops: seq<Op>, id: nat)
    ensures IsRun(tables, ops) && PathOf(tables[|ops|], id) == Some([A, F])
    ensures Resolve(tables[|ops|], [A, F]) == None
  {
    tables, ops := LostRun();
    id := 3;
    TwoNamesPath(tables[|ops|], []);
    TwoNamesResolve(tables[|ops|]);
  }

  lemma DanglingUnlinked(t: Table, op: Op)
    requires Dangling(t) && op == OpUnlink(ROOT, B)
    ensures Allowed(t, op) && Lost(Apply(t, op))
  {
    UnlinkLoses(t, op.parent, op.name);
  }

  lemma UnlinkLoses(t: Table, parent: nat, name: Name)
    requires Dangling(t) && parent == ROOT && name == B
    ensures Lost(Unlink(t, parent, name))
  {
    assert A != name;
    UnlinkAt(t, parent, name, Alias(parent, A), 2);
    UnlinkAt(t, parent, name, Alias(2, F), 3);
    UnlinkedIsLost(t, Unlink(t, parent, name));
  }

  lemma UnlinkedIsLost(t: Table, t': Table)
    requires Dangling(t) && Has(t', Alias(ROOT, A), t.Child(ROOT, A), 2, t.Aliases(2))
    requires Has(t', Alias(2, F), t.Child(2, F), 3, Without(t.Aliases(3), Alias(ROOT, B)))
    ensures Lost(t')
  {
    OtherNameGone();
  }

  lemma OtherNameGone()
    ensures Without([Alias(2, F), Alias(ROOT, B)], Alias(ROOT, B)) == [Alias(2, F)]
  {
    assert [Alias(2, F), Alias(ROOT, B)][..1] == [Alias(2, F)];
  }

  lemma TwiceRun() returns (tables: seq<Table>, ops: seq<Op>)
    ensures IsRun(tables, ops) && Twice(tables[|ops|])
  {
    tables, ops := DanglingRun();
    var t, op := tables[|ops|], OpRename(Alias(ROOT, B), Alias(2, F));
    DanglingRenamed(t, op);
    RunOn(tables, ops, op, Apply(t, op));
    tables, ops := tables + [Apply(t, op)], ops + [op];
  }

  /** Somewhere in reach, every alias has its entry and one node has an alias twice; the name found wrong, its other copy
      has no entry. */
  lemma TwiceMatched() returns (tables: seq<Table>, ops: seq<Op>)
    ensures IsRun(tables, ops) && Matched(tables[|ops|]) && PathOf(tables[|ops|], 3) == Some([A, F])
    ensures !Matched(AliasWasWrong(tables[|ops|], 3, [A, F]))
  {
    tables, ops := TwiceRun();
    TwoNamesPath(tables[|ops|], [Alias(2, F)]);
    TwiceWrong(tables[|ops|]);
  }

  /** The file 3 has its one name twice. */
  ghost predicate Twice(t: Table) {
    && t.nodes.Keys == {1, 2, 3} && t.Aliases(ROOT) == [] && t.Child(ROOT, A) == Some(2) && t.Child(2, F) == Some(3)
    && t.Aliases(2) == [Alias(ROOT, A)] && t.Aliases(3) == [Alias(2, F)] + [Alias(2, F)]
  }

  lemma DanglingRenamed(t: Table, op: Op)
    requires Dangling(t) && op == OpRename(Alias(ROOT, B), Alias(2, F))
    ensures Allowed(t, op) && Twice(Apply(t, op))
  {
    assert A != B && B != F;
    var from, to := Alias(ROOT, B), Alias(2, F);
    RenameAt(t, from, to, Alias(ROOT, A), ROOT);
    RenameAt(t, from, to, Alias(ROOT, A), 2);
    RenameAt(t, from, to, to, 3);
    OtherNameGone();
  }

  lemma TwiceWrong(t: Table)
    requires Twice(t)
    ensures Matched(t) && !Matched(AliasWasWrong(t, 3, [A, F]))
  {
    TwoNames(t, [Alias(2, F)], STEPS);
    assert [A, F][..1] == [A];
    assert LeadsTo(t, Alias(2, F), [A, F]);
    assert Wrong(t, 3, [A, F]) == Some(1);
    ForgetAliasAt(t, 3, 1, Alias(2, F), 3);
    var t' := AliasWasWrong(t, 3, [A, F]);
    assert t'.Aliases(3)[0] == Alias(2, F) && 3 in t'.nodes;
    assert Alias(2, F) in t'.nodes[3].aliases && t'.Child(2, F) == None;
  }
}
