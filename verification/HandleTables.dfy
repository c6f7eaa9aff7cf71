/** The client's handle table and a new session's round of reopens, updated in place as `handles.rs` and `machine.rs` do:
    each step is proved to be the step of `Handles` that the protocol is built from. The round shares its records with the
    table, so that a record the round kills is dead in the table too. */
module HandleTables {
  import opened Files
  import opened Machine
  import opened Handles

  class HandleRec {
    /** The id the record was made for. */
    ghost const fh: nat
    const key: KeyNode
    const dir: bool
    var dead: bool

    function View(): Rec
      reads this
    {
      Rec(key, dir, dead)
    }

    constructor (ghost fh: nat, key: KeyNode, dir: bool)
      ensures this.fh == fh && View() == Rec(key, dir, false)
    {
      this.fh := fh;
      this.key := key;
      this.dir := dir;
      dead := false;
    }
  }

  /** `recs`, all among `made`, hold what `views` says, each made for its own id. */
  ghost predicate Show(recs: map<nat, HandleRec>, views: map<nat, Rec>, made: set<HandleRec>)
    reads made
  {
    && recs.Keys == views.Keys
    && (forall fh | fh in recs :: recs[fh] in made && recs[fh].fh == fh && recs[fh].View() == views[fh])
  }

  /** `recs` are of the files and the ids that `views` says, dead or alive. */
  ghost predicate SameFiles(recs: map<nat, HandleRec>, views: map<nat, Rec>) {
    && recs.Keys == views.Keys
    && (forall fh | fh in recs :: recs[fh].fh == fh && recs[fh].key == views[fh].key && recs[fh].dir == views[fh].dir)
  }

  function OfKind(recs: map<nat, HandleRec>, dir: bool): set<nat> {
    set fh | fh in recs && recs[fh].dir == dir
  }

  lemma Less(ids: set<nat>, fh: nat)
    ensures |ids - {fh}| == |ids| - if fh in ids then 1 else 0
  {
    if fh !in ids {
      assert ids - {fh} == ids;
    }
  }

  lemma InsertKinds(recs: map<nat, HandleRec>, fh: nat, rec: HandleRec, dir: bool)
    ensures OfKind(recs[fh := rec], dir) == OfKind(recs, dir) - {fh} + if rec.dir == dir then {fh} else {}
  {
  }

  lemma InsertCounts(recs: map<nat, HandleRec>, fh: nat, rec: HandleRec, dir: bool)
    ensures |OfKind(recs[fh := rec], dir)| == |OfKind(recs, dir)| + (if rec.dir == dir then 1 else 0)
                                              - (if fh in recs && recs[fh].dir == dir then 1 else 0)
  {
    var ids := OfKind(recs, dir);
    assert fh in ids <==> fh in recs && recs[fh].dir == dir;
    InsertKinds(recs, fh, rec, dir);
    Less(ids, fh);
    if rec.dir != dir {
      assert ids - {fh} + {} == ids - {fh};
    }
  }

  lemma RemoveCounts(recs: map<nat, HandleRec>, fh: nat, dir: bool)
    requires fh in recs
    ensures |OfKind(recs - {fh}, dir)| == |OfKind(recs, dir)| - (if recs[fh].dir == dir then 1 else 0)
  {
    assert OfKind(recs - {fh}, dir) == OfKind(recs, dir) - {fh};
    Less(OfKind(recs, dir), fh);
  }

  /** The table once the records of `fhs` have died, one by one. */
  ghost function KilledEach(t: Table, fhs: seq<nat>): Table {
    if fhs == [] then t else KilledEach(t, fhs[..|fhs| - 1]).Kill(fhs[|fhs| - 1])
  }

  /** The table once the releases of `fhs` are owed, one by one. */
  ghost function OwedEach(t: Table, fhs: seq<nat>): Table {
    if fhs == [] then t else OwedEach(t, fhs[..|fhs| - 1]).Owe(fhs[|fhs| - 1])
  }

  lemma {:induction false} KilledEachAt(t: Table, fhs: seq<nat>, fh: nat)
    ensures KilledEach(t, fhs).held.Keys == t.held.Keys && KilledEach(t, fhs).owed == t.owed
    ensures fh in t.held ==> KilledEach(t, fhs).held[fh] == if fh in fhs then t.held[fh].(dead := true) else t.held[fh]
  {
    if fhs != [] {
      KilledEachAt(t, fhs[..|fhs| - 1], fh);
      assert fhs == fhs[..|fhs| - 1] + [fhs[|fhs| - 1]];
    }
  }

  lemma {:induction false} OwedEachAt(t: Table, fhs: seq<nat>, fh: nat)
    ensures OwedEach(t, fhs).held == t.held
    ensures fh in OwedEach(t, fhs).owed <==> fh in t.owed || fh in fhs
    ensures fh in OwedEach(t, fhs).owed ==> OwedEach(t, fhs).owed[fh] == if fh in t.owed then t.owed[fh] else None
  {
    if fhs != [] {
      OwedEachAt(t, fhs[..|fhs| - 1], fh);
      assert fhs == fhs[..|fhs| - 1] + [fhs[|fhs| - 1]];
    }
  }

  /** Killing the live handles one by one, and then owing each one's release, is `KillAll`. */
  lemma EachIsAll(t: Table, live: seq<nat>)
    requires forall fh :: fh in live <==> fh in t.Live()
    ensures OwedEach(KilledEach(t, live), live) == t.KillAll()
  {
    var killed := KilledEach(t, live);
    KilledEachAt(t, live, 0);
    OwedEachAt(killed, live, 0);
    assert killed.held == t.KillAll().held by {
      forall fh | fh in t.held ensures killed.held[fh] == t.held[fh].(dead := true) {
        KilledEachAt(t, live, fh);
      }
    }
    assert OwedEach(killed, live).owed == t.KillAll().owed by {
      forall fh ensures fh in OwedEach(killed, live).owed <==> fh in t.owed || fh in live {
        OwedEachAt(killed, live, fh);
      }
      forall fh | fh in OwedEach(killed, live).owed
        ensures OwedEach(killed, live).owed[fh] == if fh in t.owed then t.owed[fh] else None
      {
        OwedEachAt(killed, live, fh);
      }
    }
  }

  /** The releases owed once those of `fhs` being sent on `generation` are unsent again, one by one. */
  ghost function EndedEach(owed: map<nat, Option<nat>>, fhs: seq<nat>, generation: nat): map<nat, Option<nat>> {
    if fhs == [] then owed
    else
      var before, fh := EndedEach(owed, fhs[..|fhs| - 1], generation), fhs[|fhs| - 1];
      if fh in before && before[fh] == Some(generation) then before[fh := None] else before
  }

  lemma {:induction false} EndedEachAt(owed: map<nat, Option<nat>>, fhs: seq<nat>, generation: nat, fh: nat)
    ensures EndedEach(owed, fhs, generation).Keys == owed.Keys
    ensures fh in owed ==> EndedEach(owed, fhs, generation)[fh]
                           == if fh in fhs && owed[fh] == Some(generation) then None else owed[fh]
  {
    if fhs != [] {
      EndedEachAt(owed, fhs[..|fhs| - 1], generation, fh);
      assert fhs == fhs[..|fhs| - 1] + [fhs[|fhs| - 1]];
    }
  }

  lemma EndedEachIsAll(t: Table, fhs: seq<nat>, generation: nat)
    requires forall fh :: fh in fhs <==> fh in t.owed
    ensures EndedEach(t.owed, fhs, generation) == t.OwedConnectionEnded(generation).owed
  {
    EndedEachAt(t.owed, fhs, generation, 0);
    forall fh | fh in t.owed
      ensures EndedEach(t.owed, fhs, generation)[fh] == t.OwedConnectionEnded(generation).owed[fh]
    {
      EndedEachAt(t.owed, fhs, generation, fh);
    }
  }

  /** The ids of `fhs`, in some order. */
  method Listed(fhs: set<nat>) returns (list: seq<nat>)
    ensures forall fh :: fh in list <==> fh in fhs
  {
    list := [];
    var left := fhs;
    while left != {}
      invariant left <= fhs
      invariant forall fh :: fh in list <==> fh in fhs - left
      decreases |left|
    {
      var fh :| fh in left;
      list := list + [fh];
      left := left - {fh};
    }
  }

  class HandleTable {
    var next: nat
    var held: map<nat, HandleRec>
    var owed: map<nat, Option<nat>>
    /** How often a release came to be owed. */
    var owedCount: nat
    var files: nat
    var dirs: nat
    /** The table as a value, and every record it ever made. */
    ghost var view: Table
    ghost var made: set<HandleRec>

    /** The counters are the table's own handles of each kind, and every id held came from `Alloc`. */
    ghost predicate Counted()
      reads this
    {
      && files == |OfKind(held, false)|
      && dirs == |OfKind(held, true)|
      && (forall fh | fh in held :: fh <= next)
    }

    ghost predicate Valid()
      reads this, made
    {
      Show(held, view.held, made) && owed == view.owed && Counted()
    }

    constructor ()
      ensures Valid() && view == EMPTY_TABLE && next == 0 && owedCount == 0
    {
      next, held, owed, owedCount, files, dirs := 0, map[], map[], 0, 0, 0;
      view, made := EMPTY_TABLE, {};
    }

    /** An id of its own for an open. */
    method Alloc() returns (fh: nat)
      requires Valid()
      modifies this`next
      ensures Valid() && fh == next == old(next) + 1 && fh !in held
    {
      next := next + 1;
      fh := next;
    }

    method Insert(fh: nat, key: KeyNode, dir: bool) returns (rec: HandleRec)
      requires Valid() && fh <= next
      modifies this`held, this`files, this`dirs, this`view, this`made
      ensures Valid() && fresh(rec) && made == old(made) + {rec} && held == old(held)[fh := rec]
      ensures view == old(view).Insert(fh, key, dir) && rec.key == key && rec.dir == dir && !rec.dead
    {
      rec := new HandleRec(fh, key, dir);
      CountInsert(fh, rec);
      held, made := held[fh := rec], made + {rec};
      view := view.Insert(fh, key, dir);
    }

    method CountInsert(fh: nat, rec: HandleRec)
      requires Counted()
      modifies this`files, this`dirs
      ensures files == |OfKind(held[fh := rec], false)| && dirs == |OfKind(held[fh := rec], true)|
    {
      InsertCounts(held, fh, rec, false);
      InsertCounts(held, fh, rec, true);
      if rec.dir {
        dirs := dirs + 1;
      } else {
        files := files + 1;
      }
      if fh in held {
        if held[fh].dir {
          dirs := dirs - 1;
        } else {
          files := files - 1;
        }
      }
    }

    /** The kernel is done with `fh`; `tell` unless its release was owed when it died. */
    method ReleaseBegins(fh: nat) returns (tell: bool)
      requires Valid()
      modifies this`held, this`files, this`dirs, this`view
      ensures Valid() && view == old(view).Remove(fh)
      ensures tell <==> (fh in old(held) ==> old(view).LiveAt(fh))
      ensures held == old(held) - {fh} && (tell <==> !(fh in old(held) && old(held)[fh].dead))
    {
      view := view.Remove(fh);
      if fh !in held {
        return true;
      }
      CountRemove(fh);
      var rec := held[fh];
      held := held - {fh};
      return !rec.dead;
    }

    method CountRemove(fh: nat)
      requires Counted() && fh in held
      modifies this`files, this`dirs
      ensures files == |OfKind(held - {fh}, false)| && dirs == |OfKind(held - {fh}, true)|
    {
      RemoveCounts(held, fh, false);
      RemoveCounts(held, fh, true);
      if held[fh].dir {
        dirs := dirs - 1;
      } else {
        files := files - 1;
      }
    }

    method OweRelease(fh: nat)
      requires Valid()
      modifies this`owed, this`owedCount, this`view
      ensures Valid() && view == old(view).Owe(fh)
      ensures owedCount == old(owedCount) + if fh in old(owed) then 0 else 1
      ensures owed == if fh in old(owed) then old(owed) else old(owed)[fh := None]
    {
      view := view.Owe(fh);
      if fh !in owed {
        owed := owed[fh := None];
        owedCount := owedCount + 1;
      }
    }

    /** What of the releases owed can go out on a connection. */
    method OwedSendable(published: bool, pending: nat) returns (unsent: set<nat>)
      requires Valid()
      ensures unsent == if published && pending == 0 then view.OwedUnsent() else {}
      ensures forall fh :: fh in unsent <==> published && pending == 0 && fh in owed && owed[fh] == None
    {
      if published && pending == 0 {
        unsent := set fh | fh in owed && owed[fh].None?;
      } else {
        unsent := {};
      }
    }

    method OwedSend(fh: nat, generation: nat)
      requires Valid() && fh in owed
      modifies this`owed, this`view
      ensures Valid() && view == old(view).OwedSend(fh, generation) && owed == old(owed)[fh := Some(generation)]
    {
      owed := owed[fh := Some(generation)];
      view := view.OwedSend(fh, generation);
    }

    method OwedDelivered(fh: nat, generation: nat)
      requires Valid()
      modifies this`owed, this`view
      ensures Valid() && view == old(view).OwedDelivered(fh, generation)
      ensures owed == if fh in old(owed) && old(owed)[fh] == Some(generation) then old(owed) - {fh} else old(owed)
    {
      view := view.OwedDelivered(fh, generation);
      if fh in owed && owed[fh] == Some(generation) {
        owed := owed - {fh};
      }
    }

    method OwedConnectionEnded(generation: nat)
      requires Valid()
      modifies this`owed, this`view
      ensures Valid() && view == old(view).OwedConnectionEnded(generation)
      ensures owed.Keys == old(owed).Keys
      ensures forall fh | fh in owed :: owed[fh] == if old(owed)[fh] == Some(generation) then None else old(owed)[fh]
    {
      var fhs := Listed(owed.Keys);
      for i := 0 to |fhs|
        invariant owed == EndedEach(old(owed), fhs[..i], generation) && view == old(view)
      {
        assert fhs[..i + 1][..i] == fhs[..i];
        if fhs[i] in owed && owed[fhs[i]] == Some(generation) {
          owed := owed[fhs[i] := None];
        }
      }
      assert fhs[..|fhs|] == fhs;
      EndedEachIsAll(view, fhs, generation);
      view := view.OwedConnectionEnded(generation);
    }

    method OwedMoot()
      requires Valid()
      modifies this`owed, this`view
      ensures Valid() && view == old(view).OwedMoot() && owed == map[]
    {
      owed := map[];
      view := view.OwedMoot();
    }

    /** The handles a new session reopens. */
    method Live() returns (live: map<nat, HandleRec>)
      requires Valid()
      ensures Show(live, view.Live(), made)
      ensures live.Keys <= held.Keys && (forall fh | fh in live :: live[fh] == held[fh])
      ensures forall fh :: fh in live <==> fh in held && !held[fh].dead
    {
      live := map fh | fh in held && !held[fh].dead :: held[fh];
    }

    /** All that was live is dead and has to be released. */
    method KillAll()
      requires Valid()
      modifies this`owed, this`owedCount, this`view, made
      ensures Valid() && view == old(view).KillAll()
      ensures forall fh | fh in held :: held[fh].dead
      ensures forall fh :: fh in owed <==> fh in old(owed) || (fh in held && !old(held[fh].dead))
      ensures forall fh | fh in owed :: owed[fh] == if fh in old(owed) then old(owed)[fh] else None
    {
      var killed := Listed(set fh | fh in held && !held[fh].dead);
      EachIsAll(view, killed);
      MarkDead(killed);
      OweReleases(killed);
    }

    method MarkDead(fhs: seq<nat>)
      requires Valid() && (forall fh | fh in fhs :: fh in held)
      modifies this`view, made
      ensures Valid() && view == KilledEach(old(view), fhs)
    {
      for i := 0 to |fhs|
        invariant Valid() && view == KilledEach(old(view), fhs[..i])
      {
        assert fhs[..i + 1][..i] == fhs[..i];
        Kill(held[fhs[i]]);
      }
      assert fhs[..|fhs|] == fhs;
    }

    method OweReleases(fhs: seq<nat>)
      requires Valid()
      modifies this`owed, this`owedCount, this`view
      ensures Valid() && view == OwedEach(old(view), fhs)
    {
      for i := 0 to |fhs|
        invariant Valid() && view == OwedEach(old(view), fhs[..i])
      {
        assert fhs[..i + 1][..i] == fhs[..i];
        OweRelease(fhs[i]);
      }
      assert fhs[..|fhs|] == fhs;
    }

    /** A record dies, and with it its handle in the table, if that still holds it. */
    method Kill(rec: HandleRec)
      requires Valid() && (rec.fh in held ==> held[rec.fh] == rec)
      modifies this`view, rec`dead
      ensures Valid() && rec.dead && view == old(view).Kill(rec.fh)
    {
      rec.dead := true;
      view := view.Kill(rec.fh);
    }

    /** The handle survives a reopen that finds its file, and nothing else. */
    method ApplyReopen(rec: HandleRec, outcome: CallResult)
      requires Valid() && (rec.fh in held ==> held[rec.fh] == rec)
      modifies this`view, rec`dead
      ensures Valid() && rec.dead == (old(rec.dead) || !SameFile(old(rec.View()), outcome))
      ensures !rec.dead <==> !old(rec.dead) && outcome == Ok(Opened(rec.key))
      ensures view == if SameFile(old(rec.View()), outcome) then old(view) else old(view).Kill(rec.fh)
    {
      match outcome
      case Ok(Opened(key)) =>
        if rec.key != key {
          Kill(rec);
        }
      case _ =>
        Kill(rec);
    }

    /** A reopen is judged, and the release owed unless the handle is still held and alive. */
    method EndReopen(rec: HandleRec, fh: nat, outcome: CallResult) returns (kept: bool)
      requires Valid() && rec.fh == fh && (fh in held ==> held[fh] == rec)
      modifies this`owed, this`owedCount, this`view, rec`dead
      ensures Valid()
      ensures var judged := if SameFile(old(rec.View()), outcome) then old(view) else old(view).Kill(fh);
        kept == judged.LiveAt(fh) && view == if kept then judged else judged.Owe(fh)
      ensures kept <==> fh in held && !old(rec.dead) && outcome == Ok(Opened(rec.key))
      ensures !kept ==> fh in owed && (fh in held ==> rec.dead)
    {
      ApplyReopen(rec, outcome);
      kept := !(rec.dead || fh !in held);
      if !kept {
        OweRelease(fh);
      }
    }
  }

  /** No id is both unsent and sending, and a handle the table still holds has the round's own record. */
  ghost predicate Fit(unsent: map<nat, HandleRec>, sending: map<nat, HandleRec>, held: map<nat, HandleRec>) {
    && unsent.Keys !! sending.Keys
    && (forall fh | fh in unsent && fh in held :: unsent[fh] == held[fh])
    && (forall fh | fh in sending && fh in held :: sending[fh] == held[fh])
  }

  class ReopenRound {
    var unsent: map<nat, HandleRec>
    var sending: map<nat, HandleRec>
    var reopened: set<nat>
    /** The round as a value. */
    ghost var view: Round

    ghost predicate Valid(table: HandleTable)
      reads this, table
    {
      && Fit(unsent, sending, table.held)
      && SameFiles(unsent, view.unsent)
      && SameFiles(sending, view.sending)
      && reopened == view.reopened
    }

    /** The record of a handle whose reopen has not ended. */
    ghost function RecAt(fh: nat): HandleRec
      requires fh in unsent || fh in sending
      reads this
    {
      if fh in sending then sending[fh] else unsent[fh]
    }

    constructor (table: HandleTable)
      requires table.Valid()
      ensures Valid(table) && view == NewRound(table.view)
    {
      var live := table.Live();
      unsent, sending, reopened := live, map[], {};
      view := NewRound(table.view);
    }

    method Send(fh: nat, ghost table: HandleTable)
      requires Valid(table) && fh in unsent
      modifies this
      ensures Valid(table) && view == old(view).Send(fh)
    {
      var rec := unsent[fh];
      unsent := unsent - {fh};
      sending := sending[fh := rec];
      view := view.Send(fh);
    }

    /** The end of one reopen of the round. */
    method Ended(table: HandleTable, fh: nat, outcome: CallResult)
      requires Valid(table) && table.Valid()
      requires fh in unsent || fh in sending
      modifies this, table`owed, table`owedCount, table`view, RecAt(fh)`dead
      ensures Valid(table) && table.Valid()
      ensures (view, table.view) == old(view.AfterEnd(table.view, fh, outcome))
      ensures var kept := fh in table.held && !old(RecAt(fh).dead) && outcome == Ok(Opened(old(RecAt(fh)).key));
        && reopened == (if kept then old(reopened) + {fh} else old(reopened))
        && (!kept ==> fh in table.owed && (fh in table.held ==> table.held[fh].dead))
    {
      var rec := Take(fh, table);
      Judge(table, rec, fh, outcome);
    }

    method Judge(table: HandleTable, rec: HandleRec, fh: nat, outcome: CallResult)
      requires Valid(table) && table.Valid()
      requires rec.fh == fh && (fh in table.held ==> table.held[fh] == rec)
      modifies this`reopened, this`view, table`owed, table`owedCount, table`view, rec`dead
      ensures Valid(table) && table.Valid()
      ensures var judged := if SameFile(old(rec.View()), outcome) then old(table.view) else old(table.view).Kill(fh);
        && view == (if judged.LiveAt(fh) then old(view).(reopened := old(view).reopened + {fh}) else old(view))
        && table.view == (if judged.LiveAt(fh) then judged else judged.Owe(fh))
      ensures var kept := fh in table.held && !old(rec.dead) && outcome == Ok(Opened(rec.key));
        && reopened == (if kept then old(reopened) + {fh} else old(reopened))
        && (!kept ==> fh in table.owed && (fh in table.held ==> rec.dead))
    {
      var kept := table.EndReopen(rec, fh, outcome);
      if kept {
        reopened := reopened + {fh};
        view := view.(reopened := reopened);
      }
    }

    method Take(fh: nat, ghost table: HandleTable) returns (rec: HandleRec)
      requires Valid(table)
      requires fh in unsent || fh in sending
      modifies this
      ensures Valid(table) && rec == old(RecAt(fh)) && rec.key == old(view).RecOf(fh).key && rec.fh == fh
      ensures fh in table.held ==> rec == table.held[fh]
      ensures fh !in unsent && fh !in sending && reopened == old(reopened)
      ensures view == if fh in old(sending) then old(view).(sending := old(view).sending - {fh})
                      else old(view).(unsent := old(view).unsent - {fh})
    {
      if fh in sending {
        rec := sending[fh];
        sending := sending - {fh};
        view := view.(sending := view.sending - {fh});
      } else {
        rec := unsent[fh];
        unsent := unsent - {fh};
        view := view.(unsent := view.unsent - {fh});
      }
    }

    method Publishable(ghost table: HandleTable) returns (over: bool)
      requires Valid(table)
      ensures over == view.Publishable()
    {
      over := unsent == map[] && sending == map[];
    }
  }
}
