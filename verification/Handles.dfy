/** The client's table of open handles and its releases owed (`handles.rs`), and a new session's round of reopens
    (`ReopenRound` in `machine.rs`), as values. */
module Handles {
  import opened Files
  import opened Machine

  /** One handle the client holds: the file it was opened on, its kind, and whether it is dead. */
  datatype Rec = Rec(key: KeyNode, dir: bool, dead: bool)

  /** `held` is the table's map; `owed` maps each release owed to the generation it is being sent on, if any. */
  datatype Table = Table(held: map<nat, Rec>, owed: map<nat, Option<nat>>)
  {
    predicate LiveAt(fh: nat) {
      fh in held && !held[fh].dead
    }

    function Insert(fh: nat, key: KeyNode, dir: bool): Table {
      this.(held := held[fh := Rec(key, dir, false)])
    }

    function Remove(fh: nat): Table {
      this.(held := held - {fh})
    }

    /** The release of `fh` is owed, as before if it was. */
    function Owe(fh: nat): Table {
      if fh in owed then this else this.(owed := owed[fh := None])
    }

    function OwedUnsent(): set<nat> {
      set fh | fh in owed && owed[fh].None?
    }

    function OwedSend(fh: nat, generation: nat): Table {
      this.(owed := owed[fh := Some(generation)])
    }

    function OwedDelivered(fh: nat, generation: nat): Table {
      if fh in owed && owed[fh] == Some(generation) then this.(owed := owed - {fh}) else this
    }

    function OwedConnectionEnded(generation: nat): Table {
      this.(owed := map fh | fh in owed :: if owed[fh] == Some(generation) then None else owed[fh])
    }

    function OwedMoot(): Table {
      this.(owed := map[])
    }

    /** The handles a new session reopens. */
    function Live(): map<nat, Rec> {
      map fh | fh in held && !held[fh].dead :: held[fh]
    }

    /** All that was live is dead and has to be released. */
    function KillAll(): Table {
      Table(map fh | fh in held :: held[fh].(dead := true),
            map fh | fh in owed.Keys + Live().Keys :: if fh in owed then owed[fh] else None)
    }

    /** The record of `fh`, if it is still held, dies. */
    function Kill(fh: nat): Table {
      if fh in held then this.(held := held[fh := held[fh].(dead := true)]) else this
    }
  }

  const EMPTY_TABLE := Table(map[], map[])

  /** Whether a reopen's outcome found the file the handle was opened on. */
  predicate SameFile(rec: Rec, outcome: CallResult) {
    outcome.Ok? && outcome.response.Opened? && outcome.response.key == rec.key
  }

  datatype Round = Round(unsent: map<nat, Rec>, sending: map<nat, Rec>, reopened: set<nat>)
  {
    predicate Pending(fh: nat) {
      fh in unsent || fh in sending
    }

    predicate Publishable() {
      unsent == map[] && sending == map[]
    }

    function Send(fh: nat): Round
      requires fh in unsent
    {
      this.(unsent := unsent - {fh}, sending := sending[fh := unsent[fh]])
    }

    function RecOf(fh: nat): Rec
      requires Pending(fh)
    {
      if fh in sending then sending[fh] else unsent[fh]
    }

    /** The reopen of `fh` ended with `outcome`: the round after it, and the table after it. */
    function AfterEnd(table: Table, fh: nat, outcome: CallResult): (Round, Table)
      requires Pending(fh)
    {
      var same := SameFile(RecOf(fh), outcome);
      var judged := if same then table else table.Kill(fh);
      var left := if fh in sending then this.(sending := sending - {fh}) else this.(unsent := unsent - {fh});
      if !judged.LiveAt(fh) then (left, judged.Owe(fh))
      else (left.(reopened := reopened + {fh}), judged)
    }
  }

  const NO_ROUND := Round(map[], map[], {})

  function NewRound(table: Table): Round {
    Round(table.Live(), map[], {})
  }
}
