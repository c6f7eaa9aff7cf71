/** One client and its server, as a transition system: every step the client's calls, its connection manager, its
    reopens and releases, the network and the server take, for any number of calls, requests, connections and
    sessions. The client's steps are those of `Machine` and `Handles`; the server's are those of `Wire`. */
module Protocol {
  import opened Files
  import opened Machine
  import opened Handles
  import opened Wire

  /** What a call asks for. The id an open chooses for its handle is its call's number, so none is used twice. */
  datatype Kind = Reading | Change | Open(dir: bool) | Release(fh: nat)

  function OpOf(kind: Kind, c: nat): Op {
    match kind
    case Reading => OpRead
    case Change => OpChange
    case Open(_) => OpOpen(c)
    case Release(fh) => OpRelease(fh, false)
  }

  /** `after` is the calls that had ended when this one started; `req` the request the attempt in flight has written. */
  datatype CallRec = CallRec(kind: Kind, call: Call, req: Option<nat>, after: set<nat>)

  /** `fixed` is the handles the round began with; `reopening` and `releasing` are the reopens, and the owed releases
      being sent, that are written. */
  datatype State = State(calls: seq<CallRec>, net: Net, table: Table, round: Round, fixed: set<nat>,
                         reopening: map<nat, nat>, releasing: set<nat>)

  const INIT := State([], NO_NET, EMPTY_TABLE, NO_ROUND, {}, map[], {})

  function AttachedAt(n: Net, g: nat): Attached
    requires g < |n.conns|
  {
    Attached(g, if n.conns[g].cancels >= 0 then n.conns[g].cancels else 0, n.conns[g].published)
  }

  function EndedCalls(calls: seq<CallRec>): set<nat> {
    set c | 0 <= c < |calls| && calls[c].call.status.Ended?
  }

  datatype Action =
    // The kernel and the calls.
    | Start(kind: Kind, resendable: bool)
    | DropDead(fh: nat)
    | Send(c: nat, g: nat)
    | Write(c: nat)
    | GiveUp(c: nat, error: Error)
    | Lose(c: nat)
    | Fail(c: nat)
    | AnswerCall(r: nat, result: CallResult, refused: bool)
    | AnswerCancel(r: nat)
    | CancelLost(r: nat)
    // The connection manager.
    | LoseClient(g: nat)
    | Resume(rootChanged: bool)
    | NewSession(rootChanged: bool)
    | Publish
    | ReopenSend(fh: nat)
    | ReopenWrite(fh: nat)
    | ReopenUnwritten(fh: nat, error: Error)
    | ReopenGiveUp(fh: nat)
    | ReopenLost(fh: nat)
    | AnswerReopen(fh: nat, outcome: CallResult)
    | OwedSend(fh: nat)
    | OwedWrite(fh: nat)
    | AnswerOwed(r: nat)
    // The server.
    | Server(deed: Deed)

  predicate OfCalls(a: Action) {
    a.Start? || a.DropDead? || a.Send? || a.Write? || a.GiveUp? || a.Lose? || a.Fail?
  }

  predicate OfAnswers(a: Action) {
    a.AnswerCall? || a.AnswerCancel? || a.CancelLost? || a.AnswerReopen? || a.AnswerOwed? || a.Server?
  }

  predicate OfConnections(a: Action) {
    a.LoseClient? || a.Resume? || a.NewSession? || a.Publish?
  }

  predicate OfReopens(a: Action) {
    || a.ReopenSend? || a.ReopenWrite? || a.ReopenUnwritten? || a.ReopenGiveUp? || a.ReopenLost?
    || a.OwedSend? || a.OwedWrite?
  }

  // ---- The calls ----

  /** What a call that ended with `result` leaves in the table: an open's handle kept, unless the caller refuses the
      file it found, or its release owed; a release's, owed. */
  function Settle(table: Table, kind: Kind, c: nat, result: CallResult, refused: bool): Table {
    match kind
    case Open(dir) =>
      (match OpenSettled(result)
       case Keep => if refused then table.Owe(c) else table.Insert(c, result.response.key, dir)
       case Owe => table.Owe(c)
       case Nothing => table)
    case Release(fh) => if ReleaseOwed(result) then table.Owe(fh) else table
    case _ => table
  }

  predicate CanStart(s: State, kind: Kind) {
    kind.Release? ==> s.table.LiveAt(kind.fh)
  }

  function DoStart(s: State, kind: Kind, resendable: bool): State {
    s.(calls := s.calls + [CallRec(kind, NewCall(OpOf(kind, |s.calls|).Changes(), resendable || kind.Release?), None,
                                   EndedCalls(s.calls))],
       table := if kind.Release? then s.table.Remove(kind.fh) else s.table)
  }

  /** The call takes a published connection, perhaps one that has since failed, once nothing given up on there is
      unanswered. */
  predicate CanSend(s: State, c: nat, g: nat) {
    && c < |s.calls|
    && g < |s.net.conns|
    && s.calls[c].call.SendableOn(AttachedAt(s.net, g), AttachedAt(s.net, g).cancels).Now?
  }

  function DoSend(s: State, c: nat, g: nat): State
    requires c < |s.calls|
  {
    s.(calls := s.calls[c := s.calls[c].(call := s.calls[c].call.AfterSent(g))])
  }

  predicate CanWrite(s: State, c: nat) {
    && c < |s.calls|
    && s.calls[c].call.status.InFlight?
    && s.calls[c].req.None?
    && s.calls[c].call.status.generation < |s.net.conns|
    && s.net.conns[s.calls[c].call.status.generation].clientAlive
  }

  function DoWrite(s: State, c: nat): State
    requires CanWrite(s, c)
  {
    s.(net := Written(s.net, OfCall(c), OpOf(s.calls[c].kind, c), s.calls[c].call.status.generation),
       calls := s.calls[c := s.calls[c].(req := Some(|s.net.reqs|))])
  }

  /** The kernel interrupts the call or its deadline passes; a release is never interrupted. */
  predicate CanGiveUp(s: State, c: nat, error: Error) {
    && c < |s.calls|
    && !s.calls[c].call.status.Ended?
    && (s.calls[c].req.Some? ==> s.calls[c].req.value < |s.net.reqs|)
    && (error.Timeout? || (error.Interrupted? && !s.calls[c].kind.Release?))
  }

  function DoGiveUp(s: State, c: nat, error: Error): State
    requires Ranged(s.net) && CanGiveUp(s, c, error)
  {
    var rec := s.calls[c];
    var counts := CountsGiveUp(rec.call.status.InFlight?, rec.req.Some?, rec.call.changes);
    s.(net := if counts && rec.req.Some? then Counting(s.net, rec.req.value) else s.net,
       calls := s.calls[c := rec.(call := rec.call.AfterGiveUp(), req := None)],
       table := Settle(s.table, rec.kind, c, Err(error), false))
  }

  /** The exchange of a call in flight fails with its connection. */
  predicate CanLose(s: State, c: nat) {
    && c < |s.calls|
    && s.calls[c].call.status.InFlight?
    && s.calls[c].call.status.generation < |s.net.conns|
    && !s.net.conns[s.calls[c].call.status.generation].clientAlive
  }

  function DoLose(s: State, c: nat): State
    requires CanLose(s, c)
  {
    var rec := s.calls[c];
    var call := rec.call.AfterLoss(if rec.req.Some? then Lost else NotSent);
    s.(calls := s.calls[c := rec.(call := call, req := None)],
       table := if call.status.Ended? then Settle(s.table, rec.kind, c, Err(Disconnected), false) else s.table)
  }

  /** A call fails for a reason of its own while it waits: a dead handle, an owner with no counterpart. Opens and
      releases name no handle of the table and carry no owner. */
  predicate CanFail(s: State, c: nat) {
    && c < |s.calls|
    && s.calls[c].call.status.Waiting?
    && (s.calls[c].kind.Reading? || s.calls[c].kind.Change?)
  }

  function DoFail(s: State, c: nat): State
    requires c < |s.calls|
  {
    s.(calls := s.calls[c := s.calls[c].(call := s.calls[c].call.AfterFailure())])
  }

  /** The answer of the call in flight that wrote `r` is read: the server's, or a frame that makes no sense. */
  predicate CanAnswerCall(s: State, r: nat, result: CallResult)
    requires Ranged(s.net)
  {
    && ClientReads(s.net, r)
    && s.net.reqs[r].origin.OfCall?
    && s.net.reqs[r].origin.c < |s.calls|
    && s.calls[s.net.reqs[r].origin.c].call.status.InFlight?
    && s.calls[s.net.reqs[r].origin.c].req == Some(r)
    && (result == Err(Error.Protocol)
        || (if s.net.reqs[r].answer.Reply? then result.Ok? else result == Err(Remote)))
  }

  function DoAnswerCall(s: State, r: nat, result: CallResult, refused: bool): State
    requires Ranged(s.net) && CanAnswerCall(s, r, result)
  {
    var c := s.net.reqs[r].origin.c;
    var rec := s.calls[c];
    var call := if result == Err(Error.Protocol) then rec.call.AfterFailure() else rec.call.AfterAnswer(result.Err?);
    s.(calls := s.calls[c := rec.(call := call, req := None)],
       net := Read(s.net, r),
       table := Settle(s.table, rec.kind, c, result, refused))
  }

  /** The background reader of a request given up on fails with its connection. */
  predicate CanCancelLost(n: Net, r: nat)
    requires Ranged(n)
  {
    r < |n.reqs| && n.reqs[r].counted && !n.conns[n.reqs[r].conn].clientAlive
  }

  // ---- The connection manager ----

  /** The table as a connection begins: the last one's release task has ended, and another root kills everything. */
  function Reattached(s: State, rootChanged: bool): Table
    requires |s.net.conns| >= 1
  {
    var table := s.table.OwedConnectionEnded(Gen(s.net));
    if rootChanged then table.KillAll() else table
  }

  function DoResume(s: State, rootChanged: bool): State
    requires Ranged(s.net)
  {
    s.(net := Resumed(s.net), table := Reattached(s, rootChanged), round := NO_ROUND, fixed := {})
  }

  /** The releases owed are moot, and a round of reopens begins. */
  function DoNewSession(s: State, rootChanged: bool): State
    requires Ranged(s.net)
  {
    var table := Reattached(s, rootChanged).OwedMoot();
    s.(net := Renewed(s.net), table := table, round := NewRound(table), fixed := table.Live().Keys, reopening := map[])
  }

  predicate CanPublish(s: State) {
    && |s.net.conns| >= 2
    && !s.net.conns[Gen(s.net)].published
    && s.round.Publishable()
  }

  predicate CanReopenWrite(s: State, fh: nat)
    requires Ranged(s.net)
  {
    && fh in s.round.sending
    && fh !in s.reopening
    && s.net.conns[Gen(s.net)].clientAlive
  }

  function DoReopenWrite(s: State, fh: nat): State
    requires Ranged(s.net)
  {
    s.(net := Written(s.net, Reopen(fh), OpOpen(fh), Gen(s.net)), reopening := s.reopening[fh := |s.net.reqs|])
  }

  function EndReopen(s: State, fh: nat, outcome: CallResult): State
    requires s.round.Pending(fh)
  {
    var (round, table) := s.round.AfterEnd(s.table, fh, outcome);
    s.(round := round, table := table, reopening := s.reopening - {fh})
  }

  /** A reopen ends before its request was written whole: its deadline passes, or its connection is lost. */
  predicate CanReopenUnwritten(s: State, fh: nat, error: Error) {
    fh in s.round.sending && fh !in s.reopening && (error.Timeout? || error.Disconnected?)
  }

  predicate ReopenWritten(s: State, fh: nat) {
    fh in s.round.sending && fh in s.reopening && s.reopening[fh] < |s.net.reqs|
  }

  predicate CanReopenLost(s: State, fh: nat)
    requires Ranged(s.net)
  {
    ReopenWritten(s, fh) && !s.net.conns[Gen(s.net)].clientAlive
  }

  predicate CanAnswerReopen(s: State, fh: nat, outcome: CallResult)
    requires Ranged(s.net)
  {
    && ReopenWritten(s, fh)
    && ClientReads(s.net, s.reopening[fh])
    && (outcome == Err(Error.Protocol)
        || (if s.net.reqs[s.reopening[fh]].answer.Reply? then outcome.Ok? else outcome == Err(Remote)))
  }

  /** `owed_sendable`: a published connection with no pending cancels sends each release owed and not being sent. */
  predicate CanOwedSend(s: State, fh: nat)
    requires Ranged(s.net)
  {
    && s.net.conns[Gen(s.net)].published
    && s.net.conns[Gen(s.net)].cancels == 0
    && fh in s.table.OwedUnsent()
  }

  function DoOwedSend(s: State, fh: nat): State
    requires Ranged(s.net)
  {
    s.(table := s.table.OwedSend(fh, Gen(s.net)), releasing := s.releasing - {fh})
  }

  predicate CanOwedWrite(s: State, fh: nat) {
    && fh in s.table.owed
    && s.table.owed[fh].Some?
    && fh !in s.releasing
    && s.table.owed[fh].value < |s.net.conns|
    && s.net.conns[s.table.owed[fh].value].clientAlive
  }

  function DoOwedWrite(s: State, fh: nat): State
    requires CanOwedWrite(s, fh)
  {
    s.(net := Written(s.net, OwedRelease(fh), OpRelease(fh, true), s.table.owed[fh].value),
       releasing := s.releasing + {fh})
  }

  predicate CanAnswerOwed(n: Net, r: nat)
    requires Ranged(n)
  {
    ClientReads(n, r) && n.reqs[r].origin.OwedRelease?
  }

  function DoAnswerOwed(s: State, r: nat): State
    requires Ranged(s.net) && CanAnswerOwed(s.net, r)
  {
    s.(net := Read(s.net, r), table := s.table.OwedDelivered(s.net.reqs[r].origin.fh, s.net.reqs[r].conn))
  }

  // ---- Steps and runs ----

  predicate Enabled(s: State, a: Action) {
    Ranged(s.net) &&
    match a
    case Start(kind, _) => CanStart(s, kind)
    case DropDead(fh) => fh in s.table.held && s.table.held[fh].dead
    case Send(c, g) => CanSend(s, c, g)
    case Write(c) => CanWrite(s, c)
    case GiveUp(c, error) => CanGiveUp(s, c, error)
    case Lose(c) => CanLose(s, c)
    case Fail(c) => CanFail(s, c)
    case AnswerCall(r, result, _) => CanAnswerCall(s, r, result)
    case AnswerCancel(r) => ClientReads(s.net, r) && s.net.reqs[r].counted
    case CancelLost(r) => CanCancelLost(s.net, r)
    case LoseClient(g) => g < |s.net.conns| && s.net.conns[g].clientAlive
    case Resume(_) => CanConnect(s.net) && Resumable(s.net, Sid(s.net))
    case NewSession(_) => CanConnect(s.net) && !Resumable(s.net, Sid(s.net))
    case Publish => CanPublish(s)
    case ReopenSend(fh) => fh in s.round.unsent
    case ReopenWrite(fh) => CanReopenWrite(s, fh)
    case ReopenUnwritten(fh, error) => CanReopenUnwritten(s, fh, error)
    case ReopenGiveUp(fh) => ReopenWritten(s, fh)
    case ReopenLost(fh) => CanReopenLost(s, fh)
    case AnswerReopen(fh, outcome) => CanAnswerReopen(s, fh, outcome)
    case OwedSend(fh) => CanOwedSend(s, fh)
    case OwedWrite(fh) => CanOwedWrite(s, fh)
    case AnswerOwed(r) => CanAnswerOwed(s.net, r)
    case Server(deed) => Can(s.net, deed)
  }

  function Next(s: State, a: Action): State
    requires Enabled(s, a)
  {
    match a
    case Start(kind, resendable) => DoStart(s, kind, resendable)
    case DropDead(fh) => s.(table := s.table.Remove(fh))
    case Send(c, g) => DoSend(s, c, g)
    case Write(c) => DoWrite(s, c)
    case GiveUp(c, error) => DoGiveUp(s, c, error)
    case Lose(c) => DoLose(s, c)
    case Fail(c) => DoFail(s, c)
    case AnswerCall(r, result, refused) => DoAnswerCall(s, r, result, refused)
    case AnswerCancel(r) => s.(net := Uncounting(s.net, r))
    case CancelLost(r) => s.(net := Uncounting(s.net, r))
    case LoseClient(g) => s.(net := LostByClient(s.net, g))
    case Resume(rootChanged) => DoResume(s, rootChanged)
    case NewSession(rootChanged) => DoNewSession(s, rootChanged)
    case Publish => s.(net := Published(s.net))
    case ReopenSend(fh) => s.(round := s.round.Send(fh))
    case ReopenWrite(fh) => DoReopenWrite(s, fh)
    case ReopenUnwritten(fh, error) => EndReopen(s, fh, Err(error))
    case ReopenGiveUp(fh) => EndReopen(s, fh, Err(Timeout)).(net := Counting(s.net, s.reopening[fh]))
    case ReopenLost(fh) => EndReopen(s, fh, Err(Disconnected))
    case AnswerReopen(fh, outcome) => EndReopen(s, fh, outcome).(net := Read(s.net, s.reopening[fh]))
    case OwedSend(fh) => DoOwedSend(s, fh)
    case OwedWrite(fh) => DoOwedWrite(s, fh)
    case AnswerOwed(r) => DoAnswerOwed(s, r)
    case Server(deed) => s.(net := Done(s.net, deed))
  }

  /** The states of a run: each the next of the one before, by an action enabled there. */
  ghost predicate IsRun(states: seq<State>, actions: seq<Action>) {
    && |states| == |actions| + 1
    && states[0] == INIT
    && (forall i | 0 <= i < |actions| :: Enabled(states[i], actions[i]) && states[i + 1] == Next(states[i], actions[i]))
  }
}
