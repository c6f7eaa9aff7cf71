/** What both ends share: the requests written, the connections by generation, and the server's sessions; with every
    step the server takes on them (`session.rs` and `handles.rs` of the server). */
module Wire {

  datatype Origin = OfCall(c: nat) | Reopen(fh: nat) | OwedRelease(fh: nat)

  /** A request, as far as the session cares. */
  datatype Op = OpRead | OpChange | OpOpen(fh: nat) | OpRelease(fh: nat, ordered: bool)
  {
    /** The requests that take part in the session's ordering. */
    predicate Changes() {
      match this
      case OpRead => false
      case OpRelease(_, ordered) => ordered
      case _ => true
    }
  }

  datatype Phase = Transit | Held | Ready | Cancelled | Superseded | Dropped | Running | Abandoned | Finished

  predicate Begun(p: Phase) {
    p.Running? || p.Abandoned? || p.Finished?
  }

  predicate UnderWay(p: Phase) {
    p.Running? || p.Abandoned?
  }

  predicate Terminal(p: Phase) {
    p.Cancelled? || p.Superseded? || p.Dropped? || p.Finished?
  }

  datatype Answer = NoAnswer | Reply | ErrnoReply | Unrun | Fenced | Undelivered

  /** `givenUp`: the client reset its side of the stream. `counted`: it counts on its connection's pending cancels.
      `kept`: an open that found its handle already there. */
  datatype Req = Req(origin: Origin, op: Op, conn: nat, phase: Phase, givenUp: bool, counted: bool, answer: Answer,
                     kept: bool)

  /** A connection, by the client's generation. `clientAlive` and `serverAlive` are each end's view of it. */
  datatype Conn = Conn(session: nat, epoch: nat, clientAlive: bool, serverAlive: bool, published: bool, cancels: int)

  /** The epoch of the connection attached now, its changes running, those of them given up on, and the changes
      running from the session's earlier connections. */
  datatype Attachment = Attachment(epoch: nat, running: int, abandoned: int, runningOlder: int)
  {
    /** What a change from the connection attached at `at` waits for. */
    function Fence(at: nat): int {
      if at == epoch then runningOlder + abandoned else 0
    }

    function AfterBegin(): Attachment {
      this.(running := running + 1)
    }

    function AfterAbandon(at: nat): Attachment {
      if at == epoch then this.(abandoned := abandoned + 1) else this
    }

    function AfterFinish(at: nat, wasAbandoned: bool): Attachment {
      if at == epoch then
        this.(running := running - 1, abandoned := if wasAbandoned then abandoned - 1 else abandoned)
      else
        this.(runningOlder := runningOlder - 1)
    }

    function AfterResume(): Attachment {
      Attachment(epoch + 1, 0, 0, runningOlder + running)
    }
  }

  /** `live`: in the server's table; `closed`: its last reference gone, its handles with it. */
  datatype Sess = Sess(att: Attachment, live: bool, detached: bool, closed: bool, handles: map<nat, nat>)

  /** Connections are numbered by generation and sessions in the order they were made; both begin with an entry that
      stands for none. */
  datatype Net = Net(reqs: seq<Req>, conns: seq<Conn>, sessions: seq<Sess>)

  const NO_CONN := Conn(0, 0, false, false, false, 0)
  const NO_SESSION := Sess(Attachment(0, 0, 0, 0), false, false, true, map[])
  const FRESH_SESSION := Sess(Attachment(1, 0, 0, 0), true, false, false, map[])
  const NO_NET := Net([], [NO_CONN], [NO_SESSION])

  predicate Ranged(n: Net) {
    && |n.conns| >= 1
    && |n.sessions| >= 1
    && (forall g | 0 <= g < |n.conns| :: n.conns[g].session < |n.sessions|)
    && (forall r | 0 <= r < |n.reqs| :: n.reqs[r].conn < |n.conns|)
  }

  function Gen(n: Net): nat requires |n.conns| >= 1 { |n.conns| - 1 }

  function Sid(n: Net): nat requires |n.sessions| >= 1 { |n.sessions| - 1 }

  function SessionOf(n: Net, r: nat): nat
    requires Ranged(n) && r < |n.reqs|
  {
    n.conns[n.reqs[r].conn].session
  }

  function EpochOf(n: Net, r: nat): nat
    requires Ranged(n) && r < |n.reqs|
  {
    n.conns[n.reqs[r].conn].epoch
  }

  function AttOf(n: Net, r: nat): Attachment
    requires Ranged(n) && r < |n.reqs|
  {
    n.sessions[SessionOf(n, r)].att
  }

  /** Whether anything of session `i` is under way at the server. */
  predicate UnderWayAt(n: Net, i: nat)
    requires Ranged(n)
  {
    || (exists r | 0 <= r < |n.reqs| :: SessionOf(n, r) == i && !Terminal(n.reqs[r].phase))
    || (exists g | 0 <= g < |n.conns| :: n.conns[g].session == i && n.conns[g].serverAlive)
  }

  /** Whether a hello naming session `i` resumes it. */
  predicate Resumable(n: Net, i: nat)
    requires Ranged(n) && i < |n.sessions|
  {
    n.sessions[i].live || UnderWayAt(n, i)
  }

  function SetReq(n: Net, r: nat, q: Req): Net
    requires r < |n.reqs|
  {
    n.(reqs := n.reqs[r := q])
  }

  function SetConn(n: Net, g: nat, k: Conn): Net
    requires g < |n.conns|
  {
    n.(conns := n.conns[g := k])
  }

  function SetAtt(n: Net, i: nat, att: Attachment): Net
    requires i < |n.sessions|
  {
    n.(sessions := n.sessions[i := n.sessions[i].(att := att)])
  }

  // ---- The client's hand in it ----

  /** A request written whole on connection `g`; one the server has lost already is never read. */
  function Written(n: Net, origin: Origin, op: Op, g: nat): Net
    requires g < |n.conns|
  {
    n.(reqs := n.reqs + [Req(origin, op, g, if n.conns[g].serverAlive then Transit else Dropped, false, false,
                             NoAnswer, false)])
  }

  /** The client gives up on request `r`: it counts it among its connection's pending cancels and resets its side. */
  function Counting(n: Net, r: nat): Net
    requires Ranged(n) && r < |n.reqs|
  {
    var g := n.reqs[r].conn;
    n.(reqs := n.reqs[r := n.reqs[r].(givenUp := true, counted := true)],
       conns := n.conns[g := n.conns[g].(cancels := n.conns[g].cancels + 1)])
  }

  /** The server's word on request `r`, given up on, is in, or can no longer come. */
  function Uncounting(n: Net, r: nat): Net
    requires Ranged(n) && r < |n.reqs|
  {
    var g := n.reqs[r].conn;
    n.(reqs := n.reqs[r := n.reqs[r].(counted := false, answer := NoAnswer)],
       conns := n.conns[g := n.conns[g].(cancels := n.conns[g].cancels - 1)])
  }

  /** The client reads the answer of request `r`. */
  function Read(n: Net, r: nat): Net
    requires r < |n.reqs|
  {
    SetReq(n, r, n.reqs[r].(answer := NoAnswer))
  }

  predicate ClientReads(n: Net, r: nat)
    requires Ranged(n)
  {
    && r < |n.reqs|
    && n.conns[n.reqs[r].conn].clientAlive
    && !n.reqs[r].answer.NoAnswer?
    && !n.reqs[r].answer.Undelivered?
  }

  function LostByClient(n: Net, g: nat): Net
    requires g < |n.conns|
  {
    SetConn(n, g, n.conns[g].(clientAlive := false))
  }

  function Published(n: Net): Net
    requires |n.conns| >= 1
  {
    SetConn(n, Gen(n), n.conns[Gen(n)].(published := true))
  }

  /** The manager connects again once its connection is lost and has been published. */
  predicate CanConnect(n: Net)
    requires |n.conns| >= 1
  {
    !n.conns[Gen(n)].clientAlive && (Gen(n) == 0 || n.conns[Gen(n)].published)
  }

  /** The server resumes the newest session, taking over a connection it still holds. */
  function Resumed(n: Net): Net
    requires Ranged(n)
  {
    var i := Sid(n);
    var att := n.sessions[i].att.AfterResume();
    n.(conns := n.conns[Gen(n) := n.conns[Gen(n)].(serverAlive := false)] + [Conn(i, att.epoch, true, true, false, 0)],
       sessions := n.sessions[i := n.sessions[i].(att := att, live := true, detached := false)])
  }

  /** Nothing is left of the newest session, and the server makes another. */
  function Renewed(n: Net): Net {
    n.(conns := n.conns + [Conn(|n.sessions|, 1, true, true, false, 0)], sessions := n.sessions + [FRESH_SESSION])
  }

  // ---- The server ----

  datatype Deed =
    | Arrive(r: nat)
    | DropCut(r: nat)
    | Drain(r: nat)
    | Begin(r: nat)
    | Finish(r: nat, errno: bool)
    | SeeCancel(r: nat)
    | LoseServer(g: nat)
    | HandshakeLost
    | DropSession(i: nat)
    | CloseSession(i: nat)

  /** Where a request just decoded on the connection attached at `at` goes, the fence read once. */
  function PhaseDecoded(changes: bool, att: Attachment, at: nat): Phase {
    if changes && att.Fence(at) > 0 then Held else Ready
  }

  /** Where a held change goes, if it goes on. */
  function PhaseDrained(att: Attachment, at: nat): Phase {
    if att.epoch != at then Superseded
    else if att.runningOlder + att.abandoned == 0 then Ready
    else Held
  }

  /** Where a ready request goes as it begins: a change of a connection no longer current is refused. */
  function PhaseBegun(changes: bool, att: Attachment, at: nat): Phase {
    if changes && att.epoch != at then Superseded else Running
  }

  /** Where a change goes that the client gave up on. */
  function PhaseCancelled(phase: Phase): Phase {
    if phase.Transit? || phase.Held? || phase.Ready? then Cancelled
    else if phase.Running? then Abandoned
    else phase
  }

  function Arrived(n: Net, r: nat): Net
    requires Ranged(n) && r < |n.reqs|
  {
    SetReq(n, r, n.reqs[r].(phase := PhaseDecoded(n.reqs[r].op.Changes(), AttOf(n, r), EpochOf(n, r))))
  }

  /** A request on a connection the server has lost, not yet decoded or held, notices. */
  predicate CanDropCut(n: Net, r: nat)
    requires Ranged(n) && r < |n.reqs|
  {
    (n.reqs[r].phase.Transit? || n.reqs[r].phase.Held?) && !n.conns[n.reqs[r].conn].serverAlive
  }

  predicate CanDrain(n: Net, r: nat)
    requires Ranged(n) && r < |n.reqs|
  {
    n.reqs[r].phase.Held? && !PhaseDrained(AttOf(n, r), EpochOf(n, r)).Held?
  }

  function Drained(n: Net, r: nat): Net
    requires Ranged(n) && r < |n.reqs|
  {
    SetReq(n, r, n.reqs[r].(phase := PhaseDrained(AttOf(n, r), EpochOf(n, r))))
  }

  /** A request begins, unless it is refused; an open looks for a handle already under its id. */
  function Began(n: Net, r: nat): Net
    requires Ranged(n) && r < |n.reqs|
  {
    var q := n.reqs[r];
    var phase := PhaseBegun(q.op.Changes(), AttOf(n, r), EpochOf(n, r));
    if phase.Superseded? then
      SetReq(n, r, q.(phase := phase))
    else
      var kept := q.op.OpOpen? && q.op.fh in n.sessions[SessionOf(n, r)].handles;
      var begun := SetReq(n, r, q.(phase := phase, kept := kept));
      if q.op.Changes() then SetAtt(begun, SessionOf(n, r), AttOf(n, r).AfterBegin()) else begun
  }

  /** A release, or an open answered from the handle under its id, never fails. */
  predicate CanFinish(n: Net, r: nat, errno: bool)
    requires Ranged(n) && r < |n.reqs|
  {
    UnderWay(n.reqs[r].phase) && (errno ==> !n.reqs[r].op.OpRelease? && !n.reqs[r].kept)
  }

  /** Whether the open that finishes is refused: the work failed, or another open of its id got there first. */
  predicate Refused(q: Req, handles: map<nat, nat>, errno: bool) {
    errno || (q.op.OpOpen? && !q.kept && q.op.fh in handles)
  }

  function HandlesAfter(q: Req, r: nat, handles: map<nat, nat>, errno: bool): map<nat, nat> {
    if q.op.OpOpen? && !q.kept && !Refused(q, handles, errno) then handles[q.op.fh := r]
    else if q.op.OpRelease? then handles - {q.op.fh}
    else handles
  }

  function AnswerAfter(n: Net, r: nat, errno: bool): Answer
    requires Ranged(n) && r < |n.reqs|
  {
    var q := n.reqs[r];
    if q.phase.Abandoned? then q.answer
    else if !n.conns[q.conn].serverAlive then Undelivered
    else if Refused(q, n.sessions[SessionOf(n, r)].handles, errno) then ErrnoReply
    else Reply
  }

  function DoneWith(n: Net, r: nat, errno: bool): Net
    requires Ranged(n) && r < |n.reqs|
  {
    var q := n.reqs[r];
    var i := SessionOf(n, r);
    var att := if q.op.Changes() then AttOf(n, r).AfterFinish(EpochOf(n, r), q.phase.Abandoned?) else AttOf(n, r);
    n.(reqs := n.reqs[r := q.(phase := Finished, answer := AnswerAfter(n, r, errno))],
       sessions := n.sessions[i := n.sessions[i].(att := att,
                                                  handles := HandlesAfter(q, r, n.sessions[i].handles, errno))])
  }

  predicate CanSeeCancel(n: Net, r: nat)
    requires Ranged(n) && r < |n.reqs|
  {
    && n.reqs[r].givenUp
    && !Terminal(n.reqs[r].phase)
    && !n.reqs[r].phase.Abandoned?
    && n.conns[n.reqs[r].conn].serverAlive
  }

  /** The client's reset reaches the server: one running is fenced, one not begun never will be. */
  function CancelSeen(n: Net, r: nat): Net
    requires Ranged(n) && r < |n.reqs|
  {
    var phase := PhaseCancelled(n.reqs[r].phase);
    if phase.Abandoned? then
      SetAtt(SetReq(n, r, n.reqs[r].(phase := phase, answer := Fenced)), SessionOf(n, r),
             AttOf(n, r).AfterAbandon(EpochOf(n, r)))
    else
      SetReq(n, r, n.reqs[r].(phase := phase, answer := Unrun))
  }

  function LostByServer(n: Net, g: nat): Net
    requires Ranged(n) && g < |n.conns|
  {
    var i := n.conns[g].session;
    SetConn(n, g, n.conns[g].(serverAlive := false))
      .(sessions := if n.sessions[i].att.epoch == n.conns[g].epoch
                    then n.sessions[i := n.sessions[i].(detached := true)] else n.sessions)
  }

  /** The server resumes the session, and the handshake is lost before the client hears of it. */
  function HandshakeWasLost(n: Net): Net
    requires |n.sessions| >= 1
  {
    var i := Sid(n);
    n.(sessions := n.sessions[i := n.sessions[i].(att := n.sessions[i].att.AfterResume(), live := true,
                                                  detached := true)])
  }

  function SessionDropped(n: Net, i: nat): Net
    requires i < |n.sessions|
  {
    n.(sessions := n.sessions[i := n.sessions[i].(live := false)])
  }

  function SessionClosed(n: Net, i: nat): Net
    requires i < |n.sessions|
  {
    n.(sessions := n.sessions[i := n.sessions[i].(closed := true, handles := map[])])
  }

  predicate Can(n: Net, d: Deed)
    requires Ranged(n)
  {
    match d
    case Arrive(r) => r < |n.reqs| && n.reqs[r].phase.Transit?
    case DropCut(r) => r < |n.reqs| && CanDropCut(n, r)
    case Drain(r) => r < |n.reqs| && CanDrain(n, r)
    case Begin(r) => r < |n.reqs| && n.reqs[r].phase.Ready?
    case Finish(r, errno) => r < |n.reqs| && CanFinish(n, r, errno)
    case SeeCancel(r) => r < |n.reqs| && CanSeeCancel(n, r)
    case LoseServer(g) => g < |n.conns| && n.conns[g].serverAlive
    case HandshakeLost => CanConnect(n) && Resumable(n, Sid(n))
    case DropSession(i) => i < |n.sessions| && n.sessions[i].live && n.sessions[i].detached
    case CloseSession(i) => i < |n.sessions| && !n.sessions[i].live && !UnderWayAt(n, i)
  }

  function Done(n: Net, d: Deed): Net
    requires Ranged(n) && Can(n, d)
  {
    match d
    case Arrive(r) => Arrived(n, r)
    case DropCut(r) => SetReq(n, r, n.reqs[r].(phase := Dropped))
    case Drain(r) => Drained(n, r)
    case Begin(r) => Began(n, r)
    case Finish(r, errno) => DoneWith(n, r, errno)
    case SeeCancel(r) => CancelSeen(n, r)
    case LoseServer(g) => LostByServer(n, g)
    case HandshakeLost => HandshakeWasLost(n)
    case DropSession(i) => SessionDropped(n, i)
    case CloseSession(i) => SessionClosed(n, i)
  }
}
