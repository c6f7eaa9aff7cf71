# jackalopefs, in Dafny

A model of the parts of jackalopefs (a network file system: a FUSE client in `crates/client`, a server in `crates/server`)
that keep state through long runs, and proofs of what they promise. `dafny verify dfyconfig.toml` checks all of it.

- **The session protocol.** `Machine` and `Handles` are the client's steps (`machine.rs`, `handles.rs`) as functions on
  values; `Wire` is what the two ends share and the server's steps (`session.rs`); `Protocol` joins them into one transition
  system of 24 actions, with any number of calls, connections, sessions and handles. A call's send and its request being
  written whole are separate actions, each exchange learns of a lost connection on its own, and the server's ten steps
  happen at any time. `WireInvariant`, `OrderInvariant`, `OrderSteps`, `Sends`, `HandleInvariant`, `HandleServer` and
  `HandleSteps` prove the invariants; `Ordering`, `SessionTheorems`, `HandleIdentity`, `Outcomes` and `Publication` draw the
  theorems about whole runs, and `OrderingWitness` and `ResendWitness` have runs they bite on. `CallStates`, `HandleTables` and
  `Exchanges` are the same steps on objects updated in place, proved to be those steps.
- **The inode table.** `Nodes` is `inodes.rs` as functions on values, `InodeTable` the table updated in place.
  `NodeInvariant`, `NodeNumbers`, `NodeIdentities`, `NodeHashes`, `NodeNames`, `NodeEffects`, `NodeMatching`, `NodeMoves` and
  `NodeWrongNames` prove what it promises over every sequence of operations; `NodePinned` works out one hash. Three promises do not hold of every run; `NodeWitnesses` has a run for each
  that shows it, and the exact conditions under which they do hold are `NodeWrongNames.WrongIsUsed`,
  `NodeMatching.WrongAliasMatched` and `NodeNames.PathResolvesExactly`. `NodeMatching.RunTidyExactly` says which runs keep
  every alias matched and none twice, and there every path resolves.
- **Histograms and quantiles.** `Buckets`, `Quantiles` and `WindowQuantiles`: the bit arithmetic of the buckets over all of
  u64, and the order statistics of a window between two readings.
- **Queues and buffers.** `Directories` (a directory handle's buffer), `Taps` (a subscriber's queue of records), and the two
  bounded queues from the server's change events to the kernel's caches: `Overflows` is their steps on values,
  `OverflowInvariant` what every step keeps, `OverflowTheorems` when a change can be lost silently, and `Pipelines` the same
  steps in place. That none ever is does not hold of every run: `OverflowTheorems.StartMayOvertake` is one, and the exact
  condition is `OverflowTheorems.OvertakenExactly`.
- **Owners in ACLs.** `Acls`: parsing, rewriting in place and the round trip, down to the bytes.

What the code does, where its own words say otherwise:

- `alias_was_wrong` (`inodes.rs:263-281`) says it forgets the alias its path ended in. It looks for that alias from depth 0,
  where `path_of` looked from depth 1, so a directory with a chain of exactly `MAX_DEPTH + 1` steps among its newer aliases
  is spelled differently, nothing is forgotten, and the loops of `getattr` and `open` (`fuse.rs:1105-1115`, `1445-1461`) go
  by the same path again. `NodeWitnesses.WrongNameStays` is such a run, of lookups alone; `WrongIsUsed` is exactly when it
  does not happen.
- `read_events` (`conn.rs:803`) says that changes are never missed silently. Its flag for an overflow owed is its own, and
  each connection has a new reader (`conn.rs:361`) on the same queue, so an overflow still owed when a connection is lost is
  never queued. The sweep for the new connection (`invalidate.rs:129-143`) covers the loss, unless `translate` takes a batch
  of the new reader's first.
- A node may have one alias twice: a rename to a name its directory no longer knows pushes an alias that is already there
  (`inodes.rs:313-316`). `NodeWitnesses.TwiceMatched`.

## Model

| member | source | states |
|---|---|---|
| `Ordering.NoOvertaking` | crates/client/src/machine.rs:118-181 | in every run, through give-ups, losses, resends and resumes, every request that ever runs of a change that had ended when another change started has finished before any request of that other change begins, in one session and across the client's sessions |
| `OrderingWitness.HeldThenBegins` | spec/README.md:25 | a run in which a change the client has given up on runs, another started since is held behind it, and begins once it has finished |
| `Ordering.AtMostTwice` | crates/client/src/machine.rs:152-170 | a call writes at most two requests in all, and two only if its reply may be asked for again and was lost once |
| `Ordering.ResendWaits` | crates/client/src/client.rs:944-1169 | a change sent again begins at the server only once its first sending, if it ever runs, has finished |
| `ResendWitness.ResentThenBegins` | spec/session.qnt:836 | a run in which a change runs, its connection is lost, its session is resumed, and its second sending is held behind the first and begins once that has finished |
| `Ordering.ReleaseNeverOvertakes` | crates/client/src/machine.rs:240-250 | when an owed release begins, every open or reopen of its id that ever runs in that session, earlier or later, has finished |
| `SessionTheorems.NoLeak` | crates/client/src/machine.rs:223-303 | in every reachable state, a handle the server holds for the client's session, or may come to hold from a request already written, is live at the client, owed a release, being reopened, being opened, or being released |
| `SessionTheorems.HandlesAgree` | spec/session.qnt:793-802 | once nothing is under way and no release is owed, the server's handles for the session are exactly the client's live ones, and no open of the session can still run |
| `SessionTheorems.NeverDuplicate` | crates/server/src/handles.rs:242-262 | an open under way is of the client's own session, and where its id is taken already it answers from the handle there |
| `HandleIdentity.NeverReplaced` | spec/session.qnt:804-808 | in every run, what the server holds in the client's session under an id the client holds live was opened by the request the client expects it from, the open it accepted the answer of or the reopen written since, or by another attempt of the same call |
| `HandleIdentity.StepExpects` | crates/client/src/machine.rs:259-303 | every action keeps it so, that all opens of a live id in the session are of one origin, and that nothing but its reopen opens an id in the round |
| `HandleIdentity.StepKeepsEntry` | crates/server/src/handles.rs:242-312 | every action keeps what a session holds under an id a handle that a request of that session opened for that id |
| `SessionTheorems.OwedNeverStuck` | crates/client/src/conn.rs:683-754 | on a published connection with no cancel pending, every release owed can be sent now or is being sent on that very connection |
| `SessionTheorems.SentBehindItsOpen` | crates/client/src/conn.rs:699-733 | when a release owed is sent, no open or reopen of its id written on that connection is unsettled |
| `SessionTheorems.SentOncePerConnection` | crates/client/src/handles.rs:271-297 | a release owed and being sent on a connection stays so until a newer connection comes or the answer to its own request there is read; only that answer settles it |
| `SessionTheorems.SendsGoOnNewer` | crates/client/src/machine.rs:118-170 | a call's successive sends go on strictly newer connections |
| `SessionTheorems.SendDiscipline` | crates/client/src/machine.rs:105-181 | a call in flight is on a published connection and has made no more attempts than its generation; a lost reply is asked for again only if resendable; a change is sendable only where no counted give-up is unanswered |
| `SessionTheorems.CountsConsistent` | spec/session.qnt:811-820 | the server's running, abandoned and older counts, and every connection's pending cancels, equal what the requests say, through every resume and takeover |
| `SessionTheorems.AliveIsCurrent` | spec/session.qnt:827-830 | a connection the client uses is the newest and carries its session's current epoch |
| `Publication.PublishedInOrder` | crates/client/src/conn.rs:304-346 | at the publication of a new session's connection no call is in flight on it, every handle in the table is dead or reopened in this round, and every handle the round began with is reopened or its release owed |
| `Publication.StepKeepsRound` | crates/client/src/machine.rs:259-308 | every step keeps the round a partition of its handles into unsent, sending, reopened and owed |
| `Outcomes.ReopenJudged` | crates/client/src/handles.rs:389-410 | in every run, a handle whose reopen is answered is live afterwards exactly if it was live and the reply opened the very file it was held for, inode number and identity; otherwise its release is owed; nothing else in the table changes |
| `Outcomes.ReopenUnanswered` | crates/client/src/machine.rs:290-303 | a reopen given up on, lost or never written leaves its handle not live and its release owed, and the rest of the table alone |
| `Outcomes.OpenAnswered` | crates/client/src/machine.rs:222-232 | an open that is answered leaves its handle held for the file opened, its release owed where the caller refuses it or the reply makes no sense, and nothing where the server refused it |
| `Outcomes.RefusedLeavesNothing` | crates/client/src/machine.rs:222-232 | in every run, an open that the server refused is then not held, not owed, and not open at the server |
| `Outcomes.ReleaseAnswered` | crates/client/src/machine.rs:234-237 | a release that is answered owes nothing more |
| `Outcomes.LeftUnanswered` | crates/client/src/machine.rs:222-237 | a call given up on or failed with its connection leaves its id owed a release if it was an open or a release, and the table alone otherwise |
| `Outcomes.LoseExactly` | crates/client/src/machine.rs:152-170 | a call whose connection goes fails exactly if its request was written whole and it may not be sent again; otherwise it waits for a newer connection, and has lost a reply only if the request was written |
| `Outcomes.FailedAfter` | crates/client/src/machine.rs:152-170 | in every run, a call that fails with its connection has written exactly one request if it may not be sent again, and exactly two if it may |
| `HandleSteps.StepKeepsInv` | crates/client/src/conn.rs:196-392 | every enabled action of client, connection manager and server keeps the whole invariant, and requests only ever move on |
| `OrderSteps.StepKeeps` | crates/client/src/client.rs:944-1169 | every action keeps the ordering invariant: every request behind one it comes after is on a newer connection, or that one is settled |
| `WireInvariant.DeedKeeps` | crates/server/src/session.rs:229-522 | every step of the server keeps the counts, the fence and the phases consistent |
| `HandleServer.ServerHandles` | crates/server/src/handles.rs:242-312 | every step of the server keeps, for every id, what it holds accounted for at the client |
| `Sends.StepKeepsSends` | crates/client/src/machine.rs:136-170 | every action keeps each call's requests bounded and apart by generation |
| `CallStates.AttachedState.constructor` | crates/client/src/machine.rs:23-31 | a connection begins unpublished with no cancel pending |
| `CallStates.AttachedState.Publish` | crates/client/src/machine.rs:33-35 | only the published flag changes |
| `CallStates.AttachedState.Count` | crates/client/src/machine.rs:45-50 | one more give-up is pending, nothing else changes |
| `CallStates.AttachedState.Uncount` | crates/client/src/machine.rs:52-56 | one fewer is pending, nothing else changes |
| `CallStates.CallState.constructor` | crates/client/src/machine.rs:105-116 | a call begins waiting, never lost, with no attempt made |
| `CallStates.CallState.SendableOn` | crates/client/src/machine.rs:118-134 | the answer is the protocol's guard: no exactly where the call does not wait, the connection is not published or too old; put off only for a change with cancels pending; and now otherwise |
| `CallStates.CallState.Sent` | crates/client/src/machine.rs:136-141 | the new state is the protocol's send step |
| `CallStates.CallState.Answered` | crates/client/src/machine.rs:143-149 | the new state is the protocol's answer step |
| `CallStates.CallState.Lost` | crates/client/src/machine.rs:152-170 | the new state is the protocol's loss step; the call fails exactly if a reply was lost and it is not resendable or lost one before; otherwise it waits for a newer connection, and a request not sent leaves it never lost |
| `CallStates.CallState.GaveUp` | crates/client/src/machine.rs:173-182 | the call ends given up on, and is counted exactly when it was in flight, written whole and a change |
| `CallStates.CallState.Failed` | crates/client/src/machine.rs:184-186 | the call ends failed, nothing else changes |
| `HandleTables.HandleTable.constructor` | crates/client/src/handles.rs:144-158 | the table begins empty |
| `HandleTables.HandleTable.Alloc` | crates/client/src/handles.rs:170-172 | an id never given before, and held by nobody |
| `HandleTables.HandleTable.Insert` | crates/client/src/handles.rs:174-201 | a live record of its own under the id; the counters stay the table's own handles of each kind, a replaced record counted out |
| `HandleTables.HandleTable.ReleaseBegins` | crates/client/src/machine.rs:253-255 | the handle is forgotten, and the server is told unless it was dead |
| `HandleTables.HandleTable.OweRelease` | crates/client/src/handles.rs:239-263 | the release is owed, one already owed left as it is, and owed ones are counted once |
| `HandleTables.HandleTable.OwedSendable` | crates/client/src/machine.rs:240-250 | exactly the releases owed and not being sent, on a published connection with nothing pending, and none otherwise |
| `HandleTables.HandleTable.OwedSend` | crates/client/src/handles.rs:281-286 | the release is being sent on the generation |
| `HandleTables.HandleTable.OwedDelivered` | crates/client/src/handles.rs:289-297 | the release is owed no more exactly when it was being sent on that generation |
| `HandleTables.HandleTable.OwedConnectionEnded` | crates/client/src/handles.rs:300-306 | exactly the releases being sent on that generation are unsent again |
| `HandleTables.HandleTable.OwedMoot` | crates/client/src/handles.rs:309-311 | nothing is owed |
| `HandleTables.HandleTable.Live` | crates/client/src/handles.rs:362-369 | exactly the live handles, with the table's own records |
| `HandleTables.HandleTable.KillAll` | crates/client/src/handles.rs:372-386 | every live handle is dead and its release owed; dead handles and releases already owed are as they were |
| `HandleTables.HandleTable.ApplyReopen` | crates/client/src/handles.rs:389-410 | the record is alive afterwards exactly if it was and the reply opened the file of its own key; it dies in the table too |
| `HandleTables.EachIsAll` | crates/client/src/handles.rs:372-386 | killing the live handles one by one and owing each release one by one is the whole of `kill_all`, in whatever order |
| `HandleTables.ReopenRound.constructor` | crates/client/src/machine.rs:269-275 | the round is the live handles, all unsent |
| `HandleTables.ReopenRound.Send` | crates/client/src/machine.rs:283-288 | the handle moves from unsent to sending |
| `HandleTables.ReopenRound.Ended` | crates/client/src/machine.rs:291-303 | the handle leaves the round; it is reopened exactly if it is still held, its record was alive and the reply opened the file of its own key; otherwise it is dead, if held, and its release owed |
| `HandleTables.ReopenRound.Publishable` | crates/client/src/machine.rs:306-308 | true exactly when nothing is unsent or sending |
| `Exchanges.SessionState.constructor` | crates/server/src/session.rs:82-91 | a session begins at epoch 1 with nothing running |
| `Exchanges.SessionState.Fencing` | crates/server/src/session.rs:343-384 | a change just decoded is held exactly when the fence of its connection is up |
| `Exchanges.SessionState.Drained` | crates/server/src/session.rs:387-412 | a held change goes on when the fence is down, and is superseded when its connection is no longer current |
| `Exchanges.SessionState.Begin` | crates/server/src/session.rs:229-297 | a change of a stale connection or one given up on does not begin; one that begins is counted running |
| `Exchanges.SessionState.Abandon` | crates/server/src/session.rs:300-340 | a change given up on is unrun if it had not begun, fences later ones if it runs on the current connection, and is left alone if it finished or was superseded |
| `Exchanges.SessionState.Finish` | crates/server/src/session.rs:470-522 | the counts lose the exchange where it was counted, and held changes are told exactly when the count it was one of, of changes given up on or of earlier connections' changes, has just reached zero; so always when their fence comes down |
| `Exchanges.SessionState.Resume` | crates/server/src/session.rs:623-670 | the epoch rises, what ran is older now, and nothing is abandoned |
| `NodeInvariant.RunKeeps` | crates/client/src/inodes.rs:148-346 | over every sequence of operations: every directory entry names a remembered node other than the root that has the matching alias, `by_key` is exactly the inverse of the other nodes' keys, their numbers are at least 2, and a node is unlinked exactly when it has no alias |
| `NodeInvariant.StepKeeps` | crates/client/src/inodes.rs:148-346 | each operation keeps that agreement |
| `NodeInvariant.NoDanglingChild` | crates/client/src/inodes.rs:190-213 | in every run a directory entry is of a node that is remembered, has that alias, and is not unlinked |
| `NodeNumbers.UniqueNumbers` | crates/client/src/inodes.rs:121-141 | two remembered files never share a number, in any run |
| `NodeNumbers.StableNumber` | crates/client/src/inodes.rs:148-213 | a file whose server number is not the root's keeps its number while its net lookups last, and its node counts exactly those |
| `NodeNumbers.ForgottenAtZero` | crates/client/src/inodes.rs:190-213 | the operation that takes the net lookups to nothing forgets the file and frees its number |
| `NodeNumbers.FirstLookup` | crates/client/src/inodes.rs:148-178 | a first lookup gives a free number and counts one lookup |
| `NodeNumbers.FirstFreeIsFirst` | crates/client/src/inodes.rs:136-140 | probing skips no free number |
| `NodeNumbers.NumberIsFree` | crates/client/src/inodes.rs:121-141 | the number a file would get is the root's, its own, or free and not reserved |
| `NodeIdentities.RootByIdentity` | crates/client/src/inodes.rs:121-130 | a file is taken for the root exactly if it has number 1 and, once the root's identity is known, that identity |
| `NodeIdentities.RootOnceSeen` | crates/client/src/inodes.rs:181-187 | once a reply has described the root, that file is the root and no other is |
| `NodeIdentities.OwnNumber` | crates/client/src/inodes.rs:133-135 | a new file of the root's subvolume goes by its inode number where that is above 1 and free |
| `NodeIdentities.ForeignNumber` | crates/client/src/inodes.rs:133-141 | a new file from outside it goes by the same number in any two tables in which that number is free, whatever else they hold and whatever its inode number |
| `NodeIdentities.TakenNumber` | crates/client/src/inodes.rs:133-141 | so does a new file whose inode number is taken, and not by that number |
| `NodeIdentities.SameNumberSameFile` | crates/client/src/inodes.rs:121-178 | after a lookup, another reply is of the same node exactly if inode number and identity are the same |
| `NodeIdentities.LookupDescribes` | crates/client/src/inodes.rs:148-178 | the node looked up is of the kind and key the reply gave, not unlinked, and its newest name is the one it was looked up by |
| `NodeHashes.HashDiffers` | crates/client/src/inodes.rs:60-70 | byte strings that differ in one place have different hashes, all 64 bits considered |
| `NodeHashes.HandleCounts` | crates/client/src/inodes.rs:60-71 | files whose handles differ in one byte start from different numbers, unless moved off the reserved ones |
| `NodeHashes.TypeCounts` | crates/client/src/inodes.rs:60-71 | so do files whose handles are alike but of types that differ in their lowest byte |
| `Nodes.FirstFree` | crates/client/src/inodes.rs:136-140 | while fewer nodes exist than numbers, probing ends at a free number of at least 2 |
| `Nodes.RoomMeansFree` | crates/client/src/inodes.rs:136-140 | while fewer than 2^64 - 2 other nodes exist some number is free |
| `Nodes.Substitute` | crates/client/src/inodes.rs:60-71 | where substitutes start is a number the kernel does not reserve |
| `Nodes.AliasOf` | crates/client/src/inodes.rs:267-269 | the alias found is the newest one the path leads to, or there is none |
| `NodeNames.Newest` | crates/client/src/inodes.rs:228-239 | the newest alias whose directory can be reached, every newer one's being out of reach |
| `NodeWrongNames.Used` | crates/client/src/inodes.rs:216-239 | the alias a path goes through: the path is its name after the names to its directory |
| `NodeNames.AddressedExactly` | crates/client/src/inodes.rs:221-239 | a node can be addressed exactly when some alias chain of at most 2049 steps reaches the root |
| `NodeNames.NamesAreSound` | crates/client/src/inodes.rs:221-239 | the names found spell an alias chain no longer than allowed |
| `NodeNames.NamesAreComplete` | crates/client/src/inodes.rs:221-239 | if any alias chain short enough exists, names are found |
| `NodeNames.ThroughNewest` | crates/client/src/inodes.rs:228-239 | the names go through the newest alias whose directory can itself be addressed |
| `NodeNames.Route` | crates/client/src/inodes.rs:221-239 | the nodes that the names found pass through: from the root to the node, one more than there are names |
| `NodeNames.RouteIsAliases` | crates/client/src/inodes.rs:221-239 | each name found is, with the node before it, an alias of the node after it |
| `NodeNames.PathResolvesExactly` | crates/client/src/inodes.rs:216-252 | for every table and node with a path: every prefix of the path resolves to the node that the names pass there, exactly when each alias used on the way has its entry |
| `NodeNames.PathResolves` | crates/client/src/inodes.rs:216-252 | so where every alias has its entry, the path to a node resolves to it |
| `NodeNames.OneMoreStep` | crates/client/src/inodes.rs:221-239 | allowing one step more changes nothing unless some chain takes exactly that many |
| `NodeMatching.StepTidy` | crates/client/src/inodes.rs:148-346 | an operation keeps every alias matched, and none twice, exactly when it is orderly: names given under known directories, a directory forgotten after what it holds |
| `NodeMatching.RunTidyExactly` | crates/client/src/inodes.rs:148-346 | a run keeps every alias matched and none twice in all its tables exactly when each of its operations is orderly |
| `NodeMatching.RunPathResolves` | crates/client/src/inodes.rs:216-252 | over every such run the path to a node leads back to it |
| `NodeMatching.LookupTidy` | crates/client/src/inodes.rs:148-178 | a lookup keeps the aliases matched exactly when its directory is known |
| `NodeMatching.RenameTidy` | crates/client/src/inodes.rs:296-317 | a rename keeps the aliases matched exactly when the directory it goes to is known |
| `NodeMatching.ExchangeTidy` | crates/client/src/inodes.rs:320-346 | an exchange keeps the aliases matched |
| `NodeMatching.UnlinkTidy` | crates/client/src/inodes.rs:284-293 | an unlink keeps the aliases matched |
| `NodeMatching.ForgetTidy` | crates/client/src/inodes.rs:190-213 | a forget keeps the aliases matched exactly when the node is not forgotten or held no other node |
| `NodeMatching.WrongAliasTidy` | crates/client/src/inodes.rs:264-281 | forgetting a wrong alias keeps the aliases matched where none stands twice |
| `NodeMatching.WrongAliasMatched` | crates/client/src/inodes.rs:264-281 | where an alias may stand twice, forgetting one copy keeps the aliases matched exactly when there is no other copy |
| `NodeEffects.LookupAt` | crates/client/src/inodes.rs:148-178 | what a lookup does to any one entry and to any one node's aliases |
| `NodeEffects.UnlinkAt` | crates/client/src/inodes.rs:284-293 | the entry goes, its node loses that alias, and nothing else changes |
| `NodeEffects.RenameAt` | crates/client/src/inodes.rs:296-317 | the entry moves, the node moved exchanges one alias for the other as its newest, a replaced node loses that alias, and nothing else changes |
| `NodeEffects.ExchangeAt` | crates/client/src/inodes.rs:320-346 | the two entries swap nodes, each node exchanges one alias for the other, and nothing else changes |
| `NodeEffects.RenameNothing` | crates/client/src/inodes.rs:296-305 | a rename of a name not known, or onto another name of the same node, changes nothing |
| `NodeEffects.ExchangeUnknown` | crates/client/src/inodes.rs:320-334 | an exchange of two names of one node changes nothing, and one with a name not known leaves neither name known |
| `NodeEffects.ForgetAliasAt` | crates/client/src/inodes.rs:264-281 | one alias goes, with its entry if that is the node's, and nothing else changes |
| `NodeEffects.RemovedAt` | crates/client/src/inodes.rs:190-213 | a node forgotten goes with every entry of it and every entry in it, and every other node keeps its aliases |
| `NodeMoves.RenameCarries` | crates/client/src/inodes.rs:296-317 | if neither directory lies beneath the moved node, every known path through the old name resolves, through the new one, to the same node, for suffixes of any length |
| `NodeMoves.OldNameIsGone` | crates/client/src/inodes.rs:296-317 | no path through the old name resolves any more |
| `NodeMoves.RenameAliases` | crates/client/src/inodes.rs:296-317 | a replaced target loses exactly that alias and no other node loses or gains any but the node moved |
| `NodeMoves.SomeArrive` | crates/client/src/inodes.rs:246-252 | any names that lead to a directory begin with some that arrive there for the first time |
| `NodeWrongNames.WrongIsUsed` | crates/client/src/inodes.rs:216-281 | the alias forgotten for a wrong path is the alias the path went through, exactly when the names of its directory are the same looked for from the top as from one step down |
| `NodeWrongNames.WrongIsUsedIfShallow` | crates/client/src/inodes.rs:216-281 | it is, where no chain to that directory takes exactly MAX_DEPTH + 1 steps |
| `NodeWrongNames.WrongCostsUsed` | crates/client/src/fuse.rs:1105-1115 | where the names of the directory used are the same looked for from the top, a wrong path costs its node exactly the alias used, one alias |
| `NodeWrongNames.WrongCostsOne` | crates/client/src/inodes.rs:264-281 | whatever the path, one alias is forgotten for it or none |
| `NodeWrongNames.WrongKeepsShallow` | crates/client/src/inodes.rs:264-281 | forgetting an alias leaves every chain as short as before |
| `NodeWitnesses.WrongNameStays` | crates/client/src/inodes.rs:221-281 | false in general: a run after which a path that led to another file is reported and nothing is forgotten, so the next request goes by it again |
| `NodeWitnesses.TwiceMatched` | crates/client/src/inodes.rs:296-317 | false in general: a run after which every alias has its entry, one stands twice, and forgetting it as wrong leaves the other copy without an entry |
| `NodeWitnesses.PathMayNotResolve` | crates/client/src/inodes.rs:216-252 | false in general: a run after which the path to a node does not resolve, its directory having been forgotten and found again; `NodeNames.PathResolvesExactly` is when it does |
| `InodeTable.SubstituteFor` | crates/client/src/inodes.rs:60-71 | the loop computes the 64-bit FNV-1a of the handle type and handle, moved off the reserved numbers |
| `InodeTable.NodeTable.constructor` | crates/client/src/inodes.rs:101-117 | the table begins with the root alone |
| `InodeTable.NodeTable.IdFor` | crates/client/src/inodes.rs:121-141 | the probing loop ends, and answers the file's number |
| `InodeTable.NodeTable.InsertLookup` | crates/client/src/inodes.rs:148-178 | the new table is the lookup's, the agreement is kept, and the node is answered unless it is the root |
| `InodeTable.NodeTable.RootSeen` | crates/client/src/inodes.rs:181-187 | the root has the key described, and the agreement is kept |
| `InodeTable.NodeTable.Forget` | crates/client/src/inodes.rs:190-213 | the new table is the forget's, the agreement is kept, and the answer is whether the node is gone |
| `InodeTable.NodeTable.CutChildren` | crates/client/src/inodes.rs:205-211 | the loop takes from every directory the entries that are the forgotten node's |
| `InodeTable.NodeTable.ResolvePath` | crates/client/src/inodes.rs:246-252 | the loop answers the node the names lead to, or that some name is unknown |
| `InodeTable.NodeTable.AliasWasWrong` | crates/client/src/inodes.rs:264-281 | the alias found is forgotten with its entry, and told |
| `InodeTable.NodeTable.Unlink` | crates/client/src/inodes.rs:284-293 | the new table is the unlink's, and the agreement is kept |
| `InodeTable.NodeTable.Rename` | crates/client/src/inodes.rs:296-317 | the new table is the rename's, and the agreement is kept |
| `InodeTable.NodeTable.Exchange` | crates/client/src/inodes.rs:320-346 | the new table is the exchange's, and the agreement is kept |
| `InodeTable.NodeTable.ByName` | crates/client/src/fuse.rs:1105-1115 | the loop ends with a name that leads to the node's own file, or with no name left, or at a name that leads elsewhere and that nothing is forgotten for, which happens only where the directory's names differ from the top and never in a shallow table; every try before cost one alias |
| `Buckets.BucketExact` | crates/perf/src/histogram.rs:11-31 | over all of u64 a value is in bucket j or below exactly when it is at most that bucket's bound, so its bucket is the least whose bound reaches it |
| `Buckets.BucketExists` | crates/perf/src/histogram.rs:11-21 | every 64-bit value has a bucket below BUCKETS |
| `Buckets.UpperRises` | crates/perf/src/histogram.rs:23-31 | the bounds rise strictly, the saturated last one among them |
| `Buckets.BoundIsOwn` | crates/perf/src/histogram.rs:11-31 | each bound is in its own bucket |
| `Buckets.BucketRises` | crates/perf/src/histogram.rs:11-21 | a larger value is in no lower a bucket |
| `Buckets.NoWiderThanQuarter` | crates/perf/src/histogram.rs:23-31 | each bucket above index 4 is no wider than a quarter of where it begins, the saturated one among them |
| `Buckets.PowerBounds` | crates/perf/src/histogram.rs:11-31 | a power of two is the bound of its own bucket |
| `Buckets.BoundIsClose` | crates/perf/src/histogram.rs:11-31 | the bound of a value's bucket is never below it and at most a quarter above |
| `Quantiles.Histogram.constructor` | crates/perf/src/histogram.rs:36-40 | every bucket begins at zero |
| `Quantiles.Histogram.Record` | crates/perf/src/histogram.rs:43-45 | the array's counts stay those of everything recorded, in the value's bucket one more |
| `Quantiles.Histogram.Read` | crates/perf/src/histogram.rs:48-58 | the buckets with counts, by bound, of everything recorded |
| `Quantiles.Quantile` | crates/ctl/src/lib.rs:148-173 | the loop answers the bound of the first bucket, in order of bounds, by which the running count reaches the rank |
| `Quantiles.Rank` | crates/ctl/src/lib.rs:166-167 | the rank is the least whole number of at least q times the total, kept between 1 and the total |
| `WindowQuantiles.WindowQuantile` | crates/ctl/src/lib.rs:148-173 | for any values before and between two readings, the quantile is the bound of the bucket that holds the value of its rank among those between: never below it and at most a quarter above |
| `WindowQuantiles.WindowIsReading` | crates/ctl/src/lib.rs:149-160 | the difference of two readings is the reading of a histogram that held the values between them alone |
| `WindowQuantiles.RankIsLeast` | crates/ctl/src/lib.rs:161-172 | whatever the readings, the bound answered for a rank is the least whose share of what was added reaches it |
| `WindowQuantiles.EmptyWindow` | crates/ctl/src/lib.rs:162-165 | there is no quantile exactly when nothing was added |
| `WindowQuantiles.EveryRankExists` | crates/ctl/src/lib.rs:166-167 | there is a value of every rank |
| `WindowQuantiles.SortedKeeps` | crates/ctl/src/lib.rs:161 | sorting keeps the buckets |
| `WindowQuantiles.SortedAscends` | crates/ctl/src/lib.rs:161 | sorting puts them in order of bounds |
| `Directories.TagWithCookies` | crates/client/src/fuse.rs:945-956 | each entry is paired with the offset that yields it |
| `Directories.ListableInBytes` | crates/client/src/fuse.rs:936-943 | `.` and `..` can always be listed; any other entry exactly if it has attributes and, for the kind of page that registers it, a name of 1 to 255 bytes without zero or slash |
| `Directories.DirState.Page` | crates/client/src/fuse.rs:836-866 | whatever the buffer, its age and the end recorded, the page is what the server would list from that offset, and empty only at the end; the buffer is the page if it is young and continues there, and never once it is old, and an end newly recorded is the answer's |
| `Directories.DirState.Fill` | crates/client/src/fuse.rs:900-934 | the kernel takes what can be listed of a prefix of the page, stopping only for want of room, and the rest is kept |
| `Directories.DirState.ReadDir` | crates/client/src/fuse.rs:1866-1950 | a request gets what can be listed of what the server would list from its offset up to some place, of no more entries than fit, and goes on from there; with room, nothing only where nothing of the page can be listed |
| `Directories.DirState.Grew` | crates/client/src/fuse.rs:883-890 | names added at the end leave the buffer a stretch of the listing and no stale end |
| `Directories.ReadThrough` | crates/client/src/fuse.rs:836-956 | reading on from each page's last cookie until a page is empty lists, once and in order, exactly what can be listed up to a place from which the server's answer has nothing to list; that is all there is exactly when nothing listable follows, and the whole directory where every entry can be listed |
| `Directories.StretchDrop` | crates/client/src/fuse.rs:869-873 | what is left of a page is what the server would list from there |
| `OverflowTheorems.NoSilentLoss` | crates/client/src/conn.rs:803-876 | over every run of both stages and any number of connections: a batch dropped and work of a later one have a sweep queued between them, unless another connection's reader started after the one was read and before the other; work dropped, and a new connection seen, have a sweep queued after them before any work |
| `OverflowTheorems.OvertakenExactly` | crates/client/src/conn.rs:361-368 | across connections: work overtakes a loss exactly when a reader started while a batch dropped since the last sweep was owed an overflow by its predecessor's flag alone, the work is of a batch read since, and no sweep was queued between |
| `OverflowTheorems.UnseenSinceStart` | crates/client/src/invalidate.rs:129-143 | and then the translator has not seen the new connection since that start |
| `OverflowTheorems.StartOvertakesExactly` | crates/client/src/conn.rs:361-368 | with nothing exposed before, a reader's start leads to a loss overtaken, in some run with no further start, exactly when at that start an overflow is owed for a loss that nothing else stands for: no sweep pending and no overflow queued |
| `OverflowTheorems.StartMayOvertake` | crates/client/src/conn.rs:827-875 | false in general: a run in which a batch is dropped, the connection is lost, and work of the next reader's first batch is queued with no sweep between |
| `OverflowTheorems.LossIsOwed` | crates/client/src/invalidate.rs:81-162 | a loss with no sweep after it is still owed one, by the translator's flag, the reader's flag or an overflow queued, unless a reader's start exposed it |
| `OverflowInvariant.StepKeeps` | crates/client/src/invalidate.rs:81-162 | every step of either stage, a reader's start among them, keeps every batch after a loss behind an overflow queued or owed, or a sweep pending |
| `Overflows.QueuesWhatFits` | crates/client/src/invalidate.rs:151-161 | as many items as fit are queued, in order; the rest is dropped and a sweep is owed exactly then |
| `Overflows.TranslatesAll` | crates/client/src/invalidate.rs:81-162 | translating a batch queues as much as fits of a sweep, if one was owed, and all the work derived, in order; work is noted as lost, and a sweep owed, exactly if some did not fit; an overflow is translated as a sweep |
| `Overflows.NothingVanishes` | crates/client/src/invalidate.rs:144-161 | so work of a batch that is not all queued is noted as lost with a sweep owed, and if no sweep is owed it is all queued |
| `Overflows.ReceivesExactly` | crates/client/src/conn.rs:853-874 | a batch read is queued, behind an overflow if one is owed, exactly if both fit, and otherwise noted as lost with an overflow owed |
| `Overflows.SeesExactly` | crates/client/src/invalidate.rs:129-150 | seeing a connection calls for a sweep exactly if it is neither the first nor the last one seen, and queues what is owed if it fits |
| `Overflows.SeenSweeps` | crates/client/src/invalidate.rs:129-143 | a connection other than the first and the last one seen queues a sweep, or one is owed |
| `Overflows.LossCounts` | crates/client/src/conn.rs:827-875 | a batch dropped, with no sweep since and not exposed, is not before the first that is owed an overflow |
| `Pipelines.Pipeline.constructor` | crates/client/src/conn.rs:827-828 | nothing is owed to begin with |
| `Pipelines.Pipeline.Receive` | crates/client/src/conn.rs:853-874 | the new state is the reader's step: the batch queued, behind an overflow if one was owed, or dropped and an overflow owed; what every step keeps is kept |
| `Pipelines.Pipeline.Restart` | crates/client/src/conn.rs:361-384 | the new state is a reader's start: the overflow owed is forgotten, the queues stay |
| `Pipelines.Pipeline.Translate` | crates/client/src/invalidate.rs:81-162 | the new state is the translator's step on the next event, which `Overflows.TranslatesAll` spells out; what every step keeps is kept |
| `Pipelines.Pipeline.See` | crates/client/src/invalidate.rs:129-143 | the new state is the translator's step on a new connection |
| `Pipelines.Pipeline.Deliver` | crates/client/src/invalidate.rs:144-150 | a sweep owed is queued first, and while it does not fit everything is dropped |
| `Pipelines.Pipeline.QueueAll` | crates/client/src/invalidate.rs:151-161 | the loop queues item by item up to the first that does not fit |
| `Pipelines.Pipeline.Take` | crates/client/src/invalidate.rs:165-170 | the notifier takes work in the order it was queued |
| `Taps.Tap.constructor` | crates/perf/src/hub.rs:356-379 | a tap begins empty |
| `Taps.Tap.Send` | crates/perf/src/hub.rs:272-283 | a record is queued exactly when it fits both bounds, and the byte count stays the sum of the queued sizes |
| `Taps.Tap.Tell` | crates/perf/src/hub.rs:254-263 | drops are told of exactly if a marker fits, and if it does not no record does |
| `Taps.Tap.Offer` | crates/perf/src/hub.rs:253-270 | the record is queued exactly if it fits both bounds behind the marker for earlier drops, if any, and the queue then ends with them; otherwise it is counted as a drop; what was received, queued and counted reads as everything offered |
| `Taps.Tap.Receive` | crates/perf/src/hub.rs:328-342 | the oldest record is received, and its bytes given back |
| `Taps.DrainedReconstructs` | crates/perf/src/hub.rs:253-342 | with the queue drained, what was received, each marker read as its gaps, and the pending drops are as long as what was offered and agree with it wherever there is no gap |
| `Taps.Size` | crates/perf/src/hub.rs:50-58 | no record is smaller than a drop marker |
| `Taps.HoldsLittle` | crates/perf/src/hub.rs:11-58 | what the records queued carry, with 64 bytes for each, is never more than 32 MiB, in no more than 1024 records |
| `Acls.MapAcl` | crates/proto/src/owners.rs:57-68 | in place, every named id and nothing else is replaced; anything that is not an ACL is left alone |
| `Acls.AclInBytes` | crates/proto/src/owners.rs:33-37 | an ACL is the bytes 2, 0, 0, 0 and then whole entries of eight |
| `Acls.OwnerInBytes` | crates/proto/src/owners.rs:39-49 | an entry that begins 2, 0 names the user, and one that begins 8, 0 the group, whose id is in its last four bytes, lowest first; any other names nobody |
| `Acls.MappedInBytes` | crates/proto/src/owners.rs:57-68 | tags and permissions stay; the id of a named user, or group, becomes what that user, or group, is changed to; other ids stay |
| `Acls.MappedOwner` | crates/proto/src/owners.rs:33-68 | replacing ids keeps the form, the tags and the entries that name nobody, and each named entry names what it was mapped to |
| `Acls.SentExactly` | crates/client/src/ids.rs:118-135 | an ACL is sent exactly when every id it names is the local user's |
| `Acls.RefusedInBytes` | crates/client/src/ids.rs:118-135 | an ACL is refused exactly if some entry names a user other than the local one or a group other than the local one |
| `Acls.SentInBytes` | crates/client/src/ids.rs:118-135 | one sent names the server's uid in place of each user and its gid in place of each group, and is otherwise the bytes given |
| `Acls.RoundTrip` | crates/client/src/ids.rs:89-164 | what was sent, mapped back in, is what was given, byte for byte |
| `Acls.ShownOwner` | crates/client/src/ids.rs:148-155 | an ACL shown names the local user where the server's was named and nobody where another was |
| `Acls.ShownInBytes` | crates/client/src/ids.rs:148-155 | one shown names the local uid, or gid, for the server's and 65534 for any other, and is otherwise the bytes given |
| `Files.PathsAreShort` | crates/proto/src/types.rs:91-123 | a path that fits PATH_MAX has at most half that many names |
| `Files.PathInBytes` | crates/proto/src/types.rs:91-123 | names are a path exactly if, joined by slashes, they take at most 4096 bytes |

## Left out

- The network, TLS, streams, tasks and wake-ups: their outcomes are actions that may happen at any time (not sent, lost,
  answered, given up on); an exchange's answer is read and applied in one action.
- Deadlines, backoff, liveness and clocks: any wait may end at any time, and freshness is an arbitrary choice.
- The loops of `attempt`, `run`, `reopen_handles` and `send_releases` are labelled actions of `Protocol` on values, not
  methods; the objects they step (`CallState`, `AttachedState`, `HandleTable`, `ReopenRound`, the server's session) are
  classes. The server's sessions table, and what a request does at the server beyond opening and releasing handles, is
  modelled on values only.
- `retry_safe` (`client.rs:798-830`): whether a call may be sent again is an arbitrary choice at its start, so the theorems
  hold whatever it answers. A release is always resendable.
- A client that restarts, and shutdown: one client's lifetime.
- The server's handle pool and its slots (`poolConsistent` in `spec/session.qnt`).
- A reopen's path and flags, a handle's opener, and the tables derived from them (`processes`, `has_writer`,
  `may_be_dirty`).
- InodeTable.NodeTable.Forget: lookup counts are unbounded here, 64-bit in the code.
- InodeTable.NodeTable.InsertLookup: with every number taken the code would probe for ever, so room is required.
- `entries` of the inode table: a bounded snapshot in no particular order.
- Quantiles.Rank: over reals; the rounding of a 64-bit float product is not modelled.
- WindowQuantiles.SortedKeeps: `sort_unstable` is a function here, not an algorithm in place.
- Quantiles.Histogram.Record: counts are unbounded here, 64-bit in the code.
- Pipelines.Pipeline.Translate: which work a batch gives rise to is arbitrary; only that an overflow gives a sweep is fixed.
- Pipelines.Pipeline.Restart: one reader at a time; a reader aborted in the middle of a batch has either queued it or not.
- Taps.Tap.Offer: offers are one at a time and no receive comes between a marker and its record.
- Owners in attributes and in `setattr` (`ids.rs:96-117`), which map one id at a time with the same two functions.
- Cap'n Proto encoding, control messages, performance reports, mounting, and the other FUSE handlers.
