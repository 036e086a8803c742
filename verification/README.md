# frp control plane, wire protocol and hole punching in Dafny

A model of the server side of frp (the xtcp-only fork) and proofs about it.

**The control-generation protocol** (`server/control.go`, `server/service.go`,
`server/registry/registry.go`, `server/proxy`). A client that logs in again with the same
run ID replaces its predecessor. Each login is a *control*; controls of one run ID are
*generations*. `Protocol` is a step machine: a state holds the manager's map of entries, every
control, the registry, the proxy names and every goroutine with its program counter. One step
is one lock-held section. Run gates (`runMu`), the manager lock and the life-cycle lock during a
`LoginResp` write stay held between steps, so every interleaving of any number of handlers,
workers, closers and work-connection carriers is a run. `CoreInvariant`, `ThreadInvariant`,
`CoreSteps`, `CommitSteps`, `SoloSteps`, `WorkerSteps` and `Runs` prove one inductive invariant;
`Handoff`, `Interrupts`, `Progress`, `Completion`, `Settling`, `Logins`, `Refusals`, `Shutdown`,
`Registration`, `WorkConns` and `Ownership` draw the results from it: safety, freedom from deadlock,
that every login can still be served, that a login, a work connection or a proxy name is refused
only for a stated cause, and what a closed manager leaves behind. A worker serves until reading from its connection fails, because the server cut
the connection or the client left; the progress results do not use the latter. `Registry`, `Names`
and `Lifecycle` are the three parts of the state with their own invariants. The same sections
are also written as classes that update fields in place (`ControlObject`, `ManagerObject`,
`NameObjects`, `Registry.ClientRegistry`), each proved to do what the machine's step does.

**The wire protocol** (`pkg/proto/wire`, `pkg/msg`). `UdpPacket` is the binary UDP codec,
`UdpBuffer` the same codec over arrays and moving offsets, `Wire` frames, messages and streams,
`WireConn` the connection object, `Negotiation` the capability handshake and its transcript.

**Hole punching** (`pkg/nathole`). `NatFeatures` classifies NATs, `Behaviors` holds the mode
tables, `Recommender` the scores, `Analyzer` and `AnalyzerObjects` the whole call history, and
`HoleResponse` the two answers of a session.

**Retry backoff** (`pkg/util/wait/backoff.go`) is `Backoff`.

Where code and comments disagree the model follows the code. Four such places have a proof of
what really holds: scores have no lower bound of -10 (`LowerBoundHoldsIff`), a public peer is not
always the receiver (`PublicClientReceivesIff`, `ClientReceivesNextIff`), one window of time can
hold two budgets of fast retries (`OneBudgetIff`, `TwoBudgetsInOneWindow`), and repeated
neighbouring addresses suppress the port range (`RangeIsSentIff`). A stream cut right behind a
frame header ends in a plain EOF, not an unexpected one (`ReadCutFrame`).

## Model

| member | source | states |
|---|---|---|
| Handoff.HandoffSafety | server/control.go:106-170 | over every run: when a control becomes activated, every other generation of its run that ever started a worker has drained its pool and owns no proxy name, through any chain of replaced pending generations |
| Handoff.OneUncleanedWorker | server/control.go:545-570 | in every state of every run, two controls of one run ID with uncleaned workers are the same control |
| Handoff.NoGhostClients | server/control.go:201-217 | whatever the registry shows online belongs to a run the manager holds, marked online under the same control ID |
| Handoff.RemovalTakesOffline | server/control.go:250-267 | removing the current generation, activated or not, takes its run offline and leaves every other run's registration unchanged |
| Handoff.StaleRemovalChangesNothing | server/control.go:250-267 | no step of a removal by a generation that is no longer current changes the shared state |
| Handoff.GateStabilityOverRun | server/control.go:77-104 | while a thread holds a validated run gate and does not move, no interleaving of other threads changes that run's slot in the map |
| Handoff.SlotChange | server/control.go:108-170 | a filled slot is changed only by the thread that holds the slot's gate |
| Handoff.GateIsInherited | server/control.go:50-55 | over every run: a run keeps one gate as long as it stays in the map, through any number of replacements |
| Handoff.OneHolderPerRun | server/control.go:50-104 | in every state of every run, two threads that hold the validated gate of one run ID are the same thread |
| Handoff.FreshGateRefusesWaiters | server/control.go:80-104 | the gate of a re-created run differs from the gate of every thread that is still waiting or about to look again, so none of them passes |
| Handoff.RecreationRefusesWaiter | server/control.go:80-104 | over every run: a thread that read a run's gate and waits while the run is removed, even if it is created again, fails at its second look |
| Handoff.LoginResponse | server/control.go:225-247 | a success LoginResp is written only for the current, activated, pending generation, at most once, and that control is then running with a worker |
| Handoff.LifecycleCounts | server/control.go:517-586 | in every state doneCh was closed once if the control is Closed and never otherwise; it was answered exactly if it has a worker; a finished worker had cleaned up |
| Handoff.LifecycleForward | server/control.go:483-570 | between any two states of a run a control's state, ID, barrier, counters and connection histories only move forward |
| Handoff.OnlyTheWorkerFinishes | server/control.go:662-704 | a control with a worker becomes Closed only by that worker's last section, after it left nothing behind and is no longer current |
| Progress.NoWaitCycle | server/control.go:77-79 | no reachable state has a cycle of threads waiting on gates, manager lock, life-cycle locks, barriers or an interrupt, and no chain is longer than the lock order |
| Progress.NoDeadlock | server/control.go:108-170 | from every unfinished thread a chain of at most five waiting threads leads to one that can move by itself; the only threads excepted are workers that listen for the client of a control nobody has replaced or closed |
| Progress.ManagerHolderNeverBlocked | server/control.go:174-219 | the thread that holds the manager lock is never blocked on a life-cycle lock |
| Progress.EveryBarrierHasWorker | server/control.go:501-508 | a barrier a handler still waits for belongs to an earlier control of the same run, with a smaller ID, whose worker is still at work |
| Interrupts.BarrierIsInterrupted | server/control.go:539-578 | over every run: a control that a successor waits for has been told to end, and its connection is cut or an unblocked handler is about to cut it |
| Interrupts.RunInterrupts | server/control.go:526-578 | in every state of every run each ending control is interrupted or about to be by its replacer, and each barrier belongs to an ending control |
| Logins.EveryLoginCanSucceed | server/service.go:439-515 | from every reachable state with an open manager the lock holders can let go, and then a new login without a client-ID conflict has a continuation, by moves of the server alone, to a state in which its control is current, running and answered, whatever its predecessor still has to do |
| Refusals.LoginRefusedForCause | server/control.go:108-247 | over every run: a handler leaves Add only if the manager is closed; Activate only if it is closed, the control was replaced or removed, or another run holds its client ID online; completeLogin only if closed, replaced or removed, or the write failed |
| Refusals.AddAdmitsOrRetries | server/control.go:108-163 | over every run: Add's section under an open manager leaves the control current and pending, or changes nothing and looks again |
| Refusals.RefusedLoginIsClosed | server/service.go:193-226 | a handler that ended without success leaves its control closed, not current, unanswered and without a worker |
| Refusals.ActivationRegisters | server/control.go:174-219 | over every run: a control becomes activated only without a client-ID conflict, and is then current and online under its own ID in the registry and in its entry |
| Refusals.WorkConnRefusedForCause | server/control.go:306-336 | over every run: a work connection is refused only if the manager is closed, the control is not current or not running, or the pool holds poolCount + 10 |
| Shutdown.CloseEmptiesManager | server/control.go:338-352 | over every run: once ControlManager.Close has returned, no run is held, nobody is online, and every control that was current at the call is no longer current, has been told to end and is cut |
| Settling.Settle | server/control.go:80-104 | from every reachable state a state without held locks can be reached, without a new control and with the proxy names unchanged |
| Completion.WorkerCanFinish | server/control.go:662-704 | the worker of a control that was replaced and whose connection is cut can finish by its own moves from wherever it is, draining any pool and closing any proxies, without touching other controls, entries or registrations |
| WorkConns.WorkConnConservation | server/control.go:306-336 | an accepted connection is exactly once in its control's pool, handed out or drained, and nowhere at another control; no pool exceeds poolCount + 10 |
| WorkConns.NothingLeftInPool | server/control.go:676-690 | after clean-up every accepted connection was handed out or closed |
| WorkConns.NoSendOnClosedPool | server/control.go:327-336 | a connection is sent only to the current running generation, whose channel is open, and lands at the end of its pool |
| WorkConns.ClientMetrics | server/control.go:662-704 | NewClient minus CloseClient calls is always the number of workers between the two |
| Ownership.OneOwnerPerName | server/control.go:779-836 | over every run, a name has at most one owner in the proxy manager and in the NAT-hole table |
| Ownership.OnlyOwnerRemoves | server/control.go:838-851 | along every run a name leaves or changes in either table only by a step of its own owner, never by another control's close, rollback or clean-up |
| Registration.RegisteredIff | server/control.go:779-836 | over every run and with any sections of other controls in between: a request that ended is registered in the proxy manager, the NAT-hole table and the control's own map exactly if none of its three looks found the name in use; otherwise the control holds what it held before |
| Registration.FreeNameIsRegistered | server/control.go:779-836 | a name in neither table that no other control touches meanwhile is registered in all three places |
| Registration.CloseReleases | server/control.go:838-851 | over every run: a CloseProxy of a held name ends with the proxy in none of the three places and the control's other proxies kept |
| Registration.CloseOfUnknown | server/control.go:838-851 | a CloseProxy of a name the control does not hold changes nothing |
| Ownership.RegistryIsExact | server/registry/registry.go:82-134 | in every reachable state runIndex is the exact inverse of the records' run IDs, online means having a run ID, and a record without a client ID is never kept offline |
| Registry.RegisterKeepsInv | server/registry/registry.go:74-134 | registration keeps the index exact even when keys collide or the run moves between keys |
| Registry.RegisterEffect | server/registry/registry.go:74-134 | it fails exactly if an explicit client ID is held online by another run; otherwise its run is online under its control ID, the evicted run is offline and no other run changes |
| Registry.MarkOfflineEffect | server/registry/registry.go:148-166 | the run goes offline exactly if its online generation is the named one; other runs keep their state |
| Registry.MarkOfflineKeepsInv | server/registry/registry.go:148-173 | marking offline keeps the index exact, with and without a control ID |
| Registry.RegisteredRecord | server/registry/registry.go:107-134 | the record of a login carries the login's own data, its run and generation, the time of connection and no disconnection, and keeps the first-connection time and user of a known client |
| Registry.OtherRecordsOfRegister | server/registry/registry.go:93-105 | the record a run moves away from is dropped without a client ID and goes offline now with one; every other record stays as it is |
| Registry.RecordsOfMarkOffline | server/registry/registry.go:148-173 | the record of the named generation is dropped without a client ID and otherwise kept, offline, with the time of disconnection; every other record stays as it is |
| Registry.ExplicitClientIsRemembered | server/registry/registry.go:74-173 | over every history of registrations and disconnections a client with an explicit ID keeps its record, user and first-connection time, unless a login without a client ID takes its key |
| Registry.KeysCollideIff | server/registry/registry.go:207-216 | for all users and non-empty IDs: exactly which clients share a registry key, namely the same client or the same text with its dots read differently |
| Registry.DotFreeUsersAreApart | server/registry/registry.go:207-216 | clients whose users are non-empty and without a dot share a key only if they are the same |
| Registry.ClientRegistry.RegisterWithControlID | server/registry/registry.go:74-134 | the in-place update computes the specified registry, reports the conflict and keeps the index exact |
| Registry.ClientRegistry.MarkOfflineByRunID | server/registry/registry.go:148-166 | the in-place update computes the specified registry; a stale control ID changes nothing |
| Names.MoveKeepsInv | server/control.go:779-851 | each lock section of RegisterProxy, CloseProxy and the worker's sweep keeps both tables equal to the shares of the controls |
| Names.RemovesOnlyItsOwn | server/control.go:656-660 | a section of one control removes only its own registrations and overwrites none |
| Names.SweptOwnsNothing | server/control.go:676-691 | after its sweep a control owns no name in either table |
| NameObjects.Tables.Advance | server/control.go:779-851 | the in-place section is the machine's step, about which RegisteredIff and CloseReleases speak, and keeps the ownership invariant |
| NameObjects.Tables.RegisterProxy | server/control.go:779-836 | all sections of one call without interference: it succeeds exactly if the name is in neither table, and then one new proxy is in both and in the control's map; otherwise nothing changes |
| NameObjects.Tables.CloseProxy | server/control.go:838-851 | taking a proxy out of the control's own map is the machine's step and keeps the ownership invariant |
| NameObjects.Manager.Add | server/proxy/proxy.go:231-239 | fails exactly if the name is in use, and then changes nothing |
| NameObjects.Controller.ListenClient | pkg/nathole/controller.go:125-139 | fails exactly if the name is already listened on, and then changes nothing |
| Lifecycle.CloseOk | server/control.go:526-586 | Close and markReplaced finish a control without a worker, only mark one with a worker, are idempotent and keep the life-cycle invariant |
| Lifecycle.DrainAllClosesPool | server/control.go:676-682 | the drain closes exactly what was in the pool, each connection once |
| ControlObject.Control.MarkReplaced | server/control.go:548-570 | the in-place update and the transitive barrier it returns are the machine's |
| ControlObject.Control.Replaced | server/control.go:539-543 | marks the replaced control again, which changes nothing more, and cuts its connection |
| ControlObject.Control.Close | server/control.go:526-537 | the in-place update is the machine's, and the connection is cut |
| ControlObject.Control.GetWorkConn | server/control.go:592-634 | a connection comes exactly if the pool has one or one arrives at an open pool of a running control; it is the head of the pool, or else the arriving one, and is the one counted as taken; the exact new pool |
| ControlObject.Control.CloseAndDrain | server/control.go:676-682 | the loop closes the pool's connections in order and ends in the specified state |
| ControlObject.GetWorkConnFromPool | server/proxy/proxy.go:124-175 | at most poolCount + 1 attempts: the connections met are closed, in order, until one can be started, which is returned; it gives up early only if an attempt met none; what it takes from the control is what it closes and returns |
| ControlObject.OutcomeIsUnique | server/proxy/proxy.go:124-175 | the control and the attempts determine what is returned, what is closed and after how many attempts |
| ControlObject.FirstStartedIsReturned | server/proxy/proxy.go:124-175 | if attempt k is the first that can be started and the pool reaches that far, pool[k] is returned and pool[..k] is closed |
| ManagerObject.ControlManager.CommitAdd | server/control.go:108-163 | Add's section under the manager lock is the machine's step, about which AddAdmitsOrRetries and LoginRefusedForCause speak: closed, retry, refused, first or replacing; pointer comparison is ID comparison |
| ManagerObject.ControlManager.FindRun | server/control.go:80-90 | the first read finds an entry exactly if the run is held and the manager usable |
| ManagerObject.ControlManager.RecheckRun | server/control.go:92-103 | the second read succeeds exactly if the run is held, the manager usable and the gate the locked one |
| ManagerObject.ControlManager.CommitActivate | server/control.go:174-219 | the section's outcome and new state are the machine's, including the registry conflict |
| ManagerObject.ControlManager.CommitRemove | server/control.go:250-267 | removes exactly an entry that is still the locked one and the control's own, and takes it offline |
| ManagerObject.ControlManager.CompleteLogin | server/control.go:225-247 | starts the control exactly if the entry is its own, it is pending and activated and the write succeeded |
| ManagerObject.ControlManager.RegisterWorkConn | server/control.go:306-336 | delivers exactly if the control owns the entry, is running and its pool has room |
| ManagerObject.ControlManager.StartClose | server/control.go:338-347 | collects exactly the current controls, which are the machine's closing targets, and refuses later operations |
| UdpPacket.RoundTrip | pkg/msg/udp_binary.go:44-91 | what the encoder accepts decodes to the same packet with IPv4 addresses in 4-byte form; the length is the precomputed one and the frame fits |
| UdpPacket.DecodeBody | pkg/msg/udp_binary.go:93-141 | the decoder reads back every well-formed body that fits a frame |
| UdpPacket.DecodeIsInjective | pkg/msg/udp_binary.go:93-141 | an accepted body is determined by the packet it decodes to |
| UdpPacket.DecoderIsPrefixFree | pkg/msg/udp_binary.go:93-141 | no accepted body is a proper prefix of another |
| UdpPacket.Reencode | pkg/msg/udp_binary.go:143-219 | re-encoding an accepted body is refused exactly for a zoned mapped address, gives the same bytes exactly if no address is mapped, and otherwise saves 12 bytes per mapped address |
| UdpPacket.EncodeAcceptsIff | pkg/msg/udp_binary.go:44-91 | a packet is encoded exactly if, with its addresses in normal form, it is what some body decodes to |
| UdpPacket.EncodeIgnoresForm | pkg/msg/udp_binary.go:143-164 | the encoder does not tell an IPv4 address from its mapped form |
| UdpBuffer.EncodeUDPPacketBinary | pkg/msg/udp_binary.go:44-91 | the in-place encoder fills exactly the specified bytes or returns the specified error |
| UdpBuffer.PutAddr | pkg/msg/udp_binary.go:170-181 | writes the address at the offset, keeps what is before it and returns the next offset |
| UdpBuffer.ReadAddr | pkg/msg/udp_binary.go:183-219 | reads the address at the offset with every error of the grammar and the right next offset |
| UdpBuffer.DecodeUDPPacketBinary | pkg/msg/udp_binary.go:93-141 | the offset-driven decoder is the specified one, and what it accepts prints back to the input |
| Wire.ReadWrittenFrame | pkg/proto/wire/wire.go:63-107 | a written frame is read back from the head of any stream, leaving the rest |
| Wire.ReadCutFrame | pkg/proto/wire/wire.go:63-88 | a frame cut short gives EOF before it or right behind its header, an unexpected EOF elsewhere |
| Wire.ReadFrameIff | pkg/proto/wire/wire.go:63-107 | a frame comes off a stream exactly if the stream begins with the bytes the writer writes for it |
| Wire.BadHeaderIsRefused | pkg/proto/wire/wire.go:63-88 | a header with flags or with a length above the limit is refused before its payload |
| Wire.TypeMapIsBijective | pkg/msg/wire_v2.go:49-81 | type IDs and message types determine each other; the binary UDP ID has no type of its own |
| Wire.BuildV2MsgTypeMaps | pkg/msg/wire_v2.go:72-81 | the loop builds both maps, in any iteration order |
| Wire.ReadIntoAgrees | pkg/msg/udp_binary.go:243-260 | reading into a zero-valued target, or into any UDP packet, succeeds exactly if reading freely gives a message of that type, and gives the same message; a target that holds something merges frames of its own type only |
| Wire.DecodeEncoded | pkg/msg/wire_v2.go:123-193 | decoding an encoded message gives the message back |
| Wire.DecodeAcceptsIff | pkg/msg/udp_binary.go:229-241 | exactly which message frames decode to which message; JSON UDP packets never do |
| Wire.WrittenIff | pkg/msg/udp_binary.go:262-284 | a message is written exactly if it is a UDP packet the encoder accepts or a registered message whose JSON fits a frame behind its type |
| Wire.UdpFrameAlwaysFits | pkg/msg/udp_binary.go:262-284 | a UDP packet is written exactly if the encoder accepts it; the frame limit never refuses it |
| Wire.ReadTruncated | pkg/msg/udp_binary.go:229-284 | on any cut of a written stream the reader returns exactly the wholly contained messages and then the stated error |
| Wire.StreamRoundTrip | pkg/msg/udp_binary.go:229-284 | any mix of messages, refused ones included, reads back as the accepted ones and then EOF |
| WireConn.Conn.WriteFrame | pkg/proto/wire/wire.go:90-107 | appends the frame's bytes, or refuses and leaves the stream unchanged |
| WireConn.Conn.ReadFrame | pkg/proto/wire/wire.go:63-88 | consumes the stream the way the specification reads a frame |
| WireConn.Conn.WriteMsg | pkg/msg/udp_binary.go:262-284 | a refused message leaves the stream unchanged; an accepted one is readable at its end |
| Negotiation.NegotiationAgrees | pkg/proto/wire/crypto.go:56-123 | the exact condition for accepting a hello; the answer passes the client's validation, names its first supported algorithm, carries the random and uses the binary UDP codec exactly if offered |
| Negotiation.ClientAcceptsIff | pkg/proto/wire/crypto.go:92-116 | the client accepts an answer exactly if a server would give it to some hello that offers no more than the client's own |
| Negotiation.AcceptedAnswers | pkg/proto/wire/crypto.go:92-116 | for a hello the server accepts, the client accepts the server's answer with any offered supported algorithm, any full random and the UDP codec kept or dropped, and no other |
| Negotiation.UnofferedIsRefused | pkg/proto/wire/crypto.go:92-116 | an algorithm or UDP codec the client did not offer, or a codec other than JSON, is refused |
| Negotiation.OwnHelloIsAccepted | pkg/proto/wire/wire.go:215-229 | the hello a client builds is always accepted with its preferred algorithm |
| Negotiation.SelectAEADAlgorithm | pkg/proto/wire/crypto.go:173-180 | the search loop finds the first supported algorithm, and fails exactly if none is |
| Negotiation.TranscriptIsInjective | pkg/proto/wire/crypto.go:148-164 | two handshakes feed the same bytes to the hash only if both payload pairs agree |
| Negotiation.TranscriptReadsBack | pkg/proto/wire/crypto.go:148-164 | the transcript parses back, by label and length, to the client's hello and then the server's, with nothing behind |
| Negotiation.HashCryptoTranscript | pkg/proto/wire/crypto.go:148-154 | the step-by-step writes feed exactly the transcript |
| NatFeatures.ClassifyNATFeature | pkg/nathole/classify.go:42-104 | for every list: the exact error cases, and otherwise type, behaviour, largest port distance, regularity and public flag as declared |
| NatFeatures.DescriptionIsUnique | pkg/nathole/classify.go:77-102 | the declaration determines the feature |
| NatFeatures.ClassificationIgnoresOrder | pkg/nathole/classify.go:42-104 | lists that begin with a host are classified by their set of endpoints alone |
| NatFeatures.ClassifyFeatureCount | pkg/nathole/classify.go:106-123 | easy and hard partition the list; the regular count is of hard ones |
| Behaviors.RowsAreWellFormed | pkg/nathole/analysis.go:39-121 | every row has one sender and one receiver; only senders delay or spray, only receivers limit TTL or listen on random ports |
| Behaviors.RolesAreAssigned | pkg/nathole/analysis.go:289-319 | the peers get the opposite parts of the row: a hard client sends in mode 1 and receives in mode 2, a regular one sends in mode 4, any other the reverse; modes 0 and 3 take the row as listed |
| Recommender.FirstPickIsExact | pkg/nathole/analysis.go:243-256 | no starvation, exactly: without reports a behaviour is first recommended after precisely the sum of the leads of the others |
| Recommender.RoundRobin | pkg/nathole/analysis.go:243-256 | equal scores are tried in list order and are equal again after one round |
| Recommender.RoundsForever | pkg/nathole/analysis.go:243-256 | from equal scores the n-th recommendation is entry n modulo the length |
| Recommender.SuccessIsRepeated | pkg/nathole/analysis.go:227-256 | after a success of the recommended behaviour the next recommendation is the same |
| Recommender.PickedFrame | pkg/nathole/analysis.go:243-256 | a recommendation keeps the list of behaviours and the cap of 10 |
| Recommender.ReportedFrame | pkg/nathole/analysis.go:227-241 | a report keeps the list of behaviours and the cap of 10 |
| Recommender.LowerBoundHoldsIff | pkg/nathole/analysis.go:258-263 | a lower bound survives n recommendations exactly if n is at most the points above it |
| Recommender.DocumentedBoundFails | pkg/nathole/analysis.go:258-263 | ten fresh behaviours pass -10 at the 101st recommendation and not before |
| Analyzer.FreshRecordPassesBound | pkg/nathole/analysis.go:181-219 | the record of two easy private NATs passes -10 at its 101st recommendation |
| Analyzer.NewScores | pkg/nathole/analysis.go:181-219 | the case split builds the specified list, whose order of trials the next three rows give |
| Analyzer.BothEasyTries | pkg/nathole/analysis.go:181-196 | mode and index of the n-th recommendation for two easy NATs: the rows in which a public peer receives, then all ten in turn |
| Analyzer.LoneHardTries | pkg/nathole/analysis.go:197-208 | the same for one hard NAT: a regular one tries mode 1, then 2, then 0; an irregular one 2, then 1, then 0; five mode-0 rows come first if a peer is public |
| Analyzer.BothHardTries | pkg/nathole/analysis.go:209-219 | the same for two hard NATs: modes 3 and 4, only 4, or 0, 1 and 3, by how many are regular |
| Analyzer.NthOverHistory | pkg/nathole/analysis.go:289-319 | over every history the n-th recommendation for a new key is the n-th of its first request's list, whatever other keys and later features do |
| Analyzer.CleanKeepsIff | pkg/nathole/analysis.go:331-348 | over every history a clean-up keeps a record exactly if the last call that used it is no older than the reserve duration |
| Analyzer.ScoreBalance | pkg/nathole/analysis.go:227-256 | without reaching the cap, a score is its start, less one per recommendation, plus two per reported success |
| Analyzer.FreshIsOk | pkg/nathole/analysis.go:181-219 | whatever the two NATs, a fresh record is non-empty and lists real, distinct behaviours |
| Analyzer.PublicClientReceivesIff | pkg/nathole/analysis.go:187-196 | with a public client and easy NATs the n-th recommendation makes it the receiver exactly if n < 5 or the rotating row does |
| Analyzer.PublicVisitorReceivesIff | pkg/nathole/analysis.go:187-196 | the same for a public visitor |
| Analyzer.PublicClientSendsSixth | pkg/nathole/analysis.go:187-196 | the sixth recommendation makes a public client the sender |
| Analyzer.ClientReceivesNextIff | pkg/nathole/analysis.go:227-256 | after any recommendations and success reports, the next one makes the client the receiver exactly if some row in which it receives beats every row in which it sends |
| Analyzer.EveryRecommendationIsUsable | pkg/nathole/analysis.go:289-348 | over every history of get, report and clean calls a recommendation is a real row, and the peers get its opposite parts, placed by its mode |
| Analyzer.WorkingBehaviorIsKept | pkg/nathole/analysis.go:289-329 | over every history, a reported success is recommended again to the same peers, whatever happens to others in between |
| AnalyzerObjects.MaxFunc | pkg/nathole/analysis.go:250-252 | finds the first maximal score |
| AnalyzerObjects.MakeHoleRecords.ReportSuccess | pkg/nathole/analysis.go:227-241 | the loop raises the first matching entry as specified, or none |
| AnalyzerObjects.Analyzer.GetRecommandBehaviors | pkg/nathole/analysis.go:289-319 | the in-place call returns and leaves what the history specification says |
| AnalyzerObjects.Analyzer.Clean | pkg/nathole/analysis.go:331-348 | deletes exactly the expired records and counts them |
| HoleResponse.RangeIsWindow | pkg/nathole/controller.go:379-402 | the range holds exactly the legal ports within difference + 5 and maxNumber of the last port |
| HoleResponse.RangeHoldsPort | pkg/nathole/controller.go:379-402 | a legal last port is in its range, which is in 1..65535 and has at most 2 * min(difference + 5, maxNumber) + 1 ports |
| HoleResponse.GuessedRange | pkg/nathole/controller.go:347-402 | from classification to answer: for a classified list without equal neighbours and with a legal last port, a behaviour that asks for a range gets one with these properties |
| HoleResponse.GuessedRangeCoversObserved | pkg/nathole/controller.go:379-402 | if only ports changed and the number is not below the difference, every legal observed port is in the range |
| HoleResponse.CompactedIsMeant | pkg/nathole/controller.go:358-359 | compaction keeps the set of addresses and removes exactly the repetitions of neighbours |
| HoleResponse.CompactedAppend | pkg/nathole/controller.go:358-359 | an address at the end is kept, as the last one, exactly if it differs from the one before it |
| HoleResponse.RangeIsSentIff | pkg/nathole/controller.go:347-377 | a range is sent exactly if asked for, the last address parses and no neighbours are equal |
| HoleResponse.RepeatedAddressGetsNoRange | pkg/nathole/controller.go:358-374 | a list of two equal addresses gets no range |
| HoleResponse.AnswersAgree | pkg/nathole/controller.go:300-345 | both answers have one mode, opposite parts and the same end time, 5 or 35 seconds after the sender starts; each peer is told its own part, the other's mapped and assisted addresses without repeated neighbours, and exactly the legal ports near the other's last port by the other's own port difference |
| HoleResponse.EveryAnswerAgrees | pkg/nathole/controller.go:300-345 | the same over every history of the analyzer |
| Backoff.FastBudgetIsExact | pkg/util/wait/backoff.go:91-101 | over every stretch of every run, fast retries equal the budget times the resets plus the change of the used part |
| Backoff.ErrCountIsStreak | pkg/util/wait/backoff.go:85-89 | over every run the error count is the number of failed calls since the last success or the first call |
| Backoff.PlainDelay | pkg/util/wait/backoff.go:77-81 | the first call and every call after a success give the plain duration |
| Backoff.FastDelay | pkg/util/wait/backoff.go:91-95 | a fast retry waits the fast delay plus the random share of its jitter, to the nanosecond |
| Backoff.FastRetriesAreBounded | pkg/util/wait/backoff.go:91-101 | for all options, calls within one window of time get at most twice the count of fast retries, and at most the count if none resets |
| Backoff.OneBudgetIff | pkg/util/wait/backoff.go:43-48 | the documented limit of one count per window of time holds exactly if no call in it resets or the used part has not grown |
| Backoff.NextCallBreaksIff | pkg/util/wait/backoff.go:91-101 | the next call breaks the limit exactly if it is fast, a reset happened since the window began and the used part is back where it was |
| Backoff.OpenedWindowIsBounded | pkg/util/wait/backoff.go:96-100 | from the call that opens a window until the window ends there are at most the count of fast retries |
| Backoff.TwoBudgetsInOneWindow | pkg/util/wait/backoff.go:91-101 | for every count and window, a burst of 2 * count + 1 failed calls after an expired window has exactly 2 * count fast ones |
| Backoff.TwoBudgetsHappen | pkg/util/wait/backoff.go:77-124 | such runs exist for every count and window |
| Backoff.DelayIsCapped | pkg/util/wait/backoff.go:118-121 | an exponential delay never exceeds a positive maximum |
| Backoff.DelayGrowsGeometrically | pkg/util/wait/backoff.go:103-121 | n exponential delays in a row grow by at least the n-th power of the factor's floor or meet the cap |
| Backoff.DelayGrowsFromStart | pkg/util/wait/backoff.go:103-121 | a failed call that is not fast waits the initial duration at the start of a streak and otherwise the previous delay, or a second, times the factor and with the jitter, unless that exceeds the maximum |
| Backoff.JitterIsBounded | pkg/util/wait/backoff.go:170-176 | jitter adds the random share of the factor, to the nanosecond below, and stays between the duration and (1 + factor) times the duration |
| Backoff.FastBackoff.Backoff | pkg/util/wait/backoff.go:77-124 | the in-place call returns and leaves what the specification says |

## Left out

- TLS, yamux, KCP, QUIC, STUN discovery and the sending of hole-punching packets: network I/O.
- JSON, SHA-256, HKDF and AEAD: JSON is a set of functions assumed to read back what they write, the hash is a function of the bytes fed to it.
- I/O errors of writes other than the LoginResp write; a partial write to a stream.
- Configuration, command line, logging, plugins and the client side managers: plumbing.
- Control.Start and admitVisitorByRunID: no caller in the modelled code.
- The locks of GetByID: that it finds a control current and running is one step.
- Heartbeats and user-connection timeouts: a timeout is a step that may happen at any time.
- The validation of pool counts in NewControl: a control has a non-negative pool count.
- Sections under the manager lock are single steps; the registry lock inside them is never contended.
- Concurrency inside the analyzer: a call is atomic, so a clean-up cannot fall between finding a record and using it.
- Repeated NatHoleClient messages for one session, and session time-outs.
- BackoffUntil's ticker; only the feeding back of delays is used.
- Backoff.JitterIsBounded: over real numbers, without floating-point rounding.
- NatFeatures.ClassificationIgnoresOrder: only for lists whose first address has a host, because a list that begins with empty hosts is compared from its first host on.
- HoleResponse.RangeHoldsPort: for a non-negative difference and a legal port; GuessedRange takes the difference from the classified addresses.
- The cutting of a connection and the section under the life-cycle lock before it are one step.
- Logins.EveryLoginCanSucceed: the continuation is one in which the write of the LoginResp succeeds.
- The dispatcher's send queue: a proxy handler is never blocked on sending its answer.
- ManagerObject.ControlManager.CommitAdd: stated for a replaced control that was admitted and is another object, which the invariant of the step machine guarantees.
- AnalyzerObjects, ManagerObject and ControlObject hold slices and channels as sequences, so aliasing of slices is not modelled except for the compaction in HoleResponse.
- HoleResponse.AnswersAgree: what it says of ports is for an address parser that refuses the empty string, as net.SplitHostPort does.
- Registry.ExplicitClientIsRemembered: for a client first seen at a non-zero time; a zero time is replaced at its next login.
- Backoff.ErrCountIsStreak: for a clock that never reads the zero time, which the code takes for the first call.
- Backoff.DelayGrowsFromStart: the same, and its jitter part is for a non-negative grown duration.
