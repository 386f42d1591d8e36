# Dispersed Ledger: verified protocols

This project models the three stacked protocols of Dispersed Ledger and the network queue of its emulator, and proves
what they promise.

* **Binary Agreement** (`pika/ba.go`): a chain of epochs in which servers vote, with the parity of the epoch as coin. A
  server that decides sends one Term, which others replay as its votes in all later epochs.
* **Verifiable Information Dispersal** (`pika/avid.go`): a server hands out erasure-coded chunks of a block; Echos and
  Readys establish that the block can be retrieved; servers then ask each other for chunks. State is dropped in stages.
* **Epochs and the ledger** (`pika/pika.go`): an epoch runs one dispersal and one agreement per server and settles on a
  common subset of at least N-F blocks. References to earlier dispersals confirm further blocks. A cache pages
  dispersals out to a database.
* **The queue of the emulator** (`emulator/netsim.go`): a ring buffer that grows, with what is sent in one time slot
  becoming readable in the next.

N and F are symbolic with N >= 3F+1. Correct servers take exactly the steps of the code. At most F servers are faulty and
may send any well-formed message under their own name. Messages arrive in any order, repeatedly or never.

## Structure

Each protocol comes in layers. The *functions* say what one step does to a value that stands for the state of a server.
The *classes* (`BAEpoch`, `BACoreState`, `BA`, `VIDServer`, `PikaEpochServer`, `LedgerServer`, `VIDCache`, `FIFO`) carry
the steps out in place, with the loops and counters of the original, and are proved to do what the functions say. The
*networks* put N servers together, and the theorems are about every state of every run. The outermost network runs all
epochs side by side with the ledgers of all servers: what a block refers to, and what a server prints, is what that
server itself has seen.

| files | content |
|---|---|
| `Common` | quorums, envelopes |
| `AgreementEpoch`, `Agreement` | one epoch, and the chain of epochs, as functions; class `BAEpoch` |
| `AgreementSafety`, `AgreementNetwork`, `AgreementRuns` | agreement and validity |
| `AgreementTermination`, `AgreementCore`, `AgreementOpposed`, `AgreementLimits` | exactly when the catch-up loop ends |
| `AgreementSpeech`, `AgreementProgress` | broadcasts are exactly what the flags announce; no epoch is a standstill |
| `AgreementNode` | classes `BACoreState` and `BA` |
| `StoreKeys` | the keys of the database |
| `Dispersal`, `DispersalInvariant`, `DispersalStep` | one VID as functions, and what its steps keep |
| `DispersalNetwork`, `DispersalRuns`, `DispersalSilence`, `DispersalRetrieval`, `DispersalLimits` | availability and exactly when it holds, totality, retrieval |
| `DispersalProgress`, `DispersalDelivery` | what a server owes to the others, and that whoever asks for the payload gets it |
| `DispersalNode` | class `VIDServer` over the key-value store |
| `PikaEpoch`, `PikaEpochSteps`, `PikaEpochNetwork`, `PikaEpochRuns`, `PikaEpochBlocks`, `PikaEpochProposal`, `PikaEpochNode` | one epoch: common subset, retrievable blocks |
| `PikaEpochDuties`, `PikaEpochProgress` | votes, releases and requests are made when they are due; accepted blocks arrive |
| `Ledger`, `LedgerOrder`, `LedgerNode` | confirmed levels, order of output; class `LedgerServer` |
| `PikaNetwork`, `PikaWorld`, `PikaRuns`, `PikaLedger`, `PikaDelivery`, `PikaExample` | all epochs and ledgers together: linking bound, prefix consistency and order, the ledger object on a run, when an epoch can be output, a run that prints |
| `Paging`, `PagingNode` | the cache of VIDs, and the encoding it relies on |
| `Fifo` | the queue of the emulator |

In the network of an epoch every instance of the two protocols is in a state of its own runs (`InstanceOk`), so the
theorems about single instances apply there; what is new is the reason for each vote. In the network of whole servers
every epoch is in order (`Sound`); what is new is what each block refers to (`ProposalOk`) and what has been printed
(`BookOk`). There the only assumption about the environment is `Granted`: a faulty server disperses a block with a
reference per server, and the chunks that faulty servers send are those of the dispersed block.

## Model

| member | source | states |
|---|---|---|
| `Common.CorrectMember` | pika/ba.go:99-116 | any F+1 servers include a correct one, which is what the F+1 thresholds rely on |
| `Common.CorrectInBoth` | pika/ba.go:234-249 | any two sets of N-F servers share a correct one |
| `AgreementEpoch.RecvKeeps` | pika/ba.go:91-251 | after every message an epoch has marked Viable as sent if F+1 sent it (and marks are broadcasts, see `AgreementSpeech.SignalSaid`), believes exactly what 2F+1 sent, has marked its Agreement as sent once it believes, and has terminated exactly if N-F Agreements are backed by belief |
| `AgreementEpoch.InitKeeps` | pika/ba.go:174-192 | sending out the estimate keeps that invariant |
| `AgreementEpoch.EstimateKeeps` | pika/ba.go:167-169 | so does setting the estimate |
| `AgreementEpoch.TerminatedHasCandidate` | pika/ba.go:461-476 | a terminated epoch has a candidate, so the "no candidate" panic cannot happen |
| `AgreementEpoch.BAEpoch.HandleViable` | pika/ba.go:91-141 | the counters, flags and broadcasts in place are those of the specification on sets of servers |
| `AgreementEpoch.BAEpoch.HandleAgreement` | pika/ba.go:145-152 | only the first Agreement of each server is recorded |
| `AgreementEpoch.BAEpoch.Scan` | pika/ba.go:216-233 | the scan counts exactly the Agreements whose value is believed, and collects their values as candidates |
| `AgreementEpoch.BAEpoch.Recv` | pika/ba.go:197-251 | the epoch object handles a message as the specification does, and keeps its counters equal to the numbers of recorded senders |
| `AgreementEpoch.BAEpoch.Init` | pika/ba.go:174-192 | sends the estimate unless terminated or sent before |
| `AgreementEpoch.BAEpoch.SetEstimation` | pika/ba.go:167-169 | changes the estimate and nothing else |
| `AgreementSafety.NoEquivocation` | pika/ba.go:498-613 | a correct server supports one value per epoch with its Agreements, even counting the Terms that are replayed for it |
| `AgreementSafety.SoleCandidateIsShared` | pika/ba.go:216-249 | if an epoch can end with one candidate somewhere, that is a candidate of every way to end it |
| `AgreementSafety.EpochsAreSettled` | pika/ba.go:450-613 | by induction on epochs: after a correct decision no correct server supports the other value in any later epoch |
| `AgreementSafety.TermsAgree` | pika/ba.go:498-582 | Terms of correct servers carry one value, whatever their epochs |
| `AgreementSafety.VoicedIsInput` | pika/ba.go:428-477 | whatever a correct server supports in any epoch was the input of a correct server |
| `AgreementSafety.TermIsInput` | pika/ba.go:538-558 | so was whatever it decides |
| `AgreementNetwork.OnViableStep` | pika/ba.go:91-141 | each Viable and Agreement a correct server sends on receipt of a Viable is justified by what was broadcast before |
| `AgreementNetwork.ReplayStep` | pika/ba.go:480-496 | replaying recorded Terms into a new epoch keeps every message of the server justified |
| `AgreementNetwork.ApplyTermStep` | pika/ba.go:518-532 | so does applying a new Term to the epochs already allocated |
| `AgreementNetwork.DecideStep` | pika/ba.go:542-550 | the Term sent on a decision is justified by a quorum of that epoch |
| `AgreementNetwork.CatchUpStep` | pika/ba.go:538-581 | the whole catch-up loop keeps every message justified |
| `AgreementNetwork.RecvStep` | pika/ba.go:500-582 | so does handling any deliverable message |
| `AgreementNetwork.InputStep` | pika/ba.go:421-446 | so does giving a correct server its input |
| `AgreementTermination.RecvEnds` | pika/ba.go:538-581 | handling a message ends within two fresh epochs and without a panic whenever at most F recorded Terms dissent from one value |
| `AgreementTermination.SplitNeverEnds` | pika/ba.go:461-463 | it runs forever if the recorded Terms alone end a fresh epoch with both candidates |
| `AgreementOpposed.SplitExactly` | pika/ba.go:197-251 | the recorded Terms alone end a fresh epoch with both candidates if and only if there are 2F+1 of them for either value and N-F in all |
| `AgreementOpposed.EndlessExactly` | pika/ba.go:538-581 | the loop is endless if and only if the recorded Terms are opposed in this sense and no allocated epoch on its way stops it; a loop that runs past two fresh epochs is endless |
| `AgreementOpposed.ReturnsExactly` | pika/ba.go:500-582 | handling a message ends if and only if it does not leave the BA trapped: with opposed Terms on record and no allocated epoch to stop the loop |
| `AgreementOpposed.UnopposedEnds` | pika/ba.go:538-581 | a message after which the Terms on record are not opposed is handled to the end |
| `AgreementLimits.DivergesExactly` | pika/ba.go:538-581 | some sequence of messages drives a new BA into the endless loop if and only if N >= 4F+2; the sequence is constructed |
| `AgreementCore.RecvKeepsCore` | pika/ba.go:498-582 | handling a message keeps every epoch well formed and the pointers of a running BA in order, and records at most the Term of its sender |
| `AgreementRuns.StepKeeps` | pika/ba.go:498-613 | every step of the network keeps the invariant that links states and broadcasts |
| `AgreementRuns.RunsAgree` | pika/ba.go:450-613 | agreement over whole runs: any two correct servers that decide, at any points of the run, output one value |
| `AgreementRuns.RunsAreValid` | pika/ba.go:428-477 | validity over whole runs: an output was the input of a correct server |
| `AgreementRuns.RunsDoNotGetStuck` | pika/ba.go:461-591 | no correct server of a run panics or stays in its loop |
| `AgreementRuns.RunsAreUnopposed` | pika/ba.go:518-532 | every message that can reach a correct server of a run leaves the Terms on record unopposed, so that `BA.Receive` returns |
| `AgreementRuns.DecisionIsKept` | pika/ba.go:504-507 | a decision is never revised |
| `AgreementSpeech.SignalSaid` | pika/ba.go:91-141 | on any signal an epoch broadcasts Viable(v) exactly if it newly marks this as sent, an Agreement exactly if it newly marks one as sent, and the Agreement is on a value it believes |
| `AgreementSpeech.SignalCounts` | pika/ba.go:91-152 | a signal handled before the epoch ends puts its sender on record |
| `AgreementSpeech.InitSaid` | pika/ba.go:174-192 | sending out the estimate broadcasts exactly what is newly marked, and the estimate is marked as sent afterwards unless the epoch has ended |
| `AgreementSpeech.RecvSays` | pika/ba.go:498-613 | a BA that goes on running after a message has broadcast in every epoch exactly what it has newly marked as sent, allocation, replay, new Terms and the catch-up loop included; every Term on record counts in every later epoch; the current epoch has not ended and its estimate is sent |
| `AgreementSpeech.InputSays` | pika/ba.go:421-446 | the same holds when a BA is given its input |
| `AgreementProgress.RunIsSpoken` | pika/ba.go:498-613 | in every state of every run a correct running server has broadcast Viable(v) of epoch e exactly if epoch e has it marked, and an Agreement of epoch e exactly if it has one marked; a decided server has sent its Term |
| `AgreementProgress.EstimateIsSent` | pika/ba.go:562-577 | in every state of every run the estimate of the current epoch of a correct running server is on the wire, once the epoch has been begun; a later epoch is begun as soon as it is reached |
| `AgreementProgress.NoStandstill` | pika/ba.go:91-251 | if hearing again what correct servers have said changes no correct server, then the correct servers are not all in one epoch that they have begun: amplification and belief carry every such epoch to its end |
| `AgreementNode.BACoreState.InsertTermMessage` | pika/ba.go:588-613 | a Term acts on a later epoch like a Viable and an Agreement of its sender |
| `AgreementNode.BACoreState.AllocateEpochs` | pika/ba.go:480-496 | constructs the missing epochs and replays the earlier Terms into each |
| `AgreementNode.BACoreState.HandleTerm` | pika/ba.go:518-532 | records the first Term of a server and applies it to all allocated later epochs |
| `AgreementNode.BACoreState.CheckOutput` | pika/ba.go:450-477 | decides exactly if the only candidate is the coin, and otherwise carries over the coin or the candidate |
| `AgreementNode.BACoreState.RunEpochs` | pika/ba.go:538-581 | whenever the loop, which allocates epochs while it runs, is not endless, it computes what the recursion of the specification does |
| `AgreementNode.BACoreState.PauseAt` | pika/ba.go:562-577 | stops at the first unterminated epoch and sends its estimate once |
| `AgreementNode.BA.GiveInput` | pika/ba.go:421-446 | input reaches epoch 0 only if the BA is running and no epoch has been initialised |
| `AgreementNode.BA.Receive` | pika/ba.go:500-582 | every call that returns handles the message as the specification does, each broadcast goes to all servers, and termination is reported exactly when the BA decides |
| `Common.FanDelivers` | pika/ba.go:66-82 | the copies that a BA makes of its broadcasts give every server all of them, each once and in order |
| `StoreKeys.WithPrefix` | pika/protocol.go:91-115 | the buffer holds the old prefix, the tag and the index in eight little-endian bytes |
| `StoreKeys.KeyLength` | pika/avid.go:989-997 | the length of a key tells the kind of slot, but for received chunks and Echos |
| `StoreKeys.KeysDisjoint` | pika/pika.go:197-204 | for 64-bit indices, slots of any epochs, proposers and kinds share a key only if they are the same slot |
| `DispersalInvariant.InitialOk` | pika/avid.go:944-970 | a new VID satisfies the invariant |
| `DispersalInvariant.RecvKeepsOk` | pika/avid.go:634-810 | after every message: dropped core implies dropped chunks implies a known payload; whatever can be sent, answered, decoded or dropped has been; the record of requests is gone exactly if they are answered at once |
| `DispersalInvariant.ReleaseKeepsOk` | pika/avid.go:836-858 | releasing keeps that invariant |
| `DispersalInvariant.RequestKeepsOk` | pika/avid.go:863-880 | so does requesting |
| `DispersalInvariant.DisperseKeepsOk` | pika/avid.go:912-941 | so does dispersing |
| `DispersalStep.SpeaksWhenRipe` | pika/avid.go:670-696 | Ready is first sent on N-F Echos or F+1 Readys, to everybody |
| `DispersalStep.ReadyIsBroadcast` | pika/avid.go:672-696 | whoever sends a Ready sends one to every server |
| `DispersalStep.DoHonest` | pika/avid.go:699-711 | an Echo carries the stored own Echo, a response the stored own chunk, and both are in the store when they are sent |
| `DispersalStep.ReactLeaves` | pika/avid.go:795-803 | the core is dropped only on 2F+1 Readys |
| `DispersalStep.AnsweredOnce` | pika/avid.go:713-727 | each recorded request is answered exactly once and nobody else is |
| `DispersalStep.DoAnswers` | pika/avid.go:603-619 | in every step a request stays on record or its answer goes out |
| `DispersalNetwork.StepKeeps` | pika/avid.go:634-810 | every step of the network keeps the invariant that links what a server has heard to what others did |
| `DispersalNetwork.RunKeepsInvariant` | pika/avid.go:634-941 | it holds in every state of every run |
| `DispersalRuns.DispersedIsAvailable` | pika/avid.go:892-897 | availability: for any set B of at most F servers with all faulty ones, if these and the initiator are at most F (as they are if B has the initiator), once a correct server sees the payload dispersed, N-2F servers outside B hold their own chunk |
| `DispersalLimits.AvailableExactly` | pika/avid.go:927-938 | availability outside B holds in every run if and only if B has the initiator, fewer than F servers are faulty, or N = 1 |
| `DispersalLimits.EarlyReady` | pika/avid.go:927-938 | with a correct initiator and F faulty servers some run lets a server see the payload dispersed while it alone holds a chunk, because the Ready of the initiator travels with its Disperse |
| `DispersalSilence.UnbegunIsSilent` | pika/avid.go:533-568 | as long as a correct initiator has not dispersed, no correct server stores a chunk, sends Ready, sees the payload dispersed or decodes anything, whatever faulty servers send |
| `DispersalRuns.DispersedEverywhere` | pika/avid.go:892-897 | totality: when all messages between correct servers have been handled and one sees the payload dispersed, all do, dropped cores included |
| `DispersalRuns.NoRequestIsLost` | pika/avid.go:603-619 | a handled request is on record or has been answered with the own chunk; the record is gone exactly if the chunk is stored and released |
| `DispersalProgress.DroppedInOrder` | pika/avid.go:781-803 | in every state: no core without having sent Ready to all, no chunks without a payload and without having sent Cancel to all; the own Echo has gone out to all whenever the own chunks are there |
| `DispersalProgress.RunIsOwed` | pika/avid.go:515-810 | in every state of every run, of correct servers: the own Echo and the Cancel are on the wire to all once the state calls for them; a handled Echo or response is on record while the record is there, and a handled Disperse has stored both chunks; whoever wants the payload has asked the sender of every Echo it has handled; responses are sent only after release and requests only once they are wanted |
| `DispersalProgress.DoMeans` | pika/avid.go:634-880 | in one step: no Echo, Ready or Cancel is sent twice, no response before release, and a request goes only to the sender of an Echo while the payload is wanted and missing |
| `DispersalProgress.FirstStands` | pika/avid.go:515-599 | the first chunk and the first Echo handled from a server stand, with their bytes, for as long as the record is there |
| `DispersalProgress.ResponsesSuffice` | pika/avid.go:756-780 | a server that has handled the responses of N-2F servers has the payload, in every state of every run |
| `DispersalDelivery.EveryoneIsDone` | pika/avid.go:883-897 | delivery: when all messages between correct servers have been handled, what a correct initiator has dispersed or one correct server sees dispersed is seen dispersed by all; all have terminated if N-2F correct servers hold their chunk, which is sure if the initiator is faulty or fewer than F servers are |
| `DispersalDelivery.AskersHavePayload` | pika/avid.go:863-880 | if these servers also release their chunks, every correct server that has asked for the payload has it then, dropped sub-states included |
| `DispersalRetrieval.GatherSuffices` | pika/avid.go:733-746 | N-2F stored chunks yield N-2F shards, so the "insufficient shards" panics cannot happen |
| `DispersalRetrieval.DecodesTo` | pika/avid.go:759-778 | whichever N-2F of the encoded chunks are stored, they decode to the object |
| `DispersalRetrieval.RetrievedIsDispersed` | pika/avid.go:729-780 | retrieval: if every chunk is the one encoded for its sender, whatever a server decodes at any time is what was dispersed |
| `DispersalRetrieval.ReplicationRestores` | emulator/workload.go:81-99 | the assumption on the erasure code can be met: chunks that hold the whole object satisfy it |
| `DispersalNode.KVStore.StorePointer` | pika/avid.go:49-66 | a chunk is stored by value, or copied from the key it came with |
| `DispersalNode.VIDServer.constructor` | pika/avid.go:944-970 | a new VID has all its slots at their keys, empty |
| `DispersalNode.VIDServer.HandleEcho` | pika/avid.go:515-529 | stores the first Echo of a server under its key, counts it, and touches no slot of another VID |
| `DispersalNode.VIDServer.HandleReady` | pika/avid.go:571-581 | marks and counts a server once |
| `DispersalNode.VIDServer.HandleDisperse` | pika/avid.go:533-568 | takes both own chunks from the first Disperse of the initiator and files them also as received |
| `DispersalNode.VIDServer.HandleChunkResponse` | pika/avid.go:585-599 | stores and counts the first chunk of a server |
| `DispersalNode.VIDServer.RespondRequest` | pika/avid.go:603-619 | answers with the key of the own chunk, or records the request, without running into a dropped record |
| `DispersalNode.VIDServer.Prompt` | pika/avid.go:642-654 | asks the sender of an Echo for its chunk if the payload is wanted and missing; the sub-state it looks at is there |
| `DispersalNode.VIDServer.TrySendReady` | pika/avid.go:670-696 | sends Ready exactly if the specification does, once |
| `DispersalNode.VIDServer.TrySendEcho` | pika/avid.go:698-710 | sends Echo once both own chunks are stored |
| `DispersalNode.VIDServer.FlushRequests` | pika/avid.go:713-727 | answers the marked servers in order and forgets the record |
| `DispersalNode.VIDServer.Collect` | pika/avid.go:732-746 | the loop fills the slice with the first N-2F stored chunks; it is always filled |
| `DispersalNode.VIDServer.TryDecodeAssoc` | pika/avid.go:729-754 | decodes the associated object from N-2F Echos, once |
| `DispersalNode.VIDServer.TryDecodePayload` | pika/avid.go:756-780 | decodes the payload from N-2F chunks, once |
| `DispersalNode.VIDServer.TryDropChunks` | pika/avid.go:781-793 | drops the chunks and cancels once the payload is known |
| `DispersalNode.VIDServer.TryDropCore` | pika/avid.go:795-803 | drops the core once the chunks are gone and the VID has terminated |
| `DispersalNode.VIDServer.Recv` | pika/avid.go:634-810 | the objects handle a message as the specification does; their messages are those of the specification once the keys are followed; slots of other VIDs are untouched |
| `DispersalNode.VIDServer.ReleaseChunk` | pika/avid.go:836-858 | answers the recorded requests on the first call |
| `DispersalNode.VIDServer.RequestPayload` | pika/avid.go:815-880 | asks everybody who has sent an Echo, on the first call |
| `DispersalNode.VIDServer.SetPayload` | pika/avid.go:973-978 | the initiator sets the payload |
| `DispersalNode.VIDServer.SetAssociatedData` | pika/avid.go:981-986 | the initiator sets the associated object |
| `DispersalNode.VIDServer.Init` | pika/avid.go:912-941 | the initiator sends each server its two chunks together with a Ready; others send nothing |
| `PikaEpochNode.PikaEpochServer.InputBA` | pika/pika.go:417-427 | a second vote in an agreement changes and sends nothing; the first marks this agreement and moves no other instance, and its messages belong to it |
| `PikaEpochNode.VoteStands` | pika/pika.go:417-427 | a vote is final: a later one in the same agreement, for whichever value, has no effect |
| `PikaEpochNode.VoteIsSaid` | pika/ba.go:421-446 | the first vote in an agreement that has not begun sends exactly Viable(vote) of epoch 0, unless that epoch has ended or has said so |
| `PikaEpochNode.PikaEpochServer.Release` | pika/pika.go:359-370 | a second release changes and sends nothing; the first marks this dispersal, lets it answer requests, and moves no other instance |
| `PikaEpochNode.ReleaseServes` | pika/pika.go:359-370 | the first release answers with the own chunk exactly those whose requests are on record |
| `PikaEpochNode.PikaEpochServer.Request` | pika/pika.go:372-383 | a second request changes and sends nothing; the first marks this dispersal as wanted and moves no other instance |
| `PikaEpochNode.RequestAsks` | pika/pika.go:372-383 | the first request asks exactly those whose Echo is there |
| `PikaEpochNode.PikaEpochServer.NumBATrue` | pika/pika.go:345-353 | counts the accepted blocks |
| `PikaEpochNode.PikaEpochServer.CheckTermination` | pika/pika.go:496-549 | the epoch is dispersed when all agreements have decided, and terminates when also all accepted blocks have been decoded, each reported once |
| `PikaEpochNode.PikaEpochServer.PayloadRetrieved` | pika/pika.go:253-286 | tells whether the block is there; the placeholder of the proposer is no block |
| `PikaEpochNode.PikaEpochServer.Recv` | pika/pika.go:449-550 | the epoch object handles a message as the specification does |
| `PikaEpochNode.PikaEpochServer.Init` | pika/pika.go:587-605 | disperses the own block, releases all chunks and votes for the own block |
| `PikaEpochNode.PikaEpochServer.StartRequesting` | pika/pika.go:80-91 | asks for all released blocks, and from then on for each that is released |
| `PikaEpochNetwork.InputBAKeeps` | pika/pika.go:462-490 | a vote for a block is cast only by its proposer or on a completed dispersal, one against it only after N-F blocks are accepted |
| `PikaEpochNetwork.OnVIDKeeps` | pika/pika.go:455-469 | handling a message of a dispersal moves each instance along its own runs and keeps every vote justified |
| `PikaEpochNetwork.OnBAKeeps` | pika/pika.go:470-491 | so does handling a message of an agreement |
| `PikaEpochRuns.RunKeepsOk` | pika/pika.go:449-605 | this holds in every state of every run of an epoch |
| `PikaEpochRuns.SameDecision` | pika/pika.go:470-491 | correct servers decide each agreement of the epoch alike |
| `PikaEpochRuns.CommonSubset` | pika/pika.go:470-506 | common subset: once all agreements have decided at a correct server, at least N-F blocks are accepted |
| `PikaEpochRuns.AcceptedIsRetrievable` | pika/pika.go:455-468 | if a correct server accepts the block of a faulty proposer, at least N-2F correct servers hold their chunk of it |
| `PikaEpochRuns.DispersedIsHeld` | pika/avid.go:892-897 | once a correct server has seen a dispersal of the epoch complete, N-2F correct servers hold their chunk, if the proposer is faulty or fewer than F servers are |
| `PikaEpochRuns.AgreementsRun` | pika/ba.go:538-591 | no agreement of a correct server panics or gets stuck in an epoch |
| `PikaEpochBlocks.RunKeepsFlags` | pika/pika.go:508-537 | a terminated epoch has decided all agreements and decoded all accepted blocks, so computing the confirmed levels does not panic |
| `PikaEpochProposal.ActDisperses` | pika/pika.go:587-605 | in an epoch a server disperses its own block when it proposes, with exactly the chunks of that block, and in no other step |
| `PikaEpochDuties.OnVIDOwes` | pika/pika.go:455-469 | a message after which dispersal i is complete turns a missing vote in agreement i into one for the block and leaves a cast one; the block is served, and asked for exactly if requesting has started |
| `PikaEpochDuties.OnBAOwes` | pika/pika.go:470-491 | a decision for a block makes the server serve it, and ask for it if requesting has started; with N-F accepted blocks every vote is cast |
| `PikaEpochDuties.InitOwes` | pika/pika.go:587-605 | proposing votes for the own block unless a vote is cast, releases all chunks and keeps all duties |
| `PikaEpochDuties.StartOwes` | pika/pika.go:80-91 | starting to request asks for every block that is dispersed or accepted |
| `PikaEpochProgress.VotesAreCast` | pika/pika.go:455-491 | in every state of every run a correct server has voted in agreement i if dispersal i is complete, and in all agreements once it has accepted N-F blocks; it serves what is dispersed or accepted, has asked for it if requesting has started, and serves nothing else before it has proposed |
| `PikaEpochProgress.VoteFollows` | pika/pika.go:462-464 | in a run, the message that completes dispersal i makes a correct server without a vote vote for block i |
| `PikaEpochProgress.VoteIsOut` | pika/pika.go:417-427 | in every state of every run, the vote in an agreement that is still in its first epoch is on the wire |
| `PikaEpochProgress.EndsWhenDone` | pika/pika.go:496-549 | after every handled message an epoch is dispersed exactly if all agreements are decided, and terminated exactly if moreover every accepted block is there |
| `PikaEpochProgress.AcceptedIsThere` | pika/pika.go:462-480 | delivery of an epoch: when all messages of the dispersals between correct servers have been handled, a correct server that has started requesting has every block it has accepted, and all correct servers have seen its dispersal complete, if the proposer is faulty, or fewer than F servers are, or N-2F correct servers hold their chunk |
| `Ledger.SortSorts` | pika/pika.go:407-409 | sorting yields the same numbers in ascending order |
| `Ledger.ConfirmUntilSplits` | pika/pika.go:407-409 | at least F+1 references reach the confirmed level and at least N-F do not exceed it |
| `Ledger.ConfirmsEnough` | pika/pika.go:387-414 | with N-F accepted blocks the confirmed level is at least the reference of some correct accepted block, hence at least their minimum |
| `LedgerOrder.TopLevelIsMax` | pika/pika.go:832-838 | the highest confirmed level is the maximum over the epochs, although levels need not increase |
| `LedgerOrder.LogIsExact` | pika/pika.go:846-883 | after k epochs exactly the blocks below the highest confirmed levels and the accepted blocks of these epochs are output, each once |
| `LedgerOrder.LogIsOrdered` | pika/pika.go:840-883 | of any two blocks of the output, one that an earlier epoch confirms comes first; of those that one epoch newly confirms, first those of a smaller server, and of one server first those of a smaller epoch, the block of the epoch itself last |
| `LedgerOrder.LogGrows` | pika/pika.go:1135-1150 | later outputs extend earlier ones |
| `LedgerNode.LedgerServer.ConfirmUntil` | pika/pika.go:387-414 | the loops compute the confirmed levels, once |
| `LedgerNode.LedgerServer.PayloadRetrieved` | pika/pika.go:253-265 | the remembered answer never differs from the truth |
| `LedgerNode.LedgerServer.FirstUnretrieved` | pika/pika.go:720-730 | all blocks below the result are there, and the one at it is not |
| `LedgerNode.LedgerServer.FirstUndispersed` | pika/pika.go:705-717 | all dispersals below the result have been seen complete, and the one at it has not |
| `LedgerNode.LedgerServer.References` | pika/pika.go:982-990 | a reference goes exactly to the first dispersal not seen complete, but not beyond the epoch of the block |
| `LedgerNode.LedgerServer.NextBlock` | pika/pika.go:969-1033 | the next block carries these references and is for the first epoch without an own block, which is constructed if need be |
| `LedgerNode.LedgerServer.BlocksReady` | pika/pika.go:811-819 | true exactly if every block below the confirmed levels is there |
| `LedgerNode.LedgerServer.PrintProbes` | pika/pika.go:828-887 | prints exactly what the order prescribes for the epoch (`LedgerOrder.LogIsExact` and `LogIsOrdered` determine it); every block it prints is there with its body |
| `LedgerNode.LedgerServer.OutputEpochs` | pika/pika.go:1135-1150 | outputs epochs in order until one has not terminated or lacks a block |
| `LedgerNode.LedgerServer.AllocateUntilEpoch` | pika/pika.go:962-966 | adds epochs without touching the existing ones |
| `LedgerNode.LogsCompare` | pika/pika.go:1135-1150 | of the lines after any two numbers of epochs one is a prefix of the other |
| `LedgerNode.LinesAreExact` | pika/pika.go:828-887 | the lines after k epochs are exactly the confirmed blocks, each once and with the body that was dispersed |
| `PikaNetwork.RunIsSound` | pika/pika.go:969-1033 | in every state of every run of all epochs and ledgers, each epoch is in order, each correct server has dispersed in an epoch exactly the block its book says, and refers with it to no level beyond the epoch and only to dispersals it has seen complete |
| `PikaNetwork.RunIsLater` | pika/pika.go:1036-1150 | no step of a run makes a correct server forget a decision, a completed dispersal, a decoded block or an own block |
| `PikaNetwork.ProposalIsFull` | pika/pika.go:982-990 | in a run, each reference of a new block goes exactly as far as it may: to the first dispersal its server has not seen complete, or to the end of the epochs constructed, or to the epoch of the block |
| `PikaWorld.CanPropose` | pika/pika.go:587-605 | the own payload in the epoch of the next own block is still the placeholder, so a correct server can always propose |
| `PikaWorld.DecodedIsProposed` | pika/pika.go:268-286 | whatever block a correct server has decoded is the one its proposer dispersed, and a correct proposer has proposed it |
| `PikaWorld.OwnConfirms` | pika/pika.go:387-414 | an epoch that has terminated at a correct server confirms there what it confirms everywhere, now and later |
| `PikaWorld.WorldIsLinked` | pika/pika.go:982-990 | no epoch confirms a level beyond itself |
| `PikaWorld.LinksAreDispersed` | pika/pika.go:387-414 | linking bound, in every state of every run: each level below what a terminated epoch confirms lies before it, has been seen dispersed by a correct server whose block the epoch accepted, and if its proposer is faulty (or fewer than F servers are) N-2F correct servers hold its chunks |
| `PikaWorld.LinksReachFar` | pika/pika.go:387-414 | in every state of every run, what a terminated epoch confirms is at least the reference of some correct server whose block it accepted |
| `PikaRuns.RunBookOk` | pika/pika.go:828-887 | what a correct server has output by any time, from what it has itself decided and decoded, is what the order prescribes on the world as it turns out later |
| `PikaRuns.PrefixConsistent` | pika/pika.go:828-887 | prefix consistency: of what two correct servers have printed at any two times of a run, one is a prefix of the other |
| `PikaRuns.PrintedExactly` | pika/pika.go:1135-1150 | what a correct server has printed at any time of a run is exactly the blocks below the highest levels confirmed by its output epochs and the blocks these accepted, each once and with the body that was dispersed |
| `PikaRuns.PrintedInOrder` | pika/pika.go:840-883 | the lines that a correct server has printed at any time of a run stand in this order |
| `PikaRuns.CanOutput` | pika/pika.go:811-819 | no decoded block has too few references, so an epoch that is ready can be output |
| `PikaDelivery.OutputIsDue` | pika/pika.go:811-819 | in a state of a run in which nothing is under way in the dispersals, a correct server whose next epoch has terminated can output it, if it has asked for the blocks that the epoch links to, each proposed by a faulty server, or held by N-2F correct ones, or fewer than F servers are faulty |
| `PikaExample.PrintingRun` | pika/pika.go:969-1150 | logs do get printed: for every block body there is a run of the cluster of one server in which this body is proposed, accepted and printed |
| `PikaLedger.MoveIsDeed` | pika/pika.go:1036-1150 | every step of a run is to each server rest, progress of one epoch, an own proposal or an output |
| `PikaLedger.LearnIsLegal` | pika/pika.go:1078-1084 | whatever an epoch of a correct server comes to in a run is a record the ledger object may learn: it agrees with the world and loses nothing |
| `PikaLedger.OutputMatches` | pika/pika.go:811-819 | the ledger object and the book of the server see alike whether the next epoch can be output |
| `PikaLedger.MakeBlock` | pika/pika.go:982-994 | the ledger object makes exactly the block that the server proposes in the run |
| `PikaLedger.Follow` | pika/pika.go:1036-1150 | a ledger object that is told the steps of a run, one after the other, meets the preconditions of all its methods and prints what the server prints |
| `Paging.RoundTrip` | pika/avid.go:214-424 | reading back a paged-out VID gives the same VID, but that a missing record of requests comes back empty |
| `Paging.PagedInStands` | pika/avid.go:314-424 | a VID that is paged in stands for the very state that the one paged out stood for, so all that `VIDServer` promises applies to it |
| `Paging.EmptyRecordIsHarmless` | pika/avid.go:713-727 | whether a missing record of requests is taken for an empty one makes no difference to Recv, ReleaseChunk and RequestPayload |
| `PagingNode.VIDCache.PageOut` | pika/pika.go:208-224 | the database holds the VID under its key, and no other key changes |
| `PagingNode.VIDCache.PageIn` | pika/pika.go:227-243 | brings back the current value of the VID |
| `PagingNode.VIDCache.ReadVID` | pika/pika.go:108-126 | gives access to the current value, to the same object as long as it is accessed |
| `PagingNode.VIDCache.WriteVID` | pika/pika.go:130-151 | so does access for writing, which marks the VID so that its changes are kept |
| `PagingNode.VIDCache.Change` | pika/pika.go:457-460 | a change under write access is a change of the one array element |
| `PagingNode.VIDCache.FreeVID` | pika/pika.go:155-178 | giving up an access changes no value; the "freeing on-disk" panic is unreachable |
| `PagingNode.VIDCache.StashVID` | pika/pika.go:181-194 | forcing a VID out changes no value; it takes effect at once or with the last access |
| `Fifo.EmptyRepresents` | emulator/netsim.go:36-44 | a new buffer with slots stands for an empty queue |
| `Fifo.GrowRepresents` | emulator/netsim.go:112-133 | growth in the middle of the ring, wrapped or full, loses, repeats and reorders nothing |
| `Fifo.SyncRepresents` | emulator/netsim.go:146-173 | Sync drops exactly the messages read and appends those sent in ticket order |
| `Fifo.RingRefinesQueue` | emulator/netsim.go:46-173 | over every sequence of operations the reader gets what the pair of sequences gives, and never the nil panic |
| `Fifo.RefinesExactlyWhenNonEmpty` | emulator/netsim.go:46-173 | this holds for all sequences of operations exactly if the buffer starts with at least one slot |
| `Fifo.OverflowMisreads` | emulator/netsim.go:129-131 | after six or more sends into a buffer without slots and a Sync, the first read gives the sixth message; after exactly six the second read is the "returning nil" panic |
| `Fifo.QueueIsFifo` | emulator/netsim.go:46-75 | what is read and what remains is what was sent and synchronised, in ticket order, each message once |
| `Fifo.FIFO.Recv` | emulator/netsim.go:46-75 | the buffer returns the next message of the slot, or reports that it is drained |
| `Fifo.FIFO.Send` | emulator/netsim.go:77-144 | draws a ticket and places the message, growing the buffer in place if the ticket has no slot |
| `Fifo.FIFO.InsertSlots` | emulator/netsim.go:124-125 | the new slots go right behind the sending region |
| `Fifo.FIFO.EndSlot` | emulator/netsim.go:146-173 | moves the two regions to the next time slot |

## Where code and comments differ

* `sendPayloadRequests` (`pika/avid.go:812-831`) is documented to ask the first N-F servers and to panic below N-F Echos;
  the code asks every server that has sent an Echo, and the model follows it.
* `RequestPayload` (`pika/avid.go:860-862`) is documented to wait for N-F Echos; the code asks each sender of an Echo as
  it comes in (`pika/avid.go:642-654`), and the model follows it.
* A queue constructed without slots reorders messages and panics (`Fifo.OverflowMisreads`); the emulator itself constructs its
  queues with slots.

## Left out

* Networking: the QUIC transport, peers, servers, databases, configuration, plots and logging.
* Reed-Solomon and gob: an erasure code is any pair of functions in which N-2F chunks restore the object, a stored chunk
  is the bytes that gob makes of it, and a paged VID is a stream of values. No Merkle root is checked by the code, so
  retrieval assumes that chunks are those encoded for their sender.
* Termination of the agreement: the coin is the parity of the epoch, and a terminated epoch stops amplifying, so servers
  in different epochs may wait for each other; `AgreementProgress.NoStandstill` is about servers in one epoch.
* Progress over time: that messages are handled at last is a matter of the network. What holds once they have been is
  stated of the states in which nothing is under way.
* Malformed messages and blocks: missing chunks, two kinds of chunk in one field, unknown message types, negative epoch
  numbers and short reference lists make the code panic or are assumed away; senders are authenticated, and the sender
  named in an epoch message of the agreement is that of the message around it.
* Concurrency inside a server: a message is handled atomically. The queue is modelled over its atomic steps (drawing a
  ticket, placing, reading, Sync), with the locks making placement atomic and Sync called when no Send is under way.
* A queue marked as crashed, which ignores every Send.
* Copies of a broadcast: the network of the agreement records a broadcast once and lets it be delivered to anyone, any
  number of times; the classes do produce the N copies.
* The in-memory mode of chunks and the mode without a database, which the code does not support for VIDs.
* The queue of transactions, Nagle timing, the proposal of empty blocks, the non-chained mode, pipelining and the
  parallelism cap, progress reports, the global cancellation and finish tables, priorities and message sizes.
* `numContinuousDispersed`: its loop has no break, so it is not the contiguous count its name says; nothing depends on it.
* `RequestRefBlocks`: which blocks are asked for, and when, matters only to liveness; requests may come at any time.
* VIDServer: slices of fixed length are fields that hold sequences, so aliasing between slices is not modelled.
* PikaEpochServer: holds the states of its agreements and dispersals as values; that the objects of these refine the
  values is proved for `BA`, `VIDServer` and `VIDCache` separately.
* LedgerServer: gets what its epochs know through `Learn`, where the code has the epochs in the same object;
  `PikaLedger.Follow` carries it along every run.
* Pika.Recv: in `PikaNetwork` handling a message, asking for blocks, proposing and outputting are steps of their own, which
  may come at any time; when the code takes them is left out. Cancel messages, which it drops before they reach a VID, may
  reach one in the model, which ignores them.
* AgreementNode.BA.Receive: leaves out exactly the calls that never return (`AgreementOpposed.ReturnsExactly`);
  `AgreementRuns.RunsAreUnopposed` shows that there is none at a correct server of a run.
* AgreementNode.BACoreState.RunEpochs: likewise leaves out exactly the endless loops (`AgreementOpposed.EndlessExactly`).
