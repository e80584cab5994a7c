# MinBFT in Dafny

MinBFT orders client requests on n replicas of which f may fail. Each replica has a trusted counter (USIG):
every protocol message carries a unique identifier (UI) from it, so a replica cannot tell different things to
different peers under one counter value. The primary of a view proposes requests in Prepare messages, backups
answer with Commit messages, and a request is executed once n-f replicas have committed to it. On a timeout
the replicas move to the next view: each sends a ViewChange message with its message log, f+1 of them form the
certificate of a NewView message, and every replica extracts from that certificate, recursively through the
views below, the requests that have to be executed first.

This project models that protocol as the code in `core/`, `messages/` and `client/` implements it and proves
what it is for. The main results are about every run of the whole system, with any number of replicas, views,
clients and messages.

| result | member |
|---|---|
| what any two replicas have delivered is prefix-comparable, across view changes | `Agreement.AgreementHolds` |
| what a commit quorum committed to is a prefix of what every later certificate yields | `Agreement.SurvivalHolds` |
| the same for certificates from any senders, given well-formed logs | `Survival.WellFormedSurvive` |
| every message a replica sends, with all it embeds, passes every replica's validation | `Agreement.ProducerMeetsValidator` |
| the recursive handlers of the source stay within these runs, and capture every embedded request first | `Inputs.HandleRun`, `Capturing.PreparingNeverPanics` |
| a replica stops exactly when a quorum completes for a proposal it has not prepared, or when it refuses its own Prepare for a request prepared already | `Panics.StopsIff` |
| a replica that never entered a view before expecting it, which takes a message more than f+1 views ahead, stops only by refusing such a Prepare | `Panics.NeverStops`, `Inputs.HandledNeverStops`, `Pacing.InTimeNeverStops` |
| such a Prepare comes from a request that is pending and prepared when the replica begins to lead a view; without one it never stops | `StalePending.ProposesPreparedIff`, `StalePending.FreshNeverStops` |
| both panics are reachable | `Overtaken.ReplicaStops`, `StaleRun.OwnMessageRefused` |
| a client's accepted result is the agreed one | `EndToEnd.AcceptedResult` |
| a proposal is executed exactly with commitments of n-f replicas | `Quorums.ExecutedByQuorum`, `Quorums.ExecutedIffQuorum` |
| exactly the malformed messages are refused, and without effect | `Refusals.RejectedIff`, `Refusals.MalformedRefused` |
| the authenticated bytes can be read back; equal bytes, equal content | `Authen.DecodeEncode`, `Authen.SameBytesIff` |
| one counter value, one log, one list of extracted requests | `Determinism.ExtractionDeterminism` |
| the compact commitment counter is distinct counting, in order, without gaps | `CommitmentRuns.RunsOk`, `CommitmentRuns.ExecutedInOrder` |
| the request life cycle, the collectors, log streams, the capture monitor and the client, over all interleavings | `LifeCycles`, `Collectors`, `MessageLogs`, `Captures`, `Client` |
| no stream, caller of the capture monitor or request of the client gets stuck | `MessageLogs.Drains`, `Captures.EveryoneServed`, `Client.ResultComes` |

## How it is organised

- `Messages`, `Extraction`, `Validation`, `Authen`: messages that nest to any depth, extraction of prepared
  requests, the validators, the authenticated encoding.
- `Commitments`, `Requests`, `Execution`, `Collectors`, `ViewStates`, `Captures`, `MessageLogs`: the stateful parts,
  each as a specification on values and as a class that works in place; `CommitmentRuns`, `RequestRuns`,
  `CollectorRuns`, `Folding`: what they come to over every sequence of calls.
- `Replica` and `Nodes`: one replica's critical sections as functions, and as an object assembled from the
  classes above whose methods are proved to carry them out. `System`: n replicas, runs.
- `Evidence`, `Growth`, `Invariants`, `Emission`, `Collecting`, `Processing`: the invariant and its proof.
- `Handling`, `Refusals`, `Capturing`, `Steadiness`, `OwnMessages`, `Embeddings`, `Inputs`: the recursive handlers,
  what they refuse, what they establish before a message is processed, and a replica's handling of its own messages.
- `Panics`, `StalePending`, `Pacing`: when a replica stops. `Overtaken`, `StaleRun`, `Progress`: particular runs.
- `Agreement`, `Quorums`, `LifeCycles`, `Asking`, `Determinism`, `Survival`, `Client`, `EndToEnd`: the other results.

A few points of reading. A replica's `trace` is everything its USIG has certified; the message at index k has
counter k+1. A Go panic stops the replica; one is the panic on an error in handling a message of the replica's own
(core/message-handling.go:381-389). A run is any sequence of actions; one that is not possible changes nothing, so
there is no assumption about which runs exist. A run is orderly if every message is processed only after what it
embeds, as the handlers see to, in whatever way the handling of different messages is interleaved; in a handled run
each message is handled to the end before the next. Go's iteration order over a map is a parameter that
may be any function. Counters and views are unbounded numbers, except in `validateMessageLog`, where 64-bit
wrap-around is explicit. The code demands n >= 2f+1; the results need only f < n. Where the code is looser than
one might expect, the model follows it: the current view may run ahead of the expected one and a replica may then
panic, a message log's entries are not checked for their view, un-preparing may replace a newer pending request, and
preparing a request leaves an older one of the client pending, which a new primary then proposes and refuses itself.

## Model

| member | source | states |
|---|---|---|
| `Agreement.AgreementHolds` | core/commit.go:106-159 | in every run, the request sequences delivered by any two replicas are prefix-comparable, over any number of view changes, stopped or not |
| `Agreement.IntegrityHolds` | core/request.go:222-240 | in every run no replica delivers a request twice or a client's requests out of order, and all it delivered belongs to a history a commit quorum certified |
| `Agreement.SurvivalHolds` | core/new-view.go:140-178 | in every run, requests committed by n-f replicas in view u are a prefix of what every genuine certificate of any later view yields |
| `Quorums.ExecutedByQuorum` | core/message-handling.go:139-146 | in every run, every delivered request was brought along by a proposal to which at least n-f distinct replicas have certified a commitment |
| `Quorums.ExecutedIffQuorum` | core/commit.go:195-219 | in every run, a live replica has executed a proposal of the expected view if and only if it has accepted commitments up to it from at least n-f distinct replicas |
| `Evidence.CommittedSurvive` | core/new-view.go:140-178 | the same for any evident traces, by induction through empty views and nested NewView messages |
| `Evidence.QuorumsIntersect` | core/message-handling.go:139-146 | any n-f replicas and any f+1 replicas have one in common |
| `Evidence.SelectedLog` | core/new-view.go:141-154 | the log selected from a certificate commits to an initial part of the view's proposals, at least as long as any member's |
| `Evidence.DescendCert` | core/new-view.go:156-160 | if no member committed to anything, the leading ViewChange messages form a genuine certificate one view below |
| `Evidence.CommittedComparable` | core/commit.go:106-159 | two committed histories, of whichever views, are prefix-comparable |
| `Survival.WellFormedSurvive` | core/new-view.go:140-178 | if n-f replicas have committed to the first proposals of view u, every certificate of a later view with f+1 distinct, authentic ViewChange messages, their logs well formed at every depth, evidences those requests first, whoever sent them |
| `Survival.LogReaches` | core/view-change.go:114-155 | the log selected from such a certificate of the next view reaches the last of these proposals: a voter's log cannot leave its vote out |
| `Survival.EvidentWellFormed` | messages/testing/testutils.go:99-143 | the logs of replicas that follow the code are well formed |
| `Survival.EvidentKeepsVote` | core/view-change.go:114-155 | and their ViewChange messages keep their votes |
| `Agreement.RunInv` | core/message-handling.go:643-765 | the invariant linking traces, logs, collected certificates, commitment counts and execution holds in every state of every run |
| `Agreement.OneNewViewHolds` | core/view-change.go:211-223 | in every run at most one NewView message is certified per view |
| `Agreement.LogAlwaysAccepted` | core/view-change.go:114-155 | in every run, at every point, each replica's certified log passes the log validation for its expected view and next counter |
| `Agreement.ProducerMeetsValidator` | core/message-handling.go:570-607 | in every run, every certified message is accepted by every replica's validation, recursively with all embedded messages |
| `Refusals.RejectedIff` | core/message-handling.go:569-607 | a message is rejected if and only if it has one of the errors that the validators name, and validation panics if and only if it is otherwise a Commit for something else than a proposal |
| `Refusals.MalformedRefused` | core/message-handling.go:465-484 | a message with such an error is refused and leaves the replica as it is |
| `Refusals.HandledSound` | core/message-handling.go:486-525 | a message handled without error has no such error in it at any depth, and no view-change request that would be refused |
| `Refusals.NewViewNeedsOwn` | core/new-view.go:100-102 | a NewView message whose certificate lacks a ViewChange of its sender is refused and changes nothing; a handled one has it |
| `Refusals.SenderHasLeft` | core/new-view.go:100-102 | whoever sends it, the sender of an authentic NewView message has had its USIG certify a ViewChange for that view |
| `Refusals.NoProposalPanics` | core/commit.go:81-86 | a Commit for something else than a proposal, otherwise in order, stops the replica |
| `Growth.EmitEvident` | core/message-handling.go:749-765 | certifying a permitted message keeps counters dense, logs complete, ViewChanges unique per view, and commitments in proposal order |
| `Emission.ProducedLogAccepted` | core/req-view-change.go:116-139 | the log put into a generated ViewChange passes the validator |
| `Emission.CommitmentTrace` | core/prepare.go:59-80 | a Prepare or Commit of the expected view keeps the replica's log consistent with its trace and is valid |
| `Emission.ViewChangeTrace` | core/req-view-change.go:116-139 | so does starting a view change: log reset and new ViewChange message |
| `Emission.NewViewTrace` | core/view-change.go:211-223 | so does generating a NewView message after resetting the log |
| `Collecting.NextDone` | core/commit.go:138-156 | a proposal that is done was executed before, directly follows the latest executed one of its view, or is the NewView of a newer view |
| `Collecting.CollectCore` | core/commit.go:106-159 | collecting a genuine commitment keeps counts exact and what is delivered equal to the committed history without repetitions |
| `Processing.TimeoutKeeps` | core/timeout.go:69-95 | requesting a view change keeps the invariant |
| `Processing.RequestKeeps` | core/request.go:160-201 | capturing and proposing a request keeps it |
| `Processing.ReqViewChangeKeeps` | core/req-view-change.go:70-139 | collecting view-change requests and starting the view change keeps it |
| `Processing.ViewChangeKeeps` | core/view-change.go:157-223 | collecting ViewChange messages and generating NewView keeps it |
| `Processing.PrepareKeeps` | core/prepare.go:59-80 | applying a Prepare keeps it, including the panics |
| `Processing.NewViewKeeps` | core/new-view.go:108-138 | applying and accepting a NewView keeps it, including re-proposing pending requests in any order |
| `Processing.CommitKeeps` | core/commit.go:94-102 | applying a Commit keeps it |
| `Processing.CertifiedKeeps` | core/message-handling.go:643-728 | processing any genuine certified message keeps it |
| `Handling.SelfContained` | core/message-handling.go:486-525 | once the messages embedded in a valid ViewChange are handled, the sender's last counter is at least the one before it, and it is not refused |
| `Handling.ProcessedInOrder` | core/message-handling.go:643-672 | in every run the counters processed for a sender are exactly 1, 2, ..., lastUI, in order |
| `Inputs.HandleRun` | core/message-handling.go:465-525 | validating, handling embedded messages recursively and processing a message takes the system through a run, an orderly one if it was orderly before |
| `LifeCycles.LifeCycleHolds` | core/request.go:244-307 | in every run lastRetired <= lastPrepared <= lastCaptured for each client, and the prepared list is exactly the prepared, unretired requests |
| `LifeCycles.NothingPreparedBetweenViews` | core/req-view-change.go:116-139 | in every run, from the start of a view change until the view is entered, nothing is prepared but unretired, for any client |
| `Capturing.EmbeddedCaptures` | core/message-handling.go:486-525 | once the messages embedded in a message are handled, every request in it, at any depth, has been captured |
| `Capturing.ExtractCovered` | core/new-view.go:140-178 | extraction yields only requests embedded in the certificate |
| `Capturing.PreparingNeverPanics` | core/request.go:262-278 | so neither a handled Prepare nor the re-preparation in a handled NewView panics for an uncaptured request |
| `Steadiness.PanicsIff` | core/request.go:282-297 | in every run, processing a message whose embedded messages have been processed panics if and only if it is a Commit that completes the quorum for a proposal of the expected view whose requests are not all prepared |
| `Panics.ProcessingPanicsIff` | core/request.go:262-297 | in every run, whatever has been handled before, processing a message panics if and only if it asks to prepare a request that was not captured, or is such a Commit |
| `Panics.StopsIff` | core/message-handling.go:381-389 | in every run, an action of a live replica that the handlers allow stops it if and only if it processes such a Commit or a message of the replica's own, next in order, that is a Prepare of the expected view for a request at or below the client's last prepared one |
| `Panics.NeverStops` | core/message-handling.go:381-389 | in every orderly run, with the handling of messages interleaved in any way, a replica that has never entered a view before expecting it has stopped if and only if it has refused such a Prepare of its own: no panic in preparing, retiring or extracting is reached |
| `Inputs.HandledNeverStops` | core/message-handling.go:381-389 | the same for every handled run |
| `Inputs.OwnHandledIff` | core/message-handling.go:449-463 | in every handled run, when a live replica takes a message from its log, what it embeds is handled without error, and the message is refused if and only if it is such a Prepare; a replica that is not ahead then stops in no other case |
| `OwnMessages.OwnRefusedIff` | core/prepare.go:59-72 | the same for every run, ahead or not, once what the message embeds has been processed |
| `OwnMessages.OwnRun` | core/commit.go:161-191 | in every run, what a live replica's acceptor holds of the replica's own commitments in the expected view is the last one it has processed, so the next is always acceptable |
| `Embeddings.ClosedRun` | core/message-handling.go:486-525 | in every orderly run, everything embedded in a processed message, and in a replica's own Commit and NewView messages, has been processed |
| `Embeddings.OwnEmbeddedSucceeds` | core/message-handling.go:449-463 | in every orderly run, a live replica handles what the next of its own messages embeds without error |
| `Inputs.OwnViewChange` | core/internal/messagelog/messagelog.go:97-116 | so it does for its own ViewChange message, even if a log reset kept messages in its log from being handled before |
| `Embeddings.LedNextRun` | core/view-change.go:211-223 | in every run, a NewView message directly follows its sender's own ViewChange for that view, which is in its certificate, and all the sender's messages before it have been processed by the sender |
| `Embeddings.CertificatesValid` | core/message-handling.go:569-572 | in every orderly run, each view-change request in a certified ViewChange message has a view from 1 on and the identifier of a replica |
| `Inputs.HandledCertificates` | core/message-handling.go:569-572 | the same for every handled run |
| `Inputs.InputsOrderly` | core/message-handling.go:465-525 | every handled run is an orderly run in which each replica refuses the same of its own messages |
| `StalePending.ProposesPreparedIff` | core/request.go:203-209 | a primary that applies its NewView message proposes a request at or below the client's last prepared one if and only if such a request is pending, for every enumeration of the list |
| `StalePending.FreshNeverRefuses` | core/request.go:203-209 | in every orderly run, a replica that applies no NewView message of its own while such a request is pending never refuses a message of its own |
| `StalePending.FreshNeverStops` | core/request.go:203-209 | so it never stops unless it enters a view before expecting it |
| `StaleRun.OwnMessageRefused` | core/prepare.go:63-65 | for any two requests of a client there is a handled run of three replicas in which one that was never ahead leads view 3, proposes the older request after executing the newer, refuses its own Prepare and panics |
| `Steadiness.CountedPrepared` | core/message-handling.go:643-672 | such a replica has prepared the requests of every proposal of its expected view that it has processed |
| `Steadiness.ReplayDelivers` | core/new-view.go:108-138 | in every orderly run, any number of steps after a NewView message was applied, the commitment that completes its quorum makes such a replica deliver exactly what is missing of the extracted list |
| `Inputs.HandledReplay` | core/new-view.go:108-138 | the same for a commitment that is handled with all it embeds, in every handled run |
| `Steadiness.EntersAheadIff` | core/message-handling.go:704-720 | processing a NewView message leaves the current view ahead of the expected one if and only if the expected view is lower at that point |
| `Steadiness.OldNewViewIgnored` | core/message-handling.go:704-713 | a NewView message for the current view or an older one is only noted as processed |
| `Steadiness.AheadIff` | core/internal/viewstate/view-state.go:87-99 | over every run, the history field says exactly whether the current view has ever been ahead |
| `Pacing.CertificateRaises` | core/req-view-change.go:86-139 | handling a view-change certificate for the next view gets that view expected, whatever requests were collected before |
| `Pacing.HandlePace` | core/message-handling.go:486-525 | handling a ViewChange for a later view raises the expected view, handling a NewView raises it to that view or by more than f, and nothing is entered early within f+1 views |
| `Pacing.InTimeNeverStops` | core/message-handling.go:486-525 | in every handled run, a replica whose messages from others reach at most f+1 views above the view it expects when it receives them is never ahead, and has stopped if and only if it has refused a Prepare of its own as above |
| `Overtaken.ReplicaStops` | core/request.go:282-297 | a handled run of five replicas in which an idle one enters view 4 expecting view 3 and later panics retiring a request it has not prepared |
| `Overtaken.DeliversInView4` | core/new-view.go:108-138 | the run model is not empty beyond view 0: in that setting another replica delivers the request after four view changes and a NewView |
| `Progress.PendingProposed` | core/request.go:203-209 | in every run, the primary that applies its NewView has proposed the pending request of every client exactly once in that view, for every enumeration of the list |
| `Asking.CaptureProposes` | core/request.go:160-201 | in every run, a newly captured request becomes the client's pending one, and is proposed, once and at once, if and only if the replica is in the view it expects and leads it |
| `Asking.TimeoutAsks` | core/timeout.go:69-95 | in every run, a timeout adds to the log exactly the replica's own request for that view, if it has neither asked for it or a later one nor expects one, and nothing otherwise |
| `Asking.AsksInOrder` | core/timeout.go:69-95 | in every run, a replica asks in its own name, for each view at most once and in the order of views |
| `Progress.NormalCaseDelivers` | core/prepare.go:59-80 | the run model is not empty: with three replicas a request received by two is delivered |
| `Extraction.ExtractPreparedRequests` | core/new-view.go:140-178 | the recursion over freshly built certificates terminates on every message tree and computes the extraction specification, with the panic as outcome |
| `Extraction.SelectLog` | core/new-view.go:141-154 | the first loop yields the leading ViewChange messages in order and the first longest log |
| `Extraction.CollectPrepared` | core/new-view.go:162-177 | the second loop folds the log, a NewView replacing what came before |
| `Extraction.MaxLogDominates` | core/new-view.go:141-154 | the selected log is some member's stripped log, and none is longer |
| `Extraction.MaxLogFirst` | core/new-view.go:141-154 | and no member before it has one as long |
| `Extraction.LeadingPointwise` | core/new-view.go:141-154 | if all logs start with a ViewChange, these are collected position by position |
| `Extraction.FoldUnwraps` | core/new-view.go:162-177 | a log of commitments and the log of their proposals stand for the same requests |
| `Folding.FoldIs` | core/new-view.go:162-177 | a log stands for what the certificate of its last NewView message evidences, followed by the requests of the Prepare messages after it |
| `Folding.FoldIsAll` | core/new-view.go:162-177 | a log without a NewView message stands for its requests in order |
| `Determinism.ExtractNeverPanics` | core/new-view.go:167-174 | the panic is unreachable on recursively valid certificates |
| `Determinism.LogDeterminism` | core/view-change.go:114-155 | valid ViewChanges of one replica and counter have logs of equal length that agree entry by entry on authenticated content |
| `Determinism.LogComplete` | core/view-change.go:114-155 | no sender can leave out of a valid log a message its USIG certified between the first entry and the ViewChange |
| `Determinism.StrippedComplete` | core/view-change.go:114-155 | so the stripped log of any sender lists every commitment it certified since the anchor, in counter order |
| `Determinism.SelectedCovers` | core/new-view.go:141-154 | and a certificate selects a log at least as long as any member's certified commitments require |
| `Determinism.ExtractionDeterminism` | core/new-view.go:140-178 | valid NewViews of one replica and counter yield the same client, identifier and operation hash sequence, though logs are not covered by the authenticated bytes |
| `Authen.DecodeEncode` | messages/authen.go:27-96 | a decoder written from the format, with tags in full and each field at its offset, most significant byte first, reads the bytes of every content back, for proposals nested to any depth and certificates of any length |
| `Authen.EncodeDecode` | messages/authen.go:27-96 | and reads nothing but such bytes |
| `Authen.BigEndianByte` | messages/authen.go:59-92 | byte i of a number written w bytes wide is its digit of weight 256 to the power w-1-i |
| `Authen.SameBytesIff` | messages/authen.go:27-96 | two messages have the same authenticated bytes if and only if they are of the same kind and agree in the fields to be authenticated |
| `Authen.EncodeInjective` | messages/authen.go:27-96 | equal authenticated bytes imply the same kind and the same authenticated fields |
| `Authen.AuthenBytes` | messages/authen.go:27-54 | the method writes the encoding, which the decoder reads back as the content of the message |
| `Authen.WriteAuthenBytes` | messages/authen.go:56-96 | appends the content of any message kind to the buffer |
| `Authen.WriteCert` | messages/authen.go:87-92 | the loop over a NewView certificate appends replica and counter of each member |
| `Validation.ValidateMessageLog` | core/view-change.go:114-155 | the backward loop with 64-bit wrapping counter accepts exactly the logs of the specification |
| `Validation.NoWrapAround` | core/view-change.go:114-155 | for counters from 1 on, wrap-around never matters: the loop accepts exactly the logs with consecutive counters ending before nextCV and anchored in the view |
| `Validation.WrapAround` | core/view-change.go:114-155 | without verified counters it does matter: a log ending with the greatest counter is accepted before counter zero |
| `Validation.ValidateViewChangeCert` | core/view-change.go:91-112 | accepts exactly certificates of at least f+1 requests of distinct replicas for the view |
| `Validation.ValidateNewViewCert` | core/new-view.go:81-106 | accepts exactly certificates of at least f+1 ViewChanges of distinct replicas for the view, the new primary among them |
| `Commitments.CommitmentAcceptor.AcceptCommitment` | core/commit.go:161-191 | accepts exactly a NewView of a higher view or the next proposal under the replica's next counter, and updates the three maps accordingly |
| `Commitments.CommitmentCounter.CountCommitment` | core/commit.go:195-219 | the in-place array follows the counting specification; done exactly if no slot is below the counter |
| `Commitments.CollectSound` | core/commit.go:195-219 | done implies commitCertSize distinct replicas committed up to the proposal, whatever NewView counters are |
| `Commitments.CollectExact` | core/commit.go:195-219 | done if and only if commitCertSize distinct replicas committed up to the proposal, when a view's NewView commitments share one counter |
| `Commitments.DoneInOrder` | core/commit.go:138-156 | a proposal done for the first time is the view's first or follows one already done |
| `CommitmentRuns.DoneMeansQuorum` | core/commit.go:195-219 | the soundness over every run |
| `CommitmentRuns.RunsOk` | core/commit.go:161-219 | over every interleaving of commitments, the executed proposals of the latest view are exactly those with a quorum of distinct replicas |
| `CommitmentRuns.ExecutedInOrder` | core/commit.go:106-159 | over every interleaving, a view's proposals are executed at consecutive counters from its first, once each, views never going back |
| `CommitmentRuns.AcceptedIffFollows` | core/commit.go:161-191 | over every interleaving, a commitment is accepted if and only if it starts a newer view of its replica or follows the replica's last accepted one in both counters; any other, as one with a gap in the replica's own counter, changes nothing |
| `CommitmentRuns.ConsecutiveCounters` | core/commit.go:178-183 | over every interleaving, a replica's accepted commitments in a view have consecutive primary and replica counters, from those of its NewView commitment on, or from 1 in view 0 |
| `CommitmentRuns.UnevenNewViewsUndercount` | core/commit.go:195-219 | without one NewView counter per view the equivalence fails: four replicas committed and the counter does not report it |
| `Requests.RequestBook.CaptureRequest` | core/request.go:244-258 | captures exactly identifiers above the last captured one and lists the request as pending |
| `Requests.RequestBook.PrepareRequest` | core/request.go:262-278 | new, repeated or panic, with the move from the pending to the prepared list |
| `Requests.RequestBook.RetireRequest` | core/request.go:282-297 | new, repeated or panic, with removal from the prepared list |
| `Requests.RequestBook.UnprepareRequests` | core/request.go:299-307 | the loop, in any order of the list, amounts to moving all prepared requests back |
| `Requests.RequestList.All` | core/internal/requestlist/request-list.go:77-87 | lists every held request exactly once |
| `Requests.CaptureKeeps` | core/internal/clientstate/request-seq.go:47-82 | capturing keeps the life-cycle invariant |
| `Requests.PrepareKeeps` | core/internal/clientstate/request-seq.go:84-97 | preparing keeps it |
| `Requests.RetireKeeps` | core/internal/clientstate/request-seq.go:99-112 | retiring keeps it |
| `Requests.UnprepareKeeps` | core/internal/clientstate/request-seq.go:114-119 | un-preparing keeps it, empties the prepared list and makes lastPrepared = lastRetired for every client |
| `Requests.PendingStaysIff` | core/request.go:299-307 | a newer pending request survives un-preparing if and only if the client has nothing prepared but unretired |
| `Requests.PendingLost` | core/internal/requestlist/request-list.go:55-60 | the loss is reachable |
| `RequestRuns.PendingIsLatest` | core/request.go:244-278 | over every sequence without un-preparing, a client has a pending request if and only if its latest captured one is not prepared, and it is that one |
| `RequestRuns.UnpreparePending` | core/request.go:299-307 | un-preparing keeps it so if and only if the client has nothing prepared and unretired, or has its latest captured request prepared |
| `RequestRuns.CapturedIsLatest` | core/internal/clientstate/request-seq.go:47-82 | over every sequence, the last captured identifier is that of the latest request captured |
| `RequestRuns.PendingChanges` | core/internal/requestlist/request-list.go:55-75 | the three ways in which a client's pending entry changes, and none else |
| `RequestRuns.PreparedChanges` | core/internal/requestlist/request-list.go:55-75 | the ways in which a client's prepared entry changes, and none else |
| `Execution.ReplayAll` | core/new-view.go:132-138 | executing a history on top of any comparable one delivers what is missing of it, or stops on the way |
| `Execution.NewViewReplay` | core/new-view.go:132-138 | at any time at which the extracted list is prepared, a replica that has delivered a prefix of it delivers exactly the missing suffix, without panic |
| `Execution.DedupPrefix` | core/request.go:222-240 | what is executed of a history extends what is executed of its prefixes |
| `Execution.DedupIncreasing` | core/request.go:222-240 | no request is executed twice and each client's in order |
| `Collectors.ReqViewChangeCollector.Collect` | core/req-view-change.go:86-114 | the collector's in-place state follows its specification, certificate included |
| `Collectors.RvcRunValid` | core/req-view-change.go:86-114 | over all inputs, certificates are for views 1, 2, 3, ... and pass the certificate validator |
| `CollectorRuns.RvcCounts` | core/req-view-change.go:86-114 | over all inputs, the collector is at the view, and holds requests of the replicas, that counting distinct requesters for the next view gives, and has emitted one certificate per view |
| `Collectors.ViewChangeCollector.Collect` | core/view-change.go:173-209 | the collector's in-place state, its own ViewChange first, follows its specification |
| `Collectors.VcRunValid` | core/view-change.go:173-209 | over all inputs with one ViewChange per replica and view, certificates are for strictly increasing views led by the replica, and pass the certificate validator |
| `CollectorRuns.VcEmitsIff` | core/view-change.go:173-209 | over all inputs, a certificate is emitted with a message if and only if the replica leads its view, none for a newer view came before, and the message completes the replica's own ViewChange and f others |
| `ViewStates.AdvancesIncrease` | core/internal/viewstate/view-state.go:73-99 | over every run, successful advances are to strictly increasing views |
| `Captures.Linearizable` | core/internal/clientstate/request-seq.go:47-82 | over every interleaving, decisions are those of an atomic capture in some order; an identifier is new at most once and new ones increase |
| `Captures.MutualExclusion` | core/internal/clientstate/request-seq.go:47-82 | at most one unreleased capture, release releases the holder's own identifier, nobody sleeps without a holder to wake it |
| `Captures.RefusedAfterRelease` | core/internal/clientstate/request-seq.go:51-60 | "not new" is returned only once that identifier is released |
| `Captures.EveryoneServed` | core/internal/clientstate/request-seq.go:47-82 | from every run, a caller is served, with the decision of an uninterrupted capture, after at most two stretches of its own and one release |
| `Captures.ReleaseKeeps` | core/internal/clientstate/request-seq.go:74-80 | the closure releases exactly the identifier its caller captured, and wakes everyone who waits |
| `Captures.SeqState.Capture` | core/internal/clientstate/request-seq.go:47-82 | one stretch under the lock is the step of the interleaving model |
| `MessageLogs.StreamFaithful` | core/internal/messagelog/messagelog.go:87-126 | for every interleaving a stream delivers initial parts of successive log contents, in order, without loss or repetition; an idle one without signal has delivered everything |
| `MessageLogs.NeverStuck` | core/internal/messagelog/messagelog.go:94-125 | in every run, a stream that has not delivered the present contents completely can take a step |
| `MessageLogs.Drains` | core/internal/messagelog/messagelog.go:94-125 | from every run, it delivers them completely by its own steps alone, within a number of steps known beforehand |
| `MessageLogs.AnySchedule` | core/internal/messagelog/messagelog.go:94-125 | however it is scheduled, no more than that many of its steps in a row have an effect |
| `MessageLogs.ResetTakesOver` | core/internal/messagelog/messagelog.go:109-123 | in every run, after a reset two steps without delivery make the stream give up what it was sending and have all of the new contents to send |
| `MessageLogs.After` | core/internal/messagelog/messagelog.go:97-107 | the slice taken under the lock is in range in every run |
| `MessageLogs.WriterKeeps` | core/internal/messagelog/messagelog.go:72-142 | appending to or resetting the log keeps what every stream has been promised: parts of epochs in order, position in range, no signal lost |
| `MessageLogs.MessageLog.Take` | core/internal/messagelog/messagelog.go:97-107 | the locked section computes the step's position and batch |
| `Client.CollectReplies` | client/request.go:87-101 | the result is that of the reply completing the first f+1 matching ones; none exactly if no f+1 match |
| `Client.CountIsWho` | client/internal/requestbuffer/requestbuffer.go:232-249 | with one reply per replica, counting replies counts distinct replicas |
| `Client.ResultSound` | client/request.go:87-101 | for every arrival order and interleaving, a result is emitted only if f+1 distinct replicas answered that request with the same hash, and at most once per request |
| `Client.CorrectReplier` | client/request.go:87-101 | with at most f faulty replicas a correct one sent a reply of that hash |
| `Client.ResultComplete` | client/internal/requestbuffer/requestbuffer.go:251-275 | when a request's goroutines are idle, its result was emitted if and only if f+1 of the added replies match |
| `Client.ResultComes` | client/internal/requestbuffer/requestbuffer.go:251-275 | from every run, its goroutines come, by their own steps alone and within a number known beforehand, to emit a result if and only if f+1 of the added replies match |
| `Client.BufferFree` | client/internal/requestbuffer/requestbuffer.go:59-128 | in every run, once the last request's result is emitted or the request is removed, the buffer is free and the next request is accepted; before that none is |
| `Client.ReplyAdded` | client/internal/requestbuffer/requestbuffer.go:100-112 | in every run, handling a reply adds it, after the others, exactly if it is for the request in the buffer and its replica has not answered yet |
| `Client.ReplySet.AddReply` | client/internal/requestbuffer/requestbuffer.go:232-249 | a replica's first reply is added and signalled, any other dropped |
| `Client.RequestBuffer.AddRequest` | client/internal/requestbuffer/requestbuffer.go:75-80 | with the buffer empty, accepts exactly increasing identifiers |
| `Client.RequestBuffer.Lookup` | client/internal/requestbuffer/requestbuffer.go:100-112 | finds the reply set exactly for replies to the buffered request |
| `Client.RequestBuffer.Remove` | client/internal/requestbuffer/requestbuffer.go:116-128 | removes exactly the request with that identifier |
| `EndToEnd.OneExecution` | core/request.go:222-240 | in every run, all replicas that delivered a client's request did so at the same position after the same requests |
| `EndToEnd.AcceptedResult` | client/request.go:87-101 | in every pair of runs, with at most f replicas answering falsely, every result a client emits is the service's answer at the request's agreed position |
| `Nodes.Node.CollectCommitment` | core/commit.go:106-159 | calling the acceptor, the in-place counter and the request book in turn carries out the run model's step on the assembled state |
| `Nodes.Node.PrepareRequests` | core/new-view.go:111-113 | the loop over the request book prepares the list up to a panic |
| `Nodes.Node.ExecuteRequests` | core/new-view.go:132-138 | the loop over the request book retires and delivers the list |
| `Nodes.Node.ProposePending` | core/request.go:203-209 | the enumeration that the pending list gives is one of the model's orders and lists every pending request once |
| `Nodes.Node.ApplyNewView` | core/new-view.go:108-130 | extraction, preparation, collection, proposals and Commit on the parts carry out the run model's step for that order |
| `Nodes.Node.CertifiedMessages` | core/req-view-change.go:124-129 | the loop over the log selects the certified messages in order |
| `Nodes.Node.StartViewChange` | core/req-view-change.go:116-139 | advancing the view state, resetting the log object and un-preparing the book carry out the run model's start of a view change, exactly if the view is above the expected one |
| `Nodes.Node.ProcessReqViewChange` | core/req-view-change.go:70-84 | so does the collector object in front of it |
| `Nodes.Node.ProcessViewChange` | core/view-change.go:157-171 | the collector object, the log reset and the NewView message carry out the run model's step |
| `Nodes.Node.ProcessCertified` | core/message-handling.go:643-728 | the assembled replica processes a certified message as the run model does, for some enumeration of its pending list |

## Left out

- Agreement.AgreementHolds: replicas follow the code or stop; arbitrary Byzantine behaviour is not modelled, because log validation does not check the view of Prepare and Commit entries (core/view-change.go:147-150), so safety against forged logs does not follow from what the code checks. The results in `Determinism`, `Survival` and `Client` do cover arbitrary senders.
- Agreement.ProducerMeetsValidator: does not speak of the view-change requests in a ViewChange message, since a run may contain any requests; `Embeddings.CertificatesValid` does, for the runs in which requests are validated first.
- Progress.NormalCaseDelivers: one run, as `Overtaken.DeliversInView4`; that requests are eventually delivered is not stated.
- EndToEnd.AcceptedResult: a faulty replica may send the client any replies, but takes part in ordering as the code says; SHA-256 is taken as injective there and is an arbitrary function elsewhere.
- Survival.WellFormedSurvive: that logs are well formed, and that a voter's ViewChange message comes after its vote, are hypotheses about the messages in the certificate, because validation does not check the view of log entries.
- Evidence.CommittedSurvive: about traces that replicas following the code produce; `Survival.WellFormedSurvive` is the form for other senders.
- Inputs.HandledReplay: the message is handled to the end before any other; `Steadiness.ReplayDelivers` is about any interleaving.
- StalePending.FreshNeverStops: a sufficient condition only; a replica that proposes a prepared request escapes the panic if it leaves the view before it comes to handle the proposal. `Panics.NeverStops` is exact.
- Pacing.InTimeNeverStops: the bound f+1 is sufficient for every run and is exceeded by one in `Overtaken.ReplicaStops`; for which messages beyond it a replica gets ahead depends on the logs they carry.
- Collectors.VcRunValid: needs at most one ViewChange per replica and view; in runs this follows from the processing of messages once in counter order, which `Processing.ViewChangeKeeps` uses.
- Client.RequestBuffer.AddRequest: the wait for an empty buffer is a step of the interleaving model, not part of the method.
- Captures.SeqState.Capture: a Dafny method cannot block; waiting and waking up are steps of the interleaving model.
- Critical sections are atomic in the run model: a message is processed under its sender's lock and the view lock, and interleaving inside a section is not modelled (except in `Captures`, `MessageLogs` and `Client`). Between sections, actions of all handlers interleave freely in runs and orderly runs; only handled runs take the recursive handling of one message as one step.
- Signatures and USIG certificates: a verified message is one its sender certified, and one replica and counter stand for one authenticated content; the SGX code and key handling are not modelled.
- Timers and liveness of the protocol: a timeout may occur at any time; that requests are eventually executed is not stated. For streams, captures and the client's goroutines, that they do not get stuck is.
- Replies at the replica (core/internal/clientstate/reply.go) and forwarding of requests on a prepare timeout: the reply a replica sends is a hypothesis of the end-to-end result.
- 64-bit overflow of views, counters and request identifiers outside log validation and encoding.
- The stream of requests to replicas in the client (`supplyRequests`), connection set-up, hello messages, message marshalling, configuration, samples and tools: plumbing without ordering logic.
- Validators that only compare one or two fields (Prepare, Commit, ReqViewChange) are part of `Validation.Validate` without rows of their own.
