# Verification of the factory kernel's durable pipeline

The factory kernel turns sponsored tickets into delivered commits. This project
models the parts of it whose guarantees span many operations, crashes and races,
and proves those guarantees in Dafny. `dafny verify dfyconfig.toml` checks all of it.

## What is modelled

- **Decision store** (`Decision*.dfy`, `Commands.dfy`, `Fingerprints.dfy`, `Refs.dfy`).
  Eight audited transactions over a candidate, its ticket attempt, its ticket and its
  campaign. `Decision.Step` describes a transaction; `DecisionStores.DecisionStore` is
  the object with one method per command, proved equal to it. `DecisionInvariant` lists
  seventeen global facts, `DecisionFrames`, `DecisionSafety` and `DecisionEvents` prove
  that every command and every event of the other stores keeps them, and
  `DecisionTheorems`, `DecisionRuns`, `DecisionProgress` and `DecisionTermination` draw
  the consequences: closure of evidence, at-most-once, fencing, bounded work.
  `DecisionJourney` shows that the states spoken of are reached. `DecisionSetbacks` adds
  the ticket store's own moves: failing and retrying attempts, sponsoring, releasing.
  `DecisionEnduring` and `DecisionMixed` prove what holds in every run that mixes them
  with everything else, `DecisionOwnership` and `DecisionStranding` exactly when a Quality
  retry goes wrong, and `DecisionRevival` that it does.
- **Local Git custody and delivery** (`Messages.dfy`, `Custody.dfy`, `Delivery*.dfy`).
  Commits, refs and the branch as values, the custody methods as an object, and a state
  machine in which any number of commit builders and delivery runners interleave with
  each other, with crashes and with every other transaction. `DeliveryCompletion` proves
  when a delivery completes from any state crashes leave behind, `DeliveryJourney` runs
  tickets through the whole of it.
- **Content-addressed store** (`Cas.dfy`, `CasStore.dfy`). Publication by private
  file, sync, absent-only hard link and unlink, on a file system where names share
  inodes and a power loss keeps only what was written back.
- **Forum** (`Forum*.dfy`, `Paging.dfy`). The append-only log, its five mutations,
  browse paging under concurrent appends, ranked search paging, cursors and snippets.
- **Codecs and scanners** (`CommandIds.dfy`, `Templates.dfy`, `Base64.dfy`,
  `Capture.dfy`).

## Assumptions

- A database transaction, `git update-ref` with an expected value and
  `git merge --ff-only` are atomic. Git and file-system failures are steps that stop
  their actor; an unlink that is attempted succeeds.
- Only delivery runners move the branch, only commit builders bind candidate refs, and
  only these two issue the commands that record a delivery and attach a commit.
- BLAKE3 and Git object hashing do not collide. A fingerprint is modelled by the bytes
  that are hashed, a commit by its content; where a hash stays a function, injectivity
  is stated as a premise.
- Texts are their UTF-8 bytes, one `char` per byte. `u64` and `BIGINT` bounds are
  explicit.
- The delivery target is at least one, as the schema demands.
- The claim step of the ticket store, sessions, artifacts, kernel builds and campaign
  accounting are events of the environment with the guards those stores apply.

## Where the code and its promises part

- The Architect may choose Deliver, Rework or Reject, but the decisions table admits the
  override flag only on Deliver rows while `decide_candidate` sets it whenever the review
  rejected. Rework and Reject of a Quality-rejected candidate therefore always fail
  (`DecisionTheorems.DecisionSucceedsExactly`).
- Nothing checks a commit body for lines starting with the cost key, yet delivery
  refuses such a message, after the candidate has been accepted
  (`Messages.BodyDecidesDelivery`). A subject that spells a trailer passes the recovery
  check for a cost that was never appended (`Messages.SubjectDecidesShownCost`,
  `Messages.SpelledCostIsShown`).
- Adopting bytes that are already present answers Ok without syncing any directory, so
  that Ok can be lost with the power (`Cas.OkIsDurableExactly`).
- Two accepted candidates with one base and tree can share one advance of the branch: the
  second delivery takes the first one's commit for its own when the cost matches, and
  both rows name it (`DeliveryCompletion.RowsShareCommitExactly`,
  `DeliveryJourney.AdvanceIsShared`).
- A failed attempt is said to own its ticket until it is released, yet the Quality retry
  does not ask whether the attempt has been released. If the ticket has been claimed again,
  two unfinished attempts then work on it (`DecisionSetbacks.OneUnfinishedExactly`,
  `DecisionOwnership.RunOwnedExactly`, `DecisionRevival.TwoAttemptsWork`); only one of them
  can ever be delivered (`DecisionMixed.TicketDeliveredOnce`).
- The Quality retry returns an attempt to ReworkQuality even when its full suite has
  passed. The suite cannot be recorded twice and a review is only taken at the Architect's
  desk, so that attempt can do nothing but fail again (`DecisionStranding.StrandedForever`,
  `DecisionStranding.RetryIsStrandedExactly`, `DecisionRevival.AttemptIsStranded`).
- A mission template may be admitted with placeholders although it is rendered with no
  values (`Templates.MissionRendersExactly`).
- The command runner does not look at the overflow flags again after an exit
  (`Capture.RunCommand`); Git custody does (`Capture.RunGit`).

## Model

| member | source | states |
|---|---|---|
| `Commands.FingerprintInjective` | crates/factory-kernel/src/decision_store.rs:2733-2941 | two decision commands have equal hash preimages if and only if they are the same command, field by field and operation by operation |
| `Refs.PrintedRefsParse` | crates/factory-kernel/src/git.rs:372-430 | every ref custody prints, legacy or scoped, is admitted by both ref parsers and by the attach guard of its own ticket and candidate |
| `Refs.AcceptedRefIsExact` | crates/factory-kernel/src/decision_store.rs:2552-2581 | a ref passes the parser and the attach guard if and only if it is one of the two spellings of exactly that ticket and candidate |
| `Refs.RefNamesOneCandidate` | crates/factory-kernel/src/decision_store.rs:768-780 | no ref names two different tickets or candidates |
| `DecisionSafety.LoadSucceeds` | crates/factory-kernel/src/decision_store.rs:1805-1868 | with the invariant, joining an attempt to its ticket, revision and campaign always succeeds: the corruption check never fires |
| `DecisionStores.DecisionStore.SubmitCandidate` | crates/factory-kernel/src/decision_store.rs:369-538 | the transaction as the state machine describes it: same answer, same tables, first failed check decides |
| `DecisionStores.DecisionStore.RecordValidation` | crates/factory-kernel/src/decision_store.rs:541-718 | a hard or full-suite verdict moves candidate and attempt together, or nothing changes |
| `DecisionStores.DecisionStore.AttachCandidateCommit` | crates/factory-kernel/src/decision_store.rs:720-808 | commit and ref are attached once to a validated candidate whose own ref it is, or nothing changes |
| `DecisionStores.DecisionStore.SubmitQualityReview` | crates/factory-kernel/src/decision_store.rs:813-958 | a review citing the passed full-suite run is inserted once, or nothing changes |
| `DecisionStores.DecisionStore.SponsorTicket` | crates/factory-kernel/src/decision_store.rs:964-1052 | a proposed or blocked ticket and its revision become sponsored together, or nothing changes |
| `DecisionStores.DecisionStore.ReleaseTicketAttempt` | crates/factory-kernel/src/decision_store.rs:1055-1176 | a failed attempt is released and its ticket re-classified from two observations, or nothing changes |
| `DecisionStores.DecisionStore.DecideCandidate` | crates/factory-kernel/src/decision_store.rs:1179-1323 | deliver, rework or reject moves candidate, attempt and (on reject) ticket, or nothing changes |
| `DecisionStores.DecisionStore.RecordDelivery` | crates/factory-kernel/src/decision_store.rs:1326-1492 | candidate, attempt, ticket and, on the last one, campaign become delivered together, or nothing changes |
| `DecisionStores.DecisionStore.Execute` | crates/factory-kernel/src/decision_store.rs:369-1492 | whichever command runs, the result is the state machine's and the invariant survives |
| `DecisionStores.DecisionStore.UpdateTicketState` | crates/factory-kernel/src/decision_store.rs:2341-2377 | a ticket and its revision take the same state and revision in one update |
| `DecisionStores.DecisionStore.InsertAudit` | crates/factory-kernel/src/decision_store.rs:2482-2509 | one receipt is added under the command's identity and nothing else changes |
| `DecisionEvents.StepKeepsInv` | crates/factory-kernel/src/decision_store.rs:369-1492 | every command, accepted, refused or repeated, keeps the invariant of seventeen global facts |
| `DecisionEvents.EventKeepsInv` | crates/factory-kernel/src/ticket_store.rs:957-1075 | claims, settled claims, sessions, artifacts and campaign changes made by the other stores keep it too |
| `DecisionEvents.RunKeepsInv` | crates/factory-kernel/src/decision_store.rs:369-1492 | the invariant holds after any run from any state that has it |
| `DecisionEvents.CompletionIsRecorded` | crates/factory-kernel/src/ticket_store.rs:1655-1715 | the separate campaign-completion command is never enabled: the delivery that reaches the target has already completed the campaign |
| `DecisionTheorems.DeliveredHasRecord` | crates/factory-kernel/src/decision_store.rs:1368-1393 | a delivered candidate has exactly one passed hard and one passed full-suite validation on its tree, an attached commit, one review citing that full-suite run, one Architect decision (a Deliver, overriding exactly when that review rejected) and one delivery row of its commit, base and tree; nothing else is about it |
| `DecisionTheorems.StageFixesCandidate` | crates/factory-kernel/src/decision_store.rs:433-519 | an attempt has at most one candidate that is not rejected, has one exactly in the stages that need one, and the stage fixes that candidate's state |
| `DecisionTheorems.RoundsAreBounded` | crates/factory-kernel/src/decision_store.rs:1252-1296 | at most one rework and at most two candidates per attempt, and the ordinal counts them |
| `DecisionTheorems.RefsAreOwn` | crates/factory-kernel/src/decision_store.rs:764-795 | no two candidates ever hold the same attached ref |
| `DecisionTheorems.TargetNeverExceeded` | crates/factory-kernel/src/decision_store.rs:2134-2145 | a running campaign is short of its delivery target, a completed one has met it exactly, none exceeds it |
| `DecisionTheorems.DeliveryCompletesExactly` | crates/factory-kernel/src/decision_store.rs:1395-1470 | a recorded delivery adds one to the count and completes the campaign if and only if the count then equals the target |
| `DecisionTheorems.DecisionSucceedsExactly` | crates/factory-kernel/src/decision_store.rs:1235-1268 | for an otherwise ready decision: success if and only if the choice fits the review; after a rejecting review only an overriding Deliver fits |
| `DecisionTheorems.RejectedReviewForcesDeliver` | schema/migrations/0001_initial_authority.sql:721-741 | in every state, Rework or Reject of a candidate whose review rejected fails on the table constraint and writes nothing |
| `DecisionJourney.TicketIsSubmitted` | crates/factory-kernel/src/decision_store.rs:369-538 | from every reachable state with a running campaign, an artifact and unused sessions, a new ticket can be published, sponsored, claimed and submitted, touching no other row |
| `DecisionJourney.CandidateIsReviewed` | crates/factory-kernel/src/decision_store.rs:541-958 | from there its candidate can be validated, given its commit, run through the full suite and reviewed, with either verdict |
| `DecisionJourney.Ordered` | crates/factory-kernel/src/decision_store.rs:1179-1323 | and a candidate whose review accepted it can be ordered for delivery |
| `DecisionJourney.RejectionFailsConcretely` | crates/factory-kernel/src/decision_store.rs:1257-1268 | the failure above is reached: a run from the empty database after which a ready Rework and a ready Reject both end in the constraint error |
| `DecisionSetbacks.OneUnfinishedExactly` | crates/factory-kernel/src/ticket_store.rs:1090-1370 | failing an attempt or retrying its Quality or Engineering stage leaves one revision at most one unfinished attempt if and only if it does not revive a finished attempt while another is at work on the revision |
| `DecisionSetbacks.RivalMeansReleased` | crates/factory-kernel/src/ticket_store.rs:1167-1370 | while released attempts are failed and one revision has one unreleased attempt, only the Quality retry of a released attempt can do that |
| `DecisionSetbacks.OwnershipSurvivesExactly` | crates/factory-kernel/src/ticket_store.rs:1090-1370 | that a released attempt stays failed, and every unfinished one has its ticket in flight, survives these moves if and only if no released attempt is retried; that one revision has at most one unreleased attempt always survives |
| `DecisionSetbacks.SetbackIsLocal` | crates/factory-kernel/src/ticket_store.rs:1090-1370 | candidate, evidence by stage and ordinals are untouched for every other attempt and candidate |
| `DecisionMixed.MoveOfTicketsEndures` | crates/factory-kernel/src/ticket_store.rs:867-1650 | each of the ticket store's five moves on tickets and attempts (sponsor, fail, retry Quality, retry Engineering, release) keeps eighteen global facts, evidence by candidate state among them |
| `DecisionMixed.ActEndures` | crates/factory-kernel/src/decision_store.rs:369-1492 | so does every command and event, from any state with those facts and not only from states without such moves |
| `DecisionMixed.MixedRunEndures` | crates/factory-kernel/src/decision_store.rs:369-1492 | the eighteen facts hold in every state of every run that mixes commands, events and those moves |
| `DecisionMixed.DeliveredHasRecordAnyway` | crates/factory-kernel/src/decision_store.rs:1346-1492 | in every mixed run a delivered candidate has its complete record, one of each, all about its own tree and commit |
| `DecisionMixed.TicketDeliveredOnce` | crates/factory-kernel/src/decision_store.rs:1346-1492 | in every mixed run a ticket is delivered by at most one attempt and is then done, even when two attempts have worked on it |
| `DecisionMixed.RoundsStayBounded` | crates/factory-kernel/src/decision_store.rs:1213-1330 | in every mixed run an attempt has at most one rework and at most two candidates, as many as its ordinal says |
| `DecisionMixed.RefsStayOwn` | crates/factory-kernel/src/decision_store.rs:768-780 | in every mixed run two candidates with one attached ref are the same candidate |
| `DecisionMixed.TargetStaysKept` | crates/factory-kernel/src/decision_store.rs:1405-1470 | in every mixed run a running campaign is short of its target, a completed one has met it exactly, none exceeds it |
| `DecisionOwnership.OwnedExactly` | crates/factory-kernel/src/ticket_store.rs:1167-1240 | one transaction of any kind keeps tickets to one attempt at a time if and only if it is not the Quality retry of a released attempt |
| `DecisionOwnership.RunOwnedExactly` | crates/factory-kernel/src/ticket_store.rs:1167-1240 | all states of a mixed run do so if and only if the run has no such retry |
| `DecisionOwnership.RivalsComeFromRetry` | crates/factory-kernel/src/ticket_store.rs:1167-1240 | from the empty database, a run without such a retry never has two unfinished attempts on one revision |
| `DecisionRevival.TwoAttemptsWork` | crates/factory-kernel/src/ticket_store.rs:1435-1500 | a run from the empty database (fail at Quality, release as reproduced, claim again) after which the driver's own query finds the released attempt, its retry is accepted, and two unfinished attempts work on one revision |
| `DecisionStranding.RetryStrands` | crates/factory-kernel/src/ticket_store.rs:1167-1240 | a Quality retry strands its attempt if and only if the candidate's full suite was already on record |
| `DecisionStranding.StrandedForever` | crates/factory-kernel/src/decision_store.rs:862-867 | nothing that can happen afterwards, in any mixed run, gets a stranded candidate reviewed, accepted, delivered or rejected |
| `DecisionStranding.RetryIsStrandedExactly` | crates/factory-kernel/src/decision_store.rs:640-645 | otherwise a suite that is ready is accepted, and a pass brings the attempt to the Architect |
| `DecisionRevival.AttemptIsStranded` | crates/factory-kernel/src/ticket_store.rs:1435-1500 | a run from the empty database after which the driver's own query finds an attempt that failed after its suite had passed, and the retry strands it |
| `DecisionRuns.TakenKeyNeverWrites` | crates/factory-kernel/src/decision_store.rs:2449-2480 | a command whose audit identity is taken never writes, whatever it asks for |
| `DecisionRuns.RepeatsLeaveNoTrace` | crates/factory-kernel/src/decision_store.rs:2449-2509 | at most once: any run ends in the same database as that run with every repeat of an accepted command taken out |
| `DecisionRuns.RepeatAnswer` | crates/factory-kernel/src/decision_store.rs:397-418 | a repeat reads back the recorded subject and audit id; only a release can lose its answer, exactly when its ticket has moved on |
| `DecisionRuns.AcceptedOnce` | crates/factory-kernel/src/decision_store.rs:2449-2480 | after an acceptance, at any later time, the same command returns the same subject and audit id and writes nothing; a different command under its identity is never accepted and conflicts once it is well formed and names a known row |
| `DecisionProgress.RevisionsCount` | crates/factory-kernel/src/decision_store.rs:1830-1868 | candidate and attempt revisions grow by exactly the number of accepted commands that touch them |
| `DecisionProgress.RevisionsFence` | crates/factory-kernel/src/decision_store.rs:2596-2605 | two commands on one candidate (or attempt) are never both accepted at one expected revision, however far apart |
| `DecisionTermination.AcceptLowers` | crates/factory-kernel/src/decision_store.rs:433-1470 | every accepted command about an attempt lowers that attempt's potential and no other's |
| `DecisionTermination.AttemptsTerminate` | crates/factory-kernel/src/decision_store.rs:369-1492 | at most thirteen accepted commands ever touch an attempt or its candidates, in any run |
| `Messages.TrailerInjective` | crates/factory-kernel/src/git.rs:2351-2357 | different costs print different Factory-Cost trailers |
| `Messages.OwnTrailerIsFound` | crates/factory-kernel/src/git.rs:1434-1482 | the proof of a fresh delivery commit's trailer cannot fail |
| `Messages.ShownCosts` | crates/factory-kernel/src/git.rs:1544-1548 | a delivery message shows another cost if and only if its subject line happens to spell that trailer |
| `Messages.BodyDecidesDelivery` | crates/factory-kernel/src/git.rs:1440-1443 | a candidate's message is refused at delivery if and only if some line of its commit body starts with the cost key, which nothing checks at submission |
| `Messages.UndeliverableBody` | crates/factory-kernel/src/git.rs:2367-2393 | one concrete body that can never be delivered |
| `Messages.SubjectDecidesShownCost` | crates/factory-kernel/src/git.rs:1544-1548 | a deliverable candidate's delivery message shows a cost if and only if it is the one appended or the subject is exactly its trailer |
| `Messages.SpelledCostIsShown` | crates/factory-kernel/src/git.rs:1544-1548 | one such subject: its candidate can be delivered at any cost and always also shows cost zero |
| `Custody.GitCustody.BindCandidateRef` | crates/factory-kernel/src/git.rs:1570-1599 | expected-absent compare-and-swap: a bound ref stays, an absent one is bound |
| `Custody.GitCustody.ConstructOrRecoverCandidateCommit` | crates/factory-kernel/src/git.rs:1012-1121 | success returns the commit the ref binds, with the qualified head as its only parent and the candidate tree; no bound ref moves; failure changes nothing |
| `Custody.GitCustody.FastForwardDeliveryCommit` | crates/factory-kernel/src/git.rs:1484-1517 | the branch moves to the delivery commit or stays, and success means it is there |
| `Custody.GitCustody.DeliverAcceptedCandidate` | crates/factory-kernel/src/durable_authority.rs:448-500 | the three-way choice between the two recoveries and a fresh guarded fast-forward, as a function of head, refs, row and clock |
| `Custody.RebuildReturnsBoundCommit` | crates/factory-kernel/src/git.rs:1106-1121 | a repeated build with another message or clock returns the commit first bound |
| `Custody.DeliveryIsOneStep` | crates/factory-kernel/src/durable_authority.rs:448-500 | success leaves the branch on a child of the base with the candidate tree; the branch moves only from the base; failure leaves it alone |
| `Custody.FirstRunCompletes` | crates/factory-kernel/src/git.rs:1170-1183 | from the base, delivery succeeds if and only if the candidate's message names no cost on a later line |
| `Custody.RerunCompletes` | crates/factory-kernel/src/git.rs:1188-1224 | after a crash between branch and row, a re-run never moves the branch and completes if and only if it reads the delivered cost or one its subject line spells |
| `DeliveryProtocol.SoloIsDelivery` | crates/factory-kernel/src/durable_authority.rs:405-562 | the step-by-step runner, left alone, does exactly what the delivery method does |
| `DeliverySafety.EventKeepsSafe` | crates/factory-kernel/src/durable_authority.rs:405-562 | every interleaving of builders, runners, crashes and other transactions keeps branch, refs, rows and actors consistent |
| `DeliverySafety.SeenIsBase` | crates/factory-kernel/src/git.rs:1083-1101 | a runner that proved its candidate against the head it saw has seen the candidate's base |
| `DeliverySafety.MergeStep` | crates/factory-kernel/src/git.rs:1484-1500 | a fast-forward-only merge of a child of a branch commit moves the branch only from that commit |
| `DeliveryTheorems.StartIsSafe` | crates/factory-kernel/src/durable_authority.rs:405-562 | a fresh repository with an empty database is such a state |
| `DeliveryTheorems.BranchAdvancesOnce` | crates/factory-kernel/src/durable_authority.rs:405-562 | at most one advance ever starts from a candidate's base |
| `DeliveryTheorems.AdvanceIsDelivery` | crates/factory-kernel/src/git.rs:1484-1517 | whenever the branch moves, a runner moved it from its candidate's base to a child with the candidate tree |
| `DeliveryTheorems.RowNamesBranchCommit` | crates/factory-kernel/src/durable_authority.rs:519-562 | every delivery row names a commit of the branch whose only parent is the candidate's base and whose tree is the candidate tree |
| `DeliverySafety.MergeIsDelivery` | crates/factory-kernel/src/git.rs:1434-1517 | a merge delivers its runner's own candidate, at the cost it read, with a message that named none before; so the invariant accounts for every advance of the branch |
| `DeliveryCompletion.RowIsAttached` | crates/factory-kernel/src/durable_authority.rs:412-430 | the facts read for a delivery always describe its ref's bound commit |
| `DeliveryCompletion.DeliverySucceedsExactly` | crates/factory-kernel/src/durable_authority.rs:448-500 | the Git half succeeds if and only if the head is the base (and the message names no cost), the candidate itself, or a child of the base with its tree that shows the cost; and what it then leaves at the head |
| `DeliveryCompletion.TurnsReachSolo` | crates/factory-kernel/src/durable_authority.rs:448-500 | in the world, turns of one runner reach exactly where the undisturbed runner gets |
| `DeliveryCompletion.RecordSucceedsExactly` | crates/factory-kernel/src/durable_authority.rs:519-562 | the final record is accepted if and only if its identity is new and well formed, its receipt registered, its names and counters fit and no paid session runs |
| `DeliveryCompletion.DeliveryCompletesExactly` | crates/factory-kernel/src/durable_authority.rs:405-562 | in every safe state, one attempt at a ready delivery (read the row, turns, seal, record) ends with a new row naming the head if and only if Git and record are ready as above |
| `DeliveryCompletion.ResumedDelivery` | crates/factory-kernel/src/durable_authority.rs:448-480 | past the merge the head is the delivery of some attached candidate on that base, and a re-run recognises it if and only if it is its own commit, or has its tree and the cost read is the delivered one or the one the subject spells |
| `DeliveryCompletion.InterruptedDeliveryCompletes` | crates/factory-kernel/src/durable_authority.rs:405-562 | crash safety: wherever a runner is stopped before its record and whatever happens afterwards, with head and cost untouched one more attempt completes if and only if recording is ready (and, before the merge, the message names no cost) |
| `DeliveryCompletion.RowsShareCommitExactly` | schema/migrations/0001_initial_authority.sql:760-772 | two delivery rows name one commit if and only if their candidates have one base; then also one tree, and the commit shows both costs |
| `DeliveryJourney.TicketIsAccepted` | crates/factory-kernel/src/durable_authority.rs:405-562 | in the world of database and Git, a ticket can be taken all the way to an accepted candidate with its commit built, bound and attached |
| `DeliveryJourney.AdvanceIsShared` | crates/factory-kernel/src/durable_authority.rs:460-478 | a run from a fresh repository and an empty database that ends with two delivery rows for one advance of the branch |
| `DeliveryTheorems.BuildersAgree` | crates/factory-kernel/src/git.rs:1106-1121 | builders that succeed for one ref, at any two times of a run, return the same commit on the same base |
| `Cas.EventKeepsSound` | crates/factory-kernel/src/cas.rs:501-623 | any interleaving of adopters, crashes, write-backs and power losses keeps every object's bytes hashing to its name, every open file private and every temporary name accounted for |
| `Cas.RunKeepsSound` | crates/factory-kernel/src/cas.rs:501-623 | the same over whole runs |
| `Cas.PublishedStays` | crates/factory-kernel/src/cas.rs:576-612 | a published name keeps its inode and bytes across any event; only a power loss can remove it |
| `Cas.WriterIsPrivate` | crates/factory-kernel/src/cas.rs:753-762 | no file open for writing has an object name |
| `Cas.OkIsReadable` | crates/factory-kernel/src/cas.rs:372-428 | after an Ok, at any later time short of a power loss, reading the digest gives exactly the adopted bytes |
| `Cas.QuietStoreIsClean` | crates/factory-kernel/src/cas.rs:545-623 | without crashes no temporary name is left once all adopters have answered, however they ended |
| `Cas.LinkerIsDurable` | crates/factory-kernel/src/cas.rs:581-600 | an adopter that linked the object answers only once both directory entries are on disk |
| `Cas.PowerLossKeepsDurable` | crates/factory-kernel/src/cas.rs:581-600 | a power loss keeps exactly the objects whose two directory entries are on disk, with their bytes |
| `Cas.DurableForever` | crates/factory-kernel/src/cas.rs:581-600 | an object whose two directory entries are on disk keeps its bytes through any run, power losses included |
| `Cas.LinkedOkIsForever` | crates/factory-kernel/src/cas.rs:581-600 | the Ok of an adopter that linked its object is final: after any further run, power losses included, the digest reads back as exactly its bytes |
| `Cas.LastLink` | crates/factory-kernel/src/cas.rs:576-600 | every object there is was given its name by one link event of the run and has kept it since |
| `Cas.DurableExactly` | crates/factory-kernel/src/cas.rs:576-604 | over runs from the empty store, with all their power losses, an object is durable if and only if its entry was flushed since that link and its directory was flushed |
| `Cas.OkIsDurableExactly` | crates/factory-kernel/src/cas.rs:581-604 | for every Ok of every run: it survives a power loss if and only if those two flushes are in the run; the branch that finds the object makes neither |
| `Cas.LinkerHasFlushed` | crates/factory-kernel/src/cas.rs:581-600 | the branch that links makes both before it answers |
| `Cas.AcknowledgedObjectIsLost` | crates/factory-kernel/src/cas.rs:601-604 | one concrete schedule in which an acknowledged object is lost |
| `Cas.UnsyncedIsReached` | crates/factory-kernel/src/cas.rs:576-604 | that schedule starts from the empty store |
| `CasStores.StreamToTemp` | crates/factory-kernel/src/cas.rs:808-876 | the copy succeeds if and only if the bytes fit and the source kept length and time stamp; it then wrote and hashed exactly those bytes |
| `CasStores.CasStore.CreateTemporary` | crates/factory-kernel/src/cas.rs:753-762 | the first generated name nobody holds is created; nothing else changes |
| `CasStores.CasStore.PublishTemporary` | crates/factory-kernel/src/cas.rs:545-623 | absent-only publication: an existing object is never replaced and the temporary name is gone |
| `CasStores.CasStore.AdoptOpenFile` | crates/factory-kernel/src/cas.rs:501-543 | whatever happens no temporary name is left and no object changes; on success the digest reads back as the source's bytes |
| `ForumCommands.PrincipalInjective` | crates/factory-kernel/src/forum_store.rs:1103-1115 | two bindings share a principal only if they share session, assignment, application revision and campaign |
| `ForumCommands.FingerprintInjective` | crates/factory-kernel/src/forum_store.rs:1185-1294 | two Forum commands under bindings have equal hash preimages if and only if command and binding are the same |
| `Forum.StepKeepsValid` | crates/factory-kernel/src/forum_store.rs:132-540 | every mutation keeps ids ascending in commit order, rows under existing parents, replies and supersessions naming earlier rows of the same thread or topic, attachments registered, receipts sound, and the revision equal to the number of topics, threads and posts |
| `Forum.RunKeepsValid` | crates/factory-kernel/src/forum_store.rs:132-540 | the same over whole runs, in which rows and receipts are only appended |
| `ForumStores.ForumStore.CreateTopic` | crates/factory-kernel/src/forum_store.rs:132-194 | the mutation under the lock gives the state machine's answer and tables; a refused insert burns only an id |
| `ForumStores.ForumStore.CreateThread` | crates/factory-kernel/src/forum_store.rs:209-270 | the mutation under the lock gives the state machine's answer and tables; a refused insert burns only an id |
| `ForumStores.ForumStore.SupersedeTopic` | crates/factory-kernel/src/forum_store.rs:285-358 | the mutation under the lock gives the state machine's answer and tables; a refused insert burns only an id |
| `ForumStores.ForumStore.SupersedeThread` | crates/factory-kernel/src/forum_store.rs:371-446 | the mutation under the lock gives the state machine's answer and tables; a refused insert burns only an id |
| `ForumStores.ForumStore.AppendPost` | crates/factory-kernel/src/forum_store.rs:461-540 | the mutation under the lock gives the state machine's answer and tables; a refused insert burns only an id |
| `ForumStores.ForumStore.CurrentForumRevision` | crates/factory-kernel/src/forum_store.rs:977-994 | the scan returns the largest revision any Forum receipt carries |
| `ForumStores.AcceptedOnce` | crates/factory-kernel/src/forum_store.rs:996-1026 | asked again at any later time, a mutation writes nothing and gets its own row, revision and audit id; any other command or binding under its identity is refused |
| `Paging.FollowCollectsSnapshot` | crates/factory-kernel/src/forum_rpc.rs:180-199 | following cursors over an append-only list to the empty cursor collects exactly one whole snapshot in order; before that, a prefix of the latest |
| `ForumBrowse.RunsMakeHistory` | crates/factory-kernel/src/forum_store.rs:136-194 | however mutations interleave with page requests, each request sees a valid log that extends every earlier one |
| `ForumBrowse.BrowseIsComplete` | crates/factory-kernel/src/forum_rpc.rs:180-199 | a reader who follows cursors to the empty one holds exactly the rows of one state, in id order: all present at the start, none twice; requests for more rows than there are get there |
| `ForumBrowse.TopicListIsComplete` | crates/factory-kernel/src/forum_store.rs:613-648 | the same for the list of topics |
| `ForumBrowse.ThreadListIsComplete` | crates/factory-kernel/src/forum_store.rs:653-691 | the same for the threads of one topic |
| `ForumBrowse.ThreadReadIsComplete` | crates/factory-kernel/src/forum_store.rs:544-608 | a reader of a thread sees every post present at the start once, in id order, none twice, whatever is appended between pages |
| `ForumBrowse.WireKeepsIds` | crates/factory-kernel/src/forum_rpc.rs:180-199 | a page cursor parses back to the id it was printed from |
| `ForumSearch.RankedIsRight` | crates/factory-kernel/src/forum_store.rs:704-770 | the unlimited ranked query lists each matching post once, at its best match, by rank descending then id ascending |
| `ForumSearch.SearchPagesAreRanked` | crates/factory-kernel/src/forum_store.rs:696-790 | over a fixed corpus the pages obtained by following cursors concatenate to that full list, and enough requests reach its end |
| `ForumSearch.CursorRoundTrip` | crates/factory-protocol/src/forum.rs:580-618 | a search cursor decodes to the rank bits and post id it encodes |
| `ForumSearch.TruncateUtf8` | crates/factory-kernel/src/forum_store.rs:1174-1183 | a snippet is cut at the last character boundary within the bound, stays well formed and loses at most three bytes of room |
| `CommandIds.IntentIdsInjective` | crates/factory-kernel/src/campaign_driver.rs:739-803 | no two different driver intents print the same command id |
| `CommandIds.DerivedIsLegal` | crates/factory-kernel/src/candidate_runtime.rs:1813-1845 | a derived id exists exactly for legal inputs and is itself a legal base, on both sides of the length limit |
| `CommandIds.SuffixesGiveDistinctIds` | crates/factory-kernel/src/candidate_runtime.rs:1833-1845 | for one base, distinct suffixes give distinct ids unless the hash collides |
| `CommandIds.DerivedAgreeExactly` | crates/factory-kernel/src/candidate_runtime.rs:1813-1845 | two derivations on any bases give one id if and only if they are the same pair, or plain forms that share a dash, or the plain form of a base spelling the fallback prefix with the other's hash |
| `CommandIds.BasesMayShareIds` | crates/factory-kernel/src/candidate_runtime.rs:1833-1845 | a pair of each kind that meets |
| `Templates.ValidateTemplate` | crates/factory-kernel/src/application_admission.rs:457-503 | admission accepts exactly the templates whose scanned placeholders are the declared ones and all allowed for the role |
| `Templates.AdmissionIsExact` | crates/factory-kernel/src/application_admission.rs:457-503 | the scan's verdict means that, for every template |
| `Templates.RenderTemplate` | crates/factory-protocol/src/application.rs:208-283 | rendering succeeds exactly when every declared placeholder occurs with a usable value within the limit, and is then the one-pass expansion |
| `Templates.RenderDeclared` | crates/factory-kernel/src/assignment_runtime.rs:912-931 | the declared-values wrapper: success exactly when every declared placeholder is available and the rest renders |
| `Templates.AdmittedTemplatesRender` | crates/factory-kernel/src/assignment_runtime.rs:860-931 | a template admitted for a role never lacks a value for a target of that role |
| `Templates.MissionRendersExactly` | crates/factory-kernel/src/assignment_runtime.rs:716-719 | an admitted mission template can be used exactly when it declares no placeholder |
| `Templates.MissionWithPlaceholder` | crates/factory-kernel/src/application_admission.rs:376-377 | one admitted mission that no assignment can use |
| `Base64.EncodeBytes` | crates/factory-kernel/src/assignment_runtime.rs:1734-1755 | the loop computes the encoding of RFC 4648, section 4 |
| `Base64.RoundTrip` | crates/factory-kernel/src/assignment_runtime.rs:1734-1755 | a strict decoder recovers every byte sequence |
| `Base64.Shape` | crates/factory-kernel/src/assignment_runtime.rs:1734-1755 | four characters per started group of three, padding only in the last one or two places |
| `Capture.CaptureStream` | crates/factory-kernel/src/command_supervision.rs:1188-1218 | however the stream is cut into reads, exactly its first bytes up to the limit are kept and the flag is raised exactly when there were more |
| `Capture.WaitForTerminal` | crates/factory-kernel/src/command_supervision.rs:1231-1258 | exit status before overflow before deadline, at the first look that shows any |
| `Capture.RunGit` | crates/factory-kernel/src/git.rs:2056-2095 | an Ok answer holds both streams whole, and is given exactly for an exit within both limits |
| `Capture.RunCommand` | crates/factory-kernel/src/command_supervision.rs:1231-1258 | the command runner reports whatever was captured: everything exactly when neither stream went over its limit |
| `Capture.ExitHidesOverflow` | crates/factory-kernel/src/command_supervision.rs:1231-1245 | one child whose overflow an exit hides |

## Left out

- DecisionEvents.EventKeepsInv: its events do not include `ticket_store`'s own sponsor, fail, retry and release transactions. `DecisionMixed` covers runs with them; what ties a candidate and its evidence to its attempt's stage, fencing and termination are results about runs without them.
- DecisionSetbacks.Possible: the ready-ticket limit an application may set is not checked, so sponsoring and releasing are possible here in more states than in the store.
- DecisionStores.DecisionStore.Execute: the methods evaluate the state machine's own guard functions; what the methods add is the order of locking, lookup, checks and single-row writes.
- `candidate_runtime` evidence sealing and validation runs: single-branch sequences of calls whose durable steps are the commands modelled here.
- Requalification manifest pairs, harness receipts, required-read manifests and `compile_harness` deduplication: short single-function members.
- Full-text matching, ranks and snippets themselves: a rank is an abstract ordered value and matching an input.
- SQL text, connection pools, JSON frames, RPC routing, process spawning, signals, worktrees, configuration scans and path canonicalisation.
- Timestamps, failure reasons and other columns no guard reads.
- Application admission beyond its templates, activation, credentials and settings.
- Templates.ValidateTemplate: takes bytes that are already valid UTF-8; the decoding error is not modelled.
- ForumSearch.TruncateUtf8: takes well-formed text, which a Rust `String` always is.
- Capture.RunGit: a failing read or wait is not modelled, and neither is the child's own behaviour once it is signalled.
