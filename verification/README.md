# Verification of the native extension's ledgers, observers and publishers

A Dafny model of the parts of the native extension whose safety rests on arguments over
whole runs: the actor action controller and its receipt contract, the activation history,
the application journal, the effect mutation epoch, the publication writer, the coverage
resolver, the readers of foreign trees, the selector manifest and the legacy combat
controller.  Native calls, memory reads, clocks, random ids and hashes are inputs.

Each component has a specification as functions on values, lemmas about every run of it,
and, where the program updates state in place, a class whose methods, with the program's
own loops, are proved to have exactly the specified effect.

| files | component |
|---|---|
| ActorWire, ActorLedger, ActorLedgerInvariant, ActorLedgerCalls, ActorLedgerHistory, ActorLedgerInsertion, ActorLedgerMarks, ActorLedgerExecute, ActorLedgerRuns, ActorLedgerWitness, ActorController | actor action controller and receipts |
| Activation, ActivationTrail, ActivationHistory | activation history |
| EffectEpoch | effect mutation epoch |
| CoverageDeadlines, ApplicationJournal | application journal |
| PublicationFrame, Publication, PublicationWriter, PublicationEncoding | publication |
| Resolver, ActionFacts, DescriptorLookup | coverage and deadlines of an action |
| SelectorManifest | canonical group bytes |
| KeyTree, RedBlackShape, MotionIdle, InventoryCensus | readers of foreign trees |
| CombatLedger, CombatController | legacy combat controller |
| Wrappers | shared datatypes |

A native call is modelled as a script: the operations the native side makes while the call
is on the stack, then its result.  Since no operation made during a native call ever makes
another one, scripts are flat.  The effect epoch is a state machine over single atomic
accesses, interleaved in any order.

Four promises hold only up to a condition, which is proved to be exact:

* Line 290 of `actor_action_controller.h` blocks the parent without asking whether it has
  closed; `ActorLedgerWitness.ClosedParentReopens` is a run in which this makes a closed
  parent owned again, and `ActorLedgerRuns.RecordableIsExact` says when it cannot happen.
* A reply made during a native call may repeat a retained refusal reason
  (`NestedReplyCanBeInvalid`, `NestedReplyIsExact`).
* Open and Attach must answer with outcomes of their own kind (`ForeignOutcomeIsExact`).
* A revalidation reads the epoch before the depth, so a mutation that starts and ends
  between these two last readings goes unseen (`EffectEpoch.LateBodyIsMissed`,
  `EffectEpoch.QuietToTheEnd`); up to the last reading of the epoch none does.

Verify with `dafny verify dfyconfig.toml`.

## Model

| member | source | states |
|---|---|---|
| ActorLedgerRuns.EveryReceiptIsValid | native/wonderbane_extension/actor_action_controller.h:73-297 | after every admissible run, every receipt a top-level Execute returns for a well-formed request satisfies all clauses of receipt validity and is correlated with its command |
| ActorLedgerExecute.ExecuteKeeps | native/wonderbane_extension/actor_action_controller.h:213-297 | one Execute, with any native calls and any operations nested in them, keeps the whole ledger invariant, only adds evidence, and returns a valid correlated receipt |
| ActorLedgerInvariant.ReplyIsValid | native/wonderbane_extension/actor_action_wire.h:121-179 | a reply built from consistent records of parent, child and action meets every clause of receipt validity |
| ActorLedgerRuns.NeverSubmittedTwice | native/wonderbane_extension/actor_action_controller.h:137-157 | in every run, whatever the native side reports, answers or nests: within a producer namespace the requests submitted under a parent strictly increase, and no submission occurs twice, whatever is evicted, cancelled or closed |
| ActorLedgerRuns.SubmissionsAreRemembered | native/wonderbane_extension/actor_action_controller.h:213-297 | in every run the log of submissions only grows, so the previous result speaks of whole runs |
| ActorLedgerRuns.EvidenceOverRuns | native/wonderbane_extension/actor_action_controller.h:158-207 | entered, queued and uncertain history, settlement and an observed or interrupted application are never retracted from an action while its record is retained, through any run whatever |
| ActorLedgerRuns.OneUnsettledAtATime | native/wonderbane_extension/actor_action_controller.h:126-136 | in every run whatever at most one attack, cast, self power or item is unsettled |
| ActorLedgerMarks.ExecuteMarked | native/wonderbane_extension/actor_action_controller.h:213-297 | one Execute, whatever the native side does during it, keeps all identities distinct and below their high-water marks, keeps the log, and retracts no evidence |
| ActorLedgerCalls.ReportableIsAllowed | native/wonderbane_extension/actor_action_runtime.cpp:349 | every scope report the runtime makes is one its record may take, so the runtime meets the assumption under which receipts are valid |
| ActorLedgerRuns.ReachableOwnership | native/wonderbane_extension/actor_action_controller.h:94-125 | in every reachable ledger at most one parent and one context are owned, the active pointers name exactly those records, and each list holds at most 256 records |
| ActorLedgerRuns.ReachableFamilies | native/wonderbane_extension/actor_action_controller.h:103-114 | a child shows its closed parent's state, an owned child has an owned parent, and no action is unsettled under a closed scope |
| ActorLedgerRuns.StepKeeps | native/wonderbane_extension/actor_action_controller.h:189-297 | every report and every request keeps the invariant |
| ActorLedgerRuns.RunKeeps | native/wonderbane_extension/actor_action_controller.h:189-297 | so does every run, from any consistent ledger |
| ActorLedgerInvariant.ApplyKeeps | native/wonderbane_extension/actor_action_controller.h:94-115 | applying a fitting state to a record keeps the invariant and retracts no evidence |
| ActorLedgerInvariant.BeginStopKeeps | native/wonderbane_extension/actor_action_controller.h:116-121 | revoking a scope keeps the invariant before any native call is made |
| ActorLedgerInvariant.RecordKeeps | native/wonderbane_extension/actor_action_controller.h:158-175 | a recorded or refused operation result keeps the invariant |
| ActorLedgerInvariant.ObserveKeeps | native/wonderbane_extension/actor_action_controller.h:195-207 | an observed or interrupted application keeps the invariant and never settles local responsibility |
| ActorLedgerCalls.RunNestedKeeps | native/wonderbane_extension/actor_action_controller.h:223-232 | any number of operations nested in a native call keep the invariant |
| ActorLedgerCalls.StopScopeKeeps | native/wonderbane_extension/actor_action_controller.h:116-125 | stopping with its native call keeps the invariant, a report made during the call winning over its result |
| ActorLedgerCalls.ClaimKeeps | native/wonderbane_extension/actor_action_controller.h:255-260 | opening or attaching, with whatever is nested, keeps the invariant |
| ActorLedgerExecute.ReturnedKeeps | native/wonderbane_extension/actor_action_controller.h:287-294 | recording what Submit returned, and honouring a stop requested meanwhile, keeps the invariant |
| ActorLedgerExecute.OwnerStepKeeps | native/wonderbane_extension/actor_action_controller.h:249-260 | the owner verbs keep the invariant and answer validly |
| ActorLedgerExecute.ContextStepKeeps | native/wonderbane_extension/actor_action_controller.h:268-278 | the context verbs keep the invariant and answer validly |
| ActorLedgerExecute.ReplayKeeps | native/wonderbane_extension/actor_action_controller.h:233-241 | replaying or cancelling a retained action keeps the invariant and answers validly |
| ActorLedgerExecute.ActionStepKeeps | native/wonderbane_extension/actor_action_controller.h:279-296 | a new action keeps the invariant and answers validly, submitted or not |
| ActorLedgerExecute.ChildStepKeeps | native/wonderbane_extension/actor_action_controller.h:262-296 | creating a context within its high-water mark, and everything below it, keeps the invariant |
| ActorLedgerHistory.PruneKeeps | native/wonderbane_extension/actor_action_controller.h:137-157 | eviction keeps the invariant: no orphaned action, no lost active record, no request that could be repeated |
| ActorLedgerHistory.PruneMakesRoom | native/wonderbane_extension/actor_action_controller.h:137-157 | eviction always makes room for a parent and a context |
| ActorLedgerRuns.PruneSpares | native/wonderbane_extension/actor_action_controller.h:137-157 | eviction never removes an unsettled action or an open scope |
| ActorLedgerHistory.EvidenceSurvives | native/wonderbane_extension/actor_action_controller.h:158-175 | a record found again under its key after any evolution of the ledger carries at least the evidence it had |
| ActorLedgerInsertion.PushParentKeeps | native/wonderbane_extension/actor_action_controller.h:244-248 | a parent above the floor can be added without repeating any earlier one |
| ActorLedgerInsertion.PushContextKeeps | native/wonderbane_extension/actor_action_controller.h:263-267 | a context above its parent's floor can be added without repeating any earlier one |
| ActorLedgerInsertion.PushActionKeeps | native/wonderbane_extension/actor_action_controller.h:279-286 | an action above its parent's floor can be added, and logged if submitted, without repeating any earlier one |
| ActorLedgerRuns.RecordableIsExact | native/wonderbane_extension/actor_action_controller.h:287-293 | recording the result of Submit keeps the ledger consistent if and only if the result is recordable or the parent is still open |
| ActorLedgerWitness.ClosedParentReopens | native/wonderbane_extension/actor_action_controller.h:290 | a two-request run in which the parent closes during Submit, its result is unrecordable, and the unguarded write leaves an owned parent that is not the active one |
| ActorLedgerRuns.ForeignOutcomeIsExact | native/wonderbane_extension/actor_action_controller.h:255-260 | a reply to Open or Attach is valid if and only if the backend's outcome is not queued, history_expired or power_reuse_blocked |
| ActorLedgerRuns.NestedReplyIsExact | native/wonderbane_extension/actor_action_controller.h:223-232 | a reply made during a native call is valid if and only if it does not repeat a retained refusal reason |
| ActorLedgerWitness.NestedReplyCanBeInvalid | native/wonderbane_extension/actor_action_controller.h:230-231 | a status request nested in a native call after a typed refusal gets a receipt that is not valid |
| ActorLedgerWitness.RefusalIsRetained | native/wonderbane_extension/actor_action_controller.h:279-296 | the ledger of the previous witness is reached by opening an owner and having Submit refuse |
| ActorLedgerRuns.MayApplyIsExact | native/wonderbane_extension/actor_action_controller.h:208-212 | a scope report keeps the ledger consistent if and only if it names a phase and does not deny a binding under which something entered |
| ActorController.Controller.Apply | native/wonderbane_extension/actor_action_controller.h:94-115 | the list records, the pointers, the settling of actions and the closing of children are exactly the ledger's |
| ActorController.Controller.StopScope | native/wonderbane_extension/actor_action_controller.h:116-125 | revoke, native stop, and the stop's result unless the scope was reported meanwhile |
| ActorController.Controller.Prune | native/wonderbane_extension/actor_action_controller.h:137-157 | the three eviction loops compute exactly the ledger's eviction |
| ActorController.Controller.Record | native/wonderbane_extension/actor_action_controller.h:158-175 | records or refuses exactly as the ledger does |
| ActorController.Controller.UpdateAction | native/wonderbane_extension/actor_action_controller.h:189-192 | records a report for exactly the command it names |
| ActorController.Controller.ObserveApplication | native/wonderbane_extension/actor_action_controller.h:195-207 | the scan for a digest has exactly the ledger's effect, and it succeeds exactly when the command then holds the terminal state named |
| ActorController.Controller.UpdateScope | native/wonderbane_extension/actor_action_controller.h:208-212 | applies a report exactly to the scope it names |
| ActorController.Controller.ExecuteDuring | native/wonderbane_extension/actor_action_controller.h:213-232 | Execute while a native call is on the stack: at most a revocation |
| ActorController.Controller.Execute | native/wonderbane_extension/actor_action_controller.h:213-297 | state and receipt of one Execute are exactly those of the ledger, for every script of nested operations |
| ActivationTrail.CompletedOnlyBySequence | native/wonderbane_extension/combat_activation_lifecycle.h:142-243 | a completed record's log ends with start and append at two consecutive mutations in one frame (or an owned followup), then completion, first and tail removal at the next three, sharing frame, message, definition and thread, with nothing between |
| ActivationTrail.InterruptedExactly | native/wonderbane_extension/combat_activation_lifecycle.h:74-77 | after any run, a power of one's own is reported interrupted if and only if its log ends with the interrupting movement under that ticket |
| ActivationTrail.OverExactly | native/wonderbane_extension/combat_activation_lifecycle.h:78-82 | after any run, a power of one's own is reported over if and only if its log ends with the completing sequence, or with the interrupting movement, or it was given up to a manual start since it was armed |
| ActivationTrail.GivenUpExactly | native/wonderbane_extension/combat_activation_lifecycle.h:262-267 | a record is marked as relinquished if and only if, while it held its present ticket, a manual start sent later than it ended coherently: at the mutation of its sending, or two mutations on, in its own frame |
| ActivationTrail.InterruptedOnlyByMovement | native/wonderbane_extension/combat_activation_lifecycle.h:193-204 | an interrupted record was moved at the very next mutation after it became active, and became active as above |
| ActivationTrail.OutcomesStand | native/wonderbane_extension/combat_activation_lifecycle.h:268-283 | through any further run an outcome and its ticket stand, as long as no event arms the slot, resets the lifetime or comes when the counter is exhausted |
| ActivationTrail.CompletionIsReached | native/wonderbane_extension/combat_activation_lifecycle.h:209-243 | conversely the exact sequence of coherent steps from an active record does complete it |
| ActivationTrail.OneLiveRecord | native/wonderbane_extension/combat_activation_lifecycle.h:284-290 | in every reachable history at most one record is live, it is queued, and the current token is exactly its mutation, ticket and slot |
| ActivationTrail.StaleTokensAreInert | native/wonderbane_extension/combat_activation_lifecycle.h:284-290 | a token issued before the latest mutation changes nothing, then or after any further run |
| ActivationTrail.TicketsAreFresh | native/wonderbane_extension/combat_activation_lifecycle.h:44-51 | arming issues a ticket above every ticket and mutation so far, across lifetime resets |
| Activation.StepKeeps | native/wonderbane_extension/combat_activation_lifecycle.h:44-243 | each of the twenty-seven events keeps the invariant of the history |
| ActivationTrail.RunIsTraced | native/wonderbane_extension/combat_activation_lifecycle.h:44-243 | at every moment of every run, a live or finished record's log ends with a path of consecutive mutations leading to its phase |
| ActivationHistory.History.Arm | native/wonderbane_extension/combat_activation_lifecycle.h:44-51 | arms a slot at a fresh ticket, invalidating what was live |
| ActivationHistory.History.QueueResult | native/wonderbane_extension/combat_activation_lifecycle.h:52-56 | exactly the queue-result event |
| ActivationHistory.History.BeginOwnedFollowup | native/wonderbane_extension/combat_activation_lifecycle.h:61-67 | exactly the followup event, returning the new token |
| ActivationHistory.History.OwnedFollowupReturned | native/wonderbane_extension/combat_activation_lifecycle.h:68-73 | exactly the followup's return |
| ActivationHistory.History.ResetExactLifetime | native/wonderbane_extension/combat_activation_lifecycle.h:83-86 | forgets everything but the mutation counter |
| ActivationHistory.History.ForeignItemSend | native/wonderbane_extension/combat_activation_lifecycle.h:90-93 | gives up every unfinished interpretation of the actor |
| ActivationHistory.History.ManualSend | native/wonderbane_extension/combat_activation_lifecycle.h:98-102 | exactly the manual-send event |
| ActivationHistory.History.BeginManualStart | native/wonderbane_extension/combat_activation_lifecycle.h:103-111 | exactly the manual start |
| ActivationHistory.History.ManualProcessReturned | native/wonderbane_extension/combat_activation_lifecycle.h:128-134 | relinquishes exactly the earlier owned self powers |
| ActivationHistory.History.ManualDirectReturned | native/wonderbane_extension/combat_activation_lifecycle.h:135-138 | exactly the direct return, succeeding exactly for the manual start just sent |
| ActivationHistory.History.OtherActivity | native/wonderbane_extension/combat_activation_lifecycle.h:139-141 | invalidates every live interpretation at a new mutation |
| ActivationHistory.History.BeginStart | native/wonderbane_extension/combat_activation_lifecycle.h:142-166 | the scan for the one queued record, the ambiguity rule and the new token are exactly the event's |
| ActivationHistory.History.BeginAppend | native/wonderbane_extension/combat_activation_lifecycle.h:173-181 | exactly the append event, returning the new token |
| ActivationHistory.History.BeginMovement | native/wonderbane_extension/combat_activation_lifecycle.h:193-199 | exactly the movement event |
| ActivationHistory.History.BeginCompletion | native/wonderbane_extension/combat_activation_lifecycle.h:209-218 | exactly the completion event, in a frame it adopts |
| ActivationHistory.History.BeginRemoval | native/wonderbane_extension/combat_activation_lifecycle.h:224-232 | exactly the removal events, in the adopted frame |
| ActivationHistory.History.CompletionProcessReturned | native/wonderbane_extension/combat_activation_lifecycle.h:240-243 | completes exactly the record of the latest token |
| ActivationHistory.History.LocalInterrupted | native/wonderbane_extension/combat_activation_lifecycle.h:74-77 | after any run, true exactly for a power of one's own of that identity and ticket whose log ends with the interrupting movement |
| ActivationHistory.History.LocalTerminal | native/wonderbane_extension/combat_activation_lifecycle.h:78-82 | after any run, true exactly for a power of one's own of that identity and ticket that was completed or interrupted in sequence, or given up to a manual start |
| EffectEpoch.CaptureIsQuiet | native/wonderbane_extension/actor_effects_native.cpp:311-329 | in every interleaving of any number of mutators, a successful capture means that no mutation body ran from its first to its second reading of the epoch and that the copied effects were the effects throughout |
| EffectEpoch.RevalidationIsQuiet | native/wonderbane_extension/actor_effects_native.cpp:330-339 | a successful revalidation extends this to its own last reading of the epoch |
| EffectEpoch.QuietToTheEnd | native/wonderbane_extension/actor_effects_native.cpp:330-339 | up to the last reading of all, that of the depth, no body ran if and only if one more reading of the epoch there would still agree |
| EffectEpoch.LateBodyIsMissed | native/wonderbane_extension/actor_effects_native.cpp:336-338 | a whole mutation fits between the last two readings: both calls succeed and the effects have changed |
| EffectEpoch.QuietBetween | native/wonderbane_extension/actor_effects_native.cpp:36-67 | one reading of depth zero between two equal readings of the epoch excludes every body between those two |
| EffectEpoch.NextKeeps | native/wonderbane_extension/actor_effects_native.cpp:36-67 | the depth is the number of mutators counted in, and the epoch never decreases, at every atomic step |
| EffectEpoch.EnteringSince | native/wonderbane_extension/actor_effects_native.cpp:48-56 | while the epoch stands still after depth zero, whoever is counted in has not reached its body |
| EffectEpoch.InsideUntil | native/wonderbane_extension/actor_effects_native.cpp:57-63 | a mutator found inside its body is still counted in as long as the epoch stands still |
| Journal.NeverLost | native/wonderbane_extension/actor_application_journal.h:45-100 | from the moment a reservation may have been entered, no sequence of journal calls drops its slot, nor lets its intent be reserved again, until it is locally settled and observed or interrupted |
| Journal.ReachableIsPublishable | native/wonderbane_extension/actor_publication.cpp:54-62 | every journal that can be reached passes the publication's checks on application records |
| Journal.ObservedOnlyWhenRenewed | native/wonderbane_extension/actor_application_journal.h:102-114 | an application becomes observed only by a complete, present, later observation of its intent in which every deadline supplied at its reservation has been numerically outlived |
| Journal.GrantedExactly | native/wonderbane_extension/actor_application_journal.h:45-67 | a reservation is granted exactly when the journal is sound, the digests and deadlines are valid, nothing pending holds its intent or command, and some slot is owed nothing |
| Journal.EvidenceGrows | native/wonderbane_extension/actor_application_journal.h:68-101 | what a slot records of its command only grows while the slot holds it |
| Journal.StepKeeps | native/wonderbane_extension/actor_application_journal.h:45-114 | every call keeps the journal's invariant |
| Coverage.BaselineIsLatest | native/wonderbane_extension/actor_application_journal.h:16-28 | a baseline is kept exactly when all deadlines are valid and at most sixty-four descriptors occur, and then holds each descriptor's latest deadline, once |
| Coverage.AdvancedIsLater | native/wonderbane_extension/actor_application_journal.h:131-141 | a baseline has advanced exactly when every deadline it was made of has a numerically later one for its descriptor |
| Binary64.OrderIsNumeric | native/wonderbane_extension/actor_application_journal.h:131-141 | the unsigned order of positive finite binary64 patterns is the order of their numbers |
| Binary64.Fields | native/wonderbane_extension/actor_effects_native.h:28-31 | the patterns of positive finite numbers are exactly those strictly between zero and infinity's |
| Coverage.CoverageDeadlines.Add | native/wonderbane_extension/actor_application_journal.h:19-26 | keeps the per-descriptor maximum in place, refusing invalid or excess deadlines |
| ApplicationJournal.ApplicationJournal.Reserve | native/wonderbane_extension/actor_application_journal.h:45-67 | grants exactly the first slot that is owed nothing, or nothing |
| ApplicationJournal.ApplicationJournal.Record | native/wonderbane_extension/actor_application_journal.h:68-88 | takes or refuses a report exactly as specified, a refusal faulting the journal |
| ApplicationJournal.ApplicationJournal.Interrupt | native/wonderbane_extension/actor_application_journal.h:89-101 | interrupts exactly the named queued command |
| ApplicationJournal.ApplicationJournal.Observe | native/wonderbane_extension/actor_application_journal.h:102-114 | marks exactly the pending records of the intent whose deadlines have all advanced |
| ApplicationJournal.ApplicationJournal.IsPending | native/wonderbane_extension/actor_application_journal.h:115-121 | true exactly when some slot still owes something for the intent |
| ApplicationJournal.ApplicationJournal.LocalPending | native/wonderbane_extension/actor_application_journal.h:122-125 | true exactly when some slot is not locally settled |
| Publication.EveryStoreIsCoherent | native/wonderbane_extension/actor_publication.cpp:187-193 | at every store of every run, a slot under an even positive sequence, and any active slot, holds exactly a frame published under that sequence |
| Publication.StoresAreCoherent | native/wonderbane_extension/actor_publication.cpp:187-192 | through the four kinds of store of one publication the slot being written is never the active one, and no slot's sequence goes back |
| Publication.ReadersSeeWholeFrames | native/wonderbane_extension/actor_publication.cpp:187-192 | a reader that finds the same even sequence before and after has read, at any moment in between, exactly one published frame |
| Publication.SequencesNeverRepeat | native/wonderbane_extension/actor_publication.cpp:187-189 | over a writer's whole life, closing and opening again included, no two publications share a sequence number, and every published frame is consistent |
| Publication.RevisionsIdentifyFacts | native/wonderbane_extension/actor_publication.cpp:65-88 | of any two published frames, equal revisions mean equal facts but for countdown, tick and sequence, and equal renewals due; equal admission revisions mean equal eligibility |
| Publication.CountersNeverDecrease | native/wonderbane_extension/actor_publication.cpp:143-195 | neither counter ever decreases |
| Publication.StepKnows | native/wonderbane_extension/actor_publication.cpp:143-201 | every call keeps what ties the counters to the frames published so far |
| Publication.PublishedIsActive | native/wonderbane_extension/actor_publication.cpp:187-192 | a successful publication makes its own facts the active frame |
| Publication.CurrentIsLast | native/wonderbane_extension/actor_publication.cpp:107-109 | after any run the frame an open, unfaulted writer stands by is the last one published, it is what readers find under the active index, and it is valid if and only if its snapshot and tick are not zero |
| Publication.CurrentIsActive | native/wonderbane_extension/actor_publication.cpp:187-201 | in every run some slot is active if and only if the writer stands by a frame, and then it is that frame |
| Publication.PublishedIsValid | native/wonderbane_extension/actor_publication.cpp:176-186 | given a clock that has started and random ids that are not zero, every frame ever published is valid |
| Publication.FaultsAreFinal | native/wonderbane_extension/actor_publication.cpp:178-193 | after a fault nothing is active and nothing is ever published again |
| PublicationFrame.SameIsEquivalence | native/wonderbane_extension/actor_publication.cpp:81-88 | the comparison of facts is an equivalence relation |
| PublicationFrame.EligibilityIsEquivalence | native/wonderbane_extension/actor_publication.cpp:70-80 | the comparison of eligibility is an equivalence relation |
| PublicationFrame.SameExactly | native/wonderbane_extension/actor_publication.cpp:81-88 | two frames compare equal exactly when they agree on everything but stamps and countdowns, and on the renewals due |
| PublicationFrame.StampsAreNotFacts | native/wonderbane_extension/actor_publication.cpp:107-109 | what the writer stamps on a frame changes neither its consistency nor its eligibility |
| PublicationWriter.Writer.Open | native/wonderbane_extension/actor_publication.cpp:143-161 | a blank mapping with counters no lower than the floors, or a closed writer |
| PublicationWriter.Writer.TrackAdmission | native/wonderbane_extension/actor_publication.cpp:162-168 | exactly the tracking of eligibility |
| PublicationWriter.Writer.ObserveAdmission | native/wonderbane_extension/actor_publication.cpp:169-172 | exactly the observation of a failed admission |
| PublicationWriter.Writer.InvalidateAdmission | native/wonderbane_extension/actor_publication.cpp:173-175 | exactly the loss of known eligibility, failing exactly for a closed or faulted writer or at the end of the counter |
| PublicationWriter.Writer.Publish | native/wonderbane_extension/actor_publication.cpp:176-195 | state and every intermediate store are exactly those specified |
| PublicationWriter.Writer.Unknown | native/wonderbane_extension/actor_publication.cpp:196 | publishes exactly that nothing is known, and refuses a zero reason |
| PublicationWriter.Writer.Current | native/wonderbane_extension/actor_publication.cpp:197 | after any run, the last published frame, as it stands under the active index, and whether it is valid, which only a zero snapshot or tick prevents |
| PublicationWriter.Writer.Close | native/wonderbane_extension/actor_publication.cpp:198-201 | exactly the closing event |
| Resolver.DeadlineIsMinOfMax | native/wonderbane_extension/actor_buff_observation.cpp:133-199 | for every snapshot and definition, the published deadline is the soonest over the required descriptors of each one's last deadline, and zero exactly when some descriptor is absent or has an untimed match; its countdown was sampled with it |
| Resolver.CoverageIsExact | native/wonderbane_extension/actor_buff_observation.cpp:187-190 | the descriptors are exactly those required, each once; coverage is present exactly when all are on the actor, and absence is claimed exactly when none is and none could have been suppressed |
| Resolver.DescribedDeadline | native/wonderbane_extension/actor_buff_observation.cpp:145-157 | a descriptor's deadline is the numerically longest of its effects, zero exactly if absent or untimed |
| Resolver.GatheredIsSound | native/wonderbane_extension/actor_buff_observation.cpp:165-186 | gathering yields each required descriptor once, as the effects and definitions describe it |
| ActionFacts.ActionFacts.AddDescriptor | native/wonderbane_extension/actor_buff_observation.cpp:133-158 | the scans over descriptors and effects add exactly the described descriptor, or fail exactly as specified |
| ActionFacts.ActionFacts.Selectors | native/wonderbane_extension/actor_buff_observation.cpp:159-199 | the running minima and maxima come to exactly the resolved facts |
| PublicationEncoding.CoverageAgrees | native/wonderbane_extension/actor_publication.cpp:23-35 | offset, recomputed coverage and timing of every published line agree with the resolved facts it was encoded from |
| PublicationEncoding.DescriptorsAgree | native/wonderbane_extension/actor_publication.cpp:48-53 | every published descriptor is present exactly when a published effect shows it |
| PublicationEncoding.EncodeSucceedsExactly | native/wonderbane_extension/actor_publication.cpp:115-142 | encoding resolved facts with a reachable journal fails only for a mismatched manifest, an overflow, a fault or a residual inconsistency, never for coverage, timing, descriptors or applications |
| DescriptorLookup.LookupAgrees | native/wonderbane_extension/actor_buff_observation.cpp:82-101 | over any well-formed red-black map of 32-bit ids the lookup returns exactly the map's entry, or that there is none, so the limit of sixty-four nodes is never the cause of a refusal; a count out of range is refused |
| DescriptorLookup.SixtyFourLevels | native/wonderbane_extension/actor_buff_observation.cpp:92-103 | no path of such a map has more than sixty-four nodes, whether or not the manager keeps a count |
| DescriptorLookup.SecondReadingIsSound | native/wonderbane_extension/actor_buff_observation.cpp:105-114 | however memory moved in between, what passes the second reading is what a lookup finds in the later memory, and what the map held there says |
| DescriptorLookup.FoundIsThere | native/wonderbane_extension/actor_buff_observation.cpp:82-101 | whatever the memory, a value is found only at the end of a chain of at most sixty-four links from the root, in a readable node with that id |
| DescriptorLookup.Find | native/wonderbane_extension/actor_buff_observation.cpp:82-101 | the loop over the search path is exactly the lookup, and records exactly the manager and the nodes it rests on |
| DescriptorLookup.MapCurrent | native/wonderbane_extension/actor_buff_observation.cpp:105-114 | the second reading succeeds exactly when manager and path are unchanged |
| SelectorManifest.GroupBytesAreCanonical | native/wonderbane_extension/actor_selector_manifest.h:63-74 | two groups of valid manifests are hashed as the same bytes exactly when they hold the same selector tuples, whatever their order, index or group number |
| SelectorManifest.SortedIsUnique | native/wonderbane_extension/actor_selector_manifest.h:69 | sorted chunks with the same contents are the same sequence, whatever the sorting procedure |
| SelectorManifest.EncodedIsInjective | native/wonderbane_extension/actor_selector_manifest.h:67 | different selector tuples have different bytes |
| SelectorManifest.GroupDigest | native/wonderbane_extension/actor_selector_manifest.h:63-74 | collecting, sorting in place and joining yields exactly the canonical bytes, and is refused exactly for an invalid manifest or group |
| MotionIdle.IdleExactlyWhenAbsent | native/wonderbane_extension/actor_preparation_motion.h:24-54 | where each of two well-formed red-black maps of at most 2^20 entries is held by memory that is stable while it is read, the map test accepts exactly when the key is in neither |
| MotionIdle.AcceptsExactlyAbsence | native/wonderbane_extension/actor_preparation_motion.h:34-46 | for one map: accepts exactly when the key is absent, after at most forty nodes, so the limit of sixty-four is never the cause of a refusal |
| MotionIdle.FortyLevels | native/wonderbane_extension/actor_preparation_motion.h:28-29 | no path of such a map has more than forty nodes, whichever color is red |
| RedBlackShape.Levels | native/wonderbane_extension/actor_preparation_motion.h:28-29 | a red-black shape with a black root and fewer than 2^(k+1) - 1 nodes has at most 2k levels |
| MotionIdle.AcceptanceIsSound | native/wonderbane_extension/actor_preparation_motion.h:47-53 | however memory moved between the two passes, acceptance proves absence from whatever search tree the second pass found |
| MotionIdle.TestMap | native/wonderbane_extension/actor_preparation_motion.h:24-54 | the walk with its bounds and path, and the second pass over that path, are exactly the test |
| MotionIdle.Idle | native/wonderbane_extension/actor_preparation_motion.h:24-54 | both maps are tested, in order, each at two moments of its own |
| InventoryCensus.Capture | native/wonderbane_extension/actor_inventory_native.cpp:113-126 | succeeds exactly when memory holds two coherent trees, and then the census is exactly their nodes |
| InventoryCensus.Census.Walk | native/wonderbane_extension/actor_inventory_native.cpp:86-112 | records exactly the nodes of the tree below an address, with its first and last node, and succeeds exactly on a finite ordered tree with correct parent links, qualified members, new addresses and keys, within the bounds |
| InventoryCensus.CoherentCensus | native/wonderbane_extension/actor_inventory_native.cpp:113-126 | a coherent census is the union of both trees' nodes, and all keys and addresses are distinct across them |
| InventoryCensus.LinksAreExtremes | native/wonderbane_extension/actor_inventory_native.cpp:122-123 | each head's first and last links are the least and the greatest node of its tree, or the head itself |
| InventoryCensus.HeldIsUnique | native/wonderbane_extension/actor_inventory_native.cpp:86-112 | memory determines the tree |
| KeyTree.LeftmostIsLeast | native/wonderbane_extension/actor_inventory_native.cpp:110 | the first node in order has the least key |
| KeyTree.RightmostIsGreatest | native/wonderbane_extension/actor_inventory_native.cpp:110 | the last node in order has the greatest key |
| CombatLedger.StartedAtMostOnce | native/wonderbane_extension/combat_controller.h:103-124 | over every run, with any calls nested in native calls, whatever the commands and replies, no request is started twice |
| CombatLedger.NeverStartedAfterCancel | native/wonderbane_extension/combat_controller.h:90-102 | after an accepted cancel a request is never started, however late its start comes |
| CombatLedger.NestedCancelIsPinned | native/wonderbane_extension/combat_controller.h:90-102 | a cancel accepted inside a native call is recorded when that call returns, so the previous result applies to it |
| CombatLedger.RecordsStay | native/wonderbane_extension/combat_controller.h:105-106 | in every run no record is ever evicted or given another command, and no recorded request is started again |
| CombatLedger.CleanupIsTheActiveOne | native/wonderbane_extension/combat_controller.h:34-57 | a record requires cleanup exactly if it is the single active one, and every retained receipt is valid for its own command |
| CombatLedger.OneAtATime | native/wonderbane_extension/combat_controller.h:104 | nothing is started while any record requires cleanup |
| CombatLedger.RetiredIsFinal | native/wonderbane_extension/combat_controller.h:139-150 | once retired with its scene a record stays retired and owes nothing, through any further run |
| CombatLedger.NestedCallsStayLocal | native/wonderbane_extension/combat_controller.h:79-104 | an Execute nested in a native call never makes another |
| CombatLedger.StepKeeps | native/wonderbane_extension/combat_controller.h:67-150 | every call keeps the ledger's invariant, and starts only what was never recorded |
| CombatController.Controller.Accept | native/wonderbane_extension/combat_controller.h:34-50 | takes a credible receipt, or blocks the record |
| CombatController.Controller.PreserveEvidence | native/wonderbane_extension/combat_controller.h:51-57 | adds only evidence of an outbound request |
| CombatController.Controller.Update | native/wonderbane_extension/combat_controller.h:129-136 | accepts exactly a correlated receipt for the active record |
| CombatController.Controller.Retire | native/wonderbane_extension/combat_controller.h:139-150 | the loop over all records retires exactly those of the scene |
| CombatController.Controller.Execute | native/wonderbane_extension/combat_controller.h:67-125 | state and receipt are exactly those specified, and the receipt is valid for the command |

## Left out

- ActorLedgerRuns.EveryReceiptIsValid: assumes that every scope report is one its record may take (exact by MayApplyIsExact, and met by the runtime, which reports only stopping, native_stopped, local_released and scene_retired, actor_action_runtime.cpp lines 349, 370 and 402: ReportableIsAllowed), that Open and Attach do not answer queued, history_expired or power_reuse_blocked (exact by ForeignOutcomeIsExact), and that an unrecordable Submit result does not come back under a parent that closed meanwhile (exact by RecordableIsExact).
- ActorLedgerExecute.ExecuteKeeps: the same assumptions, for one call; nested replies are covered by NestedReplyIsExact instead.
- ActorLedgerRuns.EvidenceOverRuns: speaks of actions still retained in the same namespace; what is evicted is settled (PruneSpares) and never submitted again (NeverSubmittedTwice).
- EffectEpoch.RevalidationIsQuiet: claims quiet up to the last reading of the epoch, not of the depth, because the latter is false; it assumes at most 2^31 - 1 mutators at once, which a 32-bit process cannot exceed; the installed flag and the hook bytes read by Ready are not modelled.
- PublicationEncoding.EncodeSucceedsExactly: the encoder, like the frame's own check (PublicationFrame.Facts), is modelled on values, not as loops over a buffer.
- EffectEpoch.NextKeeps: the compare-exchange loops are steps of a state machine, since their point is to be interleaved; they are not methods with loops.
- MotionIdle.IdleExactlyWhenAbsent: the scalar movement operands read before and after the maps are left out.
- DescriptorLookup.LookupAgrees: the words of the manager are given as one reading; the read and time budgets of every reader are left out.
- InventoryCensus.Capture: what makes a member's further facts readable is one given fact about the member; budgets are left out.
- CombatLedger.CleanupIsTheActiveOne: assumes, as do OneAtATime and RetiredIsFinal, that a command passed as valid has a sound echo (host, window, grant, request, digest), which movement_wire.h decides and is not part of this model.
- Digests: a command digest is the command itself, that is, an injective function that is never zero; other digests are naturals. SHA-256 is not modelled.
- Identifiers and counters: identifiers are naturals, as their big-endian comparison is numeric; scope revisions and publication ticks are unbounded. The mutation counter, the epoch, the depth, the publication counters and the update counters have the program's own limits.
- Enumeration values and flag words out of range, and padding or unused array elements that are not zero, cannot be represented; the checks that refuse them are left out.
- Diagnostic text and diagnostics (detail, Diagnose) are left out.
- Reference counts of retained inventory items (Access::Run, ReleaseInner) are left out.
- The items, readiness and learned-rank parts of the resolver are left out: straight checks of native memory.
- Windows mappings, security descriptors, exception handlers, breakpoints and trampolines, object layouts and image hashes are left out.
- Command queues, fences, tickets, city windows, trace, rendering and scripts are left out: they would add only easy members.
