# JobForge: a verified model of Run execution, its ledger, its graph and its events

JobForge executes long-running support Runs: a control plane owns each Run's state in a
database, workers hold short leases to execute its steps, every step's result is committed to a
hash-chained checkpoint, model and tool calls are charged to budget accounts before they are sent,
an approved proposal becomes one business write, and state changes are announced through an outbox.
This project models that logic in Dafny and proves what it is for.

Each mutable record or service is a class whose methods are proved against a function of the old
state; the theorems are about those functions and about all sequences of them. Database
transactions are atomic steps. SHA-256 is a parameter, never assumed injective: a theorem that needs
it names the finite set of inputs on which it must not collide. A Go string is a sequence of bytes,
written as a `string` whose characters are bytes. Times are integers.

| module | models |
|---|---|
| `Identity` | identifiers, decimal printing, the length-prefixed digest encoding |
| `RunModel`, `RunPolicy`, `RunMachine`, `RunProgress` | a Run and its authority, each transition, whole runs, and what each step achieves |
| `RunClock`, `LeaseKeeper`, `ExecutionSafety` | the worker's local authority, and server, network and workers together |
| `CheckpointNumber`, `CheckpointRange`, `CheckpointJson`, `CheckpointChain` | canonical results and the commit chain, produced and checked |
| `BusinessModel`, `SupportSources`, `SupportReads` | what a snapshot freezes, what an accepted read says of it, and where claims may point |
| `SupportProposal`, `SupportCitations`, `ProposalResolution` | compiling and reversing a proposal, what it cites, and what is signed of it |
| `CommitGraph`, `CommitDecisions`, `CommitLanguage` | which step may follow which, what it must say, and the histories that result |
| `PolicyQueries` | the registered search texts, and reads made under them |
| `CommitClosing`, `CommitRuns`, `CommitPhases` | how a run that awaits its proposal is closed, closed runs of every support program, and agent runs through every phase |
| `Budget`, `Tariff`, `CallLedger` | accounts, prices and reservations, and three accounts charged together |
| `Conversation`, `ConversationLog`, `ConversationRuns` | one supervised exchange with the executor, what its log looks like, and exchanges that succeed |
| `TicketResolution` | the one business write and its receipts |
| `OutboxEnvelope`, `EventPipeline`, `PipelineCode`, `PipelineProgress` | the event envelope, publishers and consumers as a machine, the code that takes its steps, and that nothing gets stuck |

Assumptions of `ExecutionSafety`: the database clock never goes back; local clocks run at its rate
with an unknown offset; a worker has stopped executing before it reports a failure or submits a final
step (internal/runworker/lifecycle.go:204-226). A closing commit leaves the authority in place in the
code, because its transaction clears it; `RunMachine` models the two together.

Where the code does less than its documentation suggests, the code is modelled and the exact condition
is proved:

- `SettleAccount` promises that an over-bound report freezes the account. A report so large that the
  account's known total would leave the safe integer range is refused with an internal error instead,
  because that test comes first: `CallLedger.SettleRefusedExactly`, `CallLedger.OversizedReportIsInternal`.
  This is a fact about the function, not about the stored ledger: its callers screen over-bound reports
  and freeze the accounts themselves (internal/run/postgres/ledger.go:661-690,
  internal/run/postgres/provider_audit_report.go:73-86, tools/support_diagnosis/ledger.go:361-363), and
  then nothing they pass on is refused: `CallLedger.ScreenedAlwaysRecorded`.
- An identical replay of a resolution promises its first receipt. A receipt written less than thirty
  days below the safe integer bound does not validate, and its replay conflicts:
  `TicketResolution.WrittenReceiptValid`, `TicketResolution.ReplayReturnsFirstReceipt`,
  `TicketResolution.LateAuthorizationsExist`, `TicketResolution.LateReplayConflicts`. Such a receipt needs a
  database clock near the bound, 9007199254740991 microseconds, about the year 2255.

The envelope's JSON form replaces an empty payload by `{}` (internal/outbox/envelope.go:77-91), its stream
form does not. No row of the outbox can have one: the column is `jsonb not null default '{}'`
(migrations/0004_create_outbox_events.up.sql:12), and such a row is read back
(`OutboxEnvelope.LegacyRowIsRead`). An event type of white space alone is a text that column admits and no
consumer reads (`OutboxEnvelope.BlankTypeIsNotRead`); every writer uses a fixed type.

## Model

| member | source | states |
|---|---|---|
| Identity.WriteFields | internal/run/identity.go:18-27 | The loop feeds the hash exactly the length-prefixed encoding of the domain and its fields |
| Identity.EncodeInjective | internal/run/identity.go:18-27 | Two field lists with the same encoding are the same list |
| Identity.FormatIntInjective | internal/run/checkpoint.go:93-102 | Decimal printing loses nothing: different integers, signed ones included, print differently |
| Identity.CommitFieldsInjective | internal/run/checkpoint.go:97-102 | A commit digest's input determines every step field and the canonical result |
| Identity.StepInputFieldsInjective | internal/run/checkpoint.go:92-95 | A step input digest's input determines profile, snapshot, cursor and previous commit |
| RunPolicy.ClaimExecution | internal/run/policy.go:55-80 | Refusals in order leave both records untouched; success installs a lease with the next attempt and fencing token, bounded by the attempt and Run deadlines |
| RunPolicy.RequestCancel | internal/run/policy.go:84-110 | A cancel ends a waiting Run at once and otherwise stops the attempt, keeping the first request |
| RunPolicy.RequestStop | internal/run/policy.go:113-135 | A stop cause is accepted only when it holds and never replaces an earlier one |
| RunPolicy.Heartbeat | internal/run/policy.go:139-160 | Only the current live lease is renewed, to the least of lease time, attempt deadline and Run deadline |
| RunPolicy.CloseAttempt | internal/run/policy.go:164-220 | Every refusal leaves both records untouched; otherwise the attempt converges to cancelled, failed or a retry by the recorded cause, and the authority is relinquished |
| RunPolicy.ExpireWaiting | internal/run/policy.go:224-259 | A sweep cancels, fails or readies a waiting Run, or changes nothing |
| RunPolicy.ApplyCommit | internal/run/checkpoint.go:424-459 | A refused commit changes neither record; an accepted one advances the cursor and bytes and binds the next step's input to the commit, or closes |
| RunPolicy.YieldForApproval | internal/run/checkpoint.go:463-474 | A running Run before its deadline yields with a permission no longer than an hour or its deadline |
| RunPolicy.DecideApproval | internal/run/action.go:75-92 | Only a live, uncancelled wait is decided: rejected for good, or readied for the resolution step |
| RunPolicy.CompleteAction | internal/run/postgres/action_calls.go:246-340 | A refused completion changes neither record; an accepted one is one more step within the limits, ends the Run as applied and relinquishes the authority |
| RunMachine.InvExecute | internal/run/policy.go:55-259 | Over every interleaving at nondecreasing times: attempts accounted, deadlines nested, stops justified, history fenced |
| RunMachine.AttemptAccounting | internal/run/policy.go:55-80 | In every run the attempt number is recoveries plus approvals, plus one while an attempt is open; at most one approval, five claims, thirty-two commits |
| RunMachine.ChangesBounded | internal/run/policy.go:164-259 | Heartbeats aside, a Run changes at most as often as an explicit measure says |
| RunMachine.TerminalIsFinal | internal/run/policy.go:261-268 | Nothing changes a terminal Run |
| RunMachine.CancelSticky | internal/run/policy.go:84-110 | Once a cancel is recorded nothing more is claimed or committed and Cancelled is the only end |
| RunMachine.RenewalNeverShortens | internal/run/policy.go:139-160 | A renewal never shortens the lease and keeps it within the attempt and Run deadlines |
| RunMachine.CloseAccepted | internal/run/policy.go:164-220 | Exactly when closing a reachable active attempt is accepted, and that it is never an internal error |
| RunMachine.NoInternalErrors | internal/run/policy.go:55-80 | No claim or sweep of a reachable Run is an internal error, and a ready Run before its deadline can always be claimed |
| RunMachine.ExpiredLeaseCloses | internal/run/policy.go:164-220 | An expired lease can always be closed, whatever else happened to the attempt |
| RunMachine.PastDeadlineEnds | internal/run/policy.go:224-259 | Past its deadline one sweep, or one lease-expired close, ends any Run |
| RunMachine.StaleLeaseNeverAccepted | internal/run/policy.go:25-50 | No lease older than the latest claim ever executes, renews, commits or completes a resolution again |
| RunMachine.AppliedExactlyApproved | internal/run/postgres/action_calls.go:301-338 | In every run a Run has an outcome exactly when it succeeded, and that outcome is the applied one exactly when it was approved |
| RunMachine.FencedHistory | internal/run/checkpoint.go:424-459 | Accepted commits have contiguous sequences, tokens that never fall, and bytes that add up within 256 KiB |
| RunProgress.CurrentLeaseExecutes | internal/run/policy.go:25-50 | Exactly the latest claimant executes and renews, exactly while its Run is running and its lease lasts; anyone else is told stale, cancelled or stopped |
| RunProgress.ClaimStartsExactly | internal/run/policy.go:55-80 | A claim starts an attempt with thirty seconds of lease and a hundred and eighty in all exactly on a ready Run before its deadline, and the work goes on where it was |
| RunProgress.CommitTakenExactly | internal/run/checkpoint.go:424-459 | A commit is taken exactly from the executing lease, for the one awaited step, with no call open, within thirty-two steps and 256 KiB, and if it says what follows |
| RunProgress.CommitAdvances | internal/run/checkpoint.go:424-474 | A taken commit adds one record and leads to the next step, to an hour's wait for approval, or to the end without an action |
| RunProgress.CommitKeepsLease | internal/run/checkpoint.go:424-459 | Its lease goes on executing unless the commit closes the attempt, and then none does |
| RunProgress.FailureIsRetried | internal/run/policy.go:164-220 | From every reachable running attempt a curable failure is retried three times, after one, two and four seconds, with its own code; the fourth ends the Run |
| RunProgress.RetryReadied | internal/run/policy.go:224-259 | A sweep changes nothing before a retry is due, and readies the Run from then on |
| RunProgress.RecoveryResumes | internal/run/policy.go:164-259 | A recovery loses nothing and repeats nothing: after failure, sweep and claim the Run runs again under the next attempt with the same history and the same step to do |
| RunProgress.PermanentFailureEnds | internal/run/policy.go:164-220 | A permanent failure ends the Run at once with its own code |
| RunProgress.CancelTakesEffect | internal/run/policy.go:84-110 | A cancel ends a waiting Run at once; an active one executes no more from then on and ends cancelled at whatever close comes |
| RunProgress.StopTakesEffect | internal/run/policy.go:113-220 | A stop counts exactly once its deadline has passed, nothing executes after it, and the end is decided by that first cause whatever close comes |
| RunProgress.ApprovalWindow | internal/run/action.go:75-92 | A decision counts exactly while the window is open, and a sweep fails the Run exactly once it is not |
| RunProgress.ResolutionCompletes | internal/run/postgres/action_calls.go:301-338 | A receipt completes the Run exactly from the executing lease of an approved Run, for the awaited step and within the limits |
| RunProgress.ApprovedRunApplies | internal/run/action.go:75-92 | From every state with an open window, decide, claim and resolve end the Run as applied |
| RunProgress.EndedRunRefuses | internal/run/policy.go:261-268 | Every operation asked of a Run that has ended says that it has |
| RunProgress.RefusalsExplained | internal/run/policy.go:55-259 | Which refusals of a reachable Run are invalid arguments and which invalid transitions |
| RunProgress.RefusedBeatExplained | internal/run/policy.go:139-160 | A refused heartbeat tells the claimant of its stop even when its lease is over, and everyone else that they are stale |
| RunProgress.RefusedCommitExplained | internal/run/checkpoint.go:424-459 | Why a commit from the executing lease is refused, first reason first |
| RunProgress.ChangesAreStamped | internal/run/policy.go:55-259 | Whatever changes a reachable Run stamps it with the time of the change |
| RunClock.Conservative | internal/runclock/clock.go:26-48 | For any offset, sampling instant inside the call and millisecond rounding, a local reading below the mapped deadline means the database is before the expiry |
| RunClock.NearlyTight | internal/runclock/clock.go:26-48 | The mapping gives away less than two milliseconds beyond the outbound delay |
| LeaseKeeper.NewKeeper | internal/runworker/authority.go:29-47 | A keeper is created exactly from valid stamps, with each deadline mapped under its own limit |
| LeaseKeeper.Keeper.Check | internal/runworker/authority.go:49-65 | A check passes exactly while not stopped, with a clock sample below every deadline, and a failed one stops the keeper |
| LeaseKeeper.Keeper.Heartbeat | internal/runworker/authority.go:94-131 | A response renews only under still valid old authority; every other response stops the keeper |
| LeaseKeeper.RevokedForever | internal/runworker/authority.go:49-80 | After one failed check no sequence of heartbeat responses, however late, lets a check pass again |
| LeaseKeeper.RenewalNeedsOldAuthority | internal/runworker/authority.go:94-131 | Deadlines change only under valid old authority, and the step deadline never does |
| LeaseKeeper.RenewalExtends | internal/runworker/authority.go:95-131 | A renewal under live authority lasts as long as the database granted, for any offset, rounding and delay: checks pass until two milliseconds plus the outbound delay before the new lease and session end, and none passes past them or past the step |
| LeaseKeeper.CreatedIsBounded | internal/runworker/authority.go:29-47 | No check of a new keeper passes at or after any expiry of its claim, less the outbound delay |
| LeaseKeeper.EndedForever | internal/runworker/authority.go:95-131 | After no answer, a stop, a malformed or a late answer no check ever passes again, and the server's stop cause is remembered |
| ExecutionSafety.MutualExclusion | internal/runworker/authority.go:29-131 | Over every interleaving of claims, renewals, reports, sweeps, clock readings and delayed or duplicated replies, two workers executing under different attempts never both pass their check |
| ExecutionSafety.HolderIsLatest | internal/run/policy.go:55-80 | Whoever passes its check is the latest claimant, and its database lease has not expired |
| ExecutionSafety.ClaimantHolds | internal/runworker/lifecycle.go:168-205 | In any reachable state an accepted claim, whatever happens until its reply first arrives, gives a holder that holds, whatever others do, until two milliseconds plus the outbound delay before its thirty seconds or the Run end, or until its session does; so exclusion is not bought by nobody ever executing |
| ExecutionSafety.HolderOutlivesLease | internal/runworker/authority.go:95-131 | A worker that still holds when the reply to a served heartbeat arrives goes on holding up to the same margin before the renewed lease, the session and the step end; its old lease has no say in it |
| ExecutionSafety.FirstClaimantHolds | internal/runworker/lifecycle.go:168-205 | Every newly submitted Run, claimed at once and beaten at ten seconds, is held at thirty-nine, so the conditions above are met |
| CheckpointNumber.NormalizeExact | internal/run/checkpoint.go:213-273 | The rewriting accepts every in-range number of the grammar and produces its canonical literal |
| CheckpointNumber.CanonizedExact | internal/run/checkpoint.go:213-273 | The canonical literal denotes the same rational value |
| CheckpointNumber.CanonicalUnique | internal/run/checkpoint.go:213-273 | Two canonical literals of the same value are the same literal |
| CheckpointNumber.SameTextIffSameValue | internal/run/checkpoint.go:213-273 | Two accepted numbers have the same output text exactly when their values are equal |
| CheckpointNumber.NormalizeIdempotent | internal/run/checkpoint.go:213-273 | A canonical text is accepted and left alone |
| CheckpointRange.RangeByDigits | internal/run/checkpoint.go:213-248 | Without an exponent every number of at most 308 integer digits is accepted and every one of 310 or more refused; an exponent beyond 308 either way is refused even for zero |
| CheckpointJson.NormalizeTree | internal/run/checkpoint.go:250-273 | The recursive loops over arrays and objects compute the canonical tree or reject it |
| CheckpointJson.NormalizedExact | internal/run/checkpoint.go:196-273 | A canonical tree means what its source meant and is its own canonical form |
| CheckpointJson.SameFormIffSameMeaning | internal/run/checkpoint.go:196-273 | Two accepted trees have the same canonical form exactly when they mean the same |
| CheckpointChain.ValidateProjection | internal/runinput/input.go:209-262 | The worker's loop accepts exactly the checkpoints whose head, links, fresh identities and tail agree with the frame |
| CheckpointChain.ChainsAgree | internal/runinput/input.go:209-262 | Two checkpoints accepted against one binding agree on the number of steps and on each step's identity, commit hash, reference and canonical result, short of a collision among what was hashed |
| CheckpointChain.ProducerAccepted | internal/run/checkpoint.go:87-102 | Every history the server builds by genuine commits, with anything else in between before approval, passes the worker's check, as long as the worker's canonicalizer agrees with the server's on committed results |
| SupportSources.BuildSupportSources | internal/run/support_sources.go:133-193 | The loops over a history's steps, pointers, events and hits compute its sources or the first error |
| SupportSources.AliasesInjective | internal/run/support_sources.go:266-269 | No two aliases share a source, so reversing the alias table is well defined |
| SupportSources.EventsAreNotAliased | internal/run/support_sources.go:277-289 | An event's source is never also the source of an alias |
| SupportSources.SourcesReturned | internal/run/support_sources.go:133-193 | Every source belongs to the ticket or to an evidence reference a tool step of this history returned |
| SupportReads.ReadsHaveTheVector | internal/run/support_sources.go:48-122 | If order and delivery were both read and accepted, what was returned, or its absence, has exactly the version vector the snapshot was taken with |
| SupportReads.ReadsAreOwn | internal/run/support_sources.go:48-122 | An accepted object is the tenant's own and hangs on the ticket's order, and an absence is reported for the right reason |
| SupportReads.ParagraphsAreCurrent | internal/run/support_sources.go:48-122 | An accepted search or bundle returns distinct paragraphs of the published index at the ticket's policy version, each with its reference |
| SupportReads.RepeatedParagraphsAgree | internal/run/support_sources.go:133-193 | Whenever a history returns a paragraph again it says the same again; only its distance may differ |
| SupportProposal.SupportProposalFromModel | internal/run/support.go:96-167 | The compiler's loops over claims, aliases, events, identities and references compute the compiled proposal or its error |
| SupportProposal.ValidateSupportProposal | internal/run/support_sources.go:262-301 | The validator's loops reverse, recompile and compare |
| SupportProposal.DecompileUndoesCompile | internal/run/support_sources.go:266-291 | Reversing a compiled proposal recovers exactly what the model said |
| SupportProposal.CompiledIsAccepted | internal/run/support_sources.go:262-301 | Whatever the compiler produces, the validator accepts on the same history |
| SupportProposal.AcceptedExactlyCompiled | internal/run/support_sources.go:262-301 | A proposal is accepted exactly when some model answer compiles to it, and that answer is unique |
| SupportProposal.AcceptedReferencesReturned | internal/run/support.go:96-167 | Every reference an accepted proposal persists was returned in this history; its evidence list is nonempty, distinct and at most thirty-two long |
| SupportProposal.EvidenceExact | internal/run/support.go:146-150 | The evidence list is exactly the references the claims cite, each once |
| SupportProposal.CompiledShape | internal/run/support_sources.go:220-256 | A compiled proposal has the registered shape, with distinct claims that each cite a policy |
| SupportProposal.SomethingCompiles | internal/run/support.go:96-167 | On every history whose sources hold a policy paragraph an answer that cites it compiles, to a known proposal, so the theorems about compiled proposals are not empty |
| SupportProposal.SummaryLength | internal/run/support.go:301-332 | The rendered summary is never empty and always within the bound a commit puts on it |
| SupportCitations.AliasesExact | internal/run/support_sources.go:133-193 | The aliases of a history are exactly what its ticket and its tool steps returned |
| SupportCitations.EventsExact | internal/run/support_sources.go:133-193 | Its events are exactly those its delivery read returned, each at its own place in the list |
| SupportCitations.CompilesExactly | internal/run/support.go:96-167 | Exactly when an answer compiles and with which error otherwise; each claim then cites exactly the sources of its aliases and of the events it is about, kind by kind |
| SupportCitations.EventsAreCited | internal/run/support.go:136-142 | The place of every event a claim is about, in this history's delivery, is among the claim's references |
| SupportCitations.UnreturnedEventNeverCompiles | internal/run/support.go:136-142 | A claim about an event this history did not return never compiles |
| SupportCitations.ClaimsAreReadable | internal/run/support.go:301-332 | A rendered claim opens with what is asserted and ends with the event or events it is asserted of, recovery and corrected event under their own names |
| ProposalResolution.CompiledResolves | internal/run/action.go:95-110 | A compiled answer becomes valid resolution parameters exactly if it proposes something |
| ProposalResolution.VocabulariesAgree | internal/run/support.go:203-216 | A verdict that proposes is well formed exactly if its parameters are valid to the business store |
| CommitGraph.DecisionWellFormed | internal/run/checkpoint.go:277-420 | An accepted decision closes with the step's proposal, exactly on submit_proposal, or names a registered next kind |
| CommitGraph.ResolutionNeverCommits | internal/run/checkpoint.go:277-420 | No history and no program accepts a model commit for the resolution step |
| CommitGraph.CommittedIsReadable | internal/run/support.go:72-88 | Whatever program committed a result, the format the worker chooses for it by content and kind accepts it |
| CommitDecisions.HistoriesAreAttributed | internal/run/checkpoint.go:277-420 | Every step of a legal history names its physical call and tool invocation exactly as its kind must, and only reads return evidence |
| CommitDecisions.ProposalsRestOnReads | internal/run/checkpoint.go:381-420 | Under every program an accepted step's proposal cites one to thirty-two references, once each, all of them read before it in this history |
| CommitDecisions.AskedIsAskable | internal/run/support_agent.go:40-70 | What an agent asks for is a trimmed search text of at most 512 bytes or its ticket's own order, and it is what happens next |
| CommitDecisions.SupplementsAskForNews | internal/run/policy_supplement.go:59-94 | A supplement names paragraphs of its topic, once each and in order, none of them read before |
| CommitDecisions.SupplementsAreMet | internal/run/policy_supplement.go:142-157 | The read after a supplement is accepted only if every paragraph asked for is known then |
| CommitDecisions.StatusIsReadFirst | internal/run/status_policy.go:18-80 | Where the program reads it, nothing is proposed about a ticket of special status before its paragraph was read |
| CommitLanguage.FixedLanguage | internal/run/checkpoint.go:324-420 | Every legal fixed history spells a prefix of the registered word, with the bundle variant, and all of it once closed; from the moment submission is awaited a correction is only there without a thinking step |
| CommitLanguage.OriginalWordsAreLegal | internal/run/checkpoint.go:277-420 | Both words of the original program, with and without a correction, are spelled by legal closed histories |
| CommitLanguage.DeliverySkippedWhenMissing | internal/run/checkpoint.go:329-354 | The delivery read is skipped exactly when the order was reported missing |
| CommitLanguage.AgentLanguage | internal/run/support_agent.go:118-210 | Every legal agent history walks the phases of a bounded investigation and awaits what its phase awaits |
| CommitLanguage.AgentCounts | internal/run/policy_supplement.go:59-94 | At most one correction, one end of investigation, one supplement, two proposal steps and one submission |
| CommitLanguage.ClosedRunIsConclusive | internal/run/support_agent.go:152-165 | A closed run repeats its last model step's proposal, the validator accepts it on that history, and its claims cite only the run's own reads |
| CommitLanguage.CompiledProposalCommits | internal/run/checkpoint.go:381-420 | In a fixed run with its prerequisites, every compiled proposal is accepted by the commit graph and goes on to submission |
| CommitLanguage.NoToolRepeats | internal/run/policy_supplement.go:128-140 | In an admitted agent history no two reads are made for the same request, whether the model, a policy supplement, the ticket's status or the bundle asked |
| PolicyQueries.RegisteredQueriesDistinct | internal/run/policy_supplement.go:13-22 | The search texts registered for the eight topics are pairwise different |
| PolicyQueries.RegisteredReadsDiffer | internal/run/policy_supplement.go:128-140 | With the registered texts no two reads of an admitted agent history are made for the same request, with no hypothesis on the texts |
| CommitClosing.AwaitedAdjudicationIsReady | internal/run/policy_supplement.go:159-194 | A legal agent history that awaits a proposal has met every prerequisite of one: marker, status policy, supplement |
| CommitClosing.AwaitedProposalCloses | internal/run/support_agent.go:118-210 | A fixed or agent run that awaits its model's proposal can always be closed with whatever compiles on its history: proposal and submission are committed and nothing follows |
| CommitRuns.FixedWordsAreSpoken | internal/run/checkpoint.go:324-420 | For every coherent snapshot a legal closed history of each support-fixed program spells its registered word, with the delivery read exactly when there is an order, bundle and correction variants included |
| CommitRuns.AgentRunsClose | internal/run/support_agent.go:118-210 | Every agent program has a legal, admitted, closed investigation on every coherent snapshot: search, end of investigation, proposal, submission |
| CommitPhases.FullestRun | internal/run/policy_supplement.go:59-194 | Each program with supplements has, on every coherent snapshot, a legal, admitted, closed history through the correction and supplement phases, and the status phase where the program reads a status paragraph and the ticket has one; each of the five counts reaches its bound in it |
| Budget.AddUsage | internal/run/budget.go:31-44 | The field loop adds all counters or fails without a partial sum |
| Budget.ReserveAccount | internal/run/budget.go:48-73 | A hold is taken within every limit or the account is returned unchanged with the first error |
| Budget.SettleAccount | internal/run/budget.go:78-106 | A hold is replaced by known usage, an over-bound report freezes, and the errors come in the code's order |
| Tariff.UsageCost | internal/run/ledger.go:302-324 | The loops validate and sum in unbounded integers and compute the specified price |
| Tariff.CostIsExactCeiling | internal/run/ledger.go:300-324 | The price is the least whole amount that covers the rational tariff; only overflow past the safe range is refused |
| Tariff.ReservationCoversUsage | internal/run/ledger.go:274-298 | No usage within the reserved tokens, however split between cached and uncached, costs more than the reservation |
| Tariff.ReservationIsAttained | internal/run/ledger.go:274-298 | Some such usage costs exactly the reservation |
| Tariff.OneCategoryPerCall | internal/run/ledger.go:326-343 | A reserved call counts once as physical and once in one category; an unknown capability is never budgeted |
| Tariff.BudgetExactly | internal/run/ledger.go:274-298 | What each subcall is given: a chat what was asked if sensible and affordable, an embedding 512 tokens, the rest nothing |
| Tariff.CallIsCharged | internal/run/ledger.go:326-343 | A reservation counts one physical call in the category of its subcall and holds its whole budget |
| Tariff.SettledWithinHold | internal/run/provider_audit_report.go:171-207 | A settled first report stays within its hold, so settling it never freezes an account |
| Tariff.HonestReportSettles | internal/run/provider_audit_report.go:171-207 | A compatible report within the reserved tokens is always settled, at its exact price |
| Tariff.ReportOutcome | internal/run/provider_audit_report.go:171-235 | A compatible chat report is an anomaly exactly when it measures more than was reserved, is settled otherwise, and lets its batch go on exactly if the answer is sound |
| Tariff.UnexpectedProviderStops | internal/run/provider_audit_report.go:171-235 | A report from another provider is never settled and always stops its batch, with a code that is true of it |
| Tariff.EmbeddingOutcome | internal/run/provider_audit_report.go:171-207 | An embedding is an anomaly exactly when it measures more than its tokens, any output or cached input |
| CallLedger.AlwaysConserved | internal/run/budget.go:46-106 | Over every sequence of reservations, reports, screened reports and stops on three overlapping accounts: used is known plus held, each a sum over the calls; used stays within limits; counts are never refunded |
| CallLedger.ReserveNeverInternal | internal/run/budget.go:48-73 | Reserving on a conserved ledger is never an internal error |
| CallLedger.AdmittedExactly | internal/run/budget.go:48-73 | A call is admitted exactly when none of its three scopes was ever frozen and the history leaves room in all nine fields of each |
| CallLedger.MalformedRefused | internal/run/budget.go:48-73 | A malformed call is refused as such, unless the first account asked is frozen |
| CallLedger.FrozenForever | internal/run/budget.go:48-51 | Once a scope is frozen, by a stop or an anomalous report, no call is ever charged to it again, over every continuation |
| CallLedger.SettleRefusedExactly | internal/run/budget.go:85-95 | Settling an open call fails exactly when a known total would leave the safe range, and then the report exceeds its hold |
| CallLedger.ScreenedAlwaysRecorded | internal/run/postgres/ledger.go:661-700 | The store's screening records every report, freezes exactly the anomalous and over-bound ones, and agrees with SettleAccount wherever that succeeds |
| CallLedger.OversizedReportIsInternal | internal/run/budget.go:86-95 | On a ledger reached from opened accounts by two calls and one report, an over-bound report is refused by the function and suspended by the screening store |
| CallLedger.HistoryDeterminesAccounts | internal/run/budget.go:46-106 | Accounts are a function of their limits and the history |
| CallLedger.SettlementOrderIsIrrelevant | internal/run/budget.go:75-106 | Reports within their holds end in the same ledger in whatever order they arrive |
| CallLedger.CategoriesAddUp | internal/run/ledger.go:326-343 | Physical calls are the sum of the four call categories on every account |
| Conversation.Conversation.Accept | internal/runprotocol/conversation.go:28-105 | A frame is accepted and advances the exchange, or closes it without any other change |
| Conversation.Conversation.CanDispatch | internal/runprotocol/conversation.go:110-121 | A permission is consumed once, inside its window and the deadline, or the conversation closes |
| Conversation.DispatchedOnceInOrder | internal/runprotocol/conversation.go:55-121 | No physical call is dispatched twice and the dispatched calls are a prefix of the step's registered calls |
| Conversation.DispatchedInTime | internal/runprotocol/conversation.go:110-121 | A dispatch directly follows the frame that granted it, strictly within its window and the step deadline |
| Conversation.SuccessIsComplete | internal/runprotocol/conversation.go:97-101 | A success means every registered call was dispatched in order and its own answer accepted |
| Conversation.SilentAfterClosure | internal/runprotocol/conversation.go:28-121 | Nothing is accepted or dispatched, ever, after the conversation is closed or any input, a frame, a dispatch or a stop, is refused |
| ConversationLog.PermitsAnswerIntents | internal/runprotocol/conversation.go:69-83 | In every exchange a permission answers the intent just before it, call, parameters and tool alike, and its whole call fits into what is left of the step |
| ConversationLog.ObservationsReportCalls | internal/runprotocol/conversation.go:84-96 | An observation reports on the call just dispatched, before that call's deadline and with no more usage than was permitted |
| ConversationLog.RefusalEndsCalling | internal/runprotocol/conversation.go:47-105 | After a refused permission or a report that was not accepted no call is asked for and no success reported; the calls of an exchange are numbered within one tool call |
| ConversationRuns.ExchangeSucceeds | internal/runprotocol/conversation.go:126-137 | Every kind of step has an exchange that succeeds with exactly its calls, written out kind by kind |
| ConversationRuns.SuccessIsRegistered | internal/runprotocol/conversation.go:126-137 | And no exchange succeeds with any others |
| TicketResolution.Store.ApplyResolution | internal/business/action_store.go:101-186 | Replay, refusals in order, and the two-row write with its rollback |
| TicketResolution.Store.CurrentActionTicket | internal/business/action_store.go:188-244 | The current ticket is returned exactly when the snapshot and the re-read facts carry the approved version vector |
| TicketResolution.AlwaysSound | internal/business/action_store.go:101-186 | Under every sequence of writes, source loads and captures a source row is a snapshot's copy or newer, and no two receipts share a ticket revision or a business request |
| TicketResolution.WriteSeesCapturedFacts | internal/business/version_vector.go:53-77 | A write happens only while ticket, order, delivery, policy and index are exactly what the snapshot captured |
| TicketResolution.WritesExactly | internal/business/action_store.go:101-186 | A call writes exactly when the approval is trusted, timely and unused and every fact it was based on is still the captured one |
| TicketResolution.RefusedExactly | internal/business/action_store.go:101-186 | How a write that is not a replay is refused, first reason first, with the facts compared to the captured ones, and that a refusal changes nothing |
| TicketResolution.CurrentFactsExactly | internal/business/action_store.go:188-244 | The facts read again are exactly the rows as they are, and none unless they fit together |
| TicketResolution.WriteIsOneRevision | internal/business/action_store.go:147-185 | A write is one more revision of one ticket, of which nothing but the status may change, and one receipt for it kept for thirty days, and nothing else |
| TicketResolution.SameRevisionNeverBothWrite | internal/business/action_store.go:101-186 | Two operations approved at one ticket revision never both write, whatever happens in between |
| TicketResolution.ReceiptsAreForever | internal/business/action_store.go:81-96 | A recorded receipt is never replaced or removed |
| TicketResolution.WrittenReceiptValid | internal/business/action_contract.go:278-291 | The receipt of a write answers its own action exactly when its retention stays in the safe range, the kept status of a recorded conclusion included |
| TicketResolution.ReplayReturnsFirstReceipt | internal/business/action_store.go:126-135 | A replay changes nothing and returns the first receipt however late, exactly under that condition, and otherwise conflicts |
| TicketResolution.LateAuthorizationsExist | internal/business/action_contract.go:156-168 | Every valid authorization has an equally valid one whose receipts cannot be replayed |
| TicketResolution.LateReplayConflicts | internal/business/action_store.go:101-186 | For any trusted key and valid parameters there is a run from an empty store in which a receipt is written and every identical replay conflicts |
| TicketResolution.AuthorizationFieldsInjective | internal/business/action_contract.go:156-200 | The signed digest's input determines every authorization field and the vector digest |
| OutboxEnvelope.EnvelopeRoundTrip | internal/outbox/envelope.go:93-177 | An envelope comes back from the stream exactly when it is deliverable, its time as its text reads; anything else does not decode |
| OutboxEnvelope.RowRoundTrip | internal/outbox/envelope.go:54-74 | Exactly which outbox rows are read back as written, with white space as the code trims it and the time's own text included |
| OutboxEnvelope.LegacyRowIsRead | migrations/0004_create_outbox_events.up.sql:8-16 | A row without version, trace or payload of its own is read back as version zero |
| OutboxEnvelope.TraceparentParts | internal/outbox/envelope.go:179-185 | A trace context is accepted exactly if it is version zero with a trace and a parent that are not all zero, and flags |
| PipelineCode.Publisher.PublishRound | internal/outbox/publisher.go:170-256 | The round claims, delivers, counts and releases what failed, and marks the acknowledged events or releases them, every one of those answers failing or succeeding on its own |
| PipelineCode.RoundIsRun | internal/outbox/publisher.go:170-256 | A whole round, with failed deliveries, failure marks, releases and batch mark and with cancellation, is a run of the machine |
| PipelineCode.RoundOutcome | internal/outbox/publisher.go:170-312 | What becomes of each row of a round: published exactly if delivered and the mark took effect, otherwise counted as failed and fetchable again once its claim is dropped; what reaches the stream and in which order; other rows untouched |
| PipelineCode.InboxProcessor.EnsureBinding | internal/eventconsumer/processor.go:93-127 | The first group binds the inbox, the same group stays bound, another group changes nothing |
| PipelineCode.InboxProcessor.ProcessEnvelope | internal/eventconsumer/processor.go:150-220 | Inbox row and effect are written together or not at all, and a duplicate is checked and has no effect |
| PipelineCode.Consumer.HandleMessage | internal/eventconsumer/consumer.go:255-374 | Process then acknowledge, quarantine after enough deliveries then acknowledge, or leave pending |
| PipelineCode.HandleIsRun | internal/eventconsumer/consumer.go:255-374 | Handling one message, with its failures, is a run of the machine |
| PipelineCode.NewEventHandled | internal/eventconsumer/consumer.go:255-374 | A new event is recorded once and acknowledged, or left exactly as it was for redelivery, or given up, as the handler's verdict says |
| PipelineCode.UndecodableHandled | internal/eventconsumer/consumer.go:268-270 | An entry that does not decode never reaches the inbox and is isolated after enough deliveries |
| PipelineCode.RepeatHandled | internal/eventconsumer/processor.go:188-201 | A recorded event is acknowledged again without any effect, whatever its handler would say |
| PipelineCode.StrangerHandled | internal/eventconsumer/processor.go:188-201 | In another group's inbox, or under another aggregate's row, nothing is recorded or acknowledged |
| EventPipeline.NoEventLost | internal/outbox/publisher.go:17-23 | In every reachable state an event is an unpublished row or in the stream, every entry is unread, pending or acknowledged, an acknowledged one was recorded or isolated, and an entry is isolated only after enough deliveries and only if it does not decode or its handler rejected it for good |
| EventPipeline.PublishedAndAppliedOnce | internal/eventconsumer/processor.go:150-220 | A published row has its stream entry, and an event's effects number exactly its inbox rows, none or one |
| EventPipeline.MetadataNeverMismatches | internal/eventconsumer/processor.go:188-201 | The metadata mismatch is unreachable, and the group mismatch occurs exactly when the inbox is bound to another group |
| PipelineProgress.DeliveriesCounted | internal/eventconsumer/source.go:125-179 | A consumer is told how often its entry was really handed out, and nothing is isolated before it was handed out as often as is required |
| PipelineProgress.NeverStuck | internal/eventconsumer/consumer.go:255-374 | From every reachable state an event that can be read is recorded, or can still be published and applied by a free publisher and a free consumer, or was isolated after its handler refused it for good |

## Left out

- Database text, isolation and locking: every transaction is one atomic step, and accounts, rows and tables are maps. The order of locks and the row formats are not modelled.
- Bytes of encoded JSON: results, snapshots and contents arrive parsed. Duplicate keys, escapes and nesting limits, and the sorted-key encoder, are not part of this model; `CheckpointChain` takes the producer's and the worker's canonicalizers as parameters that agree on committed results.
- CheckpointJson.NormalizeTree: returns a new tree where the code writes arrays and objects in place, so aliasing inside one decoded value is not captured.
- SupportProposal.SupportProposalFromModel: the 16384-byte bound on the encoded proposal is a parameter, and the same bound on the reversed answer, which is shorter than the proposal, is not modelled.
- SupportProposal.ValidateSupportProposal: the 16384-byte bound on the persisted proposal it reads is left to the same parameter, and the bound on the reversed answer is not modelled.
- SupportSources.BuildSupportSources: which registered field pointers resolve in an object is part of the parsed object, and UTF-8 checks of policy text are left out.
- SupportProposal.AcceptedExactlyCompiled: a claim's identity is its fields and its set of sources; sorted references that happen to render to one text are not distinguished from that.
- RunPolicy.CompleteAction: the receipt, the effect it saves, the observed call it needs and the session and profile checks are the store's and are not modelled; what it does to the Run and its authority is.
- CommitGraph.DecisionWellFormed: the physical observation bound to a call is checked by the store, which is not modelled.
- Tariff.SettledWithinHold: report hashes, receipt binding and the audit's own decision tables are not modelled; the audit is its identity, mode and completeness.
- CallLedger.AlwaysConserved: account validity windows, the batch stop code and the logical-tool counter's own replay table are left out.
- ExecutionSafety.MutualExclusion: the session deadline is an arbitrary input; worker processes, pipes and signals are not modelled.
- CheckpointChain.ValidateProjection: checks of adapter, tool and snapshot fields that do not concern the chain are one boolean.
- Conversation.Conversation.Accept: trace text, checkpoint and result bodies, and the frame codec are not modelled; a frame's head stands for its request and binding.
- TicketResolution.Store.ApplyResolution: signature verification and the claim vocabulary of the parameters are predicates, and role checks and time-outs of the connection are left out.
- EventPipeline.NoEventLost: stream trimming and deleted pending payloads are excluded by assumption, as are entries forged by a writer other than the publishers that decode.
- PipelineCode.Publisher.PublishRound: deliveries are taken one after another where the code runs several at once; the machine itself allows every order.
- The consumer's outer loop, its back-off and its pending cursor, and the publisher's polling: they only choose which of the machine's actions comes next.
- The v2 executor conversation, the coordinators, the HTTP and gRPC surfaces, configuration, observability, and the policy index upload: plumbing around the modelled logic.
- The Job machine of the earlier product: a simpler relative of the Run machine.
