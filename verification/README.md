# Durable intake agent: protocol and run model

A Dafny model of the tenant intake service in `app/`, and proofs about it. Two halves meet at the parked job.

**The bounded agent run and its gate.** An arbitrary language model proposes, step by step; a policy gate accepts
fields by their provenance, routes the requested action, runs a handler, asks a human, or refuses. The run is bounded,
its transcript always converts for the provider, and what it stores reads back.

**The durable job, approval and effect protocol.** Jobs are claimed under leases by attempts, staged and published
through approvals, retried, recovered, expired, decided by operators, and marked when they commit an effect. Every
`session.begin()` block is one atomic step of a machine whose steps interleave in any order; workers act with tokens
(job, attempt) that may be stale. Invariants hold in every reachable world, and most main results quantify over every
history and every continuation of it. Three finer models add what atomic steps hide: the insert race under a unique
constraint, row locks, and the supervisor's task collections.

## Layout

| file | content |
|---|---|
| `Values`, `Profiles`, `Proposals`, `Commands` | values, profiles and registry, proposals and trusted sources, typed arguments and frozen commands |
| `FieldValues`, `Policy`, `Gate`, `GateEnds` | field provenance, policy and routing, gated execution, and how a gated call ends |
| `Transcript`, `AgentLoop`, `RunProperties`, `JobResults`, `GatedRuns`, `RunEnds`, `RunOutcomes` | provider conversion, the loop, its properties, stored results and their projection, how and why runs end |
| `Durable`, `Repositories` | the rows of one job and each transaction, as a function and as in-place methods proved equal to it |
| `Machine`, `Invariants`, `Reachability` | the system as interleaved steps, its invariant, and the induction over histories |
| `Transitions`, `Answers` | each worker step, sweep and decision from its observable state: when it acts, and what it leaves |
| `Fencing`, `Decisions`, `Effects`, `Quiescence`, `Outcomes`, `Projection` | what follows over all histories |
| `Handoff`, `Provenance`, `DirectEffects` | gated runs drive the machine: the command published and executed is the parking run's last proposal, and every direct effect an allowed handler's |
| `InsertRace`, `Enqueue`, `LockOrder`, `LockExact`, `LockCycles`, `Supervision` | the finer models |

## How the model reads the program

- A raised exception inside a transaction rolls it back. Transaction functions return `None` (or the unchanged store)
  for it, and the in-place methods undo their writes. A late approve is the exception that proves the rule: it raises
  after the expiry is committed.
- The one approval row of a job (`job_id` is unique) is addressed by the job. A profile stands for its SHA-256.
- `effects`, `origin` and `log` fields record history; no transaction of the model reads them.
- Claim order, lease length, clocks, retry delays, which rows a sweep could lock and how a run ended are free choices of
  each step, so every result holds for all of them. The retry limit is fixed during a history.
- Pydantic, regular expressions, date, e-mail, phone and UUID parsing are uninterpreted predicates (`Profiles.Rules`);
  the request hash is its canonical JSON object, that is, SHA-256 is taken as injective.
- PostgreSQL is assumed: atomic transactions, unique constraints, exclusive row locks, SKIP LOCKED, and a locked row
  read at its latest committed value.

## Where the code is not what one might expect

- `get_side_effect_marker` and `schedule_retry` are two transactions. A tool transaction of the same attempt that
  commits in between is requeued with its effect: `Quiescence.LateEffectsCanBeRequeued` is such a history,
  `Effects.NeverRequeuedAfterAnEffect` says exactly when it cannot happen, and uniqueness of effects needs no such
  hypothesis.
- The order of a proposal's fields matters when one field name mixes items with and without a source:
  `FieldValues.MixedSourcingCanDependOnOrder`; `FieldValues.OrderIrrelevantIff` is the exact condition.
- A stored path that names a known action which the profile does not register is withheld whole, although the run
  recorded it as a refusal: `RunEnds.UnregisteredCallIsWithheld` and `RunEnds.SomePathIsWithheld` show it;
  `RunEnds.ReadsBackExactly` says that it happens exactly when the run's last proposal calls such an action.
- A UUID argument of the wrong type raises `TypeError`, which validation does not turn into a refusal; the run fails:
  `RunEnds.WrongTypedIdentifierCrashes` is an allowed call whose run crashes. `Commands.EscapesExactly`,
  `Gate.RaisesExactly` and `RunEnds.RunsCrashExactly` say exactly when.
- Waits for row locks can close a cycle: `LockCycles.OvertakenFencesDeadlock` and `LockCycles.LateArtifactsDeadlock` are
  two histories. `LockOrder.WaitCyclesNeedStrandedTools` says what every cycle contains, and
  `LockExact.CyclesCloseExactly` which requests close one, seen from the locks before the request.

## Model

The `Repositories` rows are the in-place form of the transactions in `Durable`: each says that the objects end exactly
as the transaction's function says, and nothing else changes. What those functions do is stated, without naming them, by
the rows of `Transitions` (claims, leases, requests, worker commits), `Answers` (decisions, expiry) and
`DirectEffects.ToolStepsExactly`; what they guarantee by those of `Invariants`, `Reachability`, `Fencing`, `Decisions`,
`Effects`, `Quiescence`, `Outcomes` and `Projection`. In the same way `FieldValues.ResolvesExactly`,
`Commands.ParsesExactly`, `Gate.ReasonsExactly`, the `GateEnds` and `RunOutcomes` rows, `Transcript.ConvertsExactly` and
`JobResults.PathsReadExactly` say what the functions behind the loops compute.

| member | source | states |
|---|---|---|
| FieldValues.ValidateProposalFields | app/tenants/field_values.py:153-193 | the collecting and sorting loops give each field the first type-valid value its body confirms, else the first its document confirms, and the refused names |
| FieldValues.CollectCandidates | app/tenants/field_values.py:160-184 | the candidate map holds, per field and source, exactly the confirmed values in proposal order |
| FieldValues.ResolvesExactly | app/tenants/field_values.py:42-193 | for every proposal and field: a value is accepted if and only if a trusted text vouches for an item of that field with a value of its type (a labelled item only by its own source's text), the first on the body's word before the first on the attachment's; a field is invalid if and only if one of its items says something unusable |
| Proposals.AcceptedExactly | app/tenants/field_values.py:153-193 | the same told from the runtime's source, attachment and profile alone |
| FieldValues.OrderIrrelevantIff | app/tenants/field_values.py:153-193 | every permutation of the proposal resolves alike if and only if no deciding source confirms two different values of one field |
| FieldValues.UnmixedIsUnambiguous | app/agent/models.py:353-359 | with one item per (name, source) and no field mixing sourced and unsourced items, every permutation resolves alike |
| FieldValues.MixedSourcingCanDependOnOrder | app/tenants/field_values.py:124-150 | a concrete mixed proposal resolves differently when reordered |
| FieldValues.AcceptedValueHasProvenance | app/tenants/field_values.py:124-193 | every accepted value was proposed, has its field's type, and its excerpt occurs in the text of the very source that decided it; the attachment decides only where the body confirms nothing |
| FieldValues.ValidateFrozenFields | app/tenants/field_values.py:196-238 | re-validation of frozen fields keeps exactly the type-valid known ones and names the others |
| FieldValues.FrozenFieldsRevalidate | app/tenants/field_values.py:153-238 | the values accepted from any proposal re-validate to themselves with no invalid name |
| FieldValues.FrozenExactly | app/tenants/field_values.py:196-238 | frozen fields pass whole if and only if each is known, named, and still holds a value of its type |
| Policy.EvaluateExactly | app/policy/engine.py:97-170 | allow, needs_approval and deny each hold if and only if eligibility and sensitivity say so |
| Policy.SuspicionNeverHelps | app/tenants/routing.py:42-125 | more risk, injection or critical flags and fewer verified fields never give a more permissive decision |
| Gate.ReasonsExactly | app/policy/engine.py:97-170 | policy's reason for any call, from runtime and proposal alone, and the decision, status and missing fields that go with it |
| Gate.TerminalReasonsExactly | app/policy/engine.py:16-95 | the same for a closing proposal |
| Gate.HandlersRunOnlyWhenAllowed | app/tools/executor.py:201-377 | a handler runs only for an eligible, insensitive request, on exactly the accepted fields and for the action named |
| GateEnds.HandlerRunsExactly | app/tools/executor.py:201-316 | a handler runs if and only if neither check saw a cancellation, policy's reason is that the action is allowed, and the call says valid arguments; it gets exactly these and the accepted fields |
| GateEnds.HumansAreAskedExactly | app/tools/executor.py:273-298 | a human is asked if and only if policy wants one and the call says valid arguments, for version 1 of exactly that command and policy's own reason |
| GateEnds.HandlersEndExactly | app/tools/executor.py:299-377 | told from the port's reply: the run goes on if and only if the port returned a reference (and a case had its source), a miss completes it with its code, a port that raised stops it as a backend failure |
| GateEnds.OtherCallsEndExactly | app/tools/executor.py:225-316 | a call without a handler run completes as refused, invalid or requested, and stops only when cancelled just before its handler |
| GateEnds.EvidenceExactly | app/tools/executor.py:157-199 | every reply names the action and carries policy's whole answer |
| GateEnds.TerminalEndsExactly | app/tools/executor.py:379-424 | a closing proposal is only judged: it completes with policy's reason, or raises when cancelled |
| Commands.ParsesExactly | app/tools/models.py:29-64 | a call parses to typed arguments if and only if it says them: known keys, each absent, null or of its type, a lookup by at least one non-empty text, a note of at most 500 characters, and the identifiers and texts are the call's own |
| Commands.EscapesExactly | app/tools/models.py:29-64 | validation raises instead of accepting or refusing if and only if an identifier argument is present with the wrong type (null counts as wrong for update_case_fields only) |
| Commands.AuthorizedExactly | app/domain/approvals.py:238-273 | what the decision service accepts: version 1, an executable and allowed action, valid arguments, and only known fields with values of their types |
| Gate.RaisesExactly | app/tools/executor.py:201-298 | a gate call raises if and only if it is cancelled, or policy does not deny the named action and its arguments escape validation or its approval request is cancelled just before or refused |
| Gate.AskedCommandsAreAuthorized | app/tools/executor.py:273-298 | whatever the gate asks a human to approve is a command the decision service accepts, with the accepted fields |
| Gate.AllowedActionsAreRegistered | app/tools/executor.py:231-249 | an action that is not denied always has a tool, so the assertion cannot fail |
| Gate.SelfAssessmentIsIgnored | app/tools/executor.py:201-224 | confidence, rationale and reported missing fields change neither reply nor port use |
| Gate.SuspicionNeverRunsAHandler | app/tools/executor.py:201-377 | a riskier or less verified twin of a call runs a handler only if the call itself would |
| Transcript.ProviderMessages | app/providers/openai_compatible.py:85-160 | the converting loop returns the conversion of the transcript, or refuses exactly when it refuses |
| Transcript.ConvertsExactly | app/providers/openai_compatible.py:85-160 | a transcript converts if and only if every tool message answers the call right before it and nothing else follows a call; then each message becomes one part that says what the message says |
| Transcript.ConversionIsWellFormed | app/providers/openai_compatible.py:85-160 | in a converted transcript call ids are distinct and every tool part answers the call just before it |
| Transcript.ConvertedTranscripts | app/providers/openai_compatible.py:85-160 | what the converter accepts, as a property of the messages |
| Transcript.TurnKeepsComplete | app/agent/loop.py:94-222 | an assistant turn with its tool answer keeps a transcript convertible |
| AgentLoop.RunLoop | app/agent/loop.py:77-259 | the loop over its five mutable locals computes the recursive run |
| RunProperties.EveryPromptConverts | app/providers/openai_compatible.py:187-216 | every prompt of every run converts, with and without the repair message |
| RunProperties.RunsAreBounded | app/agent/loop.py:77-259 | at most min(max_steps, 8) steps and never three equal executed calls in a row |
| RunProperties.RepetitionIsCut | app/agent/loop.py:181-202 | from any loop state the executed calls never repeat three times in a row |
| RunOutcomes.RepetitionIsCutExactly | app/agent/loop.py:181-202 | for any tools: a run is cut for repetition if and only if its last three proposed calls are equal |
| Proposals.SameCallsExactly | app/agent/loop.py:181-185 | two calls count as equal if and only if they name the same tool with equal values for the same arguments, numbers by value |
| RunProperties.OnlyTheGateParks | app/workers/agent_worker.py:1192-1196 | for every model, a run counts as approval-requested if and only if its last step got `request_approval` back, and that was its only request |
| RunProperties.TerminalNeverParks | app/agent/loop.py:105-166 | a closing proposal never parks, whatever its rationale says |
| RunProperties.RequestsAreAuthorized | app/tools/executor.py:273-298 | every request of a run is a command its profile authorizes |
| JobResults.SafeExecutionValues | app/domain/jobs.py:127-211 | the projection loop reads the whole path or none of it |
| JobResults.PathsReadExactly | app/domain/jobs.py:154-211 | whatever JSON was stored as a path is shown if and only if every entry has exactly the nine facts, in the closed vocabularies and about a registered action or none, with increasing steps |
| JobResults.ResultsReadExactly | app/domain/jobs.py:127-160 | which steps, stop reason and path any stored result shows |
| JobResults.RoutingReadsExactly | app/domain/jobs.py:109-126 | which routing facts any stored result shows |
| JobResults.PathRoundTrip | app/domain/jobs.py:127-211 | a stored safe path reads back entry for entry exactly when all its known actions are registered |
| JobResults.SummaryRoundTrip | app/workers/agent_worker.py:1198-1246 | from a stored run a reader learns its steps, its stop reason and every fact of its path, decoded by the reader's own vocabulary, if and only if its known actions are registered |
| JobResults.RoutingRoundTrip | app/workers/agent_worker.py:1218-1246 | status, routing facts and business outcome of a stored run are those of its last entry with an action, else of its last entry |
| JobResults.DecisionsKeepTheProjection | app/domain/approval_repository.py:436-459 | rewriting a result for a decision changes neither execution nor routing projection |
| GatedRuns.StoredRunsReadBack | app/domain/jobs.py:109-211 | every gated run of every model stores a summary that reads back exactly when its known actions are registered |
| GatedRuns.UnregisteredActionsWereDenied | app/tools/executor.py:231-247 | an unregistered action reaches the path only as a refusal that touched nothing |
| RunEnds.RunsCrashExactly | app/agent/loop.py:84-248 | a gated run crashes if and only if, in its last iteration, the model raised, the run was cancelled, or the gate call raises as above |
| RunOutcomes.GoesOnExactly | app/agent/loop.py:84-222 | an iteration goes on if and only if it executes an allowed call whose port returns a reference; then transcript and path gain exactly that |
| RunOutcomes.RunsEndExactly | app/agent/loop.py:77-259 | a run that did not crash failed for a third equal call, a backend failure or its step limit, each under its exact condition, and completed otherwise; it leaves its last iteration's transcript, path and response |
| RunOutcomes.ClosingProposalsEndExactly | app/agent/loop.py:105-166 | a closing proposal completes the run with policy's reason, or with the model's own words once it acted and nothing is left to do |
| RunEnds.WrongTypedIdentifierCrashes | app/tools/models.py:29-34 | under a profile that meets the whole contract, an allowed reply draft whose case identifier is a number crashes the run |
| RunEnds.ReadsBackExactly | app/domain/jobs.py:169-189 | for every model, a gated run's stored path reads back whole if and only if its last proposal did not call a known action the profile does not register |
| RunEnds.UnregisteredCallIsWithheld | app/domain/jobs.py:184-189 | every run that first calls such an action completes after one step and its stored path is withheld |
| RunEnds.SomePathIsWithheld | app/domain/jobs.py:184-189 | a concrete proposal, and a profile that meets the whole contract, for which it is |
| RunEnds.GrantedIsLastProposed | app/tools/executor.py:553-566 | the command a run is granted says what the call of its last proposal says (its own identifier, texts and action), on the fields the server accepted |
| Repositories.ClaimNext | app/domain/job_repository.py:291-335 | the first claimable row by (available_at, id) is claimed, and only that row; none if there is none |
| Repositories.JobRow.Claim | app/domain/job_repository.py:316-319 | running, one more attempt, first start kept, lease set |
| Repositories.JobRow.Renew | app/domain/job_repository.py:337-357 | only the lease of an owned attempt changes |
| Repositories.JobRow.ScheduleRetry | app/domain/job_repository.py:459-482 | an owned attempt is requeued, a stale one changes nothing |
| Repositories.JobRecords.CancelStaged | app/domain/job_repository.py:540-566 | exactly a staged approval is cancelled, with its event |
| Repositories.JobRecords.RecoverLease | app/domain/job_repository.py:259-276 | one row of the sweep, in place; `Transitions.RecoveriesExactly` says what it does |
| Repositories.RecoverExpiredLeases | app/domain/job_repository.py:242-289 | the sweep does this to every locked row and to nothing else |
| Repositories.JobRecords.MarkTerminal | app/domain/job_repository.py:511-538 | terminal rows with the staged approval cancelled, or nothing without ownership |
| Repositories.JobRecords.Park | app/domain/job_repository.py:378-419 | job parked and approval published together, or neither |
| Repositories.JobRecords.CreateApproval | app/domain/approval_repository.py:49-150 | one staged row per job: created, replaced or refreshed, or refused |
| Repositories.ApprovalRow.Refresh | app/domain/approval_repository.py:96-122 | a staged row is replaced only when action, command, reason or profile differ; its expiry always moves |
| Repositories.ApprovalRow.ExpireLocked | app/domain/approval_repository.py:362-381 | only a pending row expires |
| Repositories.JobRecords.FinalizeJob | app/domain/approval_repository.py:383-459 | a parked job is resolved once; a repeated call is a no-op or a conflict |
| Repositories.ExpireDue | app/domain/approval_repository.py:263-326 | every due locked row expires with its job, the others are unchanged, and the conflict is never raised |
| Repositories.JobRecords.RunTool | app/tools/postgres.py:118-248 | a tool transaction commits effect and marker together, or rolls both back when its fence fails |
| Repositories.JobRecords.MarkSideEffect | app/tools/postgres.py:266-284 | the marker is set for the owned running attempt only |
| Repositories.JobRecords.Handle | app/tools/postgres.py:494-658 | each approved command's effect, with an existing case or artifact reused |
| Repositories.JobRecords.ExecuteApproved | app/tools/postgres.py:433-492 | guards, effect, marker and case link of an approved command |
| Repositories.JobRecords.Decide | app/domain/approvals.py:145-339 | the decision transaction and its answer, in place, rollback and late approve included; `Answers.DecisionsAnswerExactly` says what they are |
| Transitions.EnqueuedJobsWait | app/domain/job_repository.py:94-110 | an enqueued job waits from now on with nothing else on record, and no other job changes |
| Transitions.ClaimsExactly | app/domain/job_repository.py:291-335 | a claim acts if and only if the job waits, its time has come and its tenant is not excluded; one more attempt, first start kept, lease set |
| Transitions.RenewalsExactly | app/domain/job_repository.py:337-357 | a renewal moves the lease of the attempt that holds the job, and nothing else |
| Transitions.RecoveriesExactly | app/domain/job_repository.py:242-289 | for every world: the lease sweep touches a job if and only if it could lock it and its lease ran out; it requeues it after the delay, staged request kept, if and only if it has no effect and attempts left, fails it for exhausted retries if and only if none are left, and as uncertain if and only if it has an effect |
| Transitions.ThreadsMoveExactly | app/workers/agent_worker.py:466-690 | a thread builds its runtime once and asks once, for an authorized command |
| Transitions.RequestsExactly | app/domain/approval_repository.py:49-150 | a request is stored if and only if its attempt asks, holds the job and no approval was published or cancelled; the row holds command, action, reason, profile and a fresh deadline, and logs a replacement only where it differs |
| Transitions.FinishesExactly | app/workers/agent_worker.py:215-340 | what an attempt's outcome leads to, told from the lease, the effect seen by the claim and the effect seen now |
| Transitions.CommitsExactly | app/domain/job_repository.py:359-538 | what each resolved worker transaction leaves, and that it changes the job only while the attempt holds it |
| Answers.DecisionsAnswerExactly | app/domain/approvals.py:145-339 | in every reachable world: which answer any decision gets (by visibility, final status, deadline and feasibility of the command), that a decided answer tells the stored approval, action, status, time and case with executed if and only if approved, who decided, and what it leaves in approval, job, result and business tables |
| Answers.UnsoundCommandsAreRefused | app/domain/approvals.py:238-273 | over any rows: a command that is not its approval's action, is not authorized, or was frozen under another profile is refused and nothing is written |
| Answers.HandlesExactly | app/tools/postgres.py:494-658 | which approved commands can be carried out, and the case the approval ends up linked to |
| Answers.ExpiriesExactly | app/domain/approval_repository.py:263-326 | in every reachable world the sweep touches a job if and only if it could lock it and its pending approval is due; both are closed by the timeout |
| Answers.DecidedJobsTell | app/domain/approval_repository.py:436-459 | in every reachable world the result of a decided job names the approval, its status, its outcome and its case |
| Invariants.StageKeeps | app/domain/approval_repository.py:49-150 | a request by any attempt keeps the job invariant and leaves exactly that attempt's command staged |
| Invariants.CommitKeeps | app/workers/agent_worker.py:212-340 | whatever a worker resolved on, its transaction keeps the job invariant, stale or not |
| Invariants.FinishKeeps | app/workers/agent_worker.py:215-340 | classifying an outcome resolves only on sound intents: bounded retries, granted parks, marked uncertainty |
| Invariants.ToolKeeps | app/tools/postgres.py:118-284 | tool transactions of any thread keep the job invariant |
| Invariants.VerdictKeeps | app/domain/approvals.py:145-339 | any operator decision keeps the job invariant |
| Invariants.RecoverKeeps | app/domain/job_repository.py:242-289 | lease recovery keeps the job invariant |
| Invariants.SweepKeeps | app/domain/approval_repository.py:263-326 | expiry never conflicts and keeps the job invariant |
| Reachability.ReachableOk | app/domain/job_repository.py:242-583 | the invariant holds after every history from a database without jobs |
| Reachability.JobsTerminate | app/domain/job_repository.py:261-276 | attempts never exceed max_retries + 1, queued jobs have one left, and no history moves a job more often than its budget of at most 3 * max_retries + 4 |
| Fencing.StaleTokensAreFenced | app/domain/job_repository.py:568-583 | a token requeued, parked, finished or superseded at any time writes nothing at any later time |
| Fencing.TerminalRowsAreFrozen | app/domain/job_repository.py:511-538 | all rows of a terminal job without a pending approval are final over every continuation |
| Fencing.TransitionsAreBounded | app/domain/job_repository.py:316-319 | every transition of every history uses up potential |
| Decisions.JobAndApprovalAgree | app/domain/approval_repository.py:236-249 | job and approval states agree in every reachable world, so the read filter hides exactly staged and cancelled approvals |
| Decisions.SweepsNeverConflict | app/domain/approval_repository.py:263-300 | in every reachable world a pending approval finds its job parked, so finalizing it cannot conflict, however long ago the sweep locked it |
| Decisions.DecisionTable | app/domain/approvals.py:159-339 | the new status of any decision in any reachable world, and that a conflict is exactly an opposite final decision |
| Decisions.FinalDecisionsStand | app/domain/approvals.py:200-207 | a final decision survives every continuation and answers every later decision without a change |
| Decisions.RepeatedDecisionsAgree | app/domain/approvals.py:461-481 | repeating an answered decision, however late, gets the same answer and changes nothing |
| Decisions.LogsAreExact | app/domain/approvals.py:219-308 | at most one final event, one execution exactly when approved, decided in time or expired late |
| Decisions.OnlyApprovalExecutes | app/domain/approvals.py:274-311 | a decision that leaves any effect is an approval of a pending command before its deadline |
| Decisions.PublishedCommandsWereAsked | app/tools/executor.py:273-298 | the published command was asked for by the very attempt that parked the job, and its profile allows it |
| Decisions.PublishedCommandsStand | app/domain/approval_repository.py:90-98 | a published command is never replaced, so the executed command is the published one |
| Decisions.ApprovalCarriesOutTheCommand | app/tools/postgres.py:433-658 | an approval in time carries out exactly the published command on cases and artifacts (fields, events, recipient, subject, note, identifiers), leaves every other table alone, and marks the job unless the command only reads |
| Effects.EffectsAreUnique | app/tools/postgres.py:118-168 | one agent-created case per job, one artifact per job and kind, and a marker exactly when something was committed |
| Effects.EffectsOnlyGrow | app/tools/postgres.py:161-163 | committed effects, case link, artifacts and marker survive every continuation |
| Effects.ExistingCaseIsThere | app/tools/postgres.py:589-600 | an approved create_case finds the job's case, so the missing-case raise is unreachable |
| Effects.CleanExactly | app/workers/agent_worker.py:215-238 | a step leaves a requeued or plainly failed job with an effect if and only if it is a retry or failure committing after an unseen effect |
| Effects.NeverRequeuedAfterAnEffect | app/workers/agent_worker.py:215-310 | over whole histories, no such job ever exists if and only if no such commit ever happens |
| Quiescence.QuiescentStatusesAreTruthful | app/workers/agent_worker.py:215-310 | without tool commits between marker check and transaction: queued or plainly failed means no effect, failed_uncertain means an effect |
| Quiescence.LateEffectsCanBeRequeued | app/workers/agent_worker.py:229-238 | a history without that hypothesis that requeues a job with an effect |
| Outcomes.OutcomesResolveExactly | app/workers/agent_worker.py:212-340 | which outcome retries, fails, parks, succeeds or becomes uncertain, and the one cause behind each error code |
| Outcomes.StatusesAreExplained | app/domain/job_repository.py:242-538 | in every reachable world error code and stored result explain the job's status |
| Outcomes.RetriesAreExhaustedFirst | app/domain/job_repository.py:268-276 | over every history a job fails for exhausted retries only after its last attempt |
| Projection.ProjectionStands | app/domain/approval_repository.py:436-459 | steps, reason, path and routing facts of a parked job read the same after every continuation |
| Projection.ReadersSeeTheRun | app/domain/jobs.py:214-283 | a reader of a parked or decided job sees the agent run's own steps, reason and path exactly when its known actions are registered |
| Handoff.RunOutcomesFit | app/workers/agent_worker.py:692-768 | every ended gated run is an outcome the machine accepts, and parks exactly with its one granted request |
| Handoff.RunsResolveExactly | app/workers/agent_worker.py:692-800 | what the worker of any ended run resolves to: uncertain, failed, parked or succeeded |
| Handoff.BackendFailuresFailTheJob | app/workers/agent_worker.py:692-800 | a gated run whose last call met a broken port fails, and its worker resolves to tool_execution_failed, or to uncertain with an effect; never to success or a request |
| Handoff.StageGoesThrough | app/domain/approval_repository.py:49-150 | for the attempt that holds the lease `request_approval` cannot fail, whatever earlier attempts staged |
| Handoff.ParkedCommandIsTheProposed | app/workers/agent_worker.py:744-768 | a run that parks publishes exactly the command its last proposal asked for |
| Provenance.PublishedCommandsAreProposed | app/tools/executor.py:273-298 | over every history whose attempts are gated runs, others interleaved: a published command is the last proposal of the parking attempt's run, and the job shows what that run stored |
| Provenance.ExecutedCommandsAreProposed | app/domain/approvals.py:238-311 | over every such history an approval in time carries out exactly that last proposal |
| Provenance.ParkingStepsAreDriven | app/workers/agent_worker.py:744-768 | the steps by which a run parks its job form such a history |
| DirectEffects.ToolStepsExactly | app/tools/postgres.py:118-284 | a tool step takes effect if and only if its attempt runs, holds the job and its case is there or may be made; then exactly its rows, its event and the marker change |
| DirectEffects.CommittedToolsWereAllowed | app/tools/executor.py:299-316 | a tool transaction that changes any row left in the tables what a handler run of its own attempt, allowed by policy, says: its case, fields, recipient, subject and note |
| DirectEffects.EffectsAreAccounted | app/tools/postgres.py:118-248 | over every history whose tool transactions are handler runs of gated runs, every effect a job shows comes from such an allowed run or from an approval |
| InsertRace.RacesLinearize | app/domain/artifact_repository.py:32-78 | every interleaving of look, insert, violation, commit and abort answers like a sequential put-if-absent map; the re-read never finds nothing |
| InsertRace.AnswersAgree | app/domain/artifact_repository.py:51-78 | all callers of one (tenant, job, kind) get the same row, created by at most one of them |
| InsertRace.UncontendedCallsAnswer | app/domain/artifact_repository.py:32-78 | a call whose key nobody else holds is answered within three of its own steps |
| InsertRace.AbortsRelease | app/domain/artifact_repository.py:51-78 | a call that aborts after its insert gives its key back and changes no row |
| InsertRace.UniqueTable.GetOrInsert | app/domain/artifact_repository.py:32-78 | one call with a rival commit between look and insert returns and keeps the winner |
| Enqueue.HashIdentifiesRequest | app/domain/intake.py:93-140 | two requests hash alike if and only if they are the same request; a body never hashes like a document |
| Enqueue.KeysAreCanonical | app/domain/intake.py:358-363 | an accepted key is trimmed, non-empty, at most 255 long, and validating it again changes nothing |
| Enqueue.KeysExactly | app/domain/intake.py:358-363 | a raw key is accepted, as this text, if and only if it is this trimmed text of 1 to 255 characters between white space |
| Enqueue.SubmissionsExactly | app/domain/intake.py:284-363 | what a submitted request becomes; a document probes before it is prepared |
| Enqueue.EnqueueLinearizes | app/domain/intake.py:284-353 | racing body and document enqueues, probe split included, answer like a sequential put-if-absent map |
| Enqueue.JobsMatchRecords | app/domain/intake.py:304-327 | jobs and idempotency records are in bijection under every interleaving and abort |
| Enqueue.OneJobPerKey | app/domain/intake.py:405-439 | one record per tenant and stripped key; equal requests learn its job and trace, different ones conflict |
| Enqueue.OnlyCreationWrites | app/domain/intake.py:383-439 | reuse and conflict change neither rows nor jobs |
| Enqueue.IntakeTables.EnqueueOne | app/domain/intake.py:284-363 | validation, look, savepoint insert and its undo on a violation equal put-if-absent after the rival |
| LockOrder.WaitCyclesNeedStrandedTools | app/domain/approval_repository.py:62-88 | over every interleaving of lock steps, waits by possession alone: no chain without a tool queued on a job that stopped running exceeds six members or closes, and in a cycle every such tool waits for a decision on its own published job |
| LockOrder.OnlyTheseRequestsCloseCycles | app/tools/postgres.py:266-284 | no request closes a cycle but a decision's for an effect and an artifact insert on a job that is not running |
| LockOrder.OwnEffectsDeadlockExactly | app/tools/postgres.py:569-600 | a decision's request for its own job's record or artifact closes a cycle if and only if the holder is queued on that job |
| LockExact.CaseRowsDeadlockExactly | app/tools/postgres.py:630-658 | a decision's request for a case row closes a cycle if and only if the chain of stranded tools and decisions from its holder ends in a tool queued on the decision's own job |
| LockExact.InsertsDeadlockExactly | app/domain/artifact_repository.py:55-61 | an artifact insert's request for its job row closes a cycle if and only if the holder of that row wants the same artifact |
| LockExact.CyclesCloseExactly | app/domain/approval_repository.py:62-186 | over every interleaving, a step turns a state without wait cycles into one with a cycle if and only if it is one of these three requests under its stated condition |
| LockCycles.OvertakenFencesDeadlock | app/tools/postgres.py:118-168 | a fence queued on a running job, overtaken by parking and by a decision that creates a case, waits in a cycle |
| LockCycles.LateArtifactsDeadlock | app/db/models.py:305-320 | an artifact inserted for a parked job waits in a cycle with the decision that writes the same artifact |
| LockOrder.JobFirstNeverWaitsOnApproval | app/domain/job_repository.py:388-413 | only a decision ever waits for an approval row, and only before it holds anything |
| LockOrder.MachineCommitsAreAllowed | app/domain/approval_repository.py:169-186 | what the lock model takes for granted of commits is true of every machine step |
| Supervision.SupervisionIsFair | app/workers/agent_worker.py:364-464 | tasks within the limit, at most one tenant each, disjoint, active tenants exactly those held; cancelling empties all three collections |
| Supervision.ClaimsAreFair | app/workers/agent_worker.py:385-410 | a claim by the starting task is always of a tenant no supervised task holds |
| Supervision.Supervisor.CancelTasks | app/workers/agent_worker.py:372-381 | discarding held tenants one by one empties tasks, holders and active tenants |
| Supervision.Supervisor.ReapTask | app/workers/agent_worker.py:408-413 | a reaped task gives back exactly its own tenant |
| Supervision.Supervisor.FillSlots | app/workers/agent_worker.py:385-416 | slots are filled until full or out of work without touching earlier tasks; a failure leaves nothing |

## Left out

- Observability events, logging, metrics, middleware, HTTP routes, authentication and signing: they change no row.
- Legacy approvals without a job, legacy terminal evaluators and legacy profile upgrades.
- `decision_reason`, `decision` and the raw `execution_result` columns of an approval; its case link and times are kept.
- Event payloads other than the names of updated fields, and the read-only paging of approvals.
- Database columns the protocol does not read: priorities, created_at, source snapshots and risk signals of a job row.
- Document parsing and normalization: a document enqueue may abort between its probe and its enqueue.
- `side_effect_committed` on a retryable error: no raise in the code sets it, so outcomes do not carry it.
- Retry delays and jitter, heartbeat timing, poll intervals and backoff: free choices of a step.
- Customer rows: whether a customer is known is a free choice of each transaction.
- Call identifiers are message indices instead of rendered strings, and sorted tuples of names are sets.
- Two tool calls in one proposal: the proposal contract admits at most one, so the branch that rejects more is absent.
- Lock model: locks that a foreign key shares (an artifact's on its job, an approval's on its case) are exclusive here.
  Sharing could add a cycle only between two artifact inserts of one job that both go on to their fences. That needs two
  attempts of the job at once: an attempt's single agent thread runs its calls one after the other, the fence selects
  only the row of its own attempt, so the stale attempt's fence finds none and does not wait, and recovering or claiming
  the job in between skips the row while an insert shares it. Where a cycle does close, the database aborts a member.
- Lock model: rows that every transaction only shares (tenants, customers) are absent.
- Handoff.ParkedCommandIsTheProposed: stated for four consecutive steps of one attempt; for interleaved histories see
  Provenance.PublishedCommandsAreProposed.
- Supervision: the wait for a task's claim signal is a step of its own; asyncio scheduling inside it is not modelled.
