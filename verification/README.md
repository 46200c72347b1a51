# Fulcrum Boundary: a Dafny model of its decision core

Fulcrum Boundary decides allow, deny or hold for tool calls before they execute.
This project models the parts of it that carry the hard guarantees and proves
them for every input, every collaborator and every interleaving.

| files | what they model |
|---|---|
| `Verdicts`, `Text` | the shared decision vocabulary and string operations |
| `Policy`, `PolicyMatchers` | static rules, and what each matcher means on the request's own fields |
| `Pipeline`, `PipelineLaws` | the four-stage `Evaluate`, one decision updated in place, with its deferred trust update, audit and dry-run conversion |
| `PipelineReasons`, `PipelineLabels`, `PipelineRecord` | who decided and in whose words; the mode, rule and policy a verdict is labelled with and the check recorded as failed; what the emitted record may claim |
| `AuditHealth` | audit-delivery accounting as a step machine over any number of threads |
| `Escalation`, `PipelineEscalation` | the awaiting escalation handler as a step machine, and the pipeline that relays it |
| `Trust`, `PipelineTrust` | the Beta trust backend, its integer checker, and whole runs of the pipeline over it |
| `TrustRace` | the trust backend under concurrent evaluations, as a step machine |
| `PipelineOrder`, `PipelineWitnesses` | what rule order can change after the trust update; calls on which that update breaks a law |
| `Conditions`, `PolicyEval`, `PipelineEval` | the portable policy evaluator, its validator, and the pipeline that embeds it |
| `RegexCacheRace` | the compiled-pattern cache under concurrent use, as a step machine |
| `RateLimit` | the token-bucket limiter |
| `CliParser` | the pipe splitter and tokenizer |
| `RecordScan` | the strict record scan |
| `SecureGithub`, `SecureGithubLaws`, `SecureGithubCalls` | the Secure GitHub classification, sessions and governed call; its laws on envelopes, and on tool names and arguments |

Collaborators (trust checker, interceptor, evaluator, escalation handler, trust
backend) are arbitrary deterministic functions that return a value, an error or a
panic, so each pipeline theorem ranges over all of them. Code that mutates state
is a class whose methods are proved equal to a specification function; the laws
are proved about that function. Concurrent code is a step relation, and its laws
range over all step sequences. Real numbers stand for float64.

Some laws one might expect do not hold of the code. For each, the model keeps the
code, names an input, and proves the exact condition:

- A finished `Close` does not by itself mean the subscription was released, since
  a second `Close` may return while the first still holds the handle
  (`Escalation.CloseMayReturnBeforeRelease`, `Escalation.ReleasedExactlyOnce`).
- A verdict whose text contains a trust marker such as " is ISOLATED" is never
  scored, whether a rule, the interceptor, the evaluator or a reviewer wrote it
  (`PipelineTrust.MarkerTextHidesDenial`, `PipelineTrust.VerdictCountsExactly`).
- The order of the static rules can change the answer: two equally strict flag
  rules may disagree on such a marker, and then a degraded agent's call is
  permitted in one order and held in the other
  (`PipelineWitnesses.RuleOrderChangesAnswer`, `PipelineOrder.OrderChangesAnswerExactly`).
- The emitted record can credit a rule with a verdict that is not its own: the
  trust update replaces the action and keeps the rule's credit
  (`PipelineWitnesses.FlagCreditedWithHold`, `PipelineRecord.RecordHonestExactly`).
- A trust update that comes back TERMINATED does not stop a call, since the
  deferred block looks for ISOLATED and EVALUATING only; this needs a concurrent
  termination (`PipelineWitnesses.TerminatedUpdatePermits`,
  `PipelineRecord.PermittedWhileBlockedExactly`,
  `PipelineTrust.SequentialPermitsOnlyLive`).
- Concurrent stores can push the pattern cache past its limit of 1000
  (`RegexCacheRace.LimitExceeded`, `RegexCacheRace.CacheBound`,
  `RegexCacheRace.BoundAttained`).
- A dry-run pipeline with a handler does not audit what the enforcing one answers
  once the handler is asked, unless the handler itself escalates
  (`PipelineLaws.DryRunWithHandlerExactly`).
- A logical condition without an operator validates, and faults wherever
  evaluation reaches it (`Conditions.ValidatedYetFaulting`,
  `Conditions.FaultsExactly`).
- The field of an external-call condition is meant to name a key of the response
  (policyeval/evaluator.go:634-635), yet evaluation first resolves it in the
  context: such a condition validates, and faults whenever it is evaluated
  (`Conditions.ExternalExact`).
- Isolation is not absorbing under concurrent evaluations: one that passed the
  trust check earlier can still record a success and lift the agent
  (`TrustRace.FlightLifts`, `TrustRace.LiftableExactly`).
- Inside one policy a later escalating rule replaces an earlier deny
  (`PolicyEval.LaterEscalationReplacesDeny`, `PolicyEval.PolicyVerdictExact`).
- Quoted empty arguments vanish in the parser (`CliParser.RoundTrip`).
- An empty member name passes the record scan (`RecordScan.EmptyNamePasses`,
  `RecordScan.AcceptsExactly`).
- With a threshold above 1/2 a fresh agent's witness fails the checker
  (`Trust.CheckerAgrees`).

## Model

| member | source | states |
|---|---|---|
| `Pipeline.Validate` | governance/pipeline.go:130-145 | no error exactly when every non-enforcing entry names a transport and a reason and every rule action is supported |
| `Pipeline.NewSetup` | governance/pipeline.go:203-252 | a configuration error is recorded exactly when validation fails or required audit has no publisher; the non-enforcing set is exactly the declared transports |
| `PipelineLaws.ValidConfigExact` | governance/pipeline.go:130-145 | valid exactly when no declared exception has a blank transport or reason and every rule action is one of the six |
| `Pipeline.GovernanceDecision.MarkFailure` | governance/pipeline.go:693-736 | the failed check is recorded once, a block stands, an unobtained posture is voided, and an enforcing transport blocks and clears a warn rule's credit |
| `Pipeline.GovernanceDecision.TakeStricter` | governance/pipeline.go:866-879 | adopts a verdict exactly when it is strictly stricter, clearing the replaced rule's credit |
| `Pipeline.GovernanceDecision.RestoreFrom` | governance/pipeline.go:882-889 | puts back verdict, reason, mode and credit and nothing else |
| `Pipeline.GovernanceDecision.ResolveWith` | governance/pipeline.go:808-832 | a handler error, empty or invalid resolution denies; otherwise action, reason and an adoptable mode are relayed |
| `Pipeline.GovernanceDecision.ApplyRule` | governance/pipeline.go:480-508 | the winning rule's credit, mode, action and reason |
| `Pipeline.GovernanceDecision.TakeUpdate` | governance/pipeline.go:359-370 | the posture of the update, and the block or hold it puts on a permitting verdict |
| `Pipeline.Pipeline.Fail` | governance/pipeline.go:684-687 | a failed check is enforced unless the transport is declared non-enforcing |
| `Pipeline.Pipeline.FindWinner` | governance/pipeline.go:466-479 | the rule loop finds the first strictest matching rule and lists every match in order |
| `Pipeline.Pipeline.RunTrust` | governance/pipeline.go:415-464 | stage 1 with its early returns equals the staged specification; `PipelineLaws.StageOneTells` says what that specification answers |
| `Pipeline.Pipeline.RunStatic` | governance/pipeline.go:466-509 | stage 2 equals the static specification, ending early exactly on a deny |
| `Pipeline.Pipeline.RunIntercept` | governance/pipeline.go:511-545 | stage 3 equals the interceptor specification, faults and invalid blocks included |
| `Pipeline.Pipeline.RunEscalation` | governance/pipeline.go:613-641 | the escalate case: adopt, await, relay, restore a stricter prior verdict, or unwind on a handler panic |
| `Pipeline.Pipeline.RunAction` | governance/pipeline.go:608-658 | the switch over the evaluator's action equals its specification, with the adopted flag |
| `Pipeline.Pipeline.RunAdopt` | governance/pipeline.go:608-669 | the verdict is taken, the policy named, skipped faults recorded, and trust countability set |
| `Pipeline.Pipeline.RunEval` | governance/pipeline.go:547-670 | stage 4 equals its specification for error, empty, strict-failed, faulted and usable results |
| `Pipeline.Pipeline.RunStages` | governance/pipeline.go:401-670 | the body of Evaluate with all its exits equals the staged specification |
| `Pipeline.Pipeline.Finish` | governance/pipeline.go:357-399 | the deferred block: read the trust update, emit one decision event and any transition event, then convert |
| `Pipeline.Pipeline.Evaluate` | governance/pipeline.go:325-670 | the answer, and the audit events appended with their request, ruling, posture, failed check and listed rules, for every collaborator outcome |
| `PipelineLaws.StageOneTells` | governance/pipeline.go:415-464 | on the checker's own result: a call gets past stage 1 exactly when its agent is not shut out and a failed identity or lookup is not enforced; it then goes on with the checked state, UNKNOWN when identity or lookup failed, TRUSTED when nothing was asked, and score 0.5, 0.0 or 1.0 accordingly; a shut-out agent is denied with its state |
| `PipelineLaws.FailClosed` | governance/pipeline.go:325-736 | with dry-run off and an enforcing transport, a permitting answer has no failed check, every required check produced a valid permitting result, the evaluator being told the checker's own posture and score, and no trust update failed or came back ISOLATED or EVALUATING (one that came back TERMINATED is not stopped by the code) |
| `PipelineLaws.PermitsExactly` | governance/pipeline.go:325-736 | the converse as well: the answer permits if and only if every check passed |
| `PipelineLaws.ConfigErrorStands` | governance/pipeline.go:382-413 | a configuration error is check_indeterminate on every transport, even under dry-run, with one audit event and no trust update |
| `PipelineLaws.MostRestrictiveWins` | governance/pipeline.go:466-670 | with no failed check and no handler the verdict before the trust update is exactly the strictest of the static, interceptor and evaluator verdicts, the evaluator being asked with the checker's own posture and score |
| `PipelineLaws.HandlerNeverLowers` | governance/pipeline.go:608-662 | whatever evaluator and handler answer, stage 4 never ends below the verdict it started from |
| `PipelineLaws.NeverBelowFloor` | governance/pipeline.go:466-670 | with any handler, deliberation past the trust check never ends below the static and interceptor verdicts |
| `PipelineLaws.AnswerNeverBelowFloor` | governance/pipeline.go:357-670 | nor does the answer, trust update included, with dry-run off |
| `PipelineLaws.StaticDenyStands` | governance/pipeline.go:486-497 | with dry-run off a static deny blocks on every transport, declared non-enforcing ones included, whatever the collaborators do |
| `PipelineLaws.DenyDespiteFault` | governance/pipeline.go:583-669 | a deny beside skipped rules stands, is recorded on Check, and stays countable for trust |
| `PipelineLaws.TrustUpdateOnlyRaises` | governance/pipeline.go:357-377 | the trust update leaves every blocking ruling alone and can only raise a permitting one |
| `PipelineLaws.TrustUpdateExact` | governance/pipeline.go:357-377 | what a completed update does to the decision: its score and state, and the block or hold it puts on a permitting verdict and on no other |
| `PipelineLaws.NeverProved` | governance/pipeline.go:897-917 | no answer and no audit event carries mode "proved", whatever rules and handlers claim |
| `PipelineLaws.AuditedOnce` | governance/pipeline.go:357-399 | exactly one decision event per call, about that request, with the ruling before conversion, the posture, failed check and rules the caller gets, flagged exactly when dry-run lets the block through; one more event exactly when the trust state changed, with the new state and score |
| `PipelineLaws.RuleOrderIrrelevant` | governance/pipeline.go:466-670 | permuting the static rules changes neither the verdict reached before the trust update nor the recorded failed check |
| `PipelineLaws.DryRunFaithful` | governance/pipeline.go:357-399 | two runs in which no handler is asked: dry-run audits the ruling the enforcing pipeline returns, differs only by letting blocks through, and a converting verdict never reaches the trust backend |
| `PipelineLaws.DryRunWithHandlerExactly` | governance/pipeline.go:613-641 | two runs in which the handler is asked: dry-run audits escalate, and the enforcing answer is that verdict exactly when the handler resolves to escalate |
| `PipelineReasons.DecisionExact` | governance/pipeline.go:466-670 | with any handler and no failed check, verdict and reason are exactly those of the collaborator that decides by rank: a rule, the interceptor, the evaluator, a reviewer, or a handler fault |
| `PipelineReasons.CountableExactly` | governance/pipeline.go:549-669 | whether a failed check keeps a decision from being scored, read off identity, trust check, static verdict, interceptor and evaluator results |
| `PipelineReasons.DeciderUpToTies` | governance/pipeline.go:466-479 | reordering the rules changes at most which of two equally strict rules decides |
| `PipelineLabels.LabelExact` | governance/pipeline.go:480-669 | with any handler and no failed check: the mode the decision carries, the static rule it credits and the policy it names, read off the collaborators |
| `PipelineLabels.FailureExact` | governance/pipeline.go:401-736 | the recorded failed check is exactly the first check that fails, with its stage, category and cause |
| `PipelineLabels.AnswerFailureExact` | governance/pipeline.go:357-377 | the answer records that check, or else a failed trust update |
| `PipelineLabels.DryRunSays` | governance/pipeline.go:382-399 | what dry-run lets through says so in the words of the verdict it replaced |
| `PipelineRecord.DeliberationHonest` | governance/pipeline.go:693-736 | before the trust update the decision lists every matching rule, credits a rule only with that rule's own verdict (or a failed check in place of its allow), and claims no posture when none was obtained |
| `PipelineRecord.RecordHonestExactly` | governance/pipeline.go:357-381 | the emitted record and the answer credit a rule with a verdict not its own exactly when the trust update overrules a call that rule had allowed or flagged |
| `PipelineRecord.PermittedWhileBlockedExactly` | governance/pipeline.go:363-370 | a permitted answer reports a blocked agent exactly when the trust update came back TERMINATED |
| `PipelineWitnesses.FlagCreditedWithHold` | governance/pipeline.go:363-370 | default settings, one held call and one flag rule: the record of the next call credits that rule with a hold |
| `PipelineWitnesses.TerminatedUpdatePermits` | governance/pipeline.go:363-370 | default settings, the agent terminated between check and update: permitted, with state TERMINATED |
| `PipelineWitnesses.RuleOrderChangesAnswer` | governance/pipeline.go:466-479 | default settings, one held call and two flag rules whose order decides between permitting and holding |
| `PipelineOrder.OrderChangesScoringExactly` | governance/pipeline.go:1002-1018 | rule order changes whether a call is scored exactly when the call is countable, a static rule decides it and the two winners disagree on the trust markers |
| `PipelineOrder.OrderChangesAnswerExactly` | governance/pipeline.go:357-381 | and changes the answer exactly when, besides, the call is only flagged and the agent is degraded |
| `PipelineOrder.UnmarkedRulesCommute` | governance/pipeline.go:466-479 | if no rule text carries a marker, rule order changes neither the answer nor the trust store |
| `PipelineRecord.TakeVerdictHonest` | governance/pipeline.go:862-889 | folding in the evaluator's verdict, a handler's resolution or a restored prior never leaves a rule credited with a verdict that is not its own |
| `PipelineRecord.AnswerPosture` | governance/pipeline.go:357-377 | an answer's posture is the one its trust update returned; without a completed update, an answer with no posture obtained claims none |
| `Policy.EveryMatchListed` | governance/pipeline.go:466-479 | the listed rule names are exactly those of the matching rules |
| `Policy.ListedInOrder` | governance/pipeline.go:466-479 | the names are listed in the order of the rules |
| `Policy.WinnerIsStrictest` | governance/pipeline.go:466-479 | the winner matches, is one of the rules, and no matching rule outranks it |
| `Policy.StaticVerdictPermutes` | governance/pipeline.go:466-509 | stage 2's verdict is the same for every permutation of the rules |
| `Policy.StaticVerdictIsMaximum` | governance/pipeline.go:466-509 | the static verdict bounds every matching rule and is attained by one |
| `Policy.DenyRuleDecides` | governance/policy.go:55-105 | a matching deny rule decides wherever it stands |
| `PolicyMatchers.RuleFiresExactly` | governance/policy.go:55-105 | a rule fires exactly when its tool pattern, its transport in any case, both scopes (never met without identity), its matcher and all its conditions do |
| `PolicyMatchers.StaticVerdictExact` | governance/pipeline.go:466-509 | stage 2 denies exactly when a deny rule fires, else holds, else escalates, else warns for a warn or audit rule, else allows |
| `PolicyMatchers.NamedFields` | governance/policy.go:230-292 | the request field each fixed field name reads |
| `PolicyMatchers.ClassFields` | governance/policy.go:230-292 | the SQL class, falling back to the risk class |
| `PolicyMatchers.TextFields` | governance/policy.go:230-292 | the text of a call is its SQL argument when it has one |
| `PolicyMatchers.ArgumentFields` | governance/policy.go:230-292 | any other argument is read by its key under either prefix, and a missing one selects nothing |
| `PolicyMatchers.UnknownFields` | governance/policy.go:230-292 | every other field name selects nothing |
| `PolicyMatchers.ContainsMatches` | governance/policy.go:110-194 | a "contains" or unnamed matcher hits exactly when its needle stands at some index of the field, in any case if so marked |
| `PolicyMatchers.NotContainsMatches` | governance/policy.go:110-194 | "not_contains" hits exactly when the request carries the field and the needle stands nowhere in it |
| `PolicyMatchers.EqualsMatches` | governance/policy.go:110-194 | "equals" hits exactly when the field is the needle |
| `PolicyMatchers.NotEqualsMatches` | governance/policy.go:110-194 | "not_equals" hits exactly when the request carries the field and it is not the needle |
| `PolicyMatchers.TransportMatches` | governance/policy.go:110-194 | "transport_is" hits exactly on the named transport, in any case |
| `PolicyMatchers.AgentMatches` | governance/policy.go:110-194 | "agent_in" and "agent_not_in" by the listed values in any case; an agent without identity is in no list |
| `PolicyMatchers.ClassMatches` | governance/policy.go:110-194 | "ast_class" hits exactly when the SQL class, or the field named instead, is one of the listed values |
| `PolicyMatchers.RegexMatches` | governance/policy.go:110-194 | "regex" hits exactly when the request carries the field and the engine matches the pattern or cannot compile it |
| `PolicyMatchers.UnknownKindMisses` | governance/policy.go:110-194 | any other kind never hits |
| `PolicyMatchers.DangerousCommandDenied` | governance/policy.go:110-194 | a deny rule holding one "contains" matcher on the command denies every call whose command holds the needle, beside any other rules |
| `AuditHealth.RunInv` | governance/pipeline.go:1066-1114 | in every interleaving each mark is the greatest ticket whose store completed, tickets are unique, and failures are counted once |
| `AuditHealth.StoreLoopBounded` | governance/pipeline.go:1107-1114 | the compare-and-swap loop terminates: failed swaps stay below the ticket and each lowers ticket minus mark |
| `AuditHealth.MarksDecideGreatest` | governance/pipeline.go:259-266 | failure mark above success mark if and only if the greatest settled ticket belongs to a failed delivery |
| `AuditHealth.MarksMonotone` | governance/pipeline.go:1107-1114 | neither mark ever falls |
| `AuditHealth.DegradedIsSound` | governance/pipeline.go:259-266 | if Degraded answers true, then at every instant between its two loads the greatest settled ticket belonged to a failure |
| `AuditHealth.DegradedExactAtQuiescence` | governance/pipeline.go:259-266 | with no delivery in flight during the call, Degraded is true exactly when the last audit drawn failed |
| `AuditHealth.FailureCountExact` | governance/pipeline.go:268-271 | AuditFailures counts each failed delivery exactly once |
| `AuditHealth.SettledAsDelivered` | governance/pipeline.go:1066-1105 | in every run a call that is past its delivery carries the outcome that delivery had |
| `AuditHealth.SettlesAlone` | governance/pipeline.go:1107-1114 | undisturbed, a store settles in one or two steps and raises its own mark to its ticket, the other mark unchanged |
| `Escalation.AllowNeedsApproval` | governance/kernel/escalation.go:129-158 | allow only on an approved message for the call's own request, looked up while its own channel was registered; human_approved only for approved or denied messages |
| `Escalation.ResolutionIsOwn` | governance/kernel/escalation.go:227-282 | a resolved call took the first message ever placed in its own channel; a late send never resolves a reused request id |
| `Escalation.WaiterHasOneOwner` | governance/kernel/escalation.go:227-253 | every waiter entry belongs to exactly one in-flight call |
| `Escalation.NoWaiterAfterClose` | governance/kernel/escalation.go:167-181 | after Close the waiter map only shrinks |
| `Escalation.ReleasedExactlyOnce` | governance/kernel/escalation.go:167-225 | Subscribe is attempted at most once; unsubscribe happens at most once and never without a subscription; once the lazy subscribe and a Close finished, released as often as subscribed if and only if every Close returned |
| `Escalation.CloseMayReturnBeforeRelease` | governance/kernel/escalation.go:167-181 | a run in which a Close has returned and the subscription is not yet released |
| `Escalation.ReplayIsRun` | governance/kernel/escalation.go:129-208 | replaying enabled steps from the initial state gives a run |
| `Escalation.RunLifecycle` | governance/kernel/escalation.go:183-225 | in every reachable state the one subscription handle is in exactly one place |
| `Escalation.EscalateAwaits` | governance/kernel/escalation.go:129-253 | an open handler takes every call with a free request id to its await in a channel of its own, the first call subscribing once on the way |
| `Escalation.ResolutionGetsThrough` | governance/kernel/escalation.go:227-282 | a resolution delivered for an awaiting call is looked up, sent and received, is what the call returns, and the waiter is gone |
| `Escalation.ReplyExact` | governance/kernel/escalation.go:284-332 | the verdict, mode and, for a resolution, the words each ending of a call is answered with |
| `Escalation.Refusals` | governance/kernel/escalation.go:183-253 | a closed handler, a request id already waiting and a failed subscription are each refused as such |
| `Escalation.UnknownIgnored` | governance/kernel/escalation.go:261-282 | a message naming no request, or with a status that is no resolution, changes nothing |
| `Escalation.SecondDropped` | governance/kernel/escalation.go:261-282 | a second resolution for a taken slot is dropped |
| `Escalation.AwaitEnds` | governance/kernel/escalation.go:129-158 | a timeout and a cancelled context each end the await as such |
| `Escalation.SubscribeFailureStands` | governance/kernel/escalation.go:183-225 | a failed subscription is recorded, and is what its call returns |
| `Escalation.PublishFailureReturns` | governance/kernel/escalation.go:129-158 | a failed or panicking publish ends its call as such and leaves no waiter |
| `PipelineEscalation.EscalatedNeedsApproval` | governance/pipeline.go:808-839 | pipeline and handler together: an escalated call is permitted only on an approved message carrying that request's id, looked up while the Escalate call made for that id was registered |
| `Trust.StandaloneTrustBackend.GetAgentTrust` | governance/trust_beta.go:57-73 | the stored snapshot, or the default trusted one, or the error for an empty id |
| `Trust.StandaloneTrustBackend.CheckAgentState` | governance/trust_beta.go:46-52 | the state of that snapshot |
| `Trust.StandaloneTrustBackend.RecordDecision` | governance/trust_beta.go:80-121 | the update returned and the whole new store |
| `Trust.StandaloneTrustBackend.ResetAgentTrust` | governance/trust_beta.go:126-134 | forgets exactly that agent |
| `Trust.StandaloneTrustBackend.TerminateAgent` | governance/trust_beta.go:139-149 | marks exactly that agent TERMINATED and keeps its parameters |
| `Trust.UpdateExact` | governance/trust_beta.go:80-121 | the update shows the record stored before and the one stored after, and reports a transition exactly when their states differ; a neutral outcome changes nothing |
| `Trust.SnapshotExact` | governance/trust_beta.go:57-73 | a known agent is reported as stored, an unknown one as trusted with score 1 |
| `Trust.RecordingIsLocal` | governance/trust_beta.go:80-121 | recording for one agent leaves every other agent's snapshot alone |
| `Trust.ScoreExact` | governance/circuit_breaker.go:15-33 | the score is the share of alpha, and the state is ISOLATED, EVALUATING or TRUSTED exactly by the two thresholds |
| `Trust.InteractionsCounted` | governance/trust_beta.go:95-110 | an agent's interactions are the outcomes recorded that were not neutral |
| `Trust.AlphaOfRun` | governance/trust_beta.go:96-108 | alpha is the initial alpha plus weighted success and partial counts |
| `Trust.BetaOfRun` | governance/trust_beta.go:96-108 | beta likewise, a failure weighing more only while degraded |
| `Trust.ScoreInUnitInterval` | governance/circuit_breaker.go:28-33 | with positive weights the score stays strictly between 0 and 1 over every run |
| `Trust.ScoreMovesStrictly` | governance/trust_beta.go:96-108 | a success strictly raises the score and a failure strictly lowers it |
| `Trust.StateTracksScore` | governance/trust_beta.go:111-113 | after any non-neutral update a live state is the threshold function of the score |
| `Trust.NeverTerminates` | governance/trust_beta.go:111-113 | recording neither terminates nor revives an agent |
| `Trust.DenialsIsolate` | governance/trust_beta.go:95-121 | consecutive denials isolate within the stated bound, and with multiplier 1 not one sooner |
| `Trust.CheckerAgrees` | governance/proofreceipt/trust.go:36-65 | on every success/failure run the live witness passes the integer checker, at the fresh state if and only if the threshold is at most 1/2 |
| `PipelineTrust.EvaluateOver` | governance/pipeline.go:357-381 | one evaluation over a live backend object: its answer, its audit events and the backend's new store |
| `PipelineTrust.BackendReplies` | governance/trust_beta.go:46-121 | the backend's reply shows the agent's standing in the store before and after the decision, and a transition exactly when its state changed |
| `PipelineTrust.AnswerShowsStore` | governance/pipeline.go:357-377 | a scored call answers with the score and state its agent then has in the store |
| `PipelineTrust.AdministrationExact` | governance/trust_beta.go:126-149 | a reset makes the agent unknown, a termination shuts it out and keeps its parameters, and neither touches another agent |
| `PipelineTrust.BlockedCall` | governance/pipeline.go:432-464 | a blocked agent's call is denied, or indeterminate on a configuration error, and records nothing |
| `PipelineTrust.IsolationAbsorbing` | governance/pipeline.go:1002-1018 | until an ISOLATED or TERMINATED agent is itself reset or terminated, no run changes its record |
| `PipelineTrust.BlockedThroughout` | governance/pipeline.go:432-464 | and each of its calls in the run, dry-run off, is denied or indeterminate |
| `PipelineTrust.RecordIsHistory` | governance/pipeline.go:777-790 | an agent's record after a run is the fold of its own submitted outcomes |
| `PipelineTrust.Noninterference` | governance/trust_beta.go:80-121 | deleting every other agent's operations from a run leaves the agent's record unchanged |
| `PipelineTrust.AnswersDoNotInterfere` | governance/trust_beta.go:46-73 | and leaves every later answer it gets unchanged |
| `PipelineTrust.VerdictCountsExactly` | governance/pipeline.go:1002-1018 | a live agent's verdict is scored exactly when no check it gets to fails (or the evaluator denies beside skipped rules), dry-run does not let it through, and the text of whoever decided carries no marker |
| `PipelineTrust.DenialCountsExactly` | governance/pipeline.go:1002-1018 | whatever the collaborators do, a static denial of a live agent is scored exactly when its text carries no trust marker |
| `PipelineTrust.MarkerTextHidesDenial` | governance/pipeline.go:1010 | a concrete denial that is never scored |
| `PipelineTrust.TrustMarkedExact` | governance/pipeline.go:1002-1018 | a text keeps a decision from being scored exactly when it starts with the failed-check phrase or holds either state phrase at some index |
| `PipelineTrust.SequentialPermitsOnlyLive` | governance/pipeline.go:432-464 | over sequential runs a permitted answer never reports a blocked agent |
| `PipelineTrust.DenialsShutOut` | governance/trust_beta.go:80-121 | whatever other agents do, DenialBound unmarked static denials leave a live agent ISOLATED, and each later call until it is reset or terminated is blocked |
| `TrustRace.FlightsBoundChanges` | governance/trust_beta.go:80-121 | in every interleaving, while an agent stays blocked its record changes at most as often as it had evaluations in flight |
| `TrustRace.TooFewToLift` | governance/trust_beta.go:95-113 | if even success of all evaluations in flight leaves the score below theta, the agent stays isolated in every interleaving |
| `TrustRace.LiftableExactly` | governance/trust_beta.go:95-113 | and otherwise some interleaving lifts it: the exact condition where a success weighs at least a partial outcome |
| `TrustRace.FlightLifts` | governance/trust_beta.go:111-113 | default settings, three evaluations together: two denials isolate the agent and the third, in flight, lifts it |
| `TrustRace.TerminatedStays` | governance/trust_beta.go:111-113 | termination is absorbing however many evaluations are in flight |
| `TrustRace.StepsExact` | governance/trust_beta.go:46-149 | an evaluation is in flight exactly when its agent was not blocked at the check, and no longer once it has recorded or left; resets and terminations act on the store alone |
| `Conditions.SplitFacts` | policyeval/conditions.go:137-167 | splitting a path loses nothing and leaves no dot in a piece |
| `Conditions.FieldPathPredicts` | policyeval/conditions.go:118-248 | the validator accepts a field exactly when the evaluator resolves it, in any context |
| `Conditions.FieldReads` | policyeval/conditions.go:157-248 | the context field every fixed path reads, whatever follows a further dot |
| `Conditions.AttributeReads` | policyeval/conditions.go:157-248 | an attribute is named by everything after the second dot, dots included, and reads as empty when absent |
| `Conditions.RangeExact` | policyeval/conditions_evaluators.go:177-209 | a range condition answers by the sign of field minus bound, and faults exactly without two numbers or a comparing operator |
| `Conditions.SpikeExact` | policyeval/conditions_evaluators.go:244-276 | a spike without division: the field lies beyond mean plus threshold deviations, three by default |
| `Conditions.InListIsMembership` | policyeval/conditions_evaluators.go:211-218 | the list scan is membership, turned round by NOT_IN |
| `Conditions.FaultsExactly` | policyeval/conditions.go:9-111 | every accepted tree of predictable leaves, whatever its operators: evaluation faults if and only if it reaches a node without an operator, and otherwise equals the plain meaning |
| `Conditions.ValidationPredicts` | policyeval/conditions.go:9-111 | an accepted tree of predictable kinds whose operators are all named never faults and evaluates to its all/exists/not-first meaning |
| `Conditions.LogicalFaultsExactly` | policyeval/evaluator.go:615-633 | above trees that name their operators, an accepted logical node faults exactly when its own operator is unspecified |
| `Conditions.ValidatedYetFaulting` | policyeval/evaluator.go:615-633 | a condition that is accepted and faults in every context |
| `Conditions.LeafFaultsExactly` | policyeval/conditions.go:9-66 | a leaf of any kind faults exactly when its field does not resolve, its pattern does not compile, its numbers do not compare, its call is disabled or faults, or its kind is not evaluated here |
| `Conditions.ExternalExact` | policyeval/evaluator.go:615-674 | an external call on a valid field answers as the call does, up to negation; validation asks for no field, so it accepts calls that fault whenever evaluated, exactly those without a valid one |
| `Conditions.RegexCache.Compiled` | policyeval/conditions_evaluators.go:113-136 | used by one call at a time, the cache never changes an answer and never holds more than 1000 patterns |
| `RegexCacheRace.CacheBound` | policyeval/conditions_evaluators.go:113-136 | in every interleaving with at most k calls between taking the lock and having stored, stores landing during a clear included, the cache holds at most 1000 + k - 1 patterns |
| `RegexCacheRace.BoundAttained` | policyeval/conditions_evaluators.go:113-136 | for every k some interleaving reaches 1000 + k - 1 |
| `RegexCacheRace.StoreSurvivesWalk` | policyeval/conditions_evaluators.go:123-134 | a store that lands during the clear and survives it |
| `RegexCacheRace.LimitExceeded` | policyeval/conditions_evaluators.go:123-134 | two overlapping calls reach 1001 patterns |
| `PolicyEval.Evaluator.ValidatePolicySet` | policyeval/evaluator.go:159-170 | no error exactly when every policy is valid |
| `PolicyEval.Evaluator.UpdatePoliciesStrict` | policyeval/evaluator.go:117-143 | installs the sorted set; the error reflects validity, and arms fail-closed in strict mode only |
| `PolicyEval.Evaluator.RunPolicy` | policyeval/evaluator.go:332-436 | the rule loop with its terminal and escalation exits equals the scan specification; `PolicyEval.ScanStep` says what that scan does on the conditions |
| `PolicyEval.Evaluator.RunPolicies` | policyeval/evaluator.go:226-290 | the policy loop with its stop at a deny equals the tally specification |
| `PolicyEval.Evaluator.Evaluate` | policyeval/evaluator.go:191-317 | the action is the strictest verdict over every applicable policy; a strict failure denies and says so |
| `PolicyEval.RuleExact` | policyeval/evaluator.go:440-468 | a rule matches exactly when every condition is evaluated here and holds; otherwise the first that is not decides: escalates exactly if it must go to a server, faults exactly if it faults, misses exactly if it does not hold |
| `PolicyEval.FaultCarried` | policyeval/evaluator.go:440-468 | a faulting rule reports the fault of the condition that faulted, its deadline flag included |
| `PolicyEval.ScanStep` | policyeval/evaluator.go:332-413 | how one more rule extends a policy's scan: a firing rule is listed with its actions and stops at a terminal one, a deferred one escalates and stops, a faulting one is reported and skipped, any other changes nothing |
| `PolicyEval.DeferralTells` | policyeval/evaluator.go:374-468 | an escalating rule is named in the reason, with what it has to ask |
| `PolicyEval.ScanDeadline` | policyeval/evaluator.go:351-371 | a skipped rule is reported by policy, rule and fault, and the scan is timed out exactly when a skipped rule missed a deadline |
| `PolicyEval.StopsAtTerminal` | policyeval/evaluator.go:385-413 | a matching rule ends the scan exactly when one of its actions is terminal |
| `PolicyEval.InScopeExact` | policyeval/evaluator.go:471-560 | the context list or value each non-empty scope list is compared with |
| `PolicyEval.TallyStep` | policyeval/evaluator.go:226-290 | how one more policy extends the tally: its findings are gathered, and its verdict, reason and credit are taken exactly when it outranks the tally |
| `PolicyEval.CreditExact` | policyeval/evaluator.go:226-290 | a policy is credited exactly when the action is not allow; it applies and did not itself allow, and a deny is credited to a policy that denied |
| `PolicyEval.DecisionReports` | policyeval/evaluator.go:226-317 | the decision says that nothing matched exactly when no rule of an applicable policy fires or defers; an escalation speaks for a policy that escalated; short of a deny, it reports a skipped rule and a missed deadline exactly when some applicable policy had one |
| `PolicyEval.TallyIsStrictest` | policyeval/evaluator.go:226-290 | early termination changes nothing: the action is the maximum over all applicable policies, reached or not |
| `PolicyEval.OrderAndStopIrrelevant` | policyeval/evaluator.go:117-123 | the action is the same for every order and either stopOnDeny setting |
| `PolicyEval.AddingNeverLowers` | policyeval/evaluator.go:226-290 | a larger policy set is never more lenient |
| `PolicyEval.PolicyVerdictExact` | policyeval/evaluator.go:346-413 | a policy escalates exactly when its scan reaches a rule to escalate; otherwise its verdict is the strictest executed action |
| `PolicyEval.LaterEscalationReplacesDeny` | policyeval/evaluator.go:374-383 | two rules whose deny is replaced by an escalation |
| `PolicyEval.ScanErrorsExact` | policyeval/evaluator.go:351-371 | a policy reports an error exactly when its scan skipped a faulting rule |
| `PolicyEval.TallyErrorsExact` | policyeval/evaluator.go:226-256 | the evaluator reports an error only for a skipped rule, and every one unless it stopped at a deny |
| `PolicyEval.CleanVerdictSkipsNothing` | policyeval/evaluator.go:226-290 | an error-free verdict short of deny skipped no reached rule of any applicable policy, and none is stricter |
| `PolicyEval.ValidatedSetNeverSkips` | policyeval/evaluator.go:565-674 | a validated set of predictable conditions skips no rule on any request |
| `PolicyEval.MissingPartsRejected` | policyeval/evaluator.go:565-612 | a policy missing its id, tenant, rules, a rule id or a rule's actions is invalid |
| `PipelineEval.PermittedMeansNothingSkipped` | governance/pipeline.go:547-607 | fail closed down to the rule: a permitted call means no applicable policy skipped a reached rule or denied |
| `PipelineEval.EvaluatorVerdictStable` | policyeval/evaluator.go:226-290 | the verdict stage 4 takes is independent of policy order and stopOnDeny |
| `RateLimit.RateLimiter.Allow` | interceptors/ratelimit.go:53-88 | the verdict and new buckets, tokens within capacity, other keys untouched |
| `RateLimit.RefillFacts` | interceptors/ratelimit.go:66-80 | a refill adds the whole intervals elapsed, capped, and leaves less than one interval over |
| `RateLimit.IntervalExact` | interceptors/ratelimit.go:53-88 | the interval is the longest of which MaxRequests fit into the window, and one nanosecond at least |
| `RateLimit.FirstAdmitted` | interceptors/ratelimit.go:53-88 | with both limits positive a key not seen before is admitted |
| `RateLimit.RateBound` | interceptors/ratelimit.go:53-88 | for every key and window, admissions are at most MaxRequests + ceil(window / interval) |
| `RateLimit.LazyRefinesTicking` | interceptors/ratelimit.go:53-88 | every verdict equals that of a limiter adding one capped token per interval |
| `CliParser.SplitPipes` | adapters/cli/parser.go:51-107 | the index loop equals the recursive splitter |
| `CliParser.Tokenize` | adapters/cli/parser.go:111-168 | the index loop equals the recursive tokenizer, whose tokens `CliParser.LayoutTokens` gives |
| `CliParser.ParseCommand` | adapters/cli/parser.go:21-47 | the whole parse, errors included |
| `CliParser.ScannersAgree` | adapters/cli/parser.go:51-168 | joining the segments gives the input back, each is quote-balanced, and tokenizing one cannot fail |
| `CliParser.ParseOutcome` | adapters/cli/parser.go:21-47 | each error exactly characterised; the tokenizer's quote error is unreachable |
| `CliParser.LayoutTokens` | adapters/cli/parser.go:111-168 | any words, each made of bare, single-quoted and double-quoted pieces in any mix, with any runs of blanks and tabs between them, tokenize to exactly those words; empty ones vanish |
| `CliParser.LaidOutParses` | adapters/cli/parser.go:21-168 | any chain of commands so written, joined by pipes and surrounded by white space, parses to that chain without its empty words |
| `CliParser.LayoutRoundTrip` | adapters/cli/parser.go:21-168 | and to the chain itself when no word is empty |
| `CliParser.RoundTrip` | adapters/cli/parser.go:21-168 | double-quoting every argument of any chain and parsing gives the chain back if and only if no argument is empty |
| `RecordScan.Scanner.ConsumeValue` | governance/record_decode.go:236-299 | the stream scan equals the token specification and advances past exactly what it consumed |
| `RecordScan.Scanner.Reject` | governance/record_decode.go:194-232 | the classified outcome of a whole document |
| `RecordScan.ConsumeValueTokens` | governance/record_decode.go:236-299 | on any value followed by anything the scan consumes exactly the value, and fails exactly on case-folded duplicates at some depth |
| `RecordScan.ScanClassifies` | governance/record_decode.go:194-232 | duplicate outranks trailing data, which outranks an unknown name |
| `RecordScan.AcceptsExactly` | governance/record_decode.go:101-122 | accepted exactly when names are distinct, nothing follows, and the schema objects hold only exact-case schema names or the empty name |
| `RecordScan.CleanExactly` | governance/record_decode.go:194-299 | any token stream is clean exactly when it is one whole value, with nothing after it, whose names are distinct at every depth and whose record, check and claim objects are closed |
| `RecordScan.ScanReads` | governance/record_decode.go:236-299 | what a successful scan consumed is the token form of some value |
| `RecordScan.EmptyNamePasses` | governance/record_decode.go:236-299 | a record with an empty member name that the scan accepts |
| `SecureGithub.TaintingReads` | adapters/securegithub/classify.go:20-69 | only reads taint, and a tainting read names its source; `SecureGithubCalls.TaintsExactly` says which |
| `SecureGithub.ParseToolExact` | adapters/securegithub/classify.go:20-75 | a tool is recognised exactly by its own name, white space and the profile prefix aside |
| `SecureGithubCalls.TaintsExactly` | adapters/securegithub/classify.go:20-104 | exactly which calls taint: an issue or pull-request read unless its claimed source or its author's association is an insider's, and any read whose arguments claim an outside source |
| `SecureGithubCalls.PrivateWriteExactly` | adapters/securegithub/classify.go:20-104 | exactly the calls of create_or_update_file, push_files and merge_pull_request whose arguments name no other sink and no public repository are protected writes |
| `SecureGithubCalls.SessionExact` | adapters/securegithub/adapter.go:188-210 | the session a call belongs to |
| `SecureGithubCalls.CallExact` | adapters/securegithub/adapter.go:188-200 | a call's own tool name and arguments go before those of its parameters |
| `SecureGithubCalls.RepositoryExact` | adapters/securegithub/classify.go:106-116 | the repository a call names |
| `SecureGithubCalls.IdentityExact` | adapters/securegithub/adapter.go:188-260 | the request the pipeline is asked about: its tool, and agent, tenant and request id from the call, then its arguments, then the defaults |
| `SecureGithubCalls.RiskAsked` | adapters/securegithub/types.go:130-157 | the risk class custom rules read is that of the tool |
| `SecureGithubCalls.SourceAsked` | adapters/securegithub/types.go:130-157 | the source class they read is the one the arguments claim, an insider's, or the tool's |
| `SecureGithubCalls.TargetAsked` | adapters/securegithub/types.go:126-157 | the target repository they read is the call's |
| `SecureGithubCalls.MutationAsked` | adapters/securegithub/types.go:130-157 | the mutation class they read is that of the tool |
| `SecureGithubCalls.TaintAsked` | adapters/securegithub/types.go:152-155 | the taint sources are passed on exactly when there are any |
| `SecureGithubCalls.SourcesTold` | adapters/securegithub/adapter.go:188-260 | the taint sources a call is judged under: its session's, in order, and one it declares itself |
| `SecureGithubCalls.DefaultsTold` | adapters/securegithub/types.go:49-85 | the default of every setting; one repository per session is always on |
| `SecureGithub.SessionStore.Get` | adapters/securegithub/session.go:22-34 | the session, created empty if new |
| `SecureGithub.SessionStore.BindRepo` | adapters/securegithub/session.go:36-46 | binds an unbound session and succeeds exactly when the bound repository is the one asked for |
| `SecureGithub.SessionStore.MarkTainted` | adapters/securegithub/session.go:48-62 | taints the session and lists a named source once |
| `SecureGithub.Adapter.BuildRequest` | adapters/securegithub/adapter.go:188-260 | the envelope and the session it binds |
| `SecureGithub.Adapter.GovernToolCall` | adapters/securegithub/adapter.go:123-186 | the outcome and the session store after one governed call |
| `SecureGithubLaws.BuiltInRulesExact` | adapters/securegithub/policies.go:5-57 | a built-in rule fires exactly on a cross-repo call or a tainted W1/W2 call to a private repository |
| `SecureGithubLaws.GuardedRefuses` | adapters/securegithub/policies.go:5-57 | any pipeline holding the built-in rules, dry-run off, refuses those calls on any transport setting |
| `SecureGithubLaws.PreviewExact` | adapters/securegithub/adapter.go:42-53 | the profile's own pipeline forwards exactly the other calls |
| `SecureGithubLaws.OneRepoPerSession` | adapters/securegithub/session.go:36-46 | over every sequential run, all upstream calls of one session name the same owner and repository |
| `SecureGithubLaws.NoPrivateWriteAfterTaint` | adapters/securegithub/adapter.go:164-171 | after a served tainting read, no later upstream call of that session is a W1/W2 write to a private repository |
| `SecureGithubCalls.ForwardedExactly` | adapters/securegithub/adapter.go:123-186 | on tool name, arguments and session: a supported call reaches GitHub exactly when its session is not bound elsewhere and it is not a protected write to a private repository under taint |
| `SecureGithubCalls.SessionAfter` | adapters/securegithub/adapter.go:123-260 | what a call leaves behind: an unbound session is bound to its repository, taint grows exactly by a served read of outside content, other sessions are as they were |
| `SecureGithubCalls.OutcomeReports` | adapters/securegithub/adapter.go:123-186 | the envelope a call ends with is the one it was judged under, and a served read of outside content adds its own source |
| `SecureGithubCalls.UnsupportedRefused` | adapters/securegithub/adapter.go:123-145 | a tool outside the profile never reaches GitHub and leaves every session alone |
| `SecureGithubCalls.NoProtectedToolAfterOutsideRead` | adapters/securegithub/adapter.go:123-186 | over every run: after a served read of outside content no later upstream call of that session is create_or_update_file, push_files or merge_pull_request, unless its arguments name another sink or a public repository |
| `SecureGithubCalls.TaintIsHistory` | adapters/securegithub/session.go:48-62 | over every run from an empty store: a session lists a source exactly when a served read of its own brought it in, each once, and is tainted exactly when some read did |

## Left out

- HTTP, gRPC, webhook, A2A and MCP transports, the CLI commands, Redis, NATS, container execution and GitHub clients: I/O around the same decision calls.
- Pipeline.Pipeline.Evaluate: events carry no hashes, signatures, timestamps, trace ids or build digests; a request without an id is modelled with the one generated for it.
- Conditions.RegexCache.Compiled: the bound is for one call at a time, because the source stores outside its lock; `RegexCacheRace` gives the concurrent bound.
- Generated identifiers, clocks, durations, logging, signing, hashing and the Class and Detail fields of a failed check: they never influence a verdict.
- Regular expressions, path globs, number parsing and formatting, and external-call conditions: arbitrary deterministic functions. The Secure GitHub laws assume only that `github.*` matches every `github.` tool name without a slash.
- Float rounding and integer width: scores are exact reals, counters and durations unbounded integers.
- Text details: case folding is over ASCII, quoting escapes inside reason texts are not reproduced, and an invalid handler action is not echoed in the fault reason.
- Nil values (pipeline, request, policy, rule, condition): not modelled.
- Concurrent calls sharing one session store: the session laws are over sequential runs; so are the trust laws outside `TrustRace`, which leaves open what each evaluation records.
- The quote scanner's `escaped` flag in the splitter is never set in the source, so the model has no such state; commands are characters, not bytes.
- A handler panic is not recovered by the pipeline: the answer is then absent, while audit and trust still see the escalated decision, as in the source.
- The typed decoding that follows the record scan, and the reflection that computes the schema's member sets: the sets and the case folding are parameters.
- The static-rule pattern cache in governance/policy.go has the same shape as `Conditions.RegexCache` and is not repeated.
- The projection of a request into an evaluation context is an arbitrary function of the request and its trust posture.
- Decoding and normalising raw tool-call bytes, and building MCP responses, for the Secure GitHub adapter.
- Code analyzers, the SQL classifier, risk tables, the bypass ladder and the managed-agent thread tracker: tables, or bookkeeping without a law of this depth.
