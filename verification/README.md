# A verified model of the broker, the session claims and the skill engine

This project models the parts of the repository that carry its promises, and proves them with
Dafny. `dafny verify dfyconfig.toml` checks everything.

| files | what they model |
|---|---|
| `Budget`, `BudgetWindows`, `BudgetAdmission` | the in-memory budget tracker of the model broker: lazily reset hourly windows and three counters of active work |
| `Journal`, `BrokerProtocol`, `BrokerSafety`, `BrokerAnswers`, `Broker` | the durable request protocol: request files, the journal, no-overwrite publication, rival brokers and crashes |
| `Claims`, `ClaimsSafety`, `ClaimsLimits`, `ClaimsHandover`, `Cluster`, `ContainerRunner` | hosts claiming sessions by compare-and-set, and the fenced finalization of their runtimes |
| `References`, `Directives`, `DirectiveFaults`, `SkillEngine`, `Substitution`, `SkillApply`, `SkillDispatch`, `SkillEffects`, `SkillRun`, `SkillStatic`, `SkillStaticLimits`, `SkillUndo`, `SkillPlan`, `SkillPolicy` | the skill language: the scanner for `{{name}}`, static check, interpreter, undo journal, plan, and the policy for pauses |
| `SqlMask`, `SqlTokens`, `SqlVerdict` | the scanner that blanks literals and comments of an SQL statement, and which statements count as queries |
| `EnvFile`, `EnvRemoval` | the rewriter of `.env` files, and what a removal after an update leaves |
| `SlackProtocol`, `SlackCompletion`, `SlackWorker` | the worker that saves a bot token before it acknowledges the delivery |
| `Wrappers`, `Text` | maps with counters; lines, trimming and filtering of text |

Three protocols (broker, claims, Slack worker) come in two layers. A transition system says what
can happen at each effect, with a crash, a rival or an error possible between any two; a history is
any sequence of its steps, and the safety results hold at every moment of every history. The
program itself is then written as methods that change one object in place; each effect of a method is a
step of the transition system, and every contract says that the history so far was only extended.
So whatever holds of histories holds at each point where the program may stop.

Safety alone would be met by a program that does nothing. So each protocol also has results on what
an undisturbed run comes to: every request file gets its answer (`BrokerAnswers`), a session is handed
over when its runtime ends or its owner is gone (`ClaimsHandover`), and a delivered token is saved,
acknowledged and installed (`SlackCompletion`). `Broker.World`, `Cluster` and `SlackWorker.World`
each have a `calm` flag, under which nothing fails that need not; the contracts of the program say
what a calm pass comes to.

The skill engine also comes twice. `SkillApply.Run` is the loop with its result record, `try`,
`catch` and in-place updates; each of its methods is tied to a function of the same step, and whole
runs of these functions are what the results on accounting, the failure latch, the static check,
undo, plans and pauses speak about. `SkillDispatch` says which directives are skipped, bounced or
tried, and `SkillEffects` and `Substitution` what each of them writes, shows, runs and binds. What the outside answers to one directive (prompt answers,
command output, consumer reactions, failing writes) is a `Reply`, over which everything is quantified.

Where the code does less than its comments say, the model follows the code. The results say exactly
when the promise holds, or show the run in which it does not:

* A host that claims a session over a runtime it has registered itself can end up sharing the
  session with another live host, and can record a stop it no longer owns. Startup adoption can do so
  with a second listed container of one session, and a wake can do so after a retried adoption
  whose finalization was deferred (src/container-runner.ts:310-313). `SingleOwner` and
  `StoppedOnlyWhileOwner` hold for all other hosts; `ClaimsLimits` holds the counterexamples.
* Fixed windows let twice the hourly budget through in a sliding hour, for each of the three limits
  (`TwiceTheLimitIsReached`).
* The static check scans a body line by line, while operator blocks and steps are substituted as one
  text, in which the blanks inside `{{ }}` may be line breaks. A reference that spans two lines is not
  checked, and the run defers it (`SpanningReferenceDefers`). `StaticCheckExact` says exactly when a
  checked skill is fully applied; without such references it always is (`StaticCheckSound`).
* The static check accepts captures that the engine never makes: on `effect:check`, on an empty
  body, a bare name on `effect:step`, and a pair without `=`, of which it keeps all but the last
  character (`DishonestCaptureDefers`). It also ignores that a guarded definer may be skipped
  (`GuardedDefinerDefers`).
* `planSkill` marks a prompt "skip" when all its consumers are satisfied; a run asks it all the same
  (`PromptIsAskedAnyway`).
* A refused capture quotes the captured value, and a parse error quotes the text, so output that
  contains `unresolved {{` turns a failed capture into a deferred one. The results on what defers
  exclude such messages (`Calm` in `SkillStatic`).
* A copy block that fails after its first file leaves files behind that no journal entry names
  (`PartialCopyIsNotUndone`), and removal also deletes original lines that equal an appended line or
  start with `KEY=` (`RemoveUndoesApply` has the exact condition, `RemoveRestoresFresh` one that
  can be told before the run).
* The lint for ambiguous pauses asks for two branch values, but one guarded directive is enough for a
  pause decision about a directive that the run skips (`LintMissesOneBranch`).
* When saving a fresh token throws without stopping the process, the next pass acknowledges the
  unsaved token (`OneThrowingSaveLosesToken`).
* `removeEnvVar` searches with a multiline pattern, which also matches behind a carriage return or a
  Unicode line end inside another line, and stops at one inside the value. `RemovalExact` says exactly
  when the key is gone afterwards, and `SeparatorKeepsKey` shows values that keep it. It can even be
  gone by accident: for `X`, a carriage return and `K=1`, followed by the line `K=2`, the cut joins
  the two lines into one that sets no `K`.

## Model

| member | source | states |
|---|---|---|
| Budget.BudgetTracker.constructor | broker/budget.py:28-43 | a new tracker is the initial state, from which every run of the window results starts |
| Budget.BudgetTracker.ResetGlobalBudget | broker/budget.py:45-50 | the global window is replaced exactly when an hour has passed since its start; nothing else changes |
| Budget.BudgetTracker.GetTargetBudget | broker/budget.py:52-76 | a missing or expired target window is replaced by an empty one stamped now, and the entry returned is the stored one |
| Budget.BudgetTracker.Can | broker/budget.py:78-111 | the admission verdict and the windows it resets on the way, for every model alias, including the exits that skip the later checks |
| Budget.BudgetTracker.CountRequest | broker/budget.py:122-143 | one more request in the open windows, with the other counter and the window start untouched |
| Budget.BudgetTracker.RecordRequest | broker/budget.py:113-150 | the whole new state: counted in its windows and active once more in all three counters; other aliases change nothing |
| Budget.BudgetTracker.ReleaseRequest | broker/budget.py:152-183 | one matching active request less; duplicate and unmatched releases change nothing |
| BudgetAdmission.AdmissionExact | broker/budget.py:78-111 | in every run a request that is neither deep nor coder passes and changes nothing; a coder request is refused if and only if three requests are active or three were recorded in the open window of its target, a deep one if and only if three are active, five were recorded for its target, or twenty in all |
| Budget.InitialAgrees | broker/budget.py:28-43 | the three counters of active work agree at the start |
| Budget.CountingKeepsActive | broker/budget.py:78-143 | checking and counting never touch the active-work counters |
| Budget.RecordAgrees | broker/budget.py:145-150 | a record keeps the agreement: concurrency is the sum over requests and over targets, each target is the sum over its models, no stored entry is below 1 |
| Budget.ClampNeverFires | broker/budget.py:175-183 | a release of an active request always finds the counter and the target entry positive, so `max(0, …)` and `pop` defaults are never needed |
| Budget.ReleaseAgrees | broker/budget.py:152-183 | any release, matched or not, keeps the agreement |
| Budget.ReleaseUndoesRecord | broker/budget.py:145-183 | releasing what was just recorded restores the active state exactly |
| BudgetWindows.RunKeeps | broker/budget.py:45-183 | over any run of check-then-record uses and releases under a nondecreasing clock, each window matches the times it counted and no sliding hour holds more than twice its limit |
| BudgetWindows.SlidingHourBound | broker/config.py:40-48 | for every run: at most 20, 5 and 3 in a window, 40, 10 and 6 in any half-open hour, three active at once, and the counters agree |
| BudgetWindows.TwiceTheLimitIsReached | broker/budget.py:45-63 | the factor two is real for every limit: runs let six coder and ten deep requests for one target, and forty deep ones in all, through in one hour |
| Journal.Journal.Claim | broker/durability.py:101-110 | a new id gets a CLAIMED row, a known one its state and response, another payload CONFLICT; existing rows keep digest and state |
| Journal.Journal.Finish | broker/durability.py:112-118 | only a CLAIMED row becomes COMPLETE with its response, anything else is refused without a change |
| Journal.Journal.Uncertain | broker/durability.py:120-122 | only a CLAIMED row becomes UNCERTAIN; a COMPLETE one is never lost |
| BrokerSafety.AtMostOneInference | broker/main.py:98-134 | over every history with crashes, errors, resubmitted ids and rival brokers, no id is sent to the model twice |
| BrokerSafety.CallNeedsDurableClaim | broker/main.py:106-128 | a model call starts only for an id whose row is already CLAIMED, that was never called before and never answered |
| BrokerSafety.OneAnswerPerId | broker/main.py:110-132 | all responses ever published for one id are identical |
| BrokerSafety.PublishedMeaning | broker/durability.py:112-123 | each publication is forever the COMPLETE response of the journal, or the fixed uncertain error of an id that never becomes COMPLETE |
| BrokerSafety.RequestConservation | broker/main.py:91-145 | at each moment every submission is in exactly one place, and deleted only after a response for its id was published |
| BrokerSafety.FailedNeverOverwritten | broker/main.py:139-145 | what once was moved to the failed directory stays there under its name, unchanged, for the rest of the history |
| BrokerSafety.BatchLeavesNothingPending | broker/main.py:90-148 | whenever a broker is between two files, the pending files are those it found when it took the lock |
| BrokerSafety.OneBrokerAtWork | broker/durability.py:65-99 | no two brokers are inside a batch at once |
| BrokerAnswers.FileAnswered | broker/main.py:90-148 | from any moment of any history, a run in which nothing fails ends with the file answered: a new id is called once, recorded, published and deleted, or gets the budget error without a call; a complete one is published again; one of unknown outcome gets the uncertain error; another payload, an unreadable or misnamed file is rejected without an answer |
| BrokerAnswers.AtRead | broker/main.py:101-105 | a file whose name fits its request goes on to its claim, any other is rejected |
| Broker.World.ListInbox | broker/main.py:87-89 | a pass takes on different files of the inbox, all of them or eight |
| Broker.World.Enter | broker/main.py:72-89 | the lock is taken exactly when it is free, and the listing is that of the inbox |
| Broker.World.RenameClaimed | broker/main.py:98-100 | the claim rename happens, fails before, or fails after taking effect, and the program counter knows which |
| Broker.World.ReadRequest | broker/main.py:101-105 | whatever bytes are found, a parsed request with the right name goes on to its claim and everything else to the handler |
| Broker.World.ClaimRow | broker/main.py:106-109 | the claim is one durable step that happens, fails, or happens before an exception; a conflict and every exception go to the handler |
| Broker.World.PublishResponse | broker/durability.py:37-50 | publication never overwrites, and an error after the link leaves the response published |
| Broker.World.FinishRow | broker/main.py:129-131 | the answer is durable before it can be published, and an exception leads to the handler whether or not the answer was stored |
| Broker.World.CallModel | broker/main.py:128-128 | the call has begun once the request left, whether or not an answer comes back |
| Broker.World.HandleException | broker/main.py:135-145 | the handler marks the row uncertain before it moves the file, and an error in it escapes the loop, even one after the commit |
| Broker.World.UncertainRow | broker/main.py:110-112 | a response file in the way marks the row uncertain, or fails to, and the handler comes next |
| Broker.World.MovePending | broker/main.py:139-145 | a claimed file that is still there moves to a free name among the failed ones |
| Broker.Reserve | broker/main.py:119-125 | an admitted request holds exactly one reservation, a refused one holds none, and only a deep or coder request can be refused |
| Broker.HeldIsGivenBack | broker/main.py:146-148 | releasing a held reservation restores the active budget state the file began with |
| Broker.ProcessNew | broker/main.py:118-132 | on every way through the branch for a new id the reservation flag tells the truth, and success means the answer is published and the file may be unlinked |
| Broker.DispatchClaimed | broker/main.py:113-132 | the four outcomes of a claim: only a new id reserves, only a cached or new answer ends without an error |
| Broker.ReadClaimed | broker/main.py:98-105 | the file ends up in the handler or waiting for its claim, with nothing reserved |
| Broker.ClaimRequest | broker/main.py:106-112 | behind the claim and the look for a response file, a request is dispatched on the journal's answer, or the handler comes next |
| Broker.TryRequest | broker/main.py:95-134 | the whole `try` is a run of protocol steps that ends in the handler or after the unlink, with a truthful reservation flag |
| Broker.ProcessFile | broker/main.py:91-148 | one turn with `except` and `finally` gives the budget back on all exits and leaves the broker between files, or out when the handler threw; when nothing fails the file has got its answer |
| Broker.ProcessListed | broker/main.py:89-148 | unless the handler throws, the history holds a moment at which each listed file was done, in order; when nothing fails each of them was answered |
| Broker.ProcessRequests | broker/main.py:72-89 | a whole pass extends the history, restores the active budget, and without an escaping error finishes every listed file and leaves no new pending one; a calm one takes on the files that are there and answers each |
| ClaimsSafety.SingleOwner | src/container-runner.ts:151-186 | in every history two live hosts never both have a runtime registered for one session, unless one of them claimed over its own runtime |
| ClaimsSafety.RegistryMatchesRow | src/container-runner.ts:436-465 | the claim row names a live host at the incarnation of the runtime it has registered |
| ClaimsSafety.StoppedOnlyWhileOwner | src/container-runner.ts:655-717 | a live host records "stopped" only while its own incarnation owns the row |
| ClaimsSafety.FinishTouchesOnlyItsOwn | src/container-runner.ts:690-739 | no step of `finish` removes another runtime's registry entry or clears another claim; it clears its own only after the driver stopped the runtime, and always when the release is written |
| ClaimsSafety.LetGoForGood | src/container-runner.ts:188-199 | once released, the row never names that host at that incarnation again, for the rest of the history |
| ClaimsSafety.OneFinishPerRuntime | src/container-runner.ts:610-650 | at every moment at most one `finish` per runtime is running or scheduled |
| ClaimsSafety.CallbacksRunOnce | src/container-runner.ts:703-755 | the callbacks of a runtime run at most once, all that were ever pushed, and like the claim release only after a successful stop |
| ClaimsLimits.OverclaimCanSplitOwnership | src/container-runner.ts:273-318 | from any moment with a live owner, one claim over its own runtime can lead to two live hosts with the session registered |
| ClaimsLimits.SingleOwnerNeedsNoOverclaim | src/container-runner.ts:352-358 | there is a history with two live hosts registered for one session |
| ClaimsLimits.OverclaimCanBreakFence | src/container-runner.ts:652-717 | from any moment with a live owner, a claim over its own runtime during the stop makes the host record "stopped" for an incarnation that no longer owns the row |
| ClaimsLimits.FenceNeedsNoOverclaim | src/container-runner.ts:690-717 | there is a history in which a live host records "stopped" for an incarnation that no longer owns the row |
| ClaimsHandover.EndHandsOver | src/container-runner.ts:652-755 | from any moment with a live owner, an undisturbed end of its runtime lets any other live host claim and register the session |
| ClaimsHandover.LapsedOwnerIsReplaced | src/container-runner.ts:151-186 | when the owner's lease lapses, any other live host can take the session over at the next incarnation |
| ClaimsHandover.LiveOwnerRefuses | src/container-runner.ts:165-178 | a claim against a live owner ends without touching the row |
| ClaimsHandover.FourthReadDefers | src/container-runner.ts:657-690 | three unreadable fence reads are repeated, the fourth defers with row, claims and registry as they were |
| Cluster.Cluster.Take | src/container-runner.ts:151-186 | one step of a host extends the history and leaves the claims of the wakes and adoptions under way alone |
| ContainerRunner.RuntimeStays | src/container-runner.ts:610-618 | a runtime once known stays known and a finished one never becomes unfinished, over any stretch of a history |
| ContainerRunner.ReadHolder | src/container-runner.ts:166-178 | a live peer's claim is refused, an unreadable store throws, and only then is the swap due |
| ContainerRunner.ReadRow | src/container-runner.ts:166-168 | the holder is read before anything else, and an unreadable store throws |
| ContainerRunner.CheckPeer | src/container-runner.ts:169-178 | a peer's claim stands exactly while the peer lives; when nobody can tell, the claim throws |
| ContainerRunner.SwapClaim | src/container-runner.ts:179-185 | a won swap is the row naming this host at the incarnation returned; a lost or unanswered one leaves no claim task |
| ContainerRunner.ClaimSessionRun | src/container-runner.ts:165-186 | whatever other hosts do between the read, the liveness check and the swap, the result is a held claim that the row names, or none; a calm claim is won unless another live host owns the session |
| ContainerRunner.GiveBack | src/container-runner.ts:188-199 | a claim whose spawn failed is over, whether or not the release was written |
| ContainerRunner.RegisterRuntime | src/container-runner.ts:530-554 | the runtime registered is new, unfinished, and carries the incarnation it was claimed at |
| ContainerRunner.ClaimAndRegister | src/container-runner.ts:436-465 | a runtime is registered only behind a won claim, and every other way out has no claim task left |
| ContainerRunner.StartSession | src/container-runner.ts:467-500 | a runtime that does not come up is finished before the spawn throws |
| ContainerRunner.SpawnContainer | src/container-runner.ts:352-501 | a spawn ends with a known runtime, an adopted one, or nothing, and never leaves its claim under way; a calm spawn has a runtime of this host registered, unless another live host owns the session |
| ContainerRunner.RetryPendingAdoption | src/container-runner.ts:273-318 | a container stays pending exactly when the claim could not be written, its adoption failed, or it fell through with a finished runtime |
| ContainerRunner.WakeContainer | src/container-runner.ts:329-350 | a running session is left alone, a second wake joins the first and claims nothing, and a finished wake is taken off the list with no claim left; false means that the spawn threw, true a runtime started or adopted, or a group that is gone |
| ContainerRunner.AdoptSession | src/container-runner.ts:804-872 | which ways out of one adoption make the session pending, and which end its pending state; a calm one adopts unless the session is not ours or another live host owns it |
| ContainerRunner.AdoptRunningSessions | src/container-runner.ts:792-888 | after the loop a session is pending exactly when its last deciding turn failed to write its claim, and the counts are those of the turns |
| ContainerRunner.ReadFenceRow | src/container-runner.ts:660-701 | four failed reads defer, a newer incarnation drops only this runtime's entry, and the runtime is stopped only behind an open fence |
| ContainerRunner.StopRuntime | src/container-runner.ts:703-711 | a failed stop defers with everything retained |
| ContainerRunner.BestEffort | src/container-runner.ts:713-739 | recording, dropping and releasing come in this order, and go on when one of them fails |
| ContainerRunner.RunCallbacks | src/container-runner.ts:748-755 | the run ends with all pushed callbacks run, for a runtime that is off the registry and torn down |
| ContainerRunner.RunFinish | src/container-runner.ts:652-755 | a run of `finish` is over, and deferred with its timer, fenced off the registry, or complete, under any interleaving; a complete run whose release was written leaves a row that does not name the runtime, and a calm one of the owner leaves a row without an owner |
| ContainerRunner.FinishAndResolve | src/container-runner.ts:605-625 | the first terminal event of the registered runtime, and no other, runs `finish`; the runtime is finished afterwards |
| ContainerRunner.FireTimer | src/container-runner.ts:640-650 | a due timer always starts a run of `finish` from its first fence read |
| ContainerRunner.DeferredFinish | src/container-runner.ts:640-650 | the deferred run ends in one of the same three ways |
| ContainerRunner.KillContainer | src/container-runner.ts:758-781 | killing what is not registered changes nothing; otherwise the runtime that was registered is finished, whether or not the stop worked, and a callback left with it stays pushed; a calm kill by the owner leaves a row without an owner |
| References.NamesMean | nanoclaw/scripts/skill-apply.ts:112-112 | the names that the left-to-right scan finds are exactly those at which the pattern matches, at any place of the text |
| References.JoinedNames | nanoclaw/scripts/skill-directives.ts:183-187 | joining the lines of a body loses no reference that the check finds in one of them |
| References.JoinAddsNothing | nanoclaw/scripts/skill-directives.ts:183-187 | a joined body refers to nothing else, unless a match spans a line break |
| Directives.Validate | nanoclaw/scripts/skill-directives.ts:207-346 | the loop with its growing set of variables reports, in document order, every problem of each directive given what was defined before it: one for each dependency spec, reference and removed attribute |
| Directives.CleanMeansScoped | nanoclaw/scripts/skill-directives.ts:312-327 | after a clean report every reference and every guard names an earlier definition |
| DirectiveFaults.ReportedExactly | nanoclaw/scripts/skill-directives.ts:207-346 | each problem is reported for exactly the directives that have its fault, one rule for each of the faults of every kind, given what earlier prompts and captures define |
| DirectiveFaults.InDocumentOrder | nanoclaw/scripts/skill-directives.ts:211-345 | the problems come in the order of their directives |
| EnvFile.SetsMeans | nanoclaw/setup/set-env.ts:51-55 | a line sets a key exactly when that key, between blanks, stands in front of its first `=` |
| SkillEngine.RemoveSkill | nanoclaw/scripts/skill-apply.ts:1074-1114 | removal is the journal undone backwards, and stops at the first file that is not JSON any more |
| Substitution.SubstituteFirst | nanoclaw/scripts/skill-apply.ts:588-594 | the first match is replaced by the value of its name and the rest is substituted; a name without a value throws |
| Substitution.SubstituteMeans | nanoclaw/scripts/skill-apply.ts:588-594 | substitution yields a text if and only if that text is the original with its references replaced from left to right and everything else as it was |
| SkillDispatch.SkippedExactly | nanoclaw/scripts/skill-apply.ts:898-1012 | a directive is skipped if and only if the refresh leaves its kind alone, its guard is not met, the caller owns its effect, the run is blocked before an operator block, or what it is for is there; nothing changes then |
| SkillDispatch.UntriedIsBounced | nanoclaw/scripts/skill-apply.ts:994-1008 | unknown directives, merges without a usable body and gated effects of a blocked run go to an agent untried, and block the run |
| SkillDispatch.OthersAreTried | nanoclaw/scripts/skill-apply.ts:1013-1066 | everything else is tried, and ends as its mutation does |
| SkillDispatch.RefusedStart | nanoclaw/scripts/skill-apply.ts:1019-1019 | a consumer that throws at the start keeps the mutation from being tried |
| SkillDispatch.RefusedEnd | nanoclaw/scripts/skill-apply.ts:1035-1036 | one that throws at the end decides how the step counts; what was done stays done |
| SkillDispatch.RefusedBlock | nanoclaw/scripts/skill-apply.ts:978-985 | a refused block was shown all the same |
| SkillDispatch.FailedStepBounces | nanoclaw/scripts/skill-apply.ts:769-785 | a step that ends failed binds and journals nothing, and its error never counts as a missing input, whatever the step says |
| SkillDispatch.LineByLine | nanoclaw/scripts/skill-apply.ts:787-820 | bodies are worked off line by line, up to the first line that throws |
| SkillDispatch.DepAdds | nanoclaw/scripts/skill-apply.ts:724-743 | missing dependencies are added by one command that the journal can undo |
| SkillEffects.EnvSetWrites | nanoclaw/scripts/skill-apply.ts:805-820 | a fresh key becomes the last line of .env with its references replaced; a set key leaves the file alone; an entry without `=` is its own value under a key that lacks the last character |
| SkillEffects.AppendWrites | nanoclaw/scripts/skill-apply.ts:716-721 | the line is added at the end, behind a line break if one is missing |
| SkillEffects.AppendInserts | nanoclaw/scripts/skill-apply.ts:702-715 | the line goes in front of the first line with the closing marker, indented like it |
| SkillEffects.AppendNeedsMarker | nanoclaw/scripts/skill-apply.ts:708-710 | without such a line nothing changes and the append fails |
| SkillEffects.DestMeans | nanoclaw/scripts/skill-apply.ts:113-113 | the destination of a copy line is the trimmed text behind its arrow |
| SkillEffects.CopyWrites | nanoclaw/scripts/skill-apply.ts:672-697 | an install creates and journals exactly the absent destinations of the block, and touches nothing else |
| SkillEffects.CopyOne | nanoclaw/scripts/skill-apply.ts:688-695 | the copied content is the one that was read |
| SkillEffects.MergePushes | nanoclaw/scripts/skill-apply.ts:821-843 | an install appends the element unless one with the same scalar under the key is there |
| SkillEffects.MergeReplaces | nanoclaw/scripts/skill-apply.ts:835-841 | a refresh replaces the first element with the same scalar under the key, and journals the old one |
| SkillEffects.MergeNeedsArray | nanoclaw/scripts/skill-apply.ts:826-827 | a file that is no JSON array is left alone, and the merge fails |
| SkillEffects.CommandRuns | nanoclaw/scripts/skill-apply.ts:787-802 | the command is run with its references replaced, journaled as written, and its trimmed output bound |
| SkillEffects.CheckRuns | nanoclaw/scripts/skill-apply.ts:760-763 | a check runs its command and leaves everything else alone |
| SkillEffects.RefusedCapture | nanoclaw/scripts/skill-apply.ts:631-652 | output that misses its pattern is not bound and not journaled |
| SkillEffects.JsonCommandRuns | nanoclaw/scripts/skill-apply.ts:646-651 | each field of a JSON capture is bound to what its path finds in the output |
| SkillEffects.OneHop | nanoclaw/scripts/skill-apply.ts:609-616 | a path of one name reads that field, and undefined or null as nothing |
| SkillEffects.NextHop | nanoclaw/scripts/skill-apply.ts:609-616 | dots go on into the objects below |
| SkillEffects.StepRuns | nanoclaw/scripts/skill-apply.ts:769-785 | a step runs its joined body once and binds each named field, and nothing else |
| SkillEffects.BlockShows | nanoclaw/scripts/skill-apply.ts:977-987 | a block is shown as its joined lines with the references replaced |
| SkillEffects.InputBinds | nanoclaw/scripts/skill-apply.ts:925-961 | a given input is bound to the asked name, normalized as asked |
| SkillEffects.InputChecked | nanoclaw/scripts/skill-apply.ts:944-958 | the pattern is put to the normalized value; a miss defers and binds nothing |
| SkillEffects.AnswerBinds | nanoclaw/scripts/skill-apply.ts:935-940 | without a given input the resolver's answer is bound, and no answer defers |
| SkillEffects.SatisfiedMeans | nanoclaw/scripts/skill-apply.ts:152-192 | a copy, append or env-set is satisfied if and only if its files, its line or its keys are there |
| SkillEffects.AnswerReachesFile | nanoclaw/scripts/skill-apply.ts:849-1071 | a whole run of a prompt, a setting and a block: the answer ends in .env and on the screen, with its journal and outcome lists |
| SkillApply.Run.CopyFiles | nanoclaw/scripts/skill-apply.ts:672-697 | files written, and journal entries only when the whole block was written |
| SkillApply.Run.AppendLine | nanoclaw/scripts/skill-apply.ts:698-723 | the line goes to the end or in front of the closing marker, with its journal entry, or nothing happens |
| SkillApply.Run.SetEnvLine | nanoclaw/scripts/skill-apply.ts:805-820 | an unresolved value throws before the key is looked at; a key that is set is left alone |
| SkillApply.Run.BindOutput | nanoclaw/scripts/skill-apply.ts:631-652 | which variables a capture binds, including those bound before a pair fails its pattern, and the error with the value it quotes |
| SkillApply.Run.BindBlock | nanoclaw/scripts/skill-apply.ts:774-783 | which fields of a finished step are bound |
| SkillApply.Run.StreamOne | nanoclaw/scripts/skill-apply.ts:769-786 | the joined body is substituted as one text; the step's outcome, its bindings and its journal entry, or the error it throws |
| SkillApply.Run.RunCommand | nanoclaw/scripts/skill-apply.ts:760-803 | one command: substituted, run, captured and journaled, a check only run |
| SkillApply.Run.OneLine | nanoclaw/scripts/skill-apply.ts:698-820 | one line of a body does what its kind of directive does with it |
| SkillApply.Run.EachLine | nanoclaw/scripts/skill-apply.ts:698-820 | the loop over the body stops at the first throwing line and keeps what the earlier ones did |
| SkillApply.Run.MergeJson | nanoclaw/scripts/skill-apply.ts:821-843 | the element is pushed, replaced on refresh with the old one journaled, or left |
| SkillApply.Run.Mutate | nanoclaw/scripts/skill-apply.ts:656-847 | the whole effect of applyOne on tree, variables and journal, with the error it ends in |
| SkillApply.Run.Catch | nanoclaw/scripts/skill-apply.ts:1059-1066 | an error defers exactly when it reads like a missing input and is not a step's own report; otherwise it bounces and latches |
| SkillApply.Run.Ask | nanoclaw/scripts/skill-apply.ts:925-961 | given inputs come first, the value is normalized before it is checked, and a bad one binds nothing |
| SkillApply.Run.Show | nanoclaw/scripts/skill-apply.ts:962-988 | an operator block is skipped when blocked, deferred when its joined text has an unbound reference, and recorded before the consumer can throw |
| SkillApply.Run.Attempt | nanoclaw/scripts/skill-apply.ts:1019-1058 | the bracket is closed once, whichever way the mutation ends |
| SkillApply.Run.Step | nanoclaw/scripts/skill-apply.ts:1013-1066 | a mutation ends applied, deferred or bounced, with the consumer able to turn it into either |
| SkillApply.Run.RunDirective | nanoclaw/scripts/skill-apply.ts:898-1067 | the body of the loop takes the engine step that the results below speak about |
| SkillApply.Run.ApplySkill | nanoclaw/scripts/skill-apply.ts:849-1071 | a whole run, in place, comes to the state the results below speak about, for all skills, options and replies |
| SkillRun.EachDirectiveOnce | nanoclaw/scripts/skill-apply.ts:898-1067 | each directive is in exactly one of the five outcome lists, once, in document order |
| SkillRun.FullyAppliedMeans | nanoclaw/scripts/skill-apply.ts:353-355 | fullyApplied holds exactly when every directive was applied, skipped or bound |
| SkillRun.FailureLatches | nanoclaw/scripts/skill-apply.ts:887-1003 | blocked holds exactly when something was bounced, and from that event on no restart, step, wire, build or test command runs and no operator block is shown |
| SkillRun.StepEventsBalance | nanoclaw/scripts/skill-apply.ts:1018-1058 | every accepted start is closed by exactly one end for the same directive with only its own commands between, and every end was opened |
| SkillStatic.DefersExactly | nanoclaw/scripts/skill-apply.ts:588-594 | when nothing is bounced, nothing is deferred if and only if every unskipped directive has all names it substitutes bound by then |
| SkillStatic.StaticCheckExact | nanoclaw/scripts/skill-directives.ts:207-346 | an install run of a checked skill that bounces nothing is fully applied if and only if each operator block and step, read as one text, refers to names bound before it |
| SkillStatic.StaticCheckSound | nanoclaw/scripts/skill-directives.ts:207-346 | a clean report on an unguarded skill with honest captures, in which no reference of an operator block or step spans lines, means: an install run that bounces nothing is fully applied |
| SkillStatic.WellFormedIsHonest | nanoclaw/scripts/skill-directives.ts:174-180 | captures outside checks and empty bodies, by pairs on steps, and without a pair lacking `=`, bind all the check believes |
| SkillStaticLimits.DishonestCaptureDefers | nanoclaw/scripts/skill-directives.ts:332-335 | for every capture that binds less, the check passes a skill that the run defers |
| SkillStaticLimits.GuardedDefinerDefers | nanoclaw/scripts/skill-apply.ts:917-924 | for every definer behind an unmet guard, the check passes a skill that the run defers |
| SkillStaticLimits.SpanningReferenceDefers | nanoclaw/scripts/skill-apply.ts:769-783 | for every operator block or step with a name only the joined lines refer to, the check passes a skill that the run defers |
| SkillStaticLimits.QuietRuns | nanoclaw/scripts/skill-apply.ts:1059-1066 | runs as these results speak of exist: commands that capture nothing and prompts with given inputs never bounce |
| SkillUndo.UndoPathwise | nanoclaw/scripts/skill-apply.ts:1079-1113 | undo acts on each path by itself, and succeeds when it succeeds on all of them |
| SkillUndo.TextRestored | nanoclaw/scripts/skill-apply.ts:1081-1098 | a line-edited file is restored if and only if no original line is one the journal drops |
| SkillUndo.RemoveUndoesApply | nanoclaw/scripts/skill-apply.ts:670-846 | apply, then remove: never throws, gives back every other path, JSON targets as values, and a line-edited file if and only if no original line is dropped |
| SkillUndo.JournalIsCaused | nanoclaw/scripts/skill-apply.ts:670-846 | in any run each journal entry stands for a body line or the target of a directive of the skill |
| SkillUndo.RemoveRestoresFresh | nanoclaw/scripts/skill-apply.ts:1074-1114 | when no appended line and no key to set is in the files before, apply and then remove gives back every file |
| SkillUndo.LineUndoneExactly | nanoclaw/scripts/skill-apply.ts:716-721 | an added line is undone if and only if the file was there, ended its last line and held no such line |
| SkillUndo.MergeUndoneExactly | nanoclaw/scripts/skill-apply.ts:828-835 | a pushed element is taken out again if and only if it can match its own key value |
| SkillUndo.ReplacedElementRestored | nanoclaw/scripts/skill-apply.ts:1100-1108 | undo puts a refreshed element back when the new one is the first with its key value |
| SkillUndo.PartialCopyIsNotUndone | nanoclaw/scripts/skill-apply.ts:689-695 | whenever a copy block fails after a file, that file stays without a journal entry |
| SkillPlan.SatisfiedStays | nanoclaw/scripts/skill-apply.ts:116-149 | a satisfied copy, append, env-set or json-merge stays satisfied however the files of a run grow |
| SkillPlan.PlanSkipHolds | nanoclaw/scripts/skill-apply.ts:226-255 | what is satisfied before an install run is skipped by it and not applied, whatever the other directives do and whichever env values and merge keys they use |
| SkillPlan.SecondRunChangesNothing | nanoclaw/scripts/skill-apply.ts:1004-1012 | after a fully applied install that applied its guarded file directives, any second install skips all file directives and leaves the tree as it is |
| SkillPlan.MapConsumers | nanoclaw/scripts/skill-apply.ts:233-237 | the map lists exactly the directives that reference each variable |
| SkillPlan.PlanSkill | nanoclaw/scripts/skill-apply.ts:226-255 | a prompt is planned away exactly when it has consumers and all are satisfied; everything else shows its own status |
| SkillPlan.PromptIsAskedAnyway | nanoclaw/scripts/skill-apply.ts:925-936 | a run never skips an unguarded prompt, whatever the plan says |
| SkillPolicy.GatePolicy | nanoclaw/scripts/skill-policy.ts:76-96 | exactly the operators get a decision, and it is the one for the first later directive compatible with the operator's guard |
| SkillPolicy.VariableStays | nanoclaw/scripts/skill-apply.ts:631-652 | a variable that no later directive sets keeps its value, through failing captures and steps too |
| SkillPolicy.CompatibleMeansTaken | nanoclaw/scripts/skill-policy.ts:49-75 | on one settled branch variable, compatible with a running operator means the guard holds at run time, and the other way round |
| SkillPolicy.BarrierComesNext | nanoclaw/scripts/skill-policy.ts:76-96 | for a guarded operator that runs, the barrier is the directive that really comes next, and it pauses if and only if there is one that asks nothing itself, for readiness if and only if that one is a step |
| SkillPolicy.UnguardedIsNextInDocument | nanoclaw/scripts/skill-policy.ts:72-74 | an unguarded operator is judged by the next directive of the document, which comes next if and only if its guard holds |
| SkillPolicy.LintGateAmbiguity | nanoclaw/scripts/skill-directives.ts:389-409 | exactly the unguarded operators with more than one branch value before the next unguarded directive are flagged |
| SkillPolicy.LintMissesOneBranch | nanoclaw/scripts/skill-directives.ts:376-388 | one branch value suffices for an unflagged operator whose decision is about a directive the run skips |
| SqlMask.MaskSqlNonCode | nanoclaw/scripts/q.ts:44-110 | the index-based scanner ends and computes the mask of the statement |
| SqlMask.ScanToken | nanoclaw/scripts/q.ts:50-106 | the next index is where the comment, dollar text, quote, bracket or single character in front ends |
| SqlMask.ScanQuote | nanoclaw/scripts/q.ts:77-91 | a quoted text ends behind its first undoubled quote, or at the end |
| SqlTokens.OpensMeans | nanoclaw/scripts/q.ts:50-103 | the characters that everything but code begins with: two dashes, slash and star, three kinds of quote, a bracket, a dollar tag |
| SqlTokens.TokenMeans | nanoclaw/scripts/q.ts:52-103 | where each kind of token ends: with its line, its closing mark, its own tag, its first undoubled quote, its bracket, or the text |
| SqlVerdict.MaskIsExact | nanoclaw/scripts/q.ts:38-110 | the mask shows a character if and only if the scanner takes it for code |
| SqlMask.MaskShadows | nanoclaw/scripts/q.ts:46-47 | same length, line breaks in place, every character kept or blanked |
| SqlMask.VisibleIsCode | nanoclaw/scripts/q.ts:105-106 | a character that is still visible is the one that was there, and no literal or comment begins at it |
| SqlMask.NoOpenerSurvives | nanoclaw/scripts/q.ts:50-103 | no comment, quote, bracket or dollar tag begins anywhere in a mask |
| SqlMask.MaskIdempotent | nanoclaw/scripts/q.ts:44-110 | masking a mask changes nothing |
| SqlMask.MaskedIsQuery | nanoclaw/scripts/q.ts:112-117 | a statement and its mask get the same verdict |
| SqlVerdict.Verdict | nanoclaw/scripts/q.ts:112-117 | a statement is a query if and only if its code begins with SELECT, PRAGMA, EXPLAIN or VALUES as a word, or with WITH and has none of INSERT, UPDATE, DELETE as a whole word |
| SqlVerdict.HeadIsQuery | nanoclaw/scripts/q.ts:112-114 | behind blanks, comments and literals, any casing of one of the four words makes a query |
| SqlVerdict.WithIsQuery | nanoclaw/scripts/q.ts:115-116 | after WITH, in any casing, it is a query exactly when no changing word stands in the code |
| SqlMask.LiteralReplaced | nanoclaw/scripts/q.ts:38-43 | replacing a literal by any other of its kind leaves the mask around it as it was |
| SqlMask.LiteralsDoNotMatter | nanoclaw/scripts/q.ts:38-43 | what a literal, quoted name or comment says has no influence on the verdict |
| EnvFile.CheckSettings | nanoclaw/setup/set-env.ts:41-44 | settings are refused exactly when a key or value is not valid |
| EnvFile.RewriteLines | nanoclaw/setup/set-env.ts:50-60 | the loop that rewrites the lines, and the keys it saw |
| EnvFile.AddMissing | nanoclaw/setup/set-env.ts:62-65 | lines for exactly the settings that had none |
| EnvFile.EnvStore.UpsertEnvVars | nanoclaw/setup/set-env.ts:37-81 | the new file, the keys returned, and no change at all when the settings are refused or the write fails |
| EnvFile.EnvStore.RemoveEnvVar | nanoclaw/setup/set-env.ts:89-97 | the first match of the multiline pattern is cut out and reported |
| EnvFile.OneAssignmentEach | nanoclaw/setup/set-env.ts:35-65 | after an update each given key has exactly one accepted assignment, with the given value |
| EnvFile.OtherLinesStay | nanoclaw/setup/set-env.ts:51-61 | all other lines stay, in order, up to a final line break |
| EnvFile.UpsertIsFixed | nanoclaw/setup/set-env.ts:37-65 | updating twice is updating once |
| EnvFile.ReturnedKeys | nanoclaw/setup/set-env.ts:50-57 | the keys returned are those given keys that had an assignment |
| EnvRemoval.CutOut | nanoclaw/setup/set-env.ts:93-95 | what is cut out of any text is the first place where the key and its `=` stand at the front or behind one of four line ends, up to the next of these, with a line feed |
| EnvRemoval.NothingCut | nanoclaw/setup/set-env.ts:94-94 | a text without such a place stays as it is |
| EnvRemoval.RemovalExact | nanoclaw/setup/set-env.ts:89-97 | a removal after an update cuts in the first line with a match; the key is gone if and only if that line is the assignment and its rest sets nothing, or the cut joins and so disguises the assignment |
| EnvRemoval.GoneUnlessValueSets | nanoclaw/setup/set-env.ts:93-95 | when no other line hides a match, the key is gone if and only if its value does not set it again behind its first line end |
| EnvRemoval.RemoveAfterUpsert | nanoclaw/setup/set-env.ts:83-97 | when no other line hides a match and the value has no line end, the removal takes out the one assignment and nothing else; CR LF files included |
| EnvRemoval.LineEndHidesNothing | nanoclaw/setup/set-env.ts:93-93 | a line whose only line ends are its last two characters hides no match, so files with CR LF ends do not |
| EnvRemoval.SeparatorKeepsKey | nanoclaw/setup/set-env.ts:93-95 | every value with a line separator followed by an assignment of the same key keeps the key set |
| SlackProtocol.AcknowledgedIsSaved | nanoclaw/setup/slack-worker.ts:126-134 | at every moment of any number of runs, an acknowledged delivery's token is in the job file, unless a throwing save came in between |
| SlackProtocol.NothingLost | nanoclaw/setup/slack-worker.ts:126-134 | when a save of a fresh token completes or stops the process, no acknowledged token is ever missing |
| SlackProtocol.SavedJobStays | nanoclaw/setup/slack-worker.ts:75-76 | a saved token is never changed, and a job saved as failed or expired is never written again |
| SlackProtocol.CompleteWasInstalled | nanoclaw/setup/slack-worker.ts:143-146 | a job reads complete only after its own token was installed |
| SlackProtocol.OneThrowingSaveLosesToken | nanoclaw/setup/slack-worker.ts:123-134 | from wherever the save of a fresh token is due, one throwing save can end in an acknowledged and lost token |
| SlackCompletion.OneRunCompletes | nanoclaw/setup/slack-worker.ts:66-174 | from wherever the worker stopped, one undisturbed run ends with the job complete and reported, the token saved and installed, and the delivery acknowledged once if it was not |
| SlackCompletion.BadAnswerFails | nanoclaw/setup/slack-worker.ts:113-122 | a withdrawn or unusable delivery fails the job for good |
| SlackCompletion.FailedInstallFails | nanoclaw/setup/slack-worker.ts:149-160 | so does an installation that throws |
| SlackCompletion.ClosedWindowExpires | nanoclaw/setup/slack-worker.ts:165-170 | when the window closes, a job that is not complete expires |
| SlackCompletion.TransientErrorRetries | nanoclaw/setup/slack-worker.ts:161-162 | any other error costs a pause, and the next pass begins with the same job |
| SlackWorker.Save | nanoclaw/setup/slack-worker.ts:91-91 | a save goes on, throws with or without having written, or is the last moment of the process |
| SlackWorker.Report | nanoclaw/setup/slack-worker.ts:92-103 | only a sign-in error gets out of a report |
| SlackWorker.FetchToken | nanoclaw/setup/slack-worker.ts:113-129 | a fetched token is saved before the worker goes on |
| SlackWorker.AcknowledgeDelivery | nanoclaw/setup/slack-worker.ts:130-136 | what was not acknowledged is acknowledged once, and saved as such |
| SlackWorker.InstallLocked | nanoclaw/setup/slack-worker.ts:138-147 | the install comes behind the second status check, and any error after it is final |
| SlackWorker.Try | nanoclaw/setup/slack-worker.ts:106-148 | the pass pauses, goes round, throws, or is over, and memory and protocol agree on which |
| SlackWorker.Pass | nanoclaw/setup/slack-worker.ts:104-163 | after the catch the worker is ready for the next pass, or gone |
| SlackWorker.RunSlackJob | nanoclaw/setup/slack-worker.ts:66-174 | a run is a history of the protocol, leaves no worker behind, and does nothing to a failed or expired job; a calm run with time left ends with the job complete, installed, reported and acknowledged |
| SlackWorker.Restarts | nanoclaw/setup/slack-worker.ts:66-174 | after any number of runs every safely acknowledged token is in the file |

## Left out

- ClaimsSafety.SingleOwner: excludes hosts that claimed over a runtime they had registered, because for those it is false (ClaimsLimits).
- ClaimsSafety.StoppedOnlyWhileOwner: the same exclusion, and it speaks of hosts whose lease is live at the write, because the fence is a check followed by later writes.
- EnvRemoval.RemoveAfterUpsert: excludes hidden matches and values with line ends, because for those it is false; RemovalExact and GoneUnlessValueSets have the exact conditions.
- SkillUndo.RemoveUndoesApply: covers install runs over existing targets that end their last line, single-line values and whole copy blocks; LineUndoneExactly, MergeUndoneExactly and PartialCopyIsNotUndone say what goes wrong without each of these, and RemoveRestoresFresh keeps them.
- SkillPlan.SecondRunChangesNothing: covers env keys and values that the key test accepts and scalar merge keys, as the promise does, and file directives that ran; one behind an unmet guard may be due in a second run.
- SkillStatic.StaticCheckSound: excludes references that span lines, because for those it is false (SpanningReferenceDefers), and messages that quote the words of the engine's own message for a missing input, since those defer although nothing is missing.
- BudgetWindows.SlidingHourBound: speaks of one process life, because the tracker is in memory only and forgets on restart.
- SQLite, file locks, fsync, links and renames: each is one atomic durable effect that happens, fails, or happens and then raises.
- The claim table (db/coordination.js is not part of this model): compare-and-set, release and leases behave as its callers rely on.
- The checks of read_request and parse_request on a file: any bytes may be found, and any of them may fail to parse.
- Request digests: payloads are compared themselves, so hashing counts as injective.
- What the model, the gateway, the session driver and the Slack service do: any answer or error, except that the driver's stop is believed when it succeeds.
- Claims that the adoption paths release although the stop failed: the release is modelled, the container that may still run is not.
- Mounts, session specifications, resource limits and network policies of a container.
- The text level of directives: fences and attributes are given in parsed form, an empty `capture:` counts as absent, and bare fences are not modelled; bodies are text, and their references are scanned.
- JSON text: parsing and printing are a library that round-trips where a result says so; numbers are integers and objects are unordered.
- Directories and different spellings of one path: paths are names, and commands are taken not to touch the files that directives edit.
- The file that a failing copy was writing: it counts as not written.
- The undo commands of `ran` entries: the tree is unchanged by them; dependency commands are not told apart by manager and packages.
- BrokerAnswers.FileAnswered: leaves open whether the budget admits a new request; BudgetAdmission.AdmissionExact says when it does.
- Refresh runs in undo: overwritten copies are not journaled, so nothing is claimed.
- The secret flag, and redaction: the model classifies an error message as it was thrown, the program after blanking secret values in it.
- Messages of the libraries behind JSON, patterns and files: any of them may or may not read like a missing input, and reads before the effect of a step are taken to succeed.
- Step labels, prose for agents, reference sections and the URL offer of an operator block.
- Database access of q.ts, and case mapping beyond one character at a time.
- Symbolic links, file modes and temporary files of the `.env` writer, and keys that are not plain names in removeEnvVar.
- The setup lock of the Slack worker beyond one worker at a time, and its HTTP client.
- RPC clients, transports, setup wizards, sign-in flows and service installation: plumbing.
