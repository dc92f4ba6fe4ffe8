# KubeVision protocols, in Dafny

KubeVision is a multi-cluster Kubernetes console. Most of it is handlers and plumbing; this project models the parts
that are protocols, state machines, caches, parsers and arithmetic, and proves what they guarantee over every input
and every run. Verify all of it with `dafny verify dfyconfig.toml`.

| files | component |
|---|---|
| `Operations`, `OperationManager` | rows of the operations table, the writes made to them, and the `Manager` object |
| `OperationRuns`, `OperationSafety`, `OperationRetries` | any number of managers, workers and crashes on one table, every write its own step; what retries can lead to |
| `OperationLease` | the same runs under a timing assumption: heartbeat lease and reaper |
| `AgentConversation`, `AgentSessions`, `AgentLoop`, `ToolStream` | the assistant: chat history, pending approvals, the model/tool loop, the stream reassembler that feeds it |
| `AiChange`, `AiRetries` | sessions, approvals and operations composed into one system, and what it can go on to do |
| `PackageConfirmation`, `PackageExecution`, `PackageRuns`, `ReleaseLock` | preview/confirm grants of package changes, their execution, both composed with operations, and the lock per release |
| `WatchHub`, `AuditWriter`, `TagKeys`, `TagCache` | WebSocket hub, batching audit writer, tag cache and its keys |
| `ImageReference`, `Grammar`, `PodAllocation` | image reference parser and its patterns, effective pod resources |
| `Text`, `Seqs` | string and sequence operations they share |

Code that changes state is modelled by classes and loops proved against functions on values. Each protocol also has a
transition system built from the same functions, whose events interleave freely; its theorems hold for every
finite run. Clocks, random tokens, UUIDs, the model provider, the tools, the authorizer and the registry are
parameters. Hashing, encryption and JSON encoding are taken to be injective.

## What the proofs say about the code

- **Lease.** Bounding the setup delay and the finish delay each below 25 s does not keep the reaper away from live
  workers: the row can age through both. With setup, heartbeat-write and finish delays and clock skew written `S`, `W`,
  `F` and `K`, the exact condition is `max(S + 5 s, G) + W + F + K <= 30 s`, where `G` is the longest distance between
  two written heartbeat ticks, `5 s * (W div 5 s + 1)`. For `W < 5 s` it reads `S + W + F + K <= 25 s`
  (`LeaseBound`, `LeaseIsSum`, `SeparateBoundsFail`). Outside it, a run exists in which a reaped row is overwritten by
  its worker, because the final writes carry no `worker_id` guard.
- **Approved AI changes.** Along one retry path an approved change is executed at most once. `Retry` leaves its parent
  retryable, so a change can be executed twice for one approval, and exactly in one way: an operation of its own family
  is retried twice (`OneApprovalOneExecution`). Wherever an AI change may be retried this can happen
  (`ApprovalRunsTwice`, `OneApprovalTwoExecutions`).
- **Confirmed package changes.** A conflict is the one failure after the executor has run that may be retried. So one
  confirmation can be attempted any number of times along a path, but is carried out at most once, and twice again only
  through an operation retried twice (`ConfirmationCarriedOutOnce`, `AttemptedAnyNumberOfTimes`).
- **Package audit.** If the body of a package mutation panics, the deferred function still sees a nil error and records
  the mutation as succeeded (`AuditedOnce`, `PanicRecordedAsSuccess`).
- **Package confirmation.** A confirmed request equals the previewed one in everything but the timeout, the repository
  credentials, the private-network flag, the token and the digest (`PreparedMatchesPreview`). Before execution a
  managed repository is looked up again: the executed request has the confirmed fingerprint exactly when the
  repository still has its kind and URL (`ExecutesAsConfirmed`, `ResolvesTheSame`, `MovedRepository`). What then
  protects the user is the digest of the rendered manifests, which the adapter compares.
- **Tag cache.** Registry, prefix and cursor may hold NUL, the character that separates the parts of a key. Among the
  queries the service admits, a key stands for one alone, and all hits agree with the uncached lookup, exactly when the
  pieces of the key can be read as such a query in one way only (`KeyUnambiguous`, `HitsAgreeExactly`): always when
  none of the three holds a NUL (`OrdinaryIsClear`), and, for a short prefix and cursor and a registry without NUL,
  only then (`ShortIsClear`). Tag and digest of the image are not part of the key, so the `Reference` of a cached page
  may carry another request's tag.
- **Pod resources.** For quantities that are not negative the figure is overhead plus peak exactly when that sum fits
  64 bits (`EffectiveOfQuantities`). The code floors the peak at 0 before it adds the overhead; a pod with negative
  quantities whose phases do not overflow therefore shows overhead plus peak exactly when the peak is not negative and
  the result fits (`EffectiveIsPeak`).

## Model

| member | source | states |
|---|---|---|
| OperationManager.Manager.Retry | internal/operation/manager.go:193-229 | which requests are refused and how; an accepted one adds one queued row with the parent's request and leaves every other row as it was |
| OperationManager.Manager.Claim | internal/operation/manager.go:288-294 | compare-and-set: takes effect on a queued row and on no other |
| OperationManager.Manager.Heartbeat | internal/operation/manager.go:375-389 | renews the lease for 30 s, and only of a row running under this very worker; every other row and field stays |
| OperationManager.Manager.Execute | internal/operation/manager.go:287-405 | undisturbed, the executor is invoked exactly when the row was queued and all four checks pass; which failed check ends the row with which error and whether it may be retried, and how the executor's answer ends it; no other row changes |
| OperationManager.Manager.RecoverStale | internal/operation/manager.go:104-116 | afterwards every running row has a heartbeat not older than 30 s; a row changes only if it was running without one, and is then failed, not retryable, held by nobody, with its request intact |
| OperationManager.Manager.CleanupCompleted | internal/operation/manager.go:81-102 | a row disappears if and only if it was completed more than 30 days ago; all others stay as they were |
| OperationManager.Manager.LoadQueued | internal/operation/manager.go:260-285 | the oldest queued ids are appended as far as the queue has room, in order |
| OperationManager.Manager.Round | internal/operation/manager.go:231-285 | one dispatch with workers that empty the queue: exactly the rows picked leave the backlog |
| OperationManager.RoundShrinks | internal/operation/manager.go:19-19 | each round takes min(256, n) rows off a backlog of n |
| OperationManager.BacklogDrains | internal/operation/manager.go:243-271 | without new submissions a backlog of n is gone after k rounds if and only if k >= ceil(n / 256) |
| OperationManager.OldestFirst | internal/operation/manager.go:262-262 | nothing claimed in a later round is older than anything claimed in an earlier one, and nothing is picked twice |
| OperationRuns.StepKeepsInv | internal/operation/manager.go:81-405 | every write, hand-over, crash and reaping, and each of the two statements of a retry, keeps: an id has one owner, queued rows are as submitted, and what may be retried or has been is held by no worker and was not carried out |
| OperationSafety.AtMostOnce | internal/operation/manager.go:287-294 | over every run of any number of managers the executor starts at most once per operation id |
| OperationSafety.NeverReturns | internal/operation/manager.go:104-116 | a row that left queued, or left running, never has that status again; a deleted row never reappears |
| OperationSafety.QueuedUntilClaimed | internal/operation/manager.go:131-156 | a persisted operation stays queued exactly as submitted until a worker claims it, however often its id is dropped |
| OperationSafety.RetryChain | internal/operation/manager.go:208-217 | parent links are acyclic and user, kind, action, target and payload are constant along each chain |
| OperationSafety.RootIsRoot | internal/operation/manager.go:193-229 | every operation descends from one that was submitted, with the same request |
| OperationSafety.ChildComesFromRetry | internal/operation/manager.go:198-227 | each child was made under a fresh id by a call that had read its parent as failed and retryable; the parent was still so when the child was made, unless cleaned up, and was left unchanged |
| OperationSafety.RetryableNeverChanges | internal/operation/manager.go:205-207 | without any timing assumption: a failed row that may be retried is held by no worker and never changes until it is cleaned up |
| OperationSafety.RetriedIsRetired | internal/operation/manager.go:295-341 | an operation that was retried has no owner for good, and its executor was never invoked or asked for the retry |
| OperationSafety.FamilyForks | internal/operation/manager.go:208-217 | two operations of one family that are not on one path descend from two retries of one operation in it |
| OperationSafety.CarriedOutOnce | internal/operation/manager.go:287-354 | of the operations from one request, no two that were carried out lie on one retry path; they are parted by an operation of this family retried twice |
| OperationSafety.OneExecutionPerApproval | internal/ai/operations.go:17-40 | for AI changes, whose failures are never retryable, this holds of all executions |
| OperationRetries.QueuedPairRuns | internal/operation/manager.go:231-241 | from any state whatever, once a new replica comes up, a continuation carries out both of any two queued operations |
| OperationRetries.RetriedTwiceRunsTwice | internal/operation/manager.go:193-229 | from any state in which an operation may be retried, a continuation retries it twice and carries both retries out |
| OperationRetries.AnyNumberOfAttempts | internal/operation/manager.go:193-229 | an executor that may ask for a retry can be invoked any number of times along one retry path |
| OperationLease.LeaseBound | internal/operation/manager.go:21-26 | no live worker is reaped, and no terminal row is rewritten, in any timely run if and only if the delays fit the lease |
| OperationLease.LeaseIsSum | internal/operation/manager.go:21-26 | with heartbeats written before the next tick the condition is that the four delays add up to at most 25 s |
| OperationLease.SeparateBoundsFail | internal/operation/manager.go:320-353 | setup and finish delays of 20 s each do let the reaper take a live worker's row |
| OperationLease.TableShape | internal/operation/manager.go:287-405 | within the lease: queued rows have progress 0 and no worker, running ones a worker and 5..95, terminal ones 100, no worker and a completion time |
| AgentConversation.SettledIsWellAnswered | internal/ai/agent.go:274-367 | a history whose message-by-message account is clear has, after each assistant message with calls, results with exactly its call ids |
| AgentConversation.OneOutstandingLacksOnly | internal/ai/agent.go:347-362 | a history with one open call lacks exactly that call's result, in its last block |
| AgentConversation.AnswersAreABlock | internal/ai/agent.go:319-344 | a call block's answers are the tool messages right behind it, up to the first message of another kind |
| AgentLoop.RunTurn | internal/ai/agent.go:307-345 | the first authorised mutation, and no other call, is left pending; position by position, what is recorded and shown is the reason of a refusal, the result of executing just that call, or the fixed text behind the proposal |
| AgentLoop.InvokedExactly | internal/ai/agent.go:323-344 | a turn invokes exactly its authorised calls before the proposal that do not name one of the four mutation tools |
| AgentLoop.LimitShortens | internal/ai/tools_read.go:60-65 | a result of at most 64 Ki is kept, a longer one cut there and marked |
| AgentLoop.ProposesIs | internal/ai/agent.go:323-333 | a call is proposed for approval exactly when it is authorised and names one of the four mutations |
| AgentLoop.BlankIs | internal/ai/agent.go:288-288 | a reply counts as empty exactly when it is all white space |
| AgentLoop.TurnSettles | internal/ai/agent.go:286-345 | a turn leaves nothing unanswered except the call of the change it proposes |
| AgentLoop.Turn | internal/ai/agent.go:278-364 | one iteration either goes on with a settled history or ends with the one event its reply calls for, and stores a session exactly then |
| AgentLoop.Loop | internal/ai/agent.go:274-367 | at most 12 prompts, each the continuation of the last; one final event, last; stops at the second empty reply in a row; executes only authorised reads |
| AgentLoop.PromptGrows | internal/ai/agent.go:286-345 | between two prompts lie the model's reply, word for word, and the answer to each of its calls in order, or the nudge |
| AgentLoop.StoredConversation | internal/ai/agent.go:347-362 | what waits for approval is the conversation with the proposing reply, word for word, and the answers to all calls but the proposed one |
| AgentLoop.PromptsWellAnswered | internal/ai/agent.go:279-281 | at every call of the provider each assistant message has its results in place |
| AgentLoop.SuspendedResumes | internal/ai/agent.go:175-176 | a stored conversation lacks exactly the pending result and is complete once that is appended |
| AgentLoop.Chat | internal/ai/agent.go:91-121 | a fresh chat over content-only history starts settled and inherits all the loop promises |
| AgentLoop.ContinueAction | internal/ai/agent.go:132-177 | the change runs exactly when its own user takes the session in time and is still authorised; the session is consumed, the chat goes on from the complete history |
| AgentSessions.SaveKeepsBounded | internal/ai/session.go:55-80 | saving keeps at most 100 sessions in all and 5 of one user |
| AgentSessions.SessionStore.Save | internal/ai/session.go:55-111 | succeeds exactly when there is room once expired sessions are gone; the new state in full |
| AgentSessions.SessionStore.TakeOwned | internal/ai/session.go:84-101 | missing, expired, forbidden or taken, and which of these remove the session |
| ToolStream.ParseStream | internal/ai/openai.go:185-262 | content is the concatenation of the deltas shown to the caller; calls are the per-index meaning of the fragments before the end mark; an error exactly when the scanner reports one |
| ToolStream.SameCalls | internal/ai/openai.go:223-242 | only the order of first appearances and what each index received matter, not interleaving or cutting |
| ToolStream.SwapOrder | internal/ai/openai.go:224-229 | exchanging neighbouring fragments of two calls keeps the order of calls if and only if one of them had begun |
| ToolStream.SwapKeepsCalls | internal/ai/openai.go:223-242 | exchanging such fragments changes no call |
| ToolStream.FragmentsRoundTrip | internal/ai/openai.go:223-259 | calls cut into fragments and interleaved in any way come back whole and in order, nameless ones dropped |
| ToolStream.NoDataIgnored | internal/ai/openai.go:199-206 | lines without "data:", or with only white space behind it, may be inserted anywhere |
| ToolStream.MalformedIgnored | internal/ai/openai.go:211-218 | so may chunks that do not decode or hold no choice |
| ToolStream.FramingRoundTrip | internal/ai/openai.go:197-219 | payloads framed as data lines with blank lines between them and "data: [DONE]" at the end are read back as their first choices, in order, whatever follows |
| ToolStream.LastIdIsLast | internal/ai/openai.go:232-234 | a call's id is the last one that is not empty |
| ToolStream.LastNameIsLast | internal/ai/openai.go:235-237 | so is its name |
| ToolStream.ArgumentsAreJoined | internal/ai/openai.go:238-240 | its arguments are those of its fragments, joined in order |
| ToolStream.OfPlain | internal/ai/openai.go:226-231 | a fragment goes to the call of its own index and to no other |
| ToolStream.TextsAreJoined | internal/ai/openai.go:221-226 | the message's text is all the deltas' texts, joined in order; empty ones are not shown |
| ToolStream.OrderOfFirsts | internal/ai/openai.go:227-231 | a call is placed when its index is seen for the first time |
| ToolStream.NamedExactly | internal/ai/openai.go:248-259 | the message's calls are those of the indexes seen, without the nameless |
| ToolStream.EndIsFinal | internal/ai/openai.go:207-209 | what follows the end mark has no influence |
| AiChange.RunExecutor | internal/ai/operations.go:17-41 | the change is sent exactly when input, configuration and authorisation are in order; no failure is retryable |
| AiChange.ApproveAndSubmit | internal/handler/ai_handler.go:286-301 | an approval takes the session and queues its tool call whole, id, name and arguments, for the same user, with the cluster, address and correlation id stored with it, or changes no operation |
| AiChange.TakenOnce | internal/ai/session.go:84-101 | over every run a session is taken at most once, by its own user and not after expiry |
| AiChange.StoreStaysBounded | internal/ai/session.go:55-80 | in every reachable state at most 100 sessions wait, at most 5 of one user |
| AiChange.EveryExecutionWasApproved | internal/ai/agent.go:189-227 | each executed AI change is a mutation and carries out, field by field, the pending tool call of a stored conversation that its own user took in time |
| AiChange.OneApprovalOneExecution | internal/ai/operations.go:17-40 | two executions for one approval are never one above the other: an operation of the approval's own family was retried twice, and each descends from one of the two retries |
| AiRetries.ApprovalRunsTwice | internal/operation/manager.go:193-229 | from every reachable state of the composed system whose AI change may be retried, a continuation executes one approval twice |
| AiRetries.OneApprovalTwoExecutions | internal/ai/agent.go:189-227 | for every conversation that waits, a run in which its user approves it once and the change is executed twice |
| AiRetries.SomeSession | internal/ai/agent.go:347-362 | there are such conversations |
| PackageConfirmation.ValidateChangeOptions | internal/packages/service.go:257-276 | which requests are accepted, and their trimmed, defaulted form |
| PackageConfirmation.PackageService.Preview | internal/packages/service.go:43-95 | refusal by refusal, and who gets a token: never a preview-only actor, and for a critical change, a new namespace or a managed repository only an admin; what is then stored, until when |
| PackageConfirmation.PackageService.PrepareChange | internal/packages/service.go:121-155 | refusal by refusal; otherwise the grant is consumed whether or not it matches, success exactly on a full match in time, and the result carries the preview's digest and the source as asked for |
| PackageConfirmation.GrantsBounded | internal/packages/service.go:84-91 | at most 5000 confirmations are pending in every reachable state |
| PackageConfirmation.PreparedMatchesPreview | internal/packages/service.go:69-92 | over every run: each confirmed change was previewed by the same actor at most ten minutes before, for the same operation, cluster and change, its token not presented since; if it was critical, creates its namespace or uses a managed repository, the preview was an admin's |
| PackageConfirmation.ConfirmedExactly | internal/packages/service.go:144-150 | with a clock that does not run backwards, a change is confirmed if and only if such a preview exists |
| PackageConfirmation.FingerprintPins | internal/packages/service.go:278-285 | fingerprints are equal if and only if the changes are, field by field, nil and empty values being the same |
| PackageConfirmation.RefusedUnless | internal/packages/service.go:121-143 | in plain terms, which requests are not turned away |
| PackageConfirmation.TokenWorksOnce | internal/packages/service.go:145-146 | a token once presented, even in vain, never confirms again |
| PackageConfirmation.DistinctPreviews | internal/packages/service.go:144-150 | different confirmed changes match different previews |
| PackageExecution.ExecutePreparedChange | internal/packages/service.go:157-180 | resolves and validates again; which prepared changes reach the adapter, and as what request, with the confirmed digest |
| PackageExecution.StoredMeans | internal/packages/operations.go:32-53 | queueing keeps operation, cluster, digest and every pinned option, and drops token, credentials and a fraction of a second |
| PackageExecution.ResolvedMeans | internal/packages/catalog.go:362-378 | what a lookup takes from the request and what from the repository |
| PackageExecution.ExecutesAsConfirmed | internal/packages/service.go:153-180 | direct or queued, the executed request has the confirmed fingerprint if and only if the source resolves to the same one again; it is then valid, with the confirmed timeout to within a second |
| PackageExecution.ResolvesTheSame | internal/packages/catalog.go:362-378 | two lookups of a source agree if and only if it is uploaded or named by URL, or its repository has kept kind and URL, for OCI up to leading space and trailing slashes |
| PackageExecution.MovedRepository | internal/packages/service.go:161-177 | a request is executed with another fingerprint than the confirmed one if and only if its managed repository was moved in between |
| PackageExecution.MovableRequest | internal/packages/catalog.go:189-210 | for any two different URLs a repository may have there is an acceptable request to which this happens |
| PackageRuns.EveryChangeWasConfirmed | internal/handler/package_handler.go:135-140 | every install or upgrade ever queued carries out, field by field, the change that one presented token confirmed, with the digest its preview showed |
| PackageRuns.ConfirmationCarriedOutOnce | internal/packages/operations.go:76-100 | along one retry path a confirmation is carried out at most once, all earlier attempts having met a conflict; two that were carried out are parted by an operation retried twice |
| PackageRuns.OnlyConflictsMayBeRetried | internal/packages/operations.go:76-99 | of all failures of the executor only a conflict may be retried |
| PackageRuns.AttemptedAnyNumberOfTimes | internal/packages/operations.go:85-86 | from every reachable state whose change may be retried, the executor can be invoked for one confirmation any number of times more along one path |
| PackageRuns.ConfirmationRunsTwice | internal/operation/manager.go:193-229 | and one confirmation can come to be carried out twice, by retrying one operation twice |
| PackageRuns.SomeRetryableChange | internal/packages/service.go:121-155 | for every change there is such a state |
| ReleaseLock.KeyInjective | internal/packages/service.go:409-409 | keys identify releases when cluster and namespace hold no NUL |
| ReleaseLock.KeyCollides | internal/packages/service.go:409-409 | with a NUL two releases can share a key |
| ReleaseLock.MutualExclusion | internal/packages/service.go:410-421 | at most one body runs per release and `active` is exactly the set of held keys |
| ReleaseLock.RefusedExactly | internal/packages/service.go:411-414 | a call is refused exactly when the same release is being changed |
| ReleaseLock.AuditedOnce | internal/packages/service.go:418-434 | each finished call left one audit event; it says failed exactly when the body returned an error |
| ReleaseLock.NotAuditedEarly | internal/packages/service.go:418-429 | no audit event is written while the call is still running |
| ReleaseLock.PanicRecordedAsSuccess | internal/packages/service.go:418-433 | for every release, a run whose one mutation panics and whose log says succeeded |
| ReleaseLock.ReleaseLocks.Mutate | internal/packages/service.go:408-434 | refusal changes nothing; otherwise the key is released and one event written, however the body ends |
| WatchHub.Hub.Broadcast | internal/handler/ws/hub.go:173-184 | every registered client gets the message, or is closed and dropped exactly when its buffer is full |
| WatchHub.Hub.Unregister | internal/handler/ws/hub.go:164-171 | closes the channel if and only if the client is still registered |
| WatchHub.Hub.Stop | internal/handler/ws/hub.go:150-156 | closes every registered channel, each once |
| WatchHub.DeliversGaplessly | internal/handler/ws/hub.go:147-186 | in every run: registered exactly while open, closed at most once, no send or close that would panic, and a contiguous piece of the broadcast from registration on |
| WatchHub.ClosedStaysClosed | internal/handler/ws/hub.go:164-183 | nothing is put on a channel after it was closed |
| WatchHub.GetsEveryMessage | internal/handler/ws/hub.go:173-184 | a registered client gets every message, unless 256 are pending, and then is dropped |
| WatchHub.ClosedForAReason | internal/handler/ws/hub.go:150-184 | a channel is closed only on unregistering, on stopping, or when 256 messages are pending |
| WatchHub.SubscribedExactly | internal/handler/ws/hub.go:347-368 | which messages pass the subscription filter: all without subscriptions, else those of its topics and those whose topic cannot be read |
| WatchHub.WritePump | internal/handler/ws/hub.go:293-342 | the completed frames hold the subscribed messages of a prefix, all of them unless the connection failed |
| WatchHub.ReceivedLines | internal/handler/ws/hub.go:310-333 | the lines a client receives are the subscription filter of a contiguous piece of the broadcast, however it was batched |
| AuditWriter.AuditService.Receive | internal/service/audit_service.go:122-130 | the entry joins the batch, which is handed over exactly when full; nothing is lost or reordered |
| AuditWriter.AuditService.DrainAndStop | internal/service/audit_service.go:135-147 | everything accepted has been handed over, the rest in one batch |
| AuditWriter.Conservation | internal/service/audit_service.go:49-150 | at every step flush attempts, batch and channel together are the accepted entries in order |
| AuditWriter.AcceptsAndBatches | internal/service/audit_service.go:61-130 | an entry is accepted exactly while fewer than 1000 wait, and a batch is handed over exactly when full |
| AuditWriter.StopFlushesAccepted | internal/service/audit_service.go:82-87 | every entry accepted before the stop signal is in some flush attempt when the loop has returned |
| AuditWriter.BatchesBounded | internal/service/audit_service.go:122-130 | no batch flushed before the drain exceeds the batch size or is empty |
| ImageReference.ParseReference | internal/registry/reference.go:24-76 | the step-by-step parser computes the specification, error by error |
| ImageReference.ParseIsNormal | internal/registry/reference.go:48-75 | results are in normal form: lower-cased host, no docker.io alias, full path, valid tag and digest |
| ImageReference.NormalRoundTrips | internal/registry/reference.go:24-76 | a normal-form reference is parsed back from its printed form |
| ImageReference.ParsePrintRoundTrip | internal/registry/reference.go:24-76 | parsing the printed form of any parsed reference gives it back |
| ImageReference.NormalFormsExactly | internal/registry/reference.go:24-76 | the parser's results are exactly the references in normal form |
| ImageReference.RefusedOutright | internal/registry/reference.go:25-28 | which inputs are refused as a whole: empty, with a scheme, or with one of six characters |
| Text.AsciiSpaces | internal/registry/reference.go:25-25 | the ASCII characters trimmed from the ends are exactly these six |
| ImageReference.HostInFront | internal/registry/reference.go:52-62 | a host in front is lower-cased, the aliases of docker.io stand for it, and a lone name there is a library image |
| ImageReference.PathAlone | internal/registry/reference.go:52-53 | several parts without a host are a path on docker.io |
| ImageReference.LoneNameParses | internal/registry/reference.go:24-76 | from input to result: a valid lone name parses to the library image on docker.io |
| ImageReference.ParsedHost | internal/registry/reference.go:71-73 | the host of a parsed reference: its length, its ends, its form |
| Grammar.NamePartMatches | internal/registry/reference.go:10-10 | the name rule is the regular expression, with at most 255 characters |
| Grammar.TagMatches | internal/registry/reference.go:11-11 | the tag rule is the regular expression |
| Grammar.DigestMatches | internal/registry/reference.go:12-12 | the digest rule is the regular expression |
| TagKeys.ParsedIsAskable | internal/registry/service.go:52-65 | every image that parses, with a prefix and a cursor within the limit, gives a query the key theorems speak of |
| TagKeys.KeyUnambiguous | internal/registry/service.go:52-65 | among the queries the service admits, length limits included, a key stands for one alone if and only if its NUL-separated pieces can be read as such a query in one way only |
| TagKeys.OrdinaryIsClear | internal/registry/service.go:65-65 | without NUL in registry, prefix and cursor there is one reading |
| TagKeys.ShortIsClear | internal/registry/service.go:62-65 | for a registry without NUL, and prefix and cursor that together fit the limit: if and only if neither holds a NUL |
| TagKeys.HiddenExample | internal/registry/reference.go:52-73 | an image whose registry holds NULs parses, and shares its key with a query for another image though prefix and cursor hold none |
| TagCache.FilterInPlace | internal/registry/service.go:74-79 | the matching tags, all of them and in order, end up at the front of the same array |
| TagCache.FetchedTags | internal/registry/service.go:74-81 | a page's tags are a sorted permutation of the matching input |
| TagCache.AnySortWillDo | internal/registry/service.go:80-80 | any sorted permutation of the matching tags is the page's, so the sorting routine does not matter |
| TagCache.WithPrefixExactly | internal/registry/service.go:74-79 | each matching tag is kept as often as it occurs, every other tag is dropped |
| TagCache.TagService.Load | internal/registry/service.go:86-101 | hits exactly on a live entry, which it touches; removes an expired one |
| TagCache.TagService.Oldest | internal/registry/service.go:109-116 | the victim is an entry touched least recently |
| TagCache.TagService.Store | internal/registry/service.go:102-122 | expired entries go, then a least recently touched one if there is still no room |
| TagCache.StoredMeans | internal/registry/service.go:102-122 | in plain terms: the page is there until ttl from now, and of what was live all is there, but for one least recently touched entry when it was full |
| TagCache.TagService.Discover | internal/registry/service.go:51-84 | the registry is asked exactly on a miss, and what is returned, stored and left unchanged in every case |
| TagCache.LimitOf | internal/registry/service.go:56-61 | the limit that counts: 25 by default, never more than the service's |
| TagCache.CacheBounded | internal/registry/service.go:102-122 | the cache never exceeds its limit |
| TagCache.HitAgreesWithLookup | internal/registry/service.go:51-84 | in every run a hit of an unambiguous query is the page of its own last lookup, stored less than ttl ago |
| TagCache.HitsAgreeExactly | internal/registry/service.go:51-84 | all hits of a query in all runs agree with its lookups if and only if the query has its key to itself |
| PodAllocation.Allocation.Add | internal/service/overview_service.go:448-453 | adds each component with 64-bit wrap-around |
| PodAllocation.Allocation.RaiseTo | internal/service/overview_service.go:455-460 | raises each component to the larger value |
| PodAllocation.EffectivePodAllocation | internal/service/overview_service.go:462-502 | the loops compute, per component, overhead plus the highest of 0, steady state and start-up phases |
| PodAllocation.TotalExact | internal/service/overview_service.go:448-453 | a 64-bit total is right if and only if the sum fits, whatever overflowed on the way |
| PodAllocation.TakesWhat | internal/service/overview_service.go:504-519 | which quantity of a container counts for which figure |
| PodAllocation.OverheadIs | internal/service/overview_service.go:491-500 | the pod's CPU overhead counts for both CPU figures, its memory overhead for both memory figures |
| PodAllocation.PhaseSum | internal/service/overview_service.go:470-487 | in a start-up phase its init container runs, and the sidecars before it |
| PodAllocation.SteadySum | internal/service/overview_service.go:463-489 | in the steady state all containers run, and all sidecars |
| PodAllocation.PeakIsGreatest | internal/service/overview_service.go:470-487 | the peak is attained in, and not exceeded by, any start-up phase or the steady state |
| PodAllocation.EffectiveOfQuantities | internal/service/overview_service.go:462-502 | for quantities that are not negative, the figure is overhead plus peak if and only if that sum is a 64-bit number |
| PodAllocation.EffectiveOfNotNegative | internal/service/overview_service.go:462-502 | for any overhead: if and only if both the peak and the sum are 64-bit numbers |
| PodAllocation.EffectiveIsPeak | internal/service/overview_service.go:489-501 | for negative quantities too, provided that what runs in each phase adds up to a 64-bit number: if and only if the peak is not negative and the result is a 64-bit number |
| PodAllocation.PeakNotNegative | internal/service/overview_service.go:462-502 | with non-negative quantities the peak is not negative, and no phase overflows unless the peak does |
| PodAllocation.EffectiveMonotone | internal/service/overview_service.go:462-502 | raising quantities that are not negative never lowers the figure, as long as the higher result is a 64-bit number |
| PodAllocation.SwapOrdinary | internal/service/overview_service.go:485-486 | neighbouring ordinary init containers may change places, even under overflow |
| PodAllocation.SidecarEarlierTakesMore | internal/service/overview_service.go:480-486 | moving a sidecar ahead of its ordinary neighbour never lowers the pod's peak |
| PodAllocation.NegativeReadsAsZero | internal/service/overview_service.go:474-490 | a pod whose only container asks for -5 shows 0 |

## Left out

- Gin handlers, SSE and WebSocket transport, pings, GORM and SQL, Helm, client-go, RBAC and redaction: input, output and single-function logic.
- The database is a map with atomic conditional updates. A write that fails for good appears only as a worker that abandons its job at any point.
- Row texts (stage, messages, result, suggestions, user name, request id, rollback flag, start time), but for the error code, and the operation events: nothing reads them back. The last event need not match the row, since the reaper writes none.
- In `OperationRuns` any id may be put into a started manager's queue at any time and any number of workers may run; both are more than the code does, so the theorems cover it.
- `Stop` of a manager stops queueing at once while its workers may go on taking ids or abandon their jobs in any order; waiting for them is not modelled.
- OperationManager.Manager.Execute: one call without interference; interleavings are the subject of `OperationRuns`.
- OperationManager.BacklogDrains: assumes, as the statement says, that workers empty the queue between two dispatches; fairness of the scheduler is not modelled.
- Cluster numbers and user names and roles inside approved changes, and the audit entries the assistant writes.
- AgentLoop.Chat: a failed configuration load, a missing key and an unknown cluster are one refusal.
- The provider, the authorizer and the tools are arbitrary functions of turn and position; the history a client sends is taken to consist of content-only messages, as the chat endpoint builds it.
- ToolStream.ParseStream: lines and decoded chunks are inputs; the scanner's line limit shows up only as its error flag.
- Lengths count the bytes of the UTF-8 encoding, except that a tool result is cut after 64 Ki characters. Lower-casing a registry host uses any table with the properties of Unicode's that `IsLowering` lists.
- PackageConfirmation.TokenWorksOnce: about tokens that had been minted when first presented; guessing an unissued token is excluded by freshness.
- What Helm does when it reports that a release name is in use is not visible; such an attempt counts as a conflict, not as carried out.
- PackageExecution.ExecutePreparedChange: up to the call of the adapter; rendering and comparing the digest, upgrade checks, rollback and removal are not modelled.
- WatchHub.Hub.Broadcast: one step of the event loop; the hub's own 1024-message buffer and its producers are not modelled.
- WatchHub.WritePump: subscriptions stay fixed while the pump runs; changing them concurrently is not modelled. Pings appear only as a failure before a position.
- AuditWriter.AuditService: asynchronous mode only; disabled and synchronous recording and the daily purge are not modelled.
- TagCache.HitAgreesWithLookup: time stamps are those of each critical section and need not be monotone. Network access to the registry is a parameter.
- PodAllocation: quantities are read already; parsing them, and missing or malformed entries, count as 0.
- WebAuthn sign counts, pagination, favourites, template seeding and metrics aggregation.
