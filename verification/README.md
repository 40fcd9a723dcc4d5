# Verification of the AI cloud operations service

A Dafny 4.11 model of the parts of the service whose correctness is hard to see from the code, with
proofs. `dafny verify dfyconfig.toml` checks everything.

The protocols are state machines: `Next(state, label)` is one atomic step of one goroutine or one
request, a run is any sequence of labels, and a label that is not enabled changes nothing, so a lemma
about every label sequence is a lemma about every interleaving. Faults of the database, of cloud
calls and of the model are part of the label or of an arbitrary script, never excluded. Where the
source updates an object in place there is a class (`PgExecStore`, `Handler`, `Database`, `Group`,
`StsTokenCache`, `WsConn`, `Hub`, `AlertWorker`) whose methods are proved against the functions that
the lemmas are about.

## The components

* **Execution engine** (`ExecStore`, `ExecProtocol`, `ExecInvariant`, `ExecTheorems`, `ExecCalls`,
  `ExecAsWritten`, `ExecRateLimit`, `ExecRateTight`, `ExecHandler`). Approve and execute requests
  interleave store call by store call. `Config.earlyExit` chooses between the handler as it is
  written (false) and one that returns after a failed `BeginExecution` (true); a theorem that names
  neither holds of both. What fails for the code as written holds of each plan that no request has
  gone on with after failing to begin it (`Sys.strayed`). `ExecHandler` is the handler itself,
  running among any other requests.
* **Agent** (`AgentTools`, `DryRun`) and **Python worker** (`RetryWorker`). The bounded conversation
  with its concurrent tool calls, and the `while True` loop inside two retry loops inside a batch.
* **Credentials** (`SingleFlight`, `StsCache`, `StsConcurrent`).
* **Migrations** (`Lexical`, `Migrations`).
* **WebSocket** (`WsFrames`, `WsHub`).
* **Queries, numerals, gate** (`Numerals`, `Queries`, `EvalGate`).

## What the proofs found in the code

* `internal/api/exec.go:345-359` answers a failed `BeginExecution` but does not return, so the action
  loop runs. `ExecAsWritten.StrayCallExactly` says exactly when, in any interleaving, a request then
  calls for a plan it did not begin; `ExecCalls.AtMostOnceExactly` that at-most-once fails exactly
  then; `ExecAsWritten.TableLeftExactly` which status writes leave the transition table; and
  `ExecAsWritten.DoubleRun` is a run in which two requests run one plan. The client is told the first
  status code written, so a 404 or 409 does not mean that nothing was done: `ExecCalls.AnswerTells`
  says exactly when it does.
* `rolled_back` is written straight from `running`, which is no edge of the transition table: the one
  exception in `ExecTheorems.StatusFollowsTable`.
* Each action's pre-state is captured by a second call of the same `ExecAction`
  (`internal/api/exec.go:369-373`); `Reversible` says what a rollback must undo for it.
* `internal/db/migrations.go:48-51` takes an unreadable directory for an empty one, so `RunMigrations`
  succeeds having applied nothing (`Migrations.UnreadableSucceeds`, and the condition in
  `Migrations.Database.RunMigrations`).
* `internal/api/ws.go:177-190` allocates whatever an eight-byte length says, and so panics exactly
  when that is negative or more than the runtime allocates: `WsFrames.PanicsExactly`. The comment at
  lines 160-161 says that close frames are not ignored; the code returns every opcode alike.
* `atoiDefault` takes digits whose value is 2^63 or more to a wrapped number:
  `Numerals.ParsedExactly` is the exact condition.
* On an error the gate's mean divides by one more than the number of scored samples
  (`internal/eval/ci_gate.go:38-49`).

## Model

| member | source | states |
|---|---|---|
| ExecStore.PgExecStore.ApprovePlan | internal/api/exec_store.go:145-161 | the update happens exactly when the plan is planned; otherwise a second read, which may fail on its own, tells conflict from missing; a fault changes nothing |
| ExecStore.PgExecStore.BeginExecution | internal/api/exec_store.go:166-211 | status, start time and the n seeded audit rows change together exactly when the plan is approved, or nothing does and a second read, which may fail, tells why |
| ExecStore.PgExecStore.RecordActionResult | internal/api/exec_store.go:214-236 | exactly the rows of the sequence number get the result; not found when there is none |
| ExecStore.PgExecStore.MarkAuditRolledBack | internal/api/exec_store.go:369-384 | row by row, exactly the successful rows among the given numbers change, and their number is given; without numbers the database is not asked |
| ExecStore.MarkingMoves | internal/api/exec_store.go:365-384 | exactly that number of rows moves from success to rolled_back, failed and pending rows stay, and marking again changes nothing |
| ExecStore.PgExecStore.FinishExecution | internal/api/exec_store.go:240-253 | the plan's row gets the final status and count, whatever its status was |
| ExecStore.PgExecStore.CountExecutionsSince | internal/api/exec_store.go:259-272 | going through the plans in any order, the number of plans of the account with a start time from then on in a started status |
| ExecTheorems.SingleWinner | internal/api/exec_store.go:145-211 | in every interleaving a plan has at most one successful approve and one successful begin |
| ExecTheorems.WinnerExists | internal/api/exec_store.go:145-211 | a plan has left planned iff some approve won, and has a start time iff some begin succeeded |
| ExecTheorems.OneApproveWins | internal/api/exec_store.go:145-161 | once an approve of an existing plan has taken its compare-and-set without a fault, exactly one approve of the plan has won, then and ever after |
| ExecTheorems.LoserSeesConflict | internal/api/exec_store.go:338-349 | an approve of an existing plan is never told that the plan is missing, whatever runs between the missed update and the second read |
| ExecTheorems.SeededOnce | db/migrations/0004_exec_plans.sql:34-48 | a started plan has audit rows numbered exactly 1..n for its actions, an unstarted one none |
| ExecTheorems.AtMostOnce | internal/api/exec.go:345-418 | while nobody has strayed into a plan, its actions are called by one request only, after its begin, in order, stopping at the first failure; rollbacks only after a failure and in reverse |
| ExecTheorems.StrayedExactly | internal/api/exec.go:345-359 | a plan has been strayed into iff a request for it whose begin failed has gone on |
| ExecTheorems.NoneStrays | internal/api/exec.go:345-359 | with the missing return no plan ever is |
| ExecCalls.OwnOnce | internal/api/exec.go:365-418 | as written, in every interleaving, each request calls only for its own plan, each action at most once and in order, stopping at the first failure, undoing only completed actions in reverse |
| ExecCalls.AtMostOnceExactly | internal/api/exec.go:345-418 | as written, at-most-once holds of a plan iff nobody has called for it without having begun it |
| ExecCalls.AnswerTells | internal/api/exec.go:345-359 | a finished request has called something iff its plan has an action and it began the plan or went on without; a client told 404 or 409 has caused a call iff the handler went on after a failed begin |
| ExecTheorems.RowsAgree | internal/api/exec.go:365-425 | whatever writes to the audit table were lost, of a finished plan nobody strayed into, each row of which no write was lost is the record of its call, the count is that of the successful calls, and the plan ends rolled_back iff every completed action was undone and the marking was not lost |
| ExecTheorems.AuditAgrees | internal/api/exec.go:365-425 | with a marker store and no lost write, its rows are completed rows, then a failed one if an action failed, then pending ones; the count and the final status are determined by them, and each row holds its call's result |
| ExecTheorems.NotFoundUnreachable | internal/api/exec.go:379-383 | as written, a request that has begun its plan finds the row to record in every interleaving |
| ExecTheorems.StatusFollowsTable | internal/api/exec.go:117-141 | while nobody has strayed into a plan, every committed change of its status is an edge of the table, or running to rolled_back |
| ExecAsWritten.TableLeftExactly | internal/api/exec_store.go:240-253 | as written, a step leaves the table iff it finishes a plan that is approved, or completed or rolled back otherwise, and only plans strayed into are |
| ExecTheorems.FinalStays | internal/api/exec.go:117-141 | a plan in a terminal status never changes again while nobody strays into it |
| ExecAsWritten.FinalLeftExactly | internal/api/exec_store.go:240-253 | as written, a step changes the row of a plan in a terminal status iff it finishes the plan again with another status, count or time, and only plans strayed into are |
| ExecTheorems.StartedExactly | internal/api/exec_store.go:259-272 | unless somebody strayed into the plan, the start time is set exactly in the four started statuses, so the rate count's status filter excludes nothing |
| ExecTheorems.FilterRedundant | internal/api/exec_store.go:259-272 | as written, too, a plan with a start time is in a status that the count includes |
| ExecAsWritten.SameRun | internal/api/exec.go:345-359 | the code as written and the handler with the return pass through the same states iff no begin falls through |
| ExecAsWritten.StrayCallExactly | internal/api/exec.go:345-374 | as written, whatever interleaves, a request has called for a plan it did not begin iff the guard was false at its begin, the plan has an action, and the request has since taken the steps that lead to the first call |
| ExecAsWritten.DoubleRun | internal/api/exec.go:345-374 | a concrete run in which two requests run the same plan's actions |
| ExecRateLimit.SlidingWindow | internal/api/exec.go:324-345 | with at most k requests between the count and the begin at once, every closed hour holds at most limit + k - 1 started plans of an account; for sequential requests at most the limit |
| ExecRateTight.SlidingWindowTight | internal/api/exec.go:324-345 | for every limit and k there is a run with at most k such requests that reaches limit + k - 1 |
| ExecHandler.Handler.Execute | internal/api/exec.go:294-436 | among any other requests and faults: the client is answered as in the machine's run, by the first status code written; a 404 or 409 has caused a call iff the handler went on after a failed begin with an action; without a call the cloud is untouched, and a run that ends rolled_back leaves it as before its first action |
| ExecHandler.Handler.BeginAndRun | internal/api/exec.go:345-434 | a failed begin's code is the answer whatever the loop then does; an answer of completed means a cloud that running every action in order gives |
| ExecHandler.Handler.RunAndFinish | internal/api/exec.go:361-434 | the plan's end tells the cloud: rolled_back, as before; failed with nothing to roll back or rollback off, exactly the completed actions; failed otherwise, whatever the executors are, the failing cloud with every rollback applied in reverse; completed after its own begin, all actions |
| ExecHandler.Handler.RunActions | internal/api/exec.go:365-389 | the loop stops at the first failure with the pre-states of exactly the completed actions and a cloud that has seen exactly these; after its own begin it always finds its rows |
| ExecHandler.Handler.UndoCompleted | internal/api/exec.go:392-402 | the completed actions are rolled back in reverse, each with its own pre-state, failing rollbacks included; with reversible actions and no failure that brings the cloud back |
| ExecHandler.Handler.StepBack | internal/api/exec.go:395-401 | undoing action i with its captured pre-state takes the cloud from after i + 1 actions to after i |
| AgentTools.WhitelistsDisjoint | internal/agent/tools.go:157-190 | no name is in both whitelists |
| DryRun.RunTools | internal/agent/client.go:248-309 | in every interleaving each call of an uncancelled round enters the bookkeeping once, and result i answers call i |
| DryRun.RunDiagnosis | internal/agent/client.go:166-315 | at most five model calls; the conversation is well formed, and the bookkeeping is that of the rounds' calls in some order within each round; truncated only after five rounds |
| DryRun.Alternates | internal/agent/client.go:205-309 | messages alternate, and each tool turn answers exactly the calls of the turn before it, by ID and in order, the error flag marking exactly the calls not permitted |
| DryRun.PlannedExactly | internal/agent/client.go:264-278 | the planned actions of an uncancelled dry run are as a multiset exactly those of the write-tool calls made; of a cancelled one, only such |
| DryRun.BlockedList | internal/agent/client.go:279-291 | the blocked list has no repetition, and a tool's reason is in it iff the tool was called and is in neither whitelist |
| DryRun.SeesEarlierRounds | internal/agent/client.go:265-270 | an action planned in round k has as preconditions a prefix of the final log of reads, which begins with exactly the reads (as a multiset) of the conversation's rounds before k |
| DryRun.NothingWithoutDryRun | internal/agent/client.go:256-292 | outside a dry run nothing is planned, blocked or logged |
| RetryWorker.AlertWorker.CallClaude | src/ai_cloud_ops/agent/client.py:124-180 | the unbounded loop ends, with the outcome that its specification gives |
| RetryWorker.AlertWorker.WithRetry | src/ai_cloud_ops/ingest/retry.py:53-92 | attempts by the schedule, the first success or a dead-letter row, for either of the two nested uses |
| RetryWorker.AlertWorker.ProcessOneCycle | src/ai_cloud_ops/worker.py:101-148 | processed and errors add up to the batch, and are the alerts that succeeded and failed |
| RetryWorker.ClaudeBound | src/ai_cloud_ops/agent/client.py:135-180 | a run makes between one and max_tool_calls + 1 model calls and is cut off only after max_tool_calls executed calls |
| RetryWorker.ClaudeRun | src/ai_cloud_ops/agent/client.py:135-180 | every reply but the last asks for tools below the cap, exactly these tools are executed, and the last reply alone decides between an error, a diagnosis and truncation |
| RetryWorker.ClaudeBoundReached | src/ai_cloud_ops/agent/client.py:154-166 | a model that always asks for one more tool is called exactly max_tool_calls + 1 times |
| RetryWorker.InnerWaits | src/ai_cloud_ops/ingest/retry.py:71-92 | attempts are counted from one, waited for by exactly the schedule, and it gives up only after the last |
| RetryWorker.DiagnoseBound | src/ai_cloud_ops/agent/client.py:183-211 | diagnose raises only if its dead-letter write does and then leaves no record; otherwise it leaves at most one, and unless persisting fails exactly the analysis returned, or the dead-letter row |
| RetryWorker.OuterRetry | src/ai_cloud_ops/worker.py:111-118 | whatever fails, an alert leaves at most one dead-letter row or analysis; if dead-letter writes succeed the first outer attempt is the only one |
| RetryWorker.AlertBound | src/ai_cloud_ops/worker.py:111-128 | at most (retries + 1) squared runs of the tool loop an alert, at most retries + 1 if dead-letter writes succeed |
| RetryWorker.AlertBoundReached | src/ai_cloud_ops/worker.py:111-128 | with the model and the dead-letter table down, exactly (retries + 1) squared runs |
| RetryWorker.BatchCounts | src/ai_cloud_ops/worker.py:110-135 | every alert counts once and exactly the processed ones are marked analyzed, in order |
| RetryWorker.BatchBound | src/ai_cloud_ops/worker.py:110-135 | cost and records of a batch are bounded alert by alert |
| SingleFlight.OneFlightPerKey | internal/credentials/singleflight.go:25-51 | in every interleaving at most one fn runs per key |
| SingleFlight.OneLeader | internal/credentials/singleflight.go:30-50 | exactly one caller of each execution is its leader |
| SingleFlight.AttachesToRegistered | internal/credentials/singleflight.go:26-38 | a caller attaches to an execution for its own key that is registered at that moment |
| SingleFlight.ReturnsItsResult | internal/credentials/singleflight.go:30-50 | a caller that is back has the written result of its execution, with shared false iff it leads |
| SingleFlight.EverybodyReturns | internal/credentials/singleflight.go:40-50 | if every fn ends, the remaining steps are bounded and when none is left every caller is back |
| SingleFlight.Group.Enter | internal/credentials/singleflight.go:25-38 | the locked section on the mutable map is the machine's step |
| StsCache.StsTokenCache.Get | internal/credentials/sts_cache.go:108-140 | a hit exactly when the entry outlives now by more than the margin; otherwise one AssumeRole call whose success replaces the entry |
| StsCache.HitIsFreshAndOwn | internal/credentials/sts_cache.go:108-140 | in every sequential run a hit outlives now by more than the margin and was issued for that account |
| StsConcurrent.AnswersAreOwn | internal/credentials/sts_cache.go:108-148 | with any Gets and Invalidates interleaved, late stores included, every answer was issued for its account and every hit outlives the moment of the look by more than the margin |
| StsConcurrent.OneFetch | internal/credentials/sts_cache.go:121-124 | at most one AssumeRole is under way for an account |
| StsCache.IssuesAreSpaced | internal/credentials/sts_cache.go:25-29 | in a sequential run without invalidation an account's issues are at least Gap apart, so an interval of length L holds at most L / Gap + 1 |
| StsCache.GapIsTtl | internal/credentials/sts_cache.go:122-124 | Gap is the ttl iff ttl + margin is a whole number of seconds, as with the defaults |
| Migrations.ListMigrationFiles | internal/db/migrations.go:47-61 | the listing that ListingOk is about; nothing for an unreadable directory |
| Migrations.ListingOk | internal/db/migrations.go:47-61 | the listing is strictly sorted and holds exactly the .sql files |
| Migrations.ListingGrows | internal/db/migrations.go:46-61 | adding files that sort later extends the listing at its end |
| Migrations.AppliedIsPrefix | internal/db/migrations.go:17-44 | over any runs, failing anywhere, concurrent or not, the applied set is a prefix of the sorted listing and the schema is what exactly these bodies, each once, make |
| Migrations.FromEmpty | internal/db/migrations.go:15-44 | so from an empty database |
| Migrations.SuccessApplies | internal/db/migrations.go:29-43 | a run without error has applied every file that it listed |
| Migrations.NothingLeft | internal/db/migrations.go:29-43 | when everything is applied no run changes anything |
| Migrations.UnreadableSucceeds | internal/db/migrations.go:48-51 | a concrete run that succeeds with nothing applied |
| Migrations.Database.ApplyOne | internal/db/migrations.go:90-98 | body and bookkeeping row take effect together or not at all |
| Migrations.Database.RunMigrations | internal/db/migrations.go:17-44 | only extends the applied prefix; without error everything is applied iff the directory was readable or nothing was left |
| WsFrames.WsConn.ReadFrame | internal/api/ws.go:162-200 | reads exactly one frame as Decode has it, leaving the rest of the stream; an error at the end of the stream, a panic beyond what can be allocated |
| WsFrames.WsConn.WriteText | internal/api/ws.go:203-231 | the peer gets the whole frame, or a proper prefix and the writer an error |
| WsFrames.Unmask | internal/api/ws.go:194-198 | the in-place loop is exclusive or with the repeated key |
| WsFrames.XorTwice | internal/api/ws.go:196 | exclusive or twice with the same bits gives back the number |
| WsFrames.FrameRoundTrip | internal/api/ws.go:162-231 | any frame, masked or not, in any length form it fits, decodes to its opcode and payload and leaves what follows, iff its payload can be allocated |
| WsFrames.ProperPrefix | internal/api/ws.go:162-193 | every proper prefix of a frame that can be allocated is an error |
| WsFrames.ShortestWritten | internal/api/ws.go:206-226 | no other legal form of the same payload is shorter than the one writeText uses |
| WsFrames.PanicsExactly | internal/api/ws.go:177-190 | the allocation panics iff an eight-byte length is beyond what the runtime allocates and the key, if announced, has been read; always when the highest bit is set |
| WsFrames.StreamRoundTrip | internal/api/ws.go:162-231 | a stream of frames that can be allocated is read back frame by frame, and the bytes after it are read as if it had not been there |
| WsFrames.CutStream | internal/api/ws.go:162-231 | a stream cut anywhere yields exactly its whole frames and then an error |
| WsFrames.SendAll | internal/api/ws.go:136-149 | the peer of a pump that stops at its first failed write reads exactly the payloads reported as sent |
| WsHub.NeverOnClosed | internal/api/ws.go:116-127 | in every interleaving nothing is sent on a closed channel |
| WsHub.Deliveries | internal/api/ws.go:33-149 | given plus queued events are in order exactly the accepted sends; queued + given + dropped is the number of sends; the peer is written them in order |
| WsHub.DropsWhenFull | internal/api/ws.go:43-48 | a step tries at most one send to a client, only while it is registered, and drops it iff 16 events wait |
| WsHub.WholePublish | internal/api/ws.go:40-49 | whatever interleaves with a publish, each client registered when it began is sent to exactly once and no other at all |
| WsHub.PublishGoesOn | internal/api/ws.go:43-48 | a publisher can always take its next send, and has one less left after it |
| WsHub.Hub.Publish | internal/api/ws.go:40-49 | every channel in the map is offered the event once, in whatever order |
| WsHub.Hub.Unregister | internal/api/ws.go:121-127 | out of the map first, then closed; the other clients' queues stay |
| Numerals.AtoiDefault | internal/api/router.go:377-389 | with wrap-around at every step: the wrapped value of the digits, or the default |
| Numerals.Itoa | internal/api/router.go:391-401 | the decimal numeral of n |
| Numerals.RoundTrip | internal/api/router.go:377-401 | every 0 < n < 2^63 survives itoa and atoiDefault, with no overflow at any prefix |
| Numerals.ParsedExactly | internal/api/router.go:377-389 | digits mean their value to atoiDefault, whatever the default, iff the value is positive and below 2^63 |
| Numerals.NumeralCanonical | internal/api/router.go:391-401 | itoa writes no leading zero |
| Numerals.NumeralOfValue | internal/api/router.go:391-401 | every canonical numeral is the numeral of its value |
| Numerals.Injective | internal/api/router.go:391-401 | different numbers have different numerals |
| Queries.ListResourcesQuery | internal/api/router.go:174-194 | the text, parsed back, has placeholders exactly $1..$n, and with its arguments passes exactly the rows meeting the given filters |
| Queries.ListAlertsQuery | internal/api/router.go:229-247 | the same, and the last placeholder names the limit: the number asked for or 50 |
| Queries.ListRulesQuery | internal/api/rules.go:72-81 | the same for the one filter of the rules list |
| Queries.ReadWhereOf | internal/api/router.go:179-191 | the conditions written for any number of filters are the conditions read |
| Queries.JoinComma | internal/api/rules.go:249-258 | the parts with a separator between each two |
| Queries.ReadUpdateOf | internal/api/rules.go:158-190 | the update text for any fields parses back to these assignments, the time, and the id's placeholder |
| Queries.UpdateMeans | internal/api/rules.go:158-190 | a row without the id is untouched; with it exactly the supplied columns and updated_at change |
| Queries.UpdateRuleQuery | internal/api/rules.go:158-190 | a statement exactly when some field is supplied, and then one that changes exactly what was asked |
| EvalGate.Total | internal/eval/score.go:30-36 | the sum of the five dimensions, missing ones counting zero |
| EvalGate.Aggregate | internal/eval/score.go:39-56 | the mean of each dimension, and zeros for no scores |
| EvalGate.DimensionMeans | internal/eval/score.go:39-56 | the dimension means sum to the mean of Total |
| EvalGate.EvaluateBaseline | internal/eval/ci_gate.go:29-63 | the verdict by whole-number thresholds, the cards up to the first error, and exactly one verdict |
| EvalGate.RaisingNeverWorsens | internal/eval/ci_gate.go:53-62 | raising any scores never worsens the verdict or lowers the mean |

## Left out

- ExecTheorems.AtMostOnce: of plans that nobody has strayed into; `ExecCalls.AtMostOnceExactly` has the exact condition for the code as written.
- ExecTheorems.AuditAgrees: the same, with a store that can mark rows and no failed write to the audit table for the plan; `ExecTheorems.RowsAgree` has the lost writes.
- ExecTheorems.FinalStays: of plans that nobody strays into; `ExecAsWritten.FinalLeftExactly` has the exact condition.
- ExecTheorems.StatusFollowsTable: the same; `ExecAsWritten.TableLeftExactly` has the exact condition.
- ExecRateLimit.SlidingWindow: one monotone clock for the handler and the database, and a limit that does not change; `EXEC_RATE_LIMIT` is not parsed.
- ExecHandler.Handler.Execute: the cloud is any value, and rollback restores it only if one rollback undoes one action's capture and run and a failing action has no net effect, and what others do meanwhile, to the store or otherwise, does not touch the part of the cloud that the plan's actions touch; the JSON text of a plan is taken to decode, so the error answer at exec.go:339-344 is not modelled.
- ExecStore.PgExecStore.BeginExecution: a commit either happens or not; a connection lost while committing is not modelled.
- DryRun.RunDiagnosis: the stub mode, the action trail, latencies and logging are left out; TrimSpace knows ASCII white space only; input JSON is its text and the string under resource_id.
- SingleFlight.EverybodyReturns: a panicking fn is not modelled.
- StsCache.IssuesAreSpaced: sequential use, credentials that last exactly as long as was asked; with concurrent Gets a late store may replace newer credentials, and one that follows an Invalidate brings credentials back.
- StsCache.HitIsFreshAndOwn: sequential use; StsConcurrent has the interleavings.
- Migrations.AppliedIsPrefix: the directory only gains files that sort later; file bodies are arbitrary partial functions on an arbitrary schema, and a name has one body; names are compared character by character.
- RetryWorker.AlertWorker.CallClaude: the conversation's content is not kept, since the model may answer anything; cancellation is left out.
- RetryWorker.AlertWorker.ProcessOneCycle: the query, the heartbeat and the final commit of a cycle are taken to succeed.
- WsFrames.WsConn.ReadFrame: what the runtime allocates is one number; a payload below it always fits.
- WsFrames.WsConn.WriteText: the write buffer is not modelled, and the connection's mutex is implied by one writer at a time.
- WsHub.Deliveries: the upgrade handshake and the reading goroutine's frames are left out; it only signals that the peer is gone.
- Queries.ListResourcesQuery: the database's sorting, its LIMIT and its SQL beyond these forms are not modelled.
- EvalGate.EvaluateBaseline: exact arithmetic, no rounding; diagnosing and judging a sample is one arbitrary answer.
- HTTP, JSON encoding, cookies, metrics and logs: plumbing.
- `internal/auth`, `internal/ingest/signature.go` and `wsAcceptKey`: library wrappers.
- `src/ai_cloud_ops/cache.py`: a joiner awaits the shared result while holding the lock its leader needs; the Go single-flight is modelled instead.
- `internal/api/incidents.go`: a small table whose run-level claim needs an atomicity that the code does not have.
- `totalEstimatedDowntime`, `lowConfidence`, `validateRuleReq`, configuration, retention, prompts and the front end: lookups and easy members.
