# What firmbatch keeps when its state is shared, interrupted or rebuilt

firmbatch runs batches of model requests on machines that can disappear, and keeps the books of
that work in a database that several processes write at once. This project models the parts of
it where a promise has to hold over every run and every interleaving, and proves those promises
in Dafny 4.11. `dafny verify dfyconfig.toml` checks all of it.

| part | modules |
|---|---|
| The v0 lease protocol: a store of shards and results, agents that claim, post and vanish, messages that arrive late, twice or never, and the controller that sizes the fleet | `LeaseDb`, `LeaseRows`, `LeaseProtocol`, `LeaseTheorems`, `LeaseCancellation`, `LeaseProgress`, `LeaseRecovery`, `Fleet` |
| The idempotent mutation primitive: transactions that interleave statement by statement under READ COMMITTED, with savepoints, a unique claim index and the loser's path | `IdempotencyModel`, `IdempotencyProof`, `IdempotencyTheorems`, `IdempotencySession`, `IdempotencyProgress` |
| The lifecycle kernel: versioned graphs, compare-and-swap on (state, revision), append-only history, claims with provenance | `LifecycleDefinition`, `LifecycleDb`, `LifecycleKernel`, `LifecycleTheorems`, `LifecycleAnswers` |
| Canonical metadata and fingerprints: the printer, a parser for RFC 8259 that undoes it, the policy in front | `Json`, `JsonText`, `Metadata` |
| The ORM identity map of a reused session against the row policy of the transaction it is in | `IdentityMap` |
| Role wiring as reconciliation of any privilege catalogue with a plan | `RoleCatalogue`, `RoleWiring`, `RoleReconcile`, `RoleInstall`, `RoleTheorems` |
| Two string cores: secret redaction, and the connection-URL parser against its printer | `Redaction`; `UrlText`, `ConnectionUrl`, `ConnectionPolicy`, `ConnectionRoundTrip`, `ConnectionSocket` |

`Base` holds an option type and three facts about finite sets.

Code that changes state in place is a class here (`LeaseDb.Store`, `IdempotencySession.Session`,
`LifecycleDefinition.Catalogue`, `LifecycleDb.Tables`, `IdentityMap.Session`,
`RoleCatalogue.Catalogue`) whose methods are proved equal to functions on its state; loops are
loops. The step systems (`LeaseProtocol`, `IdempotencyModel`, `LifecycleKernel`) interleave those
same functions, or the single statements of them, in any order, and the theorems quantify over
every list of steps.

## What turned out to be narrower than it reads

Each of these is a property the code or its comments suggest and does not keep; the lemma named
gives the failing input or the exact condition, for all inputs.

- *A done shard is complete.* `worker/agent.py:41-51` gives up after its retries and returns `{}`,
  `main` ignores that, and `finish_shard` asks nothing. `LeaseTheorems.LostPostStrandsRequest` is a run that
  ends with a shard done, its request unanswered and nothing left to claim; `LeaseTheorems.DoneExactly` says
  the promise is kept over a run exactly when each shard is fully answered at the moment it is
  finished; `LeaseProgress.RunningHolds` that a running job with requests can still end as done
  exactly when no done shard lacks an answer that nobody is about to send.
- *Every request is in some shard.* With a negative `shard_size`, `create_job` commits a job of n
  requests with no shard and no request row (`LeaseTheorems.PartitionExactly`); zero raises.
- *Cancelled is final.* `w_results` reads the status, counts the results and writes the status in
  three transactions. `LeaseCancellation.CancelledThenDone` is a run in which a handler reads the
  job as running, the job is cancelled, the last chunk arrives, and the handler counts and writes
  done. `LeaseCancellation.CancelHolds` is the exact condition, in every reachable cancelled
  state: a handler is about to write, or one has read the job as running and every missing answer
  can still come, being on its way or in a shard left for a claim that had also read it as running.
- *A dead fleet costs one reap.* A claim that a departed worker had sent can arrive after the reap
  and take the shard again (`LeaseRecovery.LateClaimStrands`, a run from the start of a job); with no further
  reap and no chunk the job is then never completed. `LeaseRecovery.Recover` gives the condition: with no
  claims, chunks or reaps to come, everything is answered if and only if nothing is missing from the
  shards that are held or done; with any of them to come it is enough that the server reaps
  once after the last lease such a claim was given, before the fresh worker has waited too often.
- *A known secret is gone from the output.* It is, of `scrub_secrets` and of `sanitize` alike, for
  every text, every other secret and every pattern, if and only if it does not begin or end with
  `*` or hold `***` (`Redaction.GoneExactly`): the mark that replaces another secret can supply
  those stars. A secret for which this holds is called sturdy below.
- *Wiring ends in exactly the plan.* It does if and only if no function in the schema that a third
  role owns carried any grant (`RoleTheorems.ReachesPlan`): the sanitiser passes those functions by,
  and one that nobody has touched is PUBLIC's to execute (`RoleTheorems.ForeignFunctionStays`).
- *What is validated is what is opened.* The directory of a socket connection is decoded by the
  query parser and once more by `_require_socket_directory`; the rendering of an accepted
  specification parses to itself exactly when yet another decoding would change nothing
  (`ConnectionSocket.SocketRoundTripExactly`, with `/%2541` as the instance in `DirectoryDecodedTwice`).
- *The bookkeeping key is the context's tenant.* The key is dropped when a savepoint ends and the
  context is not (`IdentityMap.KeyFallsBehind`); what keeps the cache right is a weaker invariant.

## Model

| member | source | states |
|---|---|---|
| LeaseDb.InsertRequests | control/db.py:133-136 | One chunk's rows are appended in order, or some request id of the job repeats and the primary key refuses |
| LeaseDb.ChunkIndex | control/db.py:126-131 | All positions of a chunk have the quotient i // shard_size that becomes the shard's idx, and the next chunk starts a new one |
| LeaseDb.FirstPending | control/db.py:188-191 | The pending shard of least idx, or none is pending |
| LeaseDb.Unanswered | control/db.py:201-206 | Exactly the shard's requests that have no result |
| LeaseDb.Claim | control/db.py:181-213 | A claim changes no request, result or non-pending shard; it grants a held shard with all and only its unanswered requests, none of them empty, or leaves nothing pending; the retry terminates on outstanding shards |
| LeaseDb.Store.CreateJob | control/db.py:116-139 | Commits the chunked shards and requests, or raises and leaves everything as it was, on a zero size or a repeated id |
| LeaseDb.Store.ReapExpired | control/db.py:162-178 | The row-by-row loop releases exactly the overdue leases, each marked with its holder |
| LeaseDb.Store.ClaimShard | control/db.py:181-213 | The recursive statements have the outcome and the effect of the specification `Claim` |
| LeaseDb.Store.Extend | control/db.py:216-221 | Only the holder of a leased shard extends it, and only the expiry changes |
| LeaseDb.Store.Finish | control/db.py:224-231 | Finishes the shard for whoever asks, in whatever state it is |
| LeaseDb.Store.Put | control/db.py:236-254 | The loop of upserts has the effect of the specification `UpsertAll` |
| LeaseDb.Store.Kill | control/db.py:298-323 | Marks the worker dead and frees exactly the shards it holds |
| LeaseDb.Store.Results | control/app.py:98-109 | Stores, then finishes or extends, then flips a running job with nothing remaining |
| LeaseRows.ReapExactly | control/db.py:162-178 | A leased shard whose expiry is before now becomes pending, without holder or expiry, its attempts kept and the expiry of its holder noted; every other shard, one that expires now included, is as it was |
| LeaseRows.KillExactly | control/db.py:298-323 | The same for a kill: what the worker holds is freed, nothing else changes, and only that worker is dead |
| LeaseRows.ExtendExactly | control/db.py:216-221 | The expiry of that one lease moves, if its caller holds it, and nothing else |
| LeaseRows.FinishExactly | control/db.py:224-231 | That one shard is done, without holder or expiry, and no other changes |
| LeaseRows.ClaimExactly | control/db.py:181-213 | A claim leases the first pending shard with an unanswered request, until the time it says, and finishes the pending ones before it; later shards are untouched; with no such shard, all the pending ones are finished |
| LeaseRows.ResultsShards | control/app.py:98-109 | A message that says done finishes its own shard; another extends it if its sender holds it; all other shards stay |
| LeaseRows.ResultsFinish | control/app.py:98-109 | It stores what it carries, and the job is done afterwards exactly if it was, or was running and as many results as requests are there |
| LeaseRows.CreatedExactly | control/db.py:116-139 | Creation raises exactly for a zero size, or a positive one and an id given twice; otherwise all shards are fresh |
| LeaseRows.AnyTime | control/db.py:162-323 | In every state the server may reap, the controller kill, a worker extend or leave, a client cancel, with these effects on the store |
| LeaseRows.LeaseLasts | control/db.py:162-231 | Over any run with no reap later than its expiry, no kill of its holder, no finish of its shard and no extension that shortens it, a lease is its holder's, and the shard is given to nobody else |
| LeaseRows.ClaimLasts | control/db.py:181-213 | So a claim is good for the whole time it was given |
| LeaseProtocol.UpsertAllKeys | control/db.py:236-254 | After a post the table holds the old keys and the posted ones; each row is an old one or says what was posted |
| LeaseProtocol.LastPostWins | control/db.py:241-252 | For every id: the stored row keeps the shard of the first insert and takes output, acceptance, worker and time from the last entry posted about it; an id that is not posted keeps its row |
| LeaseProtocol.PutHonest | control/app.py:98-101 | A post of engine answers keeps every stored output the engine's own answer to that request |
| LeaseProtocol.ShardSteps | control/db.py:162-231 | Reap, kill, extend, claim and finish keep a shard's holder, expiry, attempts and trail consistent |
| LeaseProtocol.StepGrows | control/db.py:162-254 | No step forgets a request, a result or a finished shard |
| LeaseProtocol.StepInv | worker/agent.py:143-189 | The invariant over store, agents, grants and messages is kept by every step, whoever takes it |
| LeaseProtocol.StepComplete | worker/agent.py:175-188 | A step on which no worker with lost posts sends done keeps done shards and done messages fully answered |
| LeaseProtocol.RunInv | worker/agent.py:143-189 | The invariant holds at the end of every run |
| LeaseProtocol.RunComplete | worker/agent.py:175-188 | Completeness of done shards holds at the end of every reliable run |
| LeaseProtocol.RunGrows | control/db.py:162-254 | Whole runs forget nothing either |
| LeaseProtocol.RemainingBounds | control/db.py:365-376 | What remains lies between 0 and the number of requests, and is 0 exactly when every request has a result |
| LeaseProtocol.RemainingFalls | control/db.py:376 | What remains never grows |
| LeaseTheorems.Partition | control/db.py:126-136 | Request k is in shard k // size, every shard exists, and there are ceil(n / size) of them |
| LeaseTheorems.PartitionExactly | control/db.py:126 | All requests are kept if and only if the size is positive or there are none; a negative size keeps nothing |
| LeaseTheorems.SequentialAt | worker/agent.py:72-79 | The sequential table answers each input id with the engine and acceptor applied to its prompt |
| LeaseTheorems.OutputRefinement | control/db.py:236-266 | In every run the result table is a part of the sequential table, and all of it if and only if nothing remains |
| LeaseTheorems.DoneMeansComplete | worker/agent.py:175-188 | While no worker sends done after a post that gave up, a done shard has every result in every reachable state, and stays done |
| LeaseTheorems.StepDoneExactly | control/db.py:224-231 | A step keeps done shards complete if and only if what it finishes is fully answered |
| LeaseTheorems.DoneExactly | control/db.py:224-231 | Done shards are complete throughout a run if and only if each finish of the run met a fully answered shard |
| LeaseTheorems.LostPostStrandsRequest | worker/agent.py:41-51 | A run in which a lost chunk and a delivered done leave a shard done, its request unanswered and nothing outstanding |
| LeaseTheorems.JobCompletion | control/db.py:359-376 | In every reachable state result keys are request ids, what remains counts the others and never grows or goes below 0, and a finished job has exactly the request ids |
| LeaseTheorems.Balance | control/db.py:162-231 | A legal trail has as many claims as releases while free, one more while held, and 0 or 1 more once over |
| LeaseTheorems.ClaimsSeparated | control/db.py:162-213 | Between two claims of a shard lies the expiry or the kill of the first holder |
| LeaseTheorems.HeldSince | control/db.py:162-231 | After a claim the claimer holds the shard until its own expiry or kill, or the shard is over |
| LeaseTheorems.LeaseAccounting | control/db.py:162-231 | In every reachable state: claims minus releases by shard state, attempts count claims, holder and expiry set exactly while leased, successive claims separated |
| LeaseTheorems.FewerOutstanding | control/db.py:335-342 | Finishing shards and reopening none lowers the outstanding count, strictly if one was finished |
| LeaseTheorems.ClaimRetryDescends | control/db.py:210-212 | Whatever others do in between, the recursive claim starts with strictly fewer outstanding shards |
| LeaseTheorems.WorkNeverGrows | control/db.py:335-342 | No run adds outstanding shards or unanswered requests |
| LeaseCancellation.StaysLacking | control/app.py:75-87 | Once the job is not running, a shard that lacks an answer nobody is about to send gets the prospect of one only by using up a claim |
| LeaseCancellation.StepIncomplete | control/db.py:181-213 | What cannot be completed by what is on its way and the claims already past the status check cannot be after any step either |
| LeaseCancellation.StaysCancelled | control/app.py:98-109 | Where no handler can come to count nothing remaining, the job is cancelled after every run |
| LeaseCancellation.GrantPosted | worker/agent.py:175-184 | A worker that is still there can post all of what it was granted |
| LeaseCancellation.FlightArrives | control/app.py:98-101 | Any answer on its way can arrive, at the cost of no other |
| LeaseCancellation.CallMoves | control/db.py:181-213 | With the leases run out, a claim past the check takes a shard that lacks answers or finishes one that does not |
| LeaseCancellation.Completes | control/app.py:75-109 | Where each missing answer is on its way or has a claim left for its shard, some run answers everything |
| LeaseCancellation.CancelHolds | control/app.py:98-109 | In every reachable cancelled state: some run ends as done if and only if a handler is about to write, or one has read the job as running and every missing answer can still come |
| LeaseCancellation.CancelledThenDone | control/app.py:98-109 | The run from the start of a job: read as running with an answer missing, cancelled, answered late, counted, written |
| LeaseProgress.NeverFinished | control/app.py:98-109 | A job with a done shard that lacks an answer nobody is about to send is done after no run |
| LeaseProgress.RunningCompletes | control/app.py:75-109 | From any other running state some run answers everything and leaves the job running |
| LeaseProgress.BatchExactly | worker/agent.py:178-180 | A post takes the next requests in order, a chunk of them or all that are left |
| LeaseProgress.PostAnswered | worker/agent.py:178-184 | A post that is answered has stored all of its batch, and its worker goes on behind it |
| LeaseProgress.RunningHolds | control/app.py:98-109 | In every reachable running state: some run ends as done if and only if the job has a request and no done shard lacks an answer that nobody is about to send |
| LeaseProgress.ReliableCanEnd | worker/agent.py:175-188 | While no worker sends done after a post that gave up, a job with requests can always still end as done |
| LeaseRecovery.ClaimKeeps | control/db.py:181-213 | A claim keeps the store consistent, finishes only answered shards and leases at most the shard it grants |
| LeaseRecovery.Generate | worker/agent.py:178-181 | The loop yields the engine's answer and the acceptor's judgement for each request of the batch, in order |
| LeaseRecovery.PostChunk | worker/agent.py:175-184 | After the post every request of the batch has a result, and nothing is lost to what arrives with it |
| LeaseRecovery.PostDone | worker/agent.py:186-188 | After the post the shard is done, whatever arrives with it, and the worker holds no lease that lasts |
| LeaseRecovery.WorkShard | worker/agent.py:175-188 | The chunk loop and the final done leave the shard done with every request answered |
| LeaseRecovery.Deliver | control/app.py:26-34 | Whatever arrives, late claims and the server's own reaps included, forgets nothing; and an opportunity that ends with a reap later than every lease leaves none but the worker's own |
| LeaseRecovery.StillStranded | control/db.py:181-213 | Without chunks nothing is answered, and without reaps no held shard can be claimed again |
| LeaseRecovery.ClaimHolds | control/db.py:196-200 | A claim changes no lease but the one it grants, which expires when it says |
| LeaseRecovery.Ask | control/app.py:75-87 | A claim grants a shard that was pending, with all its missing requests, or none is pending |
| LeaseRecovery.Turn | worker/agent.py:143-189 | Each turn of the loop lowers the outstanding shards, or waits while others hold all that is left, or finds every shard done; it never waits once the claims have stopped and their leases been reaped |
| LeaseRecovery.Recover | worker/agent.py:143-189 | From any running store and under any arrivals the loop ends; it gives up only after waiting too often while others hold all that is left, and not if the claims stop and a later reap follows in time; otherwise everything is answered whenever done shards were; with no chunks, claims or reaps to come everything is answered if and only if nothing was missing from held and done shards |
| LeaseRecovery.RecoverableEverywhere | control/db.py:162-178 | In every state of every reliable run the done shards are complete, every lease runs out, and all that can still arrive is as `Recover` asks |
| LeaseRecovery.RecoverReachable | worker/agent.py:143-189 | From every reachable running state of a reliable run, with all workers gone and whatever they had sent still arriving, claims included, one fresh worker leaves every request answered, given a reap after the last of those leases |
| LeaseRecovery.LateClaimStrands | control/app.py:75-81 | A run after which nobody holds a lease and a departed worker's claim takes the only shard: nothing is pending, an answer is missing, and no claim is granted anything |
| Fleet.TargetIsLeast | controller.py:54-62 | The measured target is the least number of workers whose rate clears what remains in the usable time |
| Fleet.WantedExactly | controller.py:54-66 | The size steered to: within the bounds; when measured, the least in them that clears the rest in the time left less the buffer, or the largest; when not, no fewer than live |
| Fleet.Insert | controller.py:88-91 | Insertion keeps the release order sorted, with each worker once |
| Fleet.Ranked | controller.py:88-91 | The order lists the live workers once each, idle before leaseholders and the newest first |
| Fleet.Retire | controller.py:41-49 | The live workers are exactly those not silent for too long, and their leases are untouched |
| Fleet.StayingExactly | controller.py:41-49 | Who stays: a live worker never heard of, or heard of no longer ago than the limit |
| Fleet.Launch | controller.py:74-83 | Nobody is lost, at most the room is filled, and exactly so if every launch works and is new; no row but those launched changes, and each of these starts now |
| Fleet.Release | controller.py:92-97 | Exactly the first workers of the order go |
| Fleet.HasLeaseExactly | control/db.py:326-332 | A worker has a lease exactly when some leased shard names it |
| Fleet.RoomExactly | controller.py:74-75 | A tick launches what is missing or the step limit, whichever is less |
| Fleet.OthersKeepLeases | control/db.py:315-319 | Killing one worker takes no other worker's lease |
| Fleet.Tick | controller.py:36-97 | With min <= max: at most max_workers after a completed tick; a fleet too large comes down to the wanted size, one too small keeps everybody and gains its launches, none without capacity; no leaseholder goes while an idle worker stays, and of two alike the one started later goes |
| IdempotencyModel.FindClaim | control_plane/db/idempotency.py:715-726 | A visible claim of the key, or there is none |
| IdempotencyModel.FindEvent | control_plane/db/idempotency.py:729-738 | The event linked to the record, or there is none |
| IdempotencyProof.Replayed | control_plane/db/idempotency.py:741-755 | Over complete blocks of work a claim is always answerable: the stored result with its own event, or a conflict |
| IdempotencyProof.FreeKey | control_plane/db/models.py:547-556 | When the claim index lets an insert through, the key is new to what is committed and to every other transaction |
| IdempotencyProof.StepClaim | control_plane/db/idempotency.py:820-829 | Inserting the claim keeps all keys, records and executions distinct |
| IdempotencyProof.StepEvent | control_plane/db/idempotency.py:831-837 | Appending the event completes one block of rows, claim and event, and keeps the invariant |
| IdempotencyProof.StepBack | control_plane/db/idempotency.py:838-839 | Rolling back to the savepoint restores the rows at entry and keeps the invariant |
| IdempotencyProof.StepCommit | control_plane/db/models.py:547-556 | Committing one transaction keeps the invariant for all others, whose claims stay distinct |
| IdempotencyProof.StepInv | control_plane/db/idempotency.py:758-865 | Every step of every transaction keeps the invariant |
| IdempotencyProof.RunInv | control_plane/db/idempotency.py:758-865 | So does every run |
| IdempotencyTheorems.CountOne | control_plane/db/models.py:547-556 | Only the block a key, execution or record belongs to contributes to its counts |
| IdempotencyTheorems.ExactlyOnce | control_plane/db/idempotency.py:758-865 | In every interleaving with aborts anywhere: a committed claim is alone with its key, execution and record and has exactly one linked event; every committed mutation row and event has exactly one claim; the rows of an execution are all there |
| IdempotencyTheorems.ReplayAgreement | control_plane/db/idempotency.py:741-755 | Everything a committed call was told comes from the one committed claim of its key; exactly one of those calls was not a replay; a call is refused if and only if its fingerprint differs |
| IdempotencyTheorems.SameAnswer | control_plane/db/idempotency.py:741-755 | Two successful committed calls of one key got the same record, event and result |
| IdempotencyTheorems.NeverUnexplained | control_plane/db/idempotency.py:846-855 | A call can always be answered, and a caller turned away by the claim index finds the winning claim when it reads again |
| IdempotencyTheorems.CallIsAtomic | control_plane/db/idempotency.py:800-865 | Whatever others do meanwhile, a call leaves its transaction with its whole effect written and answered for, or with the rows exactly as it found them |
| IdempotencySession.ClaimStays | control_plane/db/idempotency.py:846 | A claim that is visible stays visible when more is committed |
| IdempotencySession.Session.BeginNested | control_plane/db/idempotency.py:804 | The savepoint remembers the rows so far |
| IdempotencySession.Session.ReleaseSavepoint | control_plane/db/idempotency.py:836 | Releasing keeps the rows |
| IdempotencySession.Session.RollbackToSavepoint | control_plane/db/idempotency.py:839 | Rolling back restores the rows of the savepoint |
| IdempotencySession.Session.Mutate | control_plane/db/idempotency.py:809-818 | The mutation's rows follow the ones before, in order |
| IdempotencySession.Session.Recover | control_plane/db/idempotency.py:838-857 | The loser's rows are gone and the answer is the claim found on the re-read, or the error it caused |
| IdempotencySession.Session.Lose | control_plane/db/idempotency.py:838-857 | A caller whose key was taken answers from the winner, never as the winner, and keeps none of its own rows |
| IdempotencySession.Session.Conclude | control_plane/db/idempotency.py:820-837 | A free key gets rows, claim and event together, or nothing if the event is refused |
| IdempotencySession.Session.Attempt | control_plane/db/idempotency.py:800-865 | The savepoint ends in the outcome its ending calls for and in all of the effect or none |
| IdempotencySession.Session.Execute | control_plane/db/idempotency.py:758-865 | Refuses in the documented order, each refusal exactly, without a trace; on a free key a bounded outcome with an accepted event wins with its own result and rows, and an unbounded one, a wrong type, an exception or a commit fails with nothing written; a taken key is answered from its claim; never an unexplained conflict, whatever is committed between its statements |
| IdempotencySession.EndsFreely | control_plane/db/idempotency.py:800-837 | What each ending of the mutation comes to on a free key, over its fields |
| IdempotencySession.TakenExactly | control_plane/db/idempotency.py:741-755 | A taken key answers with the stored result and its own event, marked as a replay, to the claim's fingerprint, and with a conflict to any other |
| IdempotencyProgress.FreshCallWins | control_plane/db/idempotency.py:758-837 | From any state, on a free key that no other transaction is writing, the steps of a call can all be taken, with the mutation's rows, one claim and one event, its own result, and a commit at the end |
| IdempotencyProgress.TakenCallReplays | control_plane/db/idempotency.py:741-755 | In every reachable state a call on a taken key returns at once what the claim recorded, or the conflict, and writes nothing |
| IdempotencyProgress.LoserReplays | control_plane/db/idempotency.py:838-857 | In every reachable state a call whose key has been committed meanwhile cannot claim it, loses all it wrote, and is told what the winner recorded, or the conflict |
| LifecycleDefinition.SizeOfElements | control_plane/db/lifecycle.py:538-552 | len(set(s)) == len(s) says exactly that nothing repeats |
| LifecycleDefinition.CheckTerminals | control_plane/db/lifecycle.py:546-550 | Accepts exactly lists of declared, well-named states; a refusal names a rule that is broken where it says |
| LifecycleDefinition.CheckEdges | control_plane/db/lifecycle.py:561-579 | The loop over the seen set accepts exactly distinct edges between declared states, none out of a terminal one |
| LifecycleDefinition.Validated | control_plane/db/lifecycle.py:486-593 | Accepts exactly the well-formed definitions, and refuses the others for a rule they break |
| LifecycleDefinition.NameExactly | control_plane/db/lifecycle.py:443-483 | A name is 1 to 63 lower-case letters, digits and underscores, a letter first, and no secret |
| LifecycleDefinition.WellFormedExactly | control_plane/db/lifecycle.py:486-593 | The rules of a definition, each over its fields |
| LifecycleDefinition.PublishableExactly | control_plane/db/migrations/versions/0004_lifecycle_state_machines.py:650-832 | Publication asks for one initial state, edges between declared states that leave no terminal one, and eligible scopes |
| LifecycleDefinition.AcceptedIsPublishable | control_plane/db/migrations/versions/0004_lifecycle_state_machines.py:650-832 | Publication's own checks on the rows never refuse what validation accepted, and the rows read back as the definition |
| LifecycleDefinition.Catalogue.InsertStates | control_plane/db/lifecycle.py:609-616 | The version's states, terminals and initial state are those of the definition; other versions' rows stay |
| LifecycleDefinition.Catalogue.InsertEdges | control_plane/db/lifecycle.py:617-624 | The version's edges are those of the definition; other versions' rows stay |
| LifecycleDefinition.Catalogue.Register | control_plane/db/lifecycle.py:671-761 | Registers a definition exactly when it is well formed and its version new; then it is published as defined and no other version reads differently; otherwise nothing changes |
| LifecycleDb.Tables.CreateInstance | control_plane/db/migrations/versions/0004_lifecycle_state_machines.py:1450-1595 | The statements in order have the effect and the answer of `Create` |
| LifecycleAnswers.CreatesExactly | control_plane/db/migrations/versions/0004_lifecycle_state_machines.py:1450-1595 | An instance is created if and only if its machine is registered and the context has both the scope that machine asks for and the right to execute; otherwise the tables are unchanged, and the answer is undefined for an unregistered machine and denied for the rest |
| LifecycleAnswers.CreatedRows | control_plane/db/migrations/versions/0004_lifecycle_state_machines.py:1540-1595 | It starts in the initial state at revision 0 for the caller's tenant, with one audit event and one unlinked intent; no other table changes |
| LifecycleDb.Tables.Write | control_plane/db/migrations/versions/0004_lifecycle_state_machines.py:1881-2072 | The conditional update and its rows, in order, leave instance, history, audit, event, claim and provenance as the specification says |
| LifecycleDb.Tables.TransitionInstance | control_plane/db/migrations/versions/0004_lifecycle_state_machines.py:1597-2116 | One uninterrupted call has the effect and the answer of the composed steps |
| LifecycleAnswers.CallTellsExactly | control_plane/db/migrations/versions/0004_lifecycle_state_machines.py:1597-2116 | In every reachable state: what one uninterrupted call is told, check by check |
| LifecycleAnswers.CallWrites | control_plane/db/migrations/versions/0004_lifecycle_state_machines.py:1881-1999 | A call that does not move changes nothing; one that does moves its instance one revision on and adds one history row and one audit event about that move |
| LifecycleAnswers.CallLinks | control_plane/db/migrations/versions/0004_lifecycle_state_machines.py:2000-2072 | And one intent, linked to a claim and its provenance under a key, and to nothing without one |
| LifecycleAnswers.CallRuns | control_plane/db/migrations/versions/0004_lifecycle_state_machines.py:1597-2116 | From any state the statements of one call can all be run, and have that effect and that answer |
| LifecycleAnswers.EndsExactly | control_plane/db/migrations/versions/0004_lifecycle_state_machines.py:1881-2116 | In every reachable state, what a call past its checks comes to: the claim that took its key answers for it; else it moves if the row is still as described, and is the conflict if not |
| LifecycleKernel.TriggerAgrees | control_plane/db/migrations/versions/0004_lifecycle_state_machines.py:1384-1433 | The update trigger never refuses a move the function has let through |
| LifecycleKernel.ReplayOk | control_plane/db/migrations/versions/0004_lifecycle_state_machines.py:1161-1256 | A claimed key replays its recorded move or is refused for another request; its provenance always verifies |
| LifecycleKernel.MoveInstances | control_plane/db/migrations/versions/0004_lifecycle_state_machines.py:1881-1942 | An accepted move keeps every instance's path and counts |
| LifecycleKernel.MoveClaims | control_plane/db/migrations/versions/0004_lifecycle_state_machines.py:2000-2072 | An accepted move keeps claims, provenance, moves and events one to one |
| LifecycleKernel.MoveAnswers | control_plane/db/migrations/versions/0004_lifecycle_state_machines.py:1597-2116 | An accepted move keeps all answers true and one mover for each revision and key |
| LifecycleKernel.StepInv | control_plane/db/lifecycle.py:37-101 | Every statement of every call keeps the invariant |
| LifecycleKernel.StepGrows | control_plane/db/lifecycle.py:37-101 | Nothing recorded is lost or changed; an instance changes only with a new revision |
| LifecycleKernel.RunInv | control_plane/db/lifecycle.py:37-101 | Every run keeps the invariant and forgets nothing |
| LifecycleTheorems.PathMeaning | control_plane/db/lifecycle.py:1204-1220 | What the recursive path says of each row by its position |
| LifecycleTheorems.HistoryIsPath | control_plane/db/lifecycle.py:1204-1220 | In every run an instance's rows are revisions 1 to its revision, each once and in order, along declared edges from the initial state to the current one |
| LifecycleTheorems.OneWinner | control_plane/db/lifecycle.py:288-300 | Of the callers that presented a revision exactly one has moved the instance if it has left that revision, and none otherwise |
| LifecycleTheorems.StepInstance | control_plane/db/migrations/versions/0004_lifecycle_state_machines.py:1881-1890 | A step changes an instance only by the swap of a call that described its state and revision, along an edge that is allowed |
| LifecycleTheorems.StaleNeverMoves | control_plane/db/lifecycle.py:288-300 | In every reachable state a stale revision moves nothing, even when the state has come back around a cycle |
| LifecycleTheorems.TerminalAbsorbing | control_plane/db/models.py:1128-1132 | An instance in a terminal state is the same after every further run |
| LifecycleTheorems.AcceptedIsGraph | control_plane/db/lifecycle.py:486-593 | What validation accepts is a graph the kernel's invariant asks for |
| LifecycleTheorems.MovesExactly | control_plane/db/migrations/versions/0004_lifecycle_state_machines.py:1661-1905 | In every reachable state a call on its own moves if and only if it is authorised, well shaped, visible, describes the row, asks for an edge and brings a free key |
| LifecycleTheorems.KeyMovesOnce | control_plane/db/lifecycle.py:76-101 | One key of one machine version moves an instance at most once, and everybody answered under it was told that move |
| LifecycleTheorems.RetryReplays | control_plane/db/lifecycle.py:1136-1150 | After any further run the identical request replays the recorded move, wherever it looks, and changes nothing |
| LifecycleTheorems.ReuseRefused | control_plane/db/lifecycle.py:1136-1150 | Another request under a taken key is refused wherever it looks, and moves nothing |
| LifecycleTheorems.Conservation | control_plane/db/models.py:1289-1371 | In every run: history rows = revision, audit events = outbox intents = revision + 1, claims one to one with provenance, moves and events |
| LifecycleTheorems.NeverUnverifiable | control_plane/db/lifecycle.py:313-325 | No call is ever told that its claim has no verifiable move, or that the claim it collided with is missing |
| Json.InsertKeeps | control_plane/db/metadata.py:154-162 | Sorting a key in keeps the order and the mapping |
| Json.LessExactly | control_plane/db/metadata.py:154-162 | One key is before another where they first differ, or where it ends first |
| Json.CanonMeans | control_plane/db/metadata.py:154-162 | Sorting keys at every level keeps the document's meaning |
| Json.CanonSorted | control_plane/db/metadata.py:154-162 | And leaves every object in strictly increasing key order |
| Json.SortedUnique | control_plane/db/metadata.py:154-162 | There is one sorted document for each meaning |
| Json.CanonicalForm | control_plane/db/metadata.py:154-162 | Two documents have one canonical form if and only if they are the same mapping |
| JsonText.CharsBack | control_plane/db/metadata.py:154-162 | The escapes of a rendered string are read back, character by character (section 7 of RFC 8259) |
| JsonText.EscapeExactly | control_plane/db/metadata.py:154-162 | Only quotes, backslashes and control characters are escaped, in two characters where there is a short form and in six otherwise |
| JsonText.NumberBack | control_plane/db/metadata.py:154-162 | A rendered number is read back as the number it was (section 6 of RFC 8259) |
| JsonText.ValueBack | control_plane/db/metadata.py:154-162 | Any printable document is read back from its text, in front of any text that cannot belong to it |
| JsonText.MembersBack | control_plane/db/metadata.py:154-162 | And so are the members of an object, to the closing brace |
| JsonText.MembersForm | control_plane/db/metadata.py:154-162 | The rendering has no white space, and its members are in key order |
| JsonText.ItemsForm | control_plane/db/metadata.py:154-162 | The items of a list stay in their order |
| Metadata.CheckKey | control_plane/db/metadata.py:194-217 | Lets exactly the identifiers through that are not denied and do not look secret |
| Metadata.CheckScalar | control_plane/db/metadata.py:220-249 | Lets exactly the bounded, finite, non-secret scalars through |
| Metadata.CheckGiven | control_plane/db/metadata.py:264-278 | The loop accepts exactly the scalars and bounded flat lists of the policy, and a refusal is true of the position it names |
| Metadata.Validated | control_plane/db/metadata.py:252-283 | Accepts exactly the documents within the policy, stores each entry once and in order, and refuses the others for a rule they break where it says |
| Metadata.PolicyExactly | control_plane/db/metadata.py:79-147 | The policy, over keys and values: at most 32 entries, 16 items, 256 characters and 2048 bytes; flat; no denied or secret key and no secret text |
| Metadata.OutsideRefused | control_plane/db/metadata.py:96-147 | A document with a denied or secret key is refused whatever else it holds |
| Metadata.StoredAs | control_plane/db/metadata.py:220-249 | A UUID is stored as its text and every other value as it is |
| Metadata.Utf8Bytes | control_plane/db/metadata.py:279-281 | The bytes counted add up over the text |
| Metadata.Utf8One | control_plane/db/metadata.py:279-281 | A character counts one byte in ASCII, and two, three and four as the code points grow |
| Metadata.AcceptedProper | control_plane/db/metadata.py:252-283 | An accepted document has each key once and prints as JSON |
| Metadata.RenderingUndone | control_plane/db/metadata.py:154-171 | Parsing the rendering gives the same document with its keys sorted |
| Metadata.RenderingFaithful | control_plane/db/metadata.py:154-171 | Two documents render alike if and only if they are the same mapping |
| Metadata.AcceptedRoundTrip | control_plane/db/metadata.py:252-283 | Every entry that validation accepted is found again in the parsed rendering |
| Metadata.MaterialDetermines | control_plane/db/idempotency.py:403-413 | The hashed material is equal if and only if tenant, operation and identity are |
| IdentityMap.StepAgrees | control_plane/db/engine.py:486-523 | Every operation keeps each cached object loaded under the context the transaction has now, and answers nothing that context does not admit |
| IdentityMap.RunAgrees | control_plane/db/engine.py:486-523 | And so does every run |
| IdentityMap.NeverHidden | control_plane/db/auth.py:345-415 | In every run on one reused session no answer, cached or not, is a row the policy would hide from the transaction that asks |
| IdentityMap.AlwaysFound | control_plane/db/auth.py:345-415 | And in every run what the policy admits is answered: exactly when a query, and when a get, answers, and what |
| IdentityMap.AnsweredAgain | control_plane/db/engine.py:486-523 | What a query answered is what a get answers next |
| IdentityMap.CachedGetIsAdmitted | control_plane/db/engine.py:592-606 | What the map answers a query of the same transaction could answer |
| IdentityMap.KeyFallsBehind | control_plane/db/engine.py:486-523 | The key equals the context's tenant in a reachable state and not after the savepoint that ends next, where the cache is right all the same |
| IdentityMap.ContextFixed | control_plane/db/auth.py:345-385 | Nothing but the end of the transaction changes a context that is bound |
| IdentityMap.Session.NoteContextChange | control_plane/db/engine.py:592-606 | Empties the map and moves the key exactly when the value differs |
| IdentityMap.Session.ClearAtBoundary | control_plane/db/engine.py:486-523 | Empties the map and drops the key |
| IdentityMap.Session.Autobegin | control_plane/db/engine.py:662-692 | A transaction begun by anybody starts without a context |
| IdentityMap.Session.BeginTransaction | control_plane/db/engine.py:609-631 | The opened transaction has no context and no cache, and the agreement holds |
| IdentityMap.Session.BindContext | control_plane/db/auth.py:345-415 | Binds exactly inside an open, unaborted outer transaction without a context, once the server grants it; then the map is empty; a refusal by the server aborts the transaction |
| IdentityMap.Session.Query | control_plane/db/engine.py:486-523 | Finds a row exactly if the transaction is not aborted and the row is of the context's tenant and scopes; answers that row, or the object it holds for it already, and holds that afterwards; changes nothing else |
| IdentityMap.Session.GetById | control_plane/db/engine.py:486-523 | Answers what the map holds without the server, and otherwise exactly as a query does |
| IdentityMap.Session.BeginNested | control_plane/db/engine.py:403-430 | A savepoint keeps the agreement |
| IdentityMap.Session.EndNested | control_plane/db/engine.py:493-523 | The end of a savepoint clears map and key, and the agreement holds though the context stays |
| IdentityMap.Session.EndTransaction | control_plane/db/engine.py:493-523 | The end of the transaction leaves nothing for the next one |
| RoleCatalogue.StrippedClean | control_plane/db/roles.py:1198-1224 | Taking PUBLIC and then every listed grantee leaves an object to its owner, also when it started with default privileges |
| RoleCatalogue.RevokedMore | control_plane/db/roles.py:1182-1312 | One more revoke statement changes one object in the set-wise picture |
| RoleCatalogue.Catalogue.Revoke | control_plane/db/roles.py:1182-1312 | Succeeds exactly for the owner, and takes all of one grantee's privileges on the object and its columns |
| RoleCatalogue.Catalogue.RevokeAll | control_plane/db/roles.py:1198-1224 | The loop succeeds exactly when every object is the current role's, and then has revoked each pair in whatever order |
| RoleCatalogue.Catalogue.RevokeColumns | control_plane/db/roles.py:1226-1263 | The same for single columns |
| RoleWiring.GroupStripped | control_plane/db/roles.py:1187-1224 | After both loops of a group its objects are their owners' alone, and all others are untouched |
| RoleWiring.AllColumnsStripped | control_plane/db/roles.py:1226-1263 | After both column loops no column has a grantee but the owner |
| RoleWiring.StripGroup | control_plane/db/roles.py:1187-1224 | The two loops succeed exactly when the group's objects are the current role's, and then strip them |
| RoleWiring.Sanitize | control_plane/db/roles.py:1182-1312 | Goes through exactly when all it touches is the current role's; then everything but other owners' functions is its owner's alone, and those are as before |
| RoleWiring.GrantObjects | control_plane/db/roles.py:1388-1395 | The loop adds exactly the listed object privileges of the role |
| RoleWiring.GrantColumns | control_plane/db/roles.py:1396-1412 | The loop adds exactly the listed column privileges of the role |
| RoleWiring.GrantRole | control_plane/db/roles.py:1368-1434 | Adds USAGE on the schema and exactly the role's list, and takes nothing |
| RoleReconcile.Ledger | control_plane/testing/bootstrap.py:806-820 | One ACL through the whole sequence of statements ends with exactly the four roles' lists beside the owner |
| RoleReconcile.KeptObject | control_plane/testing/bootstrap.py:806-820 | An object the schema owner keeps ends with exactly the plan, on itself and on each column |
| RoleInstall.RevokeEverythingFrom | control_plane/db/roles.py:1659-1725 | The role holds nothing on the schema owner's objects any more, and nobody else has lost anything |
| RoleInstall.HandOver | control_plane/db/roles.py:1920-1950 | The pending entry points are the writer's, and the CREATE granted for it is gone again |
| RoleInstall.ResetOne | control_plane/db/roles.py:2005-2011 | The function ends with the application's EXECUTE alone beside its owner |
| RoleInstall.ResetEntryPoints | control_plane/db/roles.py:1990-2013 | Every entry point so, no other object touched, and the role reset |
| RoleInstall.RevokePublicTablePrivileges | control_plane/db/roles.py:1352-1365 | Exactly the plan's tables lose PUBLIC |
| RoleInstall.GrantRuntimeRoles | control_plane/testing/bootstrap.py:808-815 | Goes through exactly when all three lists are the current role's to grant, and adds the three lists |
| RoleInstall.HandToWriter | control_plane/db/roles.py:1897-1975 | Goes through exactly when each entry point is the owner's or the writer's and the writer owns nothing else |
| RoleInstall.EquipWriter | control_plane/db/roles.py:1977-2013 | The writer gets exactly its list, and the entry points their own ACL |
| RoleInstall.InstallLifecycleWriter | control_plane/db/roles.py:1827-2023 | The whole installation, with its exact condition |
| RoleTheorems.Harden | control_plane/db/roles.py:1328-1365 | Hardening with its exact condition |
| RoleTheorems.GrantAndInstall | control_plane/testing/bootstrap.py:808-820 | The grants and the installation with their exact condition |
| RoleTheorems.Wire | control_plane/testing/bootstrap.py:787-820 | From any catalogue the wiring goes through if and only if the current role owns what it must change; then every object is as planned, and otherwise everything is as before |
| RoleTheorems.ReachesPlan | control_plane/db/roles.py:1265-1287 | Privileges end up exactly the plan if and only if no function of a third owner had grants to begin with |
| RoleTheorems.TargetExactly | control_plane/db/roles.py:1368-1434 | The plan, entry by entry: EXECUTE for the application on an entry point, and elsewhere what the four lists name, with USAGE on the schema |
| RoleTheorems.TargetOnExactly | control_plane/db/roles.py:1396-1412 | And column by column |
| RoleTheorems.DefaultExactly | control_plane/db/roles.py:1198-1224 | An object nobody has touched lets PUBLIC execute a function and use a type, and nobody do anything else |
| RoleTheorems.WireableExactly | control_plane/db/roles.py:1827-2023 | What the current role has to own for the wiring to go through |
| RoleTheorems.ForeignFunctionStays | control_plane/db/roles.py:1265-1287 | A catalogue with a third owner's function that nobody has touched is in order, is wired, and never ends in the plan: PUBLIC may still execute the function |
| RoleTheorems.SecondRunChangesNothing | control_plane/db/roles.py:1897-2013 | A wired catalogue can be wired again, ownership hand-over included, and nobody's privileges or ownership change |
| Redaction.WithinPiece | scripts/sanitize-secrets.py:81-82 | An occurrence of a sturdy secret in a starred text lies within one piece that was kept |
| Redaction.NeverBack | scripts/sanitize-secrets.py:81-85 | Cutting a text and starring the cuts brings in no sturdy secret |
| Redaction.ReplaceCuts | scripts/sanitize-secrets.py:82 | Replacing a literal is such a cut, leaves no occurrence of a sturdy secret, and nothing to do leaves the text alone |
| Redaction.ReplacesOnly | scripts/sanitize-secrets.py:82 | Text and result are the same pieces, joined by the secret and by the mark: nothing else of the text changes |
| Redaction.StarOutCuts | scripts/sanitize-secrets.py:83-85 | A pattern substitution is such a cut, whatever spans it finds |
| Redaction.StarsOnly | scripts/sanitize-secrets.py:83-85 | The same of a pattern substitution and the spans it matched |
| Redaction.ScrubbedClean | control_plane/config.py:292-302 | No sturdy secret of the list is left, in any order, and none is gained |
| Redaction.ScrubbedOnce | control_plane/config.py:292-302 | Scrubbing what holds no secret changes nothing |
| Redaction.ScrubSecrets | control_plane/config.py:292-302 | The loop leaves no sturdy secret, and a second call changes nothing if all are sturdy |
| Redaction.LiteralPass | scripts/sanitize-secrets.py:81-82 | The distinct non-empty secrets are replaced, each once, longest first |
| Redaction.WholeFirst | scripts/sanitize-secrets.py:81-82 | A secret that holds another, as a URL holds its password, is replaced first |
| Redaction.StarredClean | scripts/sanitize-secrets.py:83-85 | No number of pattern passes puts back a sturdy secret that was gone |
| Redaction.PatternPass | scripts/sanitize-secrets.py:83-85 | Each pattern is applied to what the last one left, and none puts back a sturdy secret that was gone |
| Redaction.Sanitize | scripts/sanitize-secrets.py:72-86 | Literals longest first, then the patterns in turn; no sturdy secret is left, of any length and in any overlap, and none appears that was not there |
| Redaction.StarFreeIsSturdy | scripts/sanitize-secrets.py:48 | Non-empty secrets without a star are sturdy |
| Redaction.BroughtBack | scripts/sanitize-secrets.py:81-82 | For any other secret of two or more characters, redacting one character out of some text that never held it brings it back |
| Redaction.GoneExactly | scripts/sanitize-secrets.py:72-86 | A secret (that leaves some character unused) is gone from everything `scrub_secrets` returns, and from everything `sanitize` returns under any patterns, if and only if it is sturdy |
| UrlText.QuoteBack | control_plane/config.py:382-407 | Decoding once what was percent-encoded gives the bytes back (section 2.1 of RFC 3986) |
| UrlText.QuotePlusBack | control_plane/config.py:571-582 | And so for the query's encoding, where a space is a plus |
| UrlText.QuoteJoins | control_plane/config.py:382-407 | Encoding goes byte by byte |
| UrlText.QuotesByte | control_plane/config.py:382-407 | An unreserved or safe byte stays; any other becomes a percent sign and its two digits in upper case (section 2.1 of RFC 3986) |
| UrlText.QuotesPlus | control_plane/config.py:382-407 | In a query a space becomes a plus sign, and nothing but the unreserved is left as it is |
| UrlText.LowersByte | control_plane/config.py:571-582 | Folding a name changes its capitals and nothing else |
| UrlText.QuoteWellFormed | control_plane/config.py:462-465 | Nothing that was encoded has a malformed escape |
| UrlText.UnreservedBack | control_plane/config.py:641 | Unreserved text decodes to itself |
| UrlText.SplitsBack | control_plane/config.py:606-614 | A URL assembled from clean parts splits into those parts |
| ConnectionUrl.DecodeQuery | control_plane/config.py:571-582 | The loop fills the dictionary of decoded, folded keys in order, and stops at a repeated one |
| ConnectionUrl.StaysRepeated | control_plane/config.py:575-580 | A repeated key is an error whatever follows |
| ConnectionPolicy.FoldedExactly | control_plane/config.py:571-582 | The parameters are taken exactly when no two have one name, stripped and in lower case |
| ConnectionPolicy.KeysExactly | control_plane/config.py:618-636 | And let through exactly when every one of them is on the list of what cannot reroute the connection |
| ConnectionPolicy.EndpointExactly | control_plane/config.py:503-549 | There is an endpoint exactly when there is one: a host and port in the authority and none in the query, or a directory and port in the query and none in the authority |
| ConnectionPolicy.AcceptsExactly | control_plane/config.py:597-733 | A URL is accepted if and only if its scheme is one of three, its parameters are allowed and distinct, and it names one database, one user and one endpoint; every other URL is refused |
| ConnectionPolicy.ForbiddenRefused | control_plane/config.py:618-636 | A URL with any other parameter is refused, however its name is written |
| ConnectionPolicy.AcceptedSays | control_plane/config.py:597-733 | Each field of an accepted connection is the named part of the URL, decoded once, and a socket's directory twice |
| ConnectionPolicy.OptionsExactly | control_plane/config.py:715-733 | Its options are exactly the parameters given, but for the endpoint |
| ConnectionPolicy.PrintsAs | control_plane/config.py:382-407 | What is printed names the driver, authority, database and parameters, in this order |
| ConnectionPolicy.AuthorityPrintsAs | control_plane/config.py:382-407 | The authority is the encoded user and password, and a TCP connection's host and port, an address with colons in brackets |
| ConnectionRoundTrip.SortedAscends | control_plane/config.py:722 | Sorting distinct options keeps them all, in strictly increasing key order |
| ConnectionRoundTrip.QueryBack | control_plane/config.py:382-407 | The rendered query is read back as the parameters it was made of |
| ConnectionRoundTrip.FoldedBack | control_plane/config.py:571-582 | Plain distinct keys fold to themselves |
| ConnectionRoundTrip.AuthorityBack | control_plane/config.py:382-407 | The rendered authority splits into the encoded user information, the host and the port |
| ConnectionRoundTrip.SoundBack | control_plane/config.py:597-733 | A sound TCP specification is parsed from its rendering |
| ConnectionRoundTrip.AcceptedSound | control_plane/config.py:597-733 | Every accepted TCP specification with an unreserved database name and no zone can be printed and read back: its parts are plain, its options sorted and on the list |
| ConnectionRoundTrip.UrlRoundTrip | control_plane/config.py:382-407 | For every such URL that is accepted, parsing the rendering gives the same specification: each field is decoded exactly once |
| ConnectionSocket.SocketBack | control_plane/config.py:552-568 | The rendering of a socket specification parses to the one whose directory is decoded once more, or is refused if that is no directory |
| ConnectionSocket.SocketRoundTripExactly | control_plane/config.py:552-568 | An accepted socket connection is parsed from its rendering again if and only if decoding its directory changes nothing |
| ConnectionSocket.ReadAsAnother | control_plane/config.py:552-568 | A directory that two decodings take apart is accepted and then read as another |
| ConnectionSocket.DirectoryDecodedTwice | control_plane/config.py:552-568 | There is one, with any user, database, port and options: `/%2541` |

## Left out

Leases and fleet:
- One job is modelled; a shard is named by its idx, and its trail is the part of the events table about it.
- LeaseProtocol.StepInv: the lease extension after a chunk is a step of its own, and a granted claim may reach its worker late or again; both are more behaviour than the code has.
- LeaseCancellation.CancelHolds: a worker keeps working, and an answer on its way may arrive, for as long after the cancel as it likes; its heartbeat tells it to stop at some time, which is a leaving. A grant that may still reach its worker late or again counts as on its way.
- LeaseProgress.RunningHolds: while the job runs a new worker can always come, and a message that was sent can arrive once more, as by a retry, and be counted again.
- LeaseRecovery.Recover: a late claim runs to its end when it arrives; controller kills, which would only free leases, and a cancel are not among the arrivals.
- Fleet.Tick: the tick runs uninterrupted, so who holds a lease is what the sort saw; a worker that claims between the sort and its kill can be released while an idle one stays. The switch to non-preemptible machines and the provider's own kill calls are not modelled; rates are reals and clocks integers, so rounding is not.
- The engine and the acceptor are any functions of the prompt and the output; the label, key and emptiness acceptors are instances.

Idempotent mutations:
- IdempotencySession.Session.Execute: name, key and metadata checks are booleans (the last is `Metadata.Validated`), and a mutation that rolls back through the real session is not modelled.
- IdempotencyModel rows form an append-only log; SHA-256 is taken to be injective and identifiers to be fresh.

Lifecycle:
- LifecycleKernel.StepInv: a call's writes take effect when it commits, since its row locks hold off others until then; calls interleave between their statements. Only published machines are in the kernel; drafts are in `LifecycleDefinition.Catalogue`.
- LifecycleDb.Tables.CreateInstance: a badly shaped machine key or version is refused as one that is not registered.
- LifecycleDb.Tables.TransitionInstance: the shape checks of the text arguments are one boolean; timestamps, actors, event attributes, deletes and their cascades are not modelled.

Metadata:
- Metadata.Validated: lone surrogates and integers of more than 4300 digits, on which other exceptions are raised, are not modelled; a float is the text it renders as; what looks like a secret is any predicate.

Identity map:
- IdentityMap.NeverHidden: sessions that are not hardened or are bound to a connection, raw SQL that binds a context, refresh and expiry are not modelled.

Roles:
- RoleCatalogue.Catalogue.Revoke: succeeds for the owner and is refused to everybody else; PostgreSQL lets a role that holds some privilege on another owner's object go on with a warning, having revoked nothing.
- RoleWiring.Sanitize: inherits that reading, so a catalogue it refuses is one the code may pass over with warnings and leave unstripped.
- RoleTheorems.Wire: inherits it too; grant options, TEMPORARY and the public schema, role attributes and memberships, and the lookup of a revision's plan are not modelled; only an object's owner may grant on it, and the writer is none of the login roles.

Strings:
- Redaction.Sanitize: a pattern is any function from a text to spans of it, not a regular expression, so what the three patterns match is not proved.
- ConnectionUrl: whether bytes are UTF-8 and whether a text is an IP address are asked of an oracle; strings are read as their bytes. Bracketed-host validation, signs and underscores in a socket's port, lower-casing beyond ASCII, query values that are not UTF-8, and the re-check against SQLAlchemy's own parser (control_plane/config.py:736-788) are not modelled.
- ConnectionRoundTrip.UrlRoundTrip: excludes database names with reserved characters and IPv6 zones, which the printer does not encode, and is about the parser without its last re-check.

Not modelled at all:
- HTTP servers and routing, provider adapters, subprocesses, vLLM.
- The identity, membership, credential and preference SQL and its wrappers; principal and identity checks.
- Ledger rounding, the key-derivation semaphore, body limits, settings, the portal, Terraform and command lines.
