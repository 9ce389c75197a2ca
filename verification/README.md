# A verified model of the bundler

The bundler accepts ERC-4337 UserOperations, keeps them in a mempool, judges their validation traces, estimates their
gas and submits them in batches. This project models the parts of it where correctness depends on whole runs: every call
tree, every interleaving, every order of map iteration, every answer a node may give.

| file | what it models |
|---|---|
| `ExecutionTracer.dfy` | the execution gas tracer: a table indexed by call depth, and the recursion over the call tree that it computes |
| `GasReplay.dfy` | what that gas limit is for: replaying the traced frames under the all-but-one-64th rule of EIP-150 |
| `GasEstimator.dfy` | the two binary searches and the bounded retry, against a node whose answers may change with every request |
| `Text.dfy`, `UserOps.dfy` | number, byte, address and key texts; the JSON form of an operation and its decoder |
| `Mempool.dfy` | database, arrival sets and sender sets, and the pooled objects they share, over whole runs with restarts |
| `Admission.dfy` | the read, check, add sequence of `eth_sendUserOperation` as an interleaved state machine |
| `Batch.dfy`, `Bundler.dfy`, `Relay.dfy` | the batch handlers, one bundler run for every sequence of handler effects, and what the relayer sends of it |
| `StorageRules.dfy`, `TraceValidation.dfy` | the verdict on a validation trace, for every order of map iteration |
| `Collector.dfy`, `CallStack.dfy`, `Logs.dfy` | the one-pass validation tracer, the call/return matcher, and logs as both tracers read them |
| `Verdict.dfy` | tracer and judgement together: the verdict on a raw trace |
| `Overhead.dfy`, `Fees.dfy`, `Reputation.dfy` | pre-verification gas, base-fee projection and fee caps, paymaster reputation |

Node answers, clocks, hashes, address checksums, stake lookups and database failures are parameters, so each statement
holds whatever they are. Numbers are unbounded integers; where a width matters it is written out (`Mempool.Int64`,
`GasEstimator.TriedWithinInt64`).

Where the code and its documentation differ, the model follows the code and states the difference:

- The execution tracer books a callee that executes no step at its caller's depth. Without such callees its limit is
  exactly the requirement of the call tree, and it still suffices if those that use gas, the precompiles, are called only
  by the execution frames themselves (`GasReplay.LimitReplays`). If they are called further down it can be too low. `GasReplay.LimitReplaysIff` says exactly when: the limit of a
  trace replays if and only if it covers `GasReplay.Need` of its neediest execution frame.
  `GasReplay.PrecompileUnderbooked` works this out for a precompile two calls down: always enough up to 6078 gas, never
  from 9924 gas on.
- With a maximum gas limit below 30000 the estimator returns zeros and no error without asking the node
  (`GasEstimator.EstimateSoundIff`).
- `Dump` is documented as arrival order. `Mempool.DumpIsFifoIff` says exactly when that holds, over every run of the
  pool: each operation must have got its score from a smaller arrival set than the next, or from an equally large one
  with a smaller key. Runs that only add fresh keys always satisfy it (`Mempool.FreshArrivalsAreFifo`); a removal or a
  replacement makes two operations tie (`Mempool.RemovalBreaksFifo`, `Mempool.ReplacementBreaksFifo`).
- The batch holds the pooled objects themselves. A run that ends in an error after the solver wrote into one leaves the
  pool's keys and records as they were but not its operations (`Bundler.Process`, `Bundler.FailedRunDiverges`). The record
  of a pooled operation reads back as that operation if and only if nothing else was written into it since it was added
  or reloaded (`Mempool.RunReadsBackIff`), and a restart brings the recorded one back (`Mempool.StepShows`).
- The bundler removes its final batch as if all of it had been sent. That is so if and only if the batch left does not mix
  conventional operations with solved intents, its solved intents were handed over without an error, and it holds no
  intent whose validation fails (`Relay.RemovedWereSentIff`).
- The cap on pending operations of an unstaked sender is exceeded by up to the number of overlapping calls less one
  (`Admission.PoolBounded`, reached by `Admission.BoundIsReached`). Pooled operations are only ever outbid, and no fee of
  one falls, if and only if calls do not overlap and the solver keeps the fees of what it rewrites
  (`Admission.FairIff`).
- A replacement is said to need a fee increase of ten percent. It does if and only if both fees replaced are multiples of
  10 (`Admission.TenPercentIff`), and below a fee of 10 it needs none (`Admission.ThresholdRaises`).
- The fee cap of a bundle covers base fee and suggested tip in each target block, but the transaction carries the tip cap.
  `Fees.FeeCapPaysTipCapIff` says exactly when it covers that too; a batch of operations whose two fees are equal and high
  never does (`Fees.EqualFeesPayNoBaseFee`).
- The expiry handler never forgets a hash, so an operation that is removed and sent again later than the time to live is
  dropped from the first batch that holds it (`Batch.ExpiredOverRuns`).
- The paymaster deposit check marks operations in ascending order while the batch shrinks, so its m-th mark, from 0,
  hits the operation m places above the one meant (`Batch.UpwardMarksShift`). It keeps exactly the operations it should
  if and only if at most one overdraws (`Batch.DepositCheckIff`).
- Reputation decays by the hour only between two touches of a record: every touch throws the seconds past the last whole
  hour away (`Reputation.NoMoreThanHours`), and a record decays at all if and only if it is once left alone for an hour
  (`Reputation.NoStepIff`). One that is not is a plain count (`Reputation.BusyNeverDecays`).

## Model

| member | source | states |
|---|---|---|
| ExecutionTracer.Tracer.constructor | pkg/tracer/BundlerExecutionTracer.js:1-12 | a new tracer is in the initial state: depth and marker 0, no gas item set, no failure recorded |
| ExecutionTracer.Tracer.Enter | pkg/tracer/BundlerExecutionTracer.js:60-66 | entering a frame during execution defines the gas item one depth below the last step, keeping one that exists, and changes nothing else |
| ExecutionTracer.Tracer.Exit | pkg/tracer/BundlerExecutionTracer.js:67-100 | an exit settles its frame against the item below it, resets that item and reports the new requirement; it fails exactly when it would dereference an unset item |
| ExecutionTracer.Tracer.Step | pkg/tracer/BundlerExecutionTracer.js:102-119 | a step moves the depth, advances the marker on a depth-1 NUMBER, keeps a UserOperationEvent logged at depth 1 or 2, and records gas shortages in the phase they fall in |
| ExecutionTracer.Tracer.TraceCall | pkg/tracer/BundlerExecutionTracer.js:60-119 | fed the events of any call tree, the tracer never fails; its limit is the recursive booking of the depth-2 frames of the execution phase, and its reverts, shortage flags and event are those of the tree and of its flat events |
| ExecutionTracer.FlatRun | pkg/tracer/BundlerExecutionTracer.js:16-25 | for every stream of events: validation ran short if and only if a step with less gas than its cost follows one or two depth-1 NUMBER steps, itself included, and execution if one follows exactly three; the reverts are the outputs of the frames that fail after exactly three, and the event is the last UserOperationEvent logged at depth 1 or 2 |
| ExecutionTracer.TopRun | pkg/tracer/BundlerExecutionTracer.js:60-105 | for every call tree and any state between two depth-1 steps, the depth-indexed table with its resets equals the recursion over the tree; no frame straddles a marker change |
| ExecutionTracer.FrameRun | pkg/tracer/BundlerExecutionTracer.js:67-98 | one frame adds exactly its own booking to the item of its depth, leaves every shallower item alone and every deeper item empty |
| ExecutionTracer.IdleRun | pkg/tracer/BundlerExecutionTracer.js:16-25 | outside the execution phase a deep frame books nothing, records no revert and cannot move the marker |
| ExecutionTracer.RunBodyIsRun | pkg/tracer/BundlerExecutionTracer.js:60-119 | running a tree's flat event stream is running the tree |
| ExecutionTracer.EventRun | pkg/tracer/BundlerExecutionTracer.js:102-112 | in every phase, whatever the calls in between, the event kept is the last UserOperationEvent that the tree emits at depth 1 or 2 |
| Logs.EmitIs | pkg/tracer/BundlerExecutionTracer.js:32-46 | LOG0 to LOG4 emit that many topics |
| GasReplay.BookedIsRequired | pkg/tracer/BundlerExecutionTracer.js:86-97 | where every callee executes a step, the table books used gas and used - sum(child used) + ceil(64 * sum(child required) / 63) |
| GasReplay.BookedCovers | pkg/tracer/BundlerExecutionTracer.js:73-97 | stepless callees that use no gas can only raise the booked requirement |
| GasReplay.FrameReplays | pkg/tracer/BundlerExecutionTracer.js:91-97 | a frame given its requirement, forwarding all but one 64th at each call, ends with the gas it was given less the gas it used, and no frame below it runs out |
| GasReplay.ReplaysExactly | pkg/tracer/BundlerExecutionTracer.js:91-97 | a body replays if and only if it is given at least the gas it needs, where each callee must be forwardable under the all-but-one-64th rule, and then leaves exactly what its frames did not use |
| GasReplay.RequiredCoversNeed | pkg/tracer/BundlerExecutionTracer.js:91-97 | the requirement used - sum(child used) + ceil(64 * sum(child required) / 63) is never below that need |
| GasReplay.LimitReplaysIff | pkg/tracer/BundlerExecutionTracer.js:67-97 | for every trace, with or without precompiles: the reported limit replays each execution frame if and only if it is at least the largest need among them |
| GasReplay.DirectCovers | pkg/tracer/BundlerExecutionTracer.js:73-97 | a frame that calls precompiles only directly is booked at least its requirement, because each is booked twice |
| GasReplay.LimitReplays | pkg/tracer/BundlerExecutionTracer.js:96-97 | where precompiles are called only by the execution frames themselves the reported limit always replays each of them |
| GasReplay.PrecompileUnderbooked | pkg/tracer/BundlerExecutionTracer.js:73-97 | a trace whose only work is a precompile two calls down replays on its own limit if and only if the double count of the precompile makes up for the lost level: for all gas up to 6078, for none from 9924 on |
| GasEstimator.Search | pkg/gas/estimate.go:93-130 | the search loop, used for both limits, computes the recursive bisection with its last accepted value, last error and request count |
| GasEstimator.BisectSound | pkg/gas/estimate.go:97-130 | for every node: a value found was accepted during this search and lies in the interval, a search that finds nothing ends on an error, and the requests are at most the halvings of the interval |
| GasEstimator.BisectInWindow | pkg/gas/estimate.go:93-133 | against a node out of gas below lo, accepting up to hi and wanting prefund above, the search ends in [lo, lo + 30000] whenever it finds a value, and finds one when the window is at least 30000 wide and below the limit |
| GasEstimator.FoundIff | pkg/gas/estimate.go:93-133 | against such a node a value is found if and only if some point of the halving of the whole interval lies in the window |
| GasEstimator.NarrowWindowMissed | pkg/gas/estimate.go:93-133 | a window of any width below 30000 can be missed |
| GasEstimator.EstimateGas | pkg/gas/estimate.go:80-233 | the estimate with its searches, buffer, one-shot check, fallback and retry equals the recursive specification |
| GasEstimator.RetryEstimateGas | pkg/gas/estimate.go:61-76 | a validation gas shortage is retried at the failed limit while attempts remain, and any other error is returned |
| GasEstimator.AttemptIsSound | pkg/gas/estimate.go:80-233 | for every node: a pair returned without error had its full-fee trace accepted in this call, at most eight limits are tried, each a quarter above the last, only the first attempt searches for a verification limit, and requests are bounded |
| GasEstimator.CallGasIsMeasured | pkg/gas/estimate.go:137-231 | for every node: the call gas returned is the gas that a zero-fee trace at the returned limit used, but at least 12100; or, if the full-fee trace with that ran short of call gas, a larger value up to the maximum that a later full-fee trace accepted |
| GasEstimator.LimitsAreExplained | pkg/gas/estimate.go:93-134 | for every node: the first limit traced is a quarter above one the node accepted in the search, and each further one a quarter above a limit whose trace ran short of validation gas |
| GasEstimator.FailuresAreAnswered | pkg/gas/estimate.go:61-233 | for every node: an error returned is one the node gave in this call, and comes with two zeros |
| GasEstimator.ShortTraceIsRetriedIff | pkg/gas/estimate.go:61-76 | a failed zero-fee trace is repeated a quarter higher if and only if it ran short of validation gas and fewer than seven retries were made; any other error is returned |
| GasEstimator.EstimateSoundIff | pkg/gas/estimate.go:97-133 | a caller's error-free result is an accepted pair if and only if the configured maximum is at least 30000 |
| GasEstimator.TriedWithinInt64 | pkg/gas/estimate.go:134 | every limit tried is at most max * (5/4)^8, so the buffer multiplication fits 64 bits for maxima up to 10^16 |
| GasEstimator.EstimateInWindow | pkg/gas/estimate.go:93-135 | against a window at least 30000 wide, the first traced limit is the buffered lower end to within the cutoff |
| Text.SplitUndoesJoin | internal/dbutils/utils.go:7-13 | splitting joined values gives them back when none holds a separator |
| Text.AddressReadsBack | pkg/userop/parse.go:32-34 | the address decoder inverts the address text under any checksum casing |
| Text.AddressPrefixes | pkg/userop/parse.go:32-34 | the prefix is optional in either case, and an odd digit is padded in front |
| Text.LastFortyCount | pkg/userop/parse.go:32-34 | only the last forty digits count |
| Text.BigReadsBack | pkg/userop/parse.go:37-44 | the integer decoder inverts the minimal hex text of every number |
| Text.BigTextsRead | pkg/userop/parse.go:37-44 | it reads every number from its decimal text, and from its digits in base 16, 8 or 2 after the prefix of that base, with a sign or without |
| Text.BytesReadBack | pkg/userop/parse.go:56-67 | the byte decoder inverts the hex text of every byte string |
| Text.BytesReadIff | pkg/userop/parse.go:56-67 | it accepts a text if and only if that is the prefix followed by two hex digits for each byte, in either case |
| Text.EncodedLower | pkg/userop/object.go:187-227 | numbers and byte strings are written in lower case |
| UserOps.NewIff | pkg/userop/parse.go:91-120 | an object decodes to an operation if and only if the operation has a sender and every field is read from the member of its name |
| UserOps.NewFault | pkg/userop/parse.go:91-120 | a refused object has the fault its error names: a member missing, of the wrong form, negative, or the zero sender |
| UserOps.EntitiesAre | pkg/userop/object.go:56-73 | factory and paymaster are the first twenty bytes of their data, and zero when it is shorter |
| UserOps.PaymasterTriples | pkg/userop/object.go:75-94 | the most gas an operation may be charged for is the sum of its three figures, with the verification limit three times over if it names a paymaster; the prefund is that times its maximum fee |
| UserOps.NewUndoesToMap | pkg/userop/object.go:187-227 | every operation with a sender is read back from its own JSON object |
| UserOps.NewUndoesEncoding | pkg/userop/parse.go:91-120 | any object holding the encodings of an operation's fields decodes to it, whatever else it holds |
| UserOps.StoredFormIsStable | pkg/mempool/db.go:28-40 | whatever object an operation was first read from, its stored form reads back as the same operation |
| Mempool.KeyInjective | pkg/mempool/db.go:17-21 | keys are injective in EntryPoint, sender and nonce |
| Mempool.KeyHoldsEntryPoint | pkg/mempool/db.go:23-26 | the EntryPoint is read back from the key |
| Mempool.KeyText | pkg/mempool/db.go:17-21 | a key is the prefix, both addresses and the decimal nonce, joined by colons |
| Mempool.KeyReads | pkg/mempool/db.go:23-26 | the EntryPoint of a key is the second of its parts |
| Mempool.StepShows | pkg/mempool/instance.go:56-106 | each action, and each write to a pooled object, acts on the recorded and the held operations as its name says and keeps their keys the same; a restart always succeeds and holds what was recorded |
| Mempool.OverwriteShows | pkg/modules/solution/solveintents.go:132-143 | writing to a pooled object changes what both sets show under its key, keeps its place in them, and leaves every record alone |
| Mempool.RunShows | pkg/mempool/instance.go:20-106 | after every run of adds, replacements, removals, lookups, clears, restarts and writes to pooled objects, database and sets show what the same run makes of the operations recorded and held at first |
| Mempool.RunReadsBackIff | pkg/mempool/db.go:28-71 | for every run: the record of a pooled operation reads back as that operation if and only if nothing else was written into it since it was last added or reloaded |
| Mempool.ViewsAgree | pkg/mempool/queue.go:11-48 | sender sets are disjoint, their union is the arrival set, that is the set of database keys naming the EntryPoint, and each operation sits under its own key |
| Mempool.LoadShows | pkg/mempool/db.go:42-71 | rebuilding the queues from the records, in any order of keys, shows exactly the recorded operations |
| Mempool.Instance.constructor | pkg/mempool/instance.go:20-28 | opening a database shows the operations it holds, whatever order they arrived in |
| Mempool.Instance.AddOp | pkg/mempool/instance.go:56-71 | adds the operation under its key or replaces the one there, in all views, unless the database refuses |
| Mempool.Instance.RemoveOps | pkg/mempool/instance.go:74-91 | removes exactly the keys of the given operations, in all views, unless the database refuses |
| Mempool.Instance.GetOps | pkg/mempool/queue.go:50-60 | lists exactly the sender's operations once each, by falling 64-bit nonce, which is falling nonce if all of them fit 63 bits |
| Mempool.Int64Is | pkg/mempool/queue.go:47 | the rank of a nonce is the signed 64-bit number that differs from it by a multiple of 2^64 |
| Mempool.Instance.Dump | pkg/mempool/queue.go:62-71 | lists exactly the EntryPoint's operations once each, in rank order, which is arrival order if and only if the sizes of the arrival set climb along it |
| Mempool.Instance.Clear | pkg/mempool/instance.go:99-106 | empties all views, unless the database refuses |
| Mempool.Instance.Overwrite | pkg/modules/solution/solveintents.go:132-143 | a write to a pooled object shows in both sets and in no record |
| Mempool.DeleteRecords | pkg/mempool/instance.go:75-84 | deletes the keys of all given operations from the database |
| Mempool.DeleteNodes | pkg/mempool/queue.go:73-81 | removes each given operation from the arrival set and its sender set, one after another |
| Mempool.StepRecords | pkg/mempool/queue.go:41-48 | after every add, replacement, removal, lookup, clear and restart the score of each pooled operation is the size its arrival set had when the operation was last added or reloaded |
| Mempool.DumpIsFifoIff | pkg/mempool/instance.go:93-96 | for every run: the dump is in arrival order if and only if those sizes climb along the arrival order, ties broken by key |
| Mempool.FreshArrivalsAreFifo | pkg/mempool/queue.go:46 | a run that only adds fresh keys is dumped in the order of its adds |
| Mempool.RemovalBreaksFifo | pkg/mempool/queue.go:46 | after add a, add b, remove a, add c the dump is b, c if and only if the key of b is the smaller |
| Mempool.ReplacementBreaksFifo | pkg/mempool/queue.go:46 | after add a, replace a, add b the dump is a, b if and only if the key of a is the smaller |
| Admission.ThresholdRaises | pkg/modules/checks/pendingops.go:12-23 | the replacement threshold is the tenth-raised fee rounded down: a full tenth exactly for multiples of 10, and higher at all exactly from a fee of 10 on |
| Admission.TenPercentIff | pkg/modules/checks/pendingops.go:49-57 | every operation let through as a replacement raises both fees by ten percent if and only if both fees replaced are multiples of 10 |
| Admission.ValidatePendingOps | pkg/modules/checks/pendingops.go:30-66 | a failed stake lookup is an error; Underpriced if and only if the last pending operation with the nonce is not outbid by eleven tenths, rounded down, in both fees; TooManyPending if and only if the sender is unstaked, brings a new nonce and has as many pending as the cap, and at least one; everything else passes |
| Admission.StepKeepsBound | pkg/client/client.go:129-147 | every read, commit, abandon, removal or rewrite keeps the pooled nonces and those of calls that may yet be let through within max(1, cap) - 1 + k |
| Admission.RunKeepsBound | pkg/client/client.go:129-147 | the bound holds along every interleaving with at most k overlapping calls |
| Admission.PoolBounded | pkg/modules/checks/pendingops.go:41-64 | from an empty pool the sender's pooled nonces, with those of calls that may yet be let through, never exceed max(1, cap) - 1 + k |
| Admission.BoundIsReached | pkg/client/client.go:129-147 | for every cap and k some interleaving fills the pool to exactly that bound |
| Admission.SerialStepReprices | pkg/modules/checks/pendingops.go:49-57 | without overlap, and while the solver keeps fees, each step replaces a pooled operation only by one that outbids it and lowers no fee |
| Admission.SerialRunReprices | pkg/client/client.go:129-147 | so does every step of every run without overlap |
| Admission.SerialFeesHold | pkg/modules/checks/pendingops.go:49-57 | over every such run neither fee of a nonce that stays pooled ever falls |
| Admission.FairIff | pkg/client/client.go:129-147 | every run from an empty pool only replaces by outbidding and lowers no pooled fee if and only if at most one call is in flight at a time and the solver keeps fees |
| Admission.OverlapUndercuts | pkg/client/client.go:129-147 | for every limit of two or more overlapping calls a run replaces a pooled operation by a cheaper one |
| Admission.RewriteUndercuts | pkg/modules/solution/solveintents.go:132-143 | with no call in flight at all the solver can lower a pooled fee |
| Batch.Context.MarkOpIndexForRemoval | pkg/modules/context.go:53-69 | moves the operation at an index to the pending removals and nothing when there is none |
| Batch.Context.constructor | pkg/modules/context.go:28-49 | a new context holds the batch and no pending removal |
| Batch.ExpireHandler.constructor | pkg/modules/expire/expire.go:17-22 | a new handler has seen nothing |
| Batch.ExpireHandler.DropExpired | pkg/modules/expire/expire.go:26-39 | moves exactly the expired operations, keeps the others in order, and remembers when each hash was first seen |
| Batch.ExpiredMeans | pkg/modules/expire/expire.go:30-36 | an operation expires when an earlier run saw its hash longer ago than the time to live; an unseen one only against the last operation of equal hash in the same batch |
| Batch.ExpiredOverRuns | pkg/modules/expire/expire.go:11-39 | over every sequence of runs an operation expires exactly when the first sighting of its hash, in any run since the handler was made, is longer ago than the time to live |
| Batch.CodeHashes | pkg/modules/checks/standalone.go:153-181 | moves exactly the non-intent operations whose code changed, and succeeds exactly when every lookup it needs does |
| Batch.ChangedMeans | pkg/modules/checks/standalone.go:157-178 | the handler drops an operation exactly when it is no intent and its code changed |
| Batch.MidsweepStep | pkg/modules/context.go:53-69 | in a downward loop marking index i acts on the original operation i, although the batch was rebuilt at every removal |
| Batch.SweptConserves | pkg/modules/expire/expire.go:28-37 | the multiset of batch and newly pending operations is the original batch |
| Batch.SweptSelects | pkg/modules/checks/standalone.go:157-178 | a sweep moves an operation if and only if it is flagged and keeps it if and only if it is not |
| Batch.PaymasterDeposit | pkg/modules/checks/standalone.go:185-220 | succeeds exactly when every deposit it needs is answered, and then marks, in climbing order, the index of every operation at which its paymaster's deposit falls below the prefunds so far |
| Batch.OverdrawnMeans | pkg/modules/checks/standalone.go:193-217 | an operation is marked when it is no intent and names a paymaster whose deposit is below what the operations up to it that name the same one can be charged |
| Batch.UpwardMarksShift | pkg/modules/context.go:53-69 | for every climbing list of marks: the mark numbered m, from 0, moves the original operation m places above its index, and one past the end moves nothing |
| Batch.UpwardIsSweepIff | pkg/modules/checks/standalone.go:193-217 | on distinct operations upward marks keep what a sweep of the same indices keeps if and only if there is at most one, and from two on the second operation meant always stays |
| Batch.DepositCheckIff | pkg/modules/checks/standalone.go:193-217 | the deposit check keeps exactly the operations that do not overdraw if and only if at most one does |
| Batch.FilterUnderpriced | pkg/modules/gasprice/filter.go:14-40 | keeps intents and sufficiently priced operations in order and touches no pending removal |
| Batch.UnderpricedMeans | pkg/modules/gasprice/filter.go:17-38 | kept are the intents, and the operations whose maximum fee covers base fee and tip and whose priority fee covers the tip; where the node gives no base fee or tip, those whose maximum fee covers the gas price |
| Batch.PricedMeans | pkg/modules/gasprice/filter.go:25-29 | an operation is priced in when its maximum fee covers base fee plus tip and its priority fee the tip |
| Batch.MaintainGasLimit | pkg/modules/batch/gaslimit.go:17-37 | keeps the prefix that stays below the limit and that one more operation would take to it; fails only on an invalid operation |
| Batch.BatchGasIs | pkg/modules/batch/gaslimit.go:21-27 | an operation counts its own limits, the verification limit three times over if it names a paymaster, and the static pre-verification gas whatever it claims |
| Batch.TotalMore | pkg/modules/batch/gaslimit.go:19-29 | one more operation adds to the total what it counts |
| Batch.FitsUnique | pkg/modules/batch/gaslimit.go:20-34 | there is exactly one such prefix |
| Bundler.ApplyAllConserves | pkg/modules/compose.go:4-15 | every key is accounted for exactly: as often as it was in the context it still is, or a filter or truncation left it out, and none leaves the pending removals |
| Bundler.RunModules | internal/start/private.go:166-173 | the expiry, sorting, price, gas limit, code hash and deposit modules, run in order, are a sequence of such effects |
| Bundler.RunClassifies | pkg/bundler/bundler.go:133-186 | each dumped key ends in exactly one place: in the final batch, dropped, beyond the batch cap, left out by a filter or truncation, or an unsolved intent; it is still pooled exactly in the last three |
| Bundler.RunEffects | pkg/modules/compose.go:4-15 | the handlers run to the first that fails, and every rewrite before it has reached the pooled object |
| Bundler.FailureKeepsIff | pkg/bundler/bundler.go:165-168 | a failed run leaves the pooled operations as they were if and only if the last thing written into each of them is what it was |
| Bundler.FailureReadsBackIff | pkg/bundler/bundler.go:165-168 | after a failed run the record of a pooled operation still reads back as it if and only if the run wrote nothing new into it |
| Bundler.FailedRunDiverges | pkg/modules/solution/solveintents.go:132-143 | a solver answer followed by a handler error leaves the solved operation pooled and the old one recorded, and a restart brings the old one back |
| Bundler.CollectReady | pkg/bundler/bundler.go:174-181 | collects the operations of the batch that are not unsolved intents, in order |
| Bundler.AdjustBatchSize | pkg/bundler/utils.go:10-15 | a batch is the first `max` of the dumped operations, or all of them if there are no more or `max` is not positive |
| Bundler.Process | pkg/bundler/bundler.go:119-207 | a run dumps exactly the EntryPoint's operations, handles at most the first `maxBatch` of them, removes exactly its final batch and what was dropped, and gives every key still pooled its reason; an error leaves keys and records unchanged, and the pooled operations if and only if nothing new was written into one |
| Relay.SendUserOperation | pkg/modules/relay/relayer.go:69-151 | sends the conventional operations of the batch and, only if there are none, its solved intents; marks each operation whose gas estimate reverted, and reports no error in sending intents |
| Relay.RelayMeans | pkg/modules/relay/relayer.go:69-151 | the relayer fails exactly when there are conventional operations and estimating or sending them failed; otherwise it sent the conventional operations if there are any, or else the solved intents if those were delivered |
| Relay.RelayIsMarks | pkg/modules/relay/relayer.go:91-117 | what the relayer does to the context is a sequence of marks |
| Relay.RemovedWereSentIff | pkg/modules/relay/relayer.go:69-151 | what is removed with the final batch was all sent if and only if the batch left mixes no solved intents with conventional operations, holds none that were not delivered, and no intent whose validation fails |
| Relay.SentAreRemoved | pkg/bundler/bundler.go:170-186 | everything sent is removed, even what was dropped for its gas estimate, unless its own validation calls it unsolved |
| Relay.MixedBatchLosesIntent | pkg/modules/relay/relayer.go:91-117 | of a conventional operation and a solved intent only the first is sent, and both are removed |
| StorageRules.IsAssociatedWith | pkg/entrypoint/simulation/storageslots.go:63-73 | a slot is associated when it lies within 128 of one of the hashes |
| StorageRules.NewStorageSlotsByEntity | pkg/entrypoint/simulation/storageslots.go:21-43 | each non-zero staked address gets exactly the hashes of the words that start with it, whatever the iteration order |
| StorageRules.AddPreimage | pkg/entrypoint/simulation/storageslots.go:27-39 | one hashed word extends exactly the addresses it starts with |
| StorageRules.JudgeTouch | pkg/entrypoint/simulation/storageslots.go:98-121 | the branches for one slot equal the declarative verdict: free, needs stake, excepted or forbidden |
| StorageRules.JudgeAddress | pkg/entrypoint/simulation/storageslots.go:86-132 | for every order of reads and writes an address passes if and only if no slot is forbidden and every slot that needs stake has it |
| StorageRules.Process | pkg/entrypoint/simulation/storageslots.go:75-136 | for every iteration order the validator accepts if and only if the declarative rule does |
| StorageRules.IdIsCollectedIff | pkg/entrypoint/simulation/storageslots.go:105-112 | for every iteration order a mempool id is collected if and only if it excepts some touched slot that no other rule covers |
| StorageRules.IdsOrderFree | pkg/entrypoint/simulation/storageslots.go:85-135 | two iteration orders collect the same multiset of mempool ids |
| TraceValidation.CheckOpcodes | pkg/entrypoint/simulation/tracevalidation.go:78-89 | accepts if and only if no entity uses a banned opcode, and collects every contract any entity touched |
| TraceValidation.FindBanned | pkg/entrypoint/simulation/tracevalidation.go:80-84 | finds a banned opcode if and only if there is one, in any order |
| TraceValidation.CheckStorage | pkg/entrypoint/simulation/tracevalidation.go:104-123 | every entity's storage is judged against its own slots; accepts if and only if all are accepted |
| TraceValidation.CheckContext | pkg/entrypoint/simulation/tracevalidation.go:125-141 | every returned paymaster validation decodes, and one with a context comes from a staked paymaster |
| TraceValidation.TraceSimulateValidation | pkg/entrypoint/simulation/tracevalidation.go:72-147 | for every order of iteration a trace is accepted if and only if it is lawful, which is permitted level by level and slot by slot |
| TraceValidation.LawfulIff | pkg/entrypoint/simulation/knownentity.go:17-42 | a trace is lawful if and only if its first level is permitted to the factory, its second to the account and its third to the paymaster, each with its own stake and slots, slot by slot |
| TraceValidation.TraceIdIff | pkg/entrypoint/simulation/tracevalidation.go:104-123 | for every order of iteration a mempool id is reported if and only if one of the three levels touches a slot that belongs to neither the sender nor its own entity by leave of that mempool |
| TraceValidation.TraceIdsOrderFree | pkg/entrypoint/simulation/tracevalidation.go:104-123 | two orders of iteration report the same multiset of mempool ids |
| Collector.Tracer.constructor | pkg/tracer/BundlerCollectorTracer.js:3-11 | a new tracer has no level, no last opcode and no records |
| Collector.Tracer.OnEnter | pkg/tracer/BundlerCollectorTracer.js:35-54 | an enter records the call |
| Collector.Tracer.OnExit | pkg/tracer/BundlerCollectorTracer.js:55-61 | an exit records RETURN or REVERT with at most 1000 characters of its output |
| Collector.Tracer.OnStepEvent | pkg/tracer/BundlerCollectorTracer.js:68-174 | one step records a top-level end, marks, splits or charges the current level, and keeps hashed words and logs; it fails exactly when it needs a level and there is none |
| Collector.Tracer.Collect | pkg/tracer/BundlerCollectorTracer.js:35-174 | over a whole trace every counter, mark, call record, log and hashed word is the declarative one |
| Collector.EventsCollected | pkg/tracer/BundlerCollectorTracer.js:35-174 | for every trace that starts at depth 1 the pass never fails, whatever calls are entered and left between its steps |
| Collector.PassReads | pkg/tracer/BundlerCollectorTracer.js:106-147 | each deeper step is charged to the level numbered by the depth-1 NUMBER steps before it, and GAS once for each deeper GAS whose next step is deeper and no call |
| Collector.IgnoredIff | pkg/tracer/BundlerCollectorTracer.js:123-133 | the opcodes never counted are the stack opcodes of every size and the named comparisons, shifts and arithmetic |
| Collector.CountsIff | pkg/tracer/BundlerCollectorTracer.js:119-147 | a deeper step needs a level to charge exactly when charging it leaves something there |
| Collector.PassMarks | pkg/tracer/BundlerCollectorTracer.js:71-104 | each level marks exactly the contracts reached from it, with a code size seen there, and whether it ran short of gas |
| Verdict.LevelRead | pkg/tracer/BundlerCollectorTracer.js:64-147 | what the tracer collects in a level is what the judgement reads: the counted opcodes, the slots read and written by contract, and the contracts reached |
| Verdict.JudgeTrace | pkg/entrypoint/simulation/tracevalidation.go:68-147 | a raw trace, traced and judged, is accepted if and only if its declarative reading is lawful, for every order of iteration |
| Verdict.NoBannedStepIff | pkg/entrypoint/simulation/tracevalidation.go:80-84 | the opcode rule is that no counted step of the level has a banned opcode |
| Verdict.JudgedCalls | pkg/entrypoint/simulation/tracevalidation.go:125-141 | for every tree of calls the entries judged are the post-order of the calls that returned and created nothing, each with its own return data |
| CallStack.Stack.Push | internal/utils/stack.go:11-13 | pushes on top |
| CallStack.Stack.Pop | internal/utils/stack.go:24-31 | removes and returns the top, or gives the default and stays empty |
| CallStack.Stack.Top | internal/utils/stack.go:15-22 | reads the top, or gives the default |
| CallStack.NewCallStack | pkg/entrypoint/simulation/callstack.go:21-46 | the loop over an object stack equals the matcher on values |
| CallStack.ForestRun | pkg/entrypoint/simulation/callstack.go:21-46 | flattening any forest of calls and matching it gives, in post-order, the calls that returned and created nothing, each with its own return data, and leaves the stack as it was |
| CallStack.TopLevelRun | pkg/entrypoint/simulation/callstack.go:25-41 | a final unmatched REVERT adds nothing, while a final unmatched RETURN adds one entry naming no call |
| Overhead.UnpackUndoesPack | pkg/userop/object.go:112-145 | every field of an operation whose figures fit a word is read back from the packed form, at the place the encoding of the tuple gives it |
| Overhead.PackedLength | pkg/userop/object.go:112-145 | the packed form is eleven head words plus, for each byte string, a length word and its padded words |
| Overhead.CalcCallDataCost | pkg/gas/overhead.go:70-81 | 4 for each zero byte of the packed form and 16 for each other byte |
| Overhead.SanitizedMapDecodes | pkg/gas/overhead.go:97-110 | overwriting the four fields in the JSON form and decoding it gives the sanitised operation |
| Overhead.PreVerificationGasStable | pkg/gas/overhead.go:97-129 | the calculation succeeds, ignores gas limits, claimed pre-verification gas and signature content, and is exactly 43874, 25 for each packed word, 4 for each zero byte and 16 for each other, of the sanitised operation |
| Overhead.BufferCovers | internal/utils/buffer.go:5-12 | a buffered amount covers the amount if and only if the factor is not negative |
| Overhead.BufferIsPercent | internal/utils/buffer.go:5-12 | the factor is a percentage added, and the result is rounded down |
| Overhead.EstimateIsAdmitted | pkg/modules/checks/verificationgas.go:14-37 | an operation carrying the buffered estimate passes the check if and only if the buffer is not negative |
| Fees.ProjectBaseFee | pkg/modules/builder/client.go:106-111 | the loop computes the n-step projection |
| Fees.BaseFeeRule | pkg/modules/builder/client.go:106-111 | the base fee of the next block, by the rule of EIP-1559 |
| Fees.BaseFeeProjected | pkg/modules/builder/client.go:106-111 | for every sequence of blocks using at most twice their target, the EIP-1559 base fee after them is at most the projection |
| Fees.ProjectionIsClose | pkg/modules/builder/client.go:107-111 | on a full block and a base fee divisible by 8 the projection is one above the true base fee |
| Fees.SuggestMeanGasTipCap | pkg/entrypoint/transaction/gas.go:13-24 | the larger of the suggested tip and the batch's mean priority fee |
| Fees.SuggestMeanGasFeeCap | pkg/entrypoint/transaction/gas.go:29-41 | the larger of tip plus twice the base fee and the batch's mean maximum fee |
| Fees.CapsAre | pkg/entrypoint/transaction/gas.go:13-41 | each cap is the larger of what the node suggests, a tip or a tip plus twice the base fee, and the mean of what the batch offers |
| Fees.TipsBetween | pkg/entrypoint/transaction/gas.go:13-18 | the mean priority fee lies between the least and the greatest |
| Fees.FeesBetween | pkg/entrypoint/transaction/gas.go:29-35 | the mean maximum fee lies between the least and the greatest |
| Fees.FeeCapCovers | pkg/modules/builder/client.go:105-112 | the fee cap covers base fee plus suggested tip in each of the next n blocks |
| Fees.PaysIff | pkg/modules/builder/client.go:105-112 | a cap pays a tip in each of the next n blocks, whatever they use, if and only if it pays it when all of them are full |
| Fees.FeeCapPaysTipCapIff | pkg/entrypoint/transaction/gas.go:13-41 | the fee cap pays the tip cap in each target block if and only if the batch's mean maximum fee or tip plus twice the projected base fee does so when all blocks are full |
| Fees.FeeCapPaysTipCap | pkg/entrypoint/transaction/gas.go:13-41 | it does if the suggested tip is at least the mean priority fee, or if every operation's maximum fee covers the projected base fee and its own priority fee |
| Fees.EqualFeesPayNoBaseFee | pkg/entrypoint/transaction/gas.go:13-41 | operations whose two fees are equal and high give a fee cap equal to the tip cap |
| Fees.TipCapBelowFeeCap | pkg/entrypoint/transaction/gas.go:13-41 | if every operation's priority fee is at most its maximum fee, the tip cap is at most the fee cap |
| Reputation.ApplyExpWeights | pkg/modules/paymaster/utils.go:57-71 | the loop with its early break equals plain repeated decay by the whole hours passed |
| Reputation.DecayLaws | pkg/modules/paymaster/utils.go:58-65 | decay keeps the order of counters, never raises one, and never takes one from 23 or more to below 23 |
| Reputation.ReadIs | pkg/modules/paymaster/utils.go:57-68 | a read applies one step x - x/24 for each whole hour since the last write, and none if the clock went back |
| Reputation.BanIsLifted | pkg/modules/paymaster/utils.go:130-147 | throttled means from 10 * included + 110 operations seen on, banned from 10 * included + 510 on, and enough applied hours always end a ban |
| Reputation.NoMoreThanHours | pkg/modules/paymaster/utils.go:57-68 | over any run of reads and increments the steps applied are the whole hours passed less the whole hours in the seconds left over; one for each hour exactly when less than an hour is left over |
| Reputation.NoStepIff | pkg/modules/paymaster/utils.go:57-68 | no decay step is ever applied if and only if the record is touched at least once an hour |
| Reputation.BusyNeverDecays | pkg/modules/paymaster/utils.go:57-128 | such a record is the plain count of all operations seen and included |
| Reputation.SeenInFullIff | pkg/modules/paymaster/utils.go:57-128 | the operations seen are counted in full if and only if no read applies an hour to a counter of 24 or more |
| Reputation.RunBounds | pkg/modules/paymaster/utils.go:97-128 | after any run each counter lies between full decay and plain counting |
| Reputation.ParseUndoesStore | pkg/modules/paymaster/utils.go:36-55 | a stored record reads back as the counters written |
| Reputation.StoreText | pkg/modules/paymaster/utils.go:36-40 | a stored record is the operations seen, those included and the second, in decimal, joined by colons |

## Left out

- RPC, HTTP, logging, metrics, configuration and command line: node calls are parameters, the others are not modelled.
- ABI decoding of reverts and method outputs, signing, Keccak and userOpHash values: hashes are parameters.
- Frames whose gas use depends on the gas they are given: replay assumes each frame uses what it used in the trace.
- Debug lines of the collector, and gas and value in its call records: nothing reads them.
- Construction errors inside the estimator: it rebuilds operations only from an operation that is already valid, which `UserOps.NewUndoesEncoding` shows to succeed.
- JSON text itself: objects are modelled as maps of their members, since all their texts are plain ASCII.
- `Text.DecodeBig`: rejects underscores between digits, which `big.Int.SetString` accepts with base 0.
- JSON arrays as byte strings or addresses: the decoder's library would accept them, the model rejects them.
- Data races inside the sorted sets and Go maps: each queue call is atomic and interleaving happens between calls.
- Overlap of a bundler run with new submissions: `Bundler.Process` sees the pool change only through its own writes and removal; `Admission` covers removals and rewrites at any time.
- Matching of solver answers by index: a run treats them as arbitrary rewrites and marks. An answer whose index is past the end of the shrunken batch, on which the source panics, does nothing in the model.
- Clean-up and paymaster counting after a batch: they leave the context alone.
- A transaction that was broadcast although sending it returned an error: `Relay.SendUserOperation` counts it as not sent.
- `SortByGasPrice` and `SortByNonce` as sorts: a run treats them as arbitrary reorderings.
- Termination of the relayer and builder revert loops: it depends on the node.
- Custom pre-verification gas calculators and legacy gas price suggestion: other calculators are opaque functions, and the legacy mean repeats the fee cap's.
- Throttling: the source classifies paymasters as throttled and does nothing with it.
