# UniKvs, modelled and verified

UniKvs writes one value through a graph of middlewares to many storages. This project models its multi-destination pipeline
engine, the client operations on top of it, and the state machines and algorithms it leans on, and proves what they promise. To verify
it, run `dafny verify dfyconfig.toml` in this directory.

**Pipeline.** `PipelineGraph.compile` turns destination chains into a trie that shares middlewares by instance. `encode`,
`decode`, `repair` and `buildEncodeTree` walk it through nested `next()` calls. The plain specification is "every destination runs
its own chain alone" (`EncodeAlong`, `DecodeAlong`, `KeyAlong`, `EachChainAlone`); the walks are proved to refine it while each
shared node runs once. A middleware is a set of pure transforms plus, per node of the trie, a behaviour: it calls `next()` or not,
awaits or detaches it, calls it twice, swallows, rethrows or replaces the fault that comes back, throws its own, and may be aborted at
either side of the call. The files, in order: `Options`, `Sequences`, `PipelineTrie`, `PipelineCompile`, `PipelineFinalize`, `PipelineGraph`,
`TrieShape`, `Builder`; `Middlewares`, `ContractCheck`, `Walks`, `Onion`; `Encode`, `Decode`, `Repair`, `Streams`.

**Client.** `Use` is the onion of `use` hooks. `Client` has `set`, `get` and `get` with repair over one storage per destination.
`PluginLifecycle` is the shared, reference-counted plugin and all interleavings of clients that open and close it. `KeyLocks`
is the lock order of keyed operations.

**Packages.** `RateLimit` (token bucket and turn queue), `LruCache`, `Base64` (one model for both alphabets, RFC 4648 sections 4
and 5), `ByteQueue` (the Cbor stream buffer and its decoding loop) and `RedisSessions` (Bun Redis `open` and `close`).

**What happened.** Statements about violations need to know which middlewares were called and what came back to them, so every operation
yields a ghost log of its middleware calls (`ContractCheck.Visit`). Contracts tie the log to the given behaviours entry by entry and level by
level: which call starts its downstream, what its `next()` came to in terms of the calls below, which a loop goes through in registration order up to
the first that ends in a fault (`Walks.Logged`, `Walks.Below`, `Onion.Nested`), and how the checks and the catch block end it (`Ended`, `Settles`, `Ends`). Whether a call broke the contract is then a
function of the behaviour and its entry (`ContractCheck.Broke`). An abort, too, is put down to a middleware that ran. Beside each statement about the log stands one that needs no log: a
middleware that breaks the rules in any case and is sure to be reached fails the operation (`Walks.SureBreach`, `Onion.BreaksAt`); a leaf is
reached, where nobody stops the walk, exactly if the nodes on its own path let it through (`Walks.WayOpen`); and whether the hooks let an operation
pass is a function of their behaviour (`Use.Passes`).

Words used below. *Well-behaved*: sets its destination, awaits `next()` once and adds no fault. *Forwarding*: neither swallows the
fault of its downstream nor detaches `next()`. *Compliant*: breaks no rule about `next()` and `destination`. *Disciplined*: replaces
faults only by contract errors, and throws an error of its own only when no violation can have been recorded by then. A storage, a
clock, a decoder of single items or another party's behaviour that the code cannot see is a parameter, so a theorem holds for all of
them.

Concurrent parts are step systems: what runs between two awaits is one step, and the theorems are about every run. Each comes with
its invariant, the lemma that every step keeps it, and what follows from it.

Some promises do not hold in full. Each is stated with the exact condition and with the case that fails.

- `use` is fail-close except at and below a middleware that abandons its `next()`: one that fails by itself while its own `next()` is still
  running. Its own error is not a contract error, the missing await goes unnoticed because the checks after the call are not reached,
  violations below it come too late to be recorded, and a middleware above may swallow its error, so that the operation goes on.
  `Use.RunUse` says exactly when a violation is heard (`Onion.Heard`), `Use.UnheardBreach` is the failing case. The same exception holds for
  `repair` and `buildEncodeTree`, with the same exact condition along the trie (`Walks.Heard`): `Repair.RepairGraph`,
  `Streams.BuildEncodeTree`, and `UnheardBreach` in both modules for any graph with a node below another.
- `encode` and `decode` call the middleware outside a `try`, so there a middleware may replace a recorded contract error by another one.
  They are fail-close for disciplined middlewares, and `ContractCheck.DisciplinedIsExact` proves that this is exactly the class of
  middlewares that never hide a violation.
- `repair` waits for every write it has started, and a failing `buildEncodeTree` releases every stream, except for what the downstream of a
  middleware that does not wait for its `next()` starts or makes only afterwards: `Promise.allSettled` and `cancelStreams` see what is
  there when they are called. The contracts name exactly what is left; where every middleware waits, nothing is. `Repair.LooseWrite` and
  `Streams.LooseEnd` show the failure for every graph with a node below another. Such a write lands after the key lock is gone
  (`Client.UniKvs.unawaited`).
- A `buildEncodeTree` that tolerates failing nodes cancels the branch of each node that comes to nothing, so that a success leaves no end unread
  but the reader's. It does leave one where `mapKey` fails after the middleware's output was taken and the middleware swallows that fault: the walk
  then counts the node as built. `Streams.BuildEncodeTree` has the exact condition (`Streams.QuietAt`), `Streams.QuietEnd` the case.

## Model

| member | source | states |
|---|---|---|
| PipelineGraph.Compile | unikvs/src/_pipeline-graph.ts:243-325 | the compiled graph of any list of destinations: leaves in registration order with their repair permission, entries that are the trie of the chains, `middlewares` deduplicated by first occurrence, and `leafIndexesOf(m)` = the destinations whose chain has m |
| PipelineCompile.Register | unikvs/src/_pipeline-graph.ts:250-307 | registering one more destination keeps the half-built trie exactly the trie of the chains so far, sharing nodes by instance at the same position only |
| PipelineCompile.Enter | unikvs/src/_pipeline-graph.ts:260-289 | below a node, the child for a middleware is found or created; it is created exactly when no earlier chain has that prefix |
| PipelineFinalize.SummarizeLevel | unikvs/src/_pipeline-graph.ts:89-136 | entries of a level in registration order, one for each leaf that ends there and each child, covering every leaf below; `allLeaves` is the registration-ordered list of leaves below; a pass-through level shares its child's lists |
| PipelineFinalize.EntriesCreated | unikvs/src/_pipeline-graph.helpers.ts:122-152 | sorting the leaves that end at a level and its child nodes by first leaf index gives the entries of that level in registration order, each once, covering every leaf below |
| PipelineFinalize.Finalize | unikvs/src/_pipeline-graph.ts:143-156 | a finished node is the trie node of its prefix, at any depth |
| PipelineGraph.CollectEntries | unikvs/src/_pipeline-graph.ts:164-179 | the index map gains exactly the leaves below each occurrence of a middleware, even when an instance occurs at several nodes |
| TrieShape.NodesArePrefixes | unikvs/src/_pipeline-graph.ts:243-325 | the nodes of the finished trie are, each exactly once, the distinct non-empty prefixes of the destination chains |
| TrieShape.AllLeavesPartitioned | unikvs/src/_pipeline-graph.ts:89-136 | a node's `allLeaves` is in registration order and is the disjoint union of the leaves of its entries |
| PipelineTrie.CoveredOnce | unikvs/src/_pipeline-graph.ts:89-136 | no leaf is below two entries of one level |
| Builder.Branch.Use | unikvs/src/unikvs-branch.ts:381-386 | pushes into the one array that holds the growing chain, which no registered destination refers to, so no destination registered before changes |
| Builder.Branch.Persist | unikvs/src/unikvs-branch.ts:427-436 | `persist` registers an array of its own that holds a copy of the chain so far; the destinations stay the root-to-storage paths of the described tree |
| Builder.Branch.Fork | unikvs/src/unikvs-branch.ts:336-341 | forking another branch that has storages adds its tree below the chain so far, in arrays of its own, and leaves that branch unchanged; an empty branch is refused and changes nothing |
| Builder.AppendForkDestinations | unikvs/src/_unikvs-branch.ts:61-86 | the forked branch's destinations are appended in order, each with a fresh array that holds the current chain and then the branch's, or InvalidForkError |
| Builder.UseAfterFork | unikvs/src/_unikvs-branch.ts:75-85 | calls made on a branch after it was forked do not reach the fork |
| Builder.PathsBelow | unikvs/src/_unikvs-branch.ts:61-86 | building a branch on its own and prefixing it at the fork gives the same paths as walking the described tree from the root, at any nesting |
| Builder.PathsGrow | unikvs/src/unikvs-builder.ts:637-715 | each further call only adds paths at the end |
| Builder.InCallOrder | unikvs/src/unikvs-branch.ts:381-436 | middlewares given to `use` one after the other are passed through in that order before whatever follows, a storage or a fork |
| Builder.UniKvsBuilder.Use | unikvs/src/unikvs-builder.ts:671-676 | as on a branch, and the builder knows that its last call left a middleware without storage |
| Builder.UniKvsBuilder.Persist | unikvs/src/unikvs-builder.ts:706-715 | as on a branch |
| Builder.UniKvsBuilder.Fork | unikvs/src/unikvs-builder.ts:637-642 | as on a branch |
| Builder.UniKvsBuilder.Build | unikvs/src/unikvs-builder.ts:763-793 | for any program of calls: built exactly when `isValid`, MissingStorageError exactly when the tree has no storage, and then the compiled graph is that of the described tree with `beforeAll` before its root and `beforeStorage` before each storage, so that each leaf's path is `beforeAll`, then its path in the tree, then `beforeStorage` |
| ContractCheck.AwaitChecked | unikvs/src/_pipeline-graph.ts:786-817 | after a middleware call: its own fault first, then the abort, then the contract error; violations seen while it ran are kept even if it rejects; and which violation is kept, the first: one that the downstream reported, a second `next()`, one not called, one not awaited |
| ContractCheck.BreachComesOut | unikvs/src/_pipeline-graph.ts:1045-1127 | where a catch block records and rethrows, a contract error comes out of a middleware call exactly when the middleware does not abandon its `next()` and either breaks the contract itself or is told of a breach below |
| ContractCheck.DisciplinedIsExact | unikvs/src/_pipeline-graph.ts:786-817 | the middlewares for which the walks promise a contract error are exactly those that, whatever their downstream does, never let another error out once a violation is recorded or reported; for every other one there is a downstream outcome that stays unheard |
| ContractCheck.BreachPassedOn | unikvs/src/_pipeline-graph.ts:786-817 | without a catch block the same holds of disciplined middlewares |
| Middlewares.ChainRoundTrip | unikvs/src/_pipeline-graph.ts:416-538 | decoding a chain undoes encoding it when each decoder undoes its encoder |
| Encode.EncodeGraph | unikvs/src/_pipeline-graph.ts:711-836 | a successful encode whose middlewares keep quiet about no fault yields one target per destination in registration order, equal to running each chain alone, and runs every trie node once; for arbitrary middlewares no leaf is targeted twice, no node runs twice and every target is its chain's; the log of the nodes that ran fits the middlewares and the trie; without an abort, disciplined middlewares given, it fails with a contract error if and only if some middleware broke the contract, and a middleware that ran and breaks the rules in any case does; the nodes at the end of a way of nodes that let their downstream start do run; where every fault is forwarded it succeeds only if every middleware behaves well |
| Encode.EncodeRun.Walk | unikvs/src/_pipeline-graph.ts:716-818 | what the walk at one node adds, for all behaviours: only targets and nodes at or below it, complete if nothing failed silently; with disciplined middlewares a contract error comes out exactly if some node there broke the contract |
| Encode.EncodeRun.Next | unikvs/src/_pipeline-graph.ts:733-784 | `next()` refuses to start without a destination, stops on a failing `mapKey`, and otherwise runs the entries below with the encoded data and mapped key |
| Encode.NodeJudged | unikvs/src/_pipeline-graph.ts:786-817 | whatever a middleware does with the outcome of its `next()`, soundness, completeness, the log and the account of contract errors carry over from its entries to the node |
| Encode.WalkIsEachChainAlone | unikvs/src/_pipeline-graph.ts:820-836 | sorting the targets of a complete walk gives exactly the list of all chains run alone |
| Walks.SoundNode | unikvs/src/_pipeline-graph.ts:765-775 | targets and node runs of sibling subtrees never overlap |
| Walks.FullAll | unikvs/src/_pipeline-graph.ts:765-775 | a loop over all entries of a level misses no wanted leaf and no wanted node below it |
| Walks.HeardNode | unikvs/src/_pipeline-graph.ts:1077-1091 | a breach below a node is heard above it exactly if the node does not abandon its `next()` |
| Walks.NodeArrived | unikvs/src/_pipeline-graph.ts:1011-1034 | a loop over entries passes unharmed what is off a way on which every node lets its downstream start, and gets to what is at its end |
| Walks.ReachedIfOpen | unikvs/src/_pipeline-graph.ts:1011-1034 | in a walk that went through everything, a wanted leaf was reached if and only if every node on its path let its downstream start |
| Walks.VisitedIfOpen | unikvs/src/_pipeline-graph.ts:1011-1034 | and a node's middleware was called if and only if every node above it let its downstream start |
| Walks.NobodyThrows | unikvs/src/_pipeline-graph.ts:765-775 | where no call throws but what its own downstream threw, no `next()` that started its downstream throws |
| Walks.BreakersBroke | unikvs/src/_pipeline-graph.ts:786-817 | a middleware that ran and breaks the rules in any case is among those that broke the contract, which all ran |
| Walks.SureIsHeard | unikvs/src/_pipeline-graph.ts:1077-1091 | a breach that the walk is sure to get to, with nobody above it that abandons its `next()`, is heard |
| Walks.RanAudited | unikvs/src/_pipeline-graph.ts:1045-1127 | the log and the account of heard breaches of a node from those of the loop over its entries |
| Onion.OutermostHears | unikvs/src/unikvs.ts:2196-2262 | in a list of nested calls that each tell exactly of their own breach and of what they hear, the outermost ends in a contract error exactly if some call broke the contract and nobody from it outwards abandons its `next()` |
| Onion.BreaksHeard | unikvs/src/unikvs.ts:2230-2258 | a middleware that breaks the rules in any case is called, and its breach is on record, when all before it start the next one |
| Onion.WhoAborts | unikvs/src/unikvs.ts:2155-2162 | the signal is aborted in the end only if it was at the beginning or is while one of the middlewares called runs |
| Decode.DecodeRun.DecodeLeaf | unikvs/src/_pipeline-graph.ts:416-538 | a successful decode is the reverse composition of the leaf's decoders, unless a middleware swallows a fault below it; the calls are nested, and each ends with its checks; without an abort, disciplined middlewares given, it fails with a contract error if and only if some middleware called broke the contract, and a middleware that is started and breaks the rules in any case does; when faults are swallowed, exactly the decoders from the leaf to the last node whose downstream failed have been applied |
| Decode.DecodeRun.Run | unikvs/src/_pipeline-graph.ts:421-535 | the nested calls from a node down to the root, and which decoders produced the result when faults are swallowed: those from the leaf to the last swallowing node |
| Decode.LeafResolver.Resolve | unikvs/src/_pipeline-leaf-resolver.ts:49-69 | over any sequence of resolves, the memoised key is the composition of the path's `mapKey`s, and `mapKey` is called once per node; it fails exactly with the fault of the first node of the path that `mapKey` fails on, and caches nothing for it |
| Repair.RepairGraph | unikvs/src/_pipeline-graph.ts:851-1170 | at every exit no awaited write is still running and none is lost; the writes not awaited are exactly those that the downstream of a middleware that does not wait for its `next()` starts only afterwards, none where all wait; writes go only to targets that allow repair, each once, with the key and data of the full encode, although a lone unpermitted target is passed over without encoding; without `throwOnRepairDenied` only an abort or a contract error fails it; without an abort it fails with a contract error if and only if some middleware broke the contract and neither it nor one above it abandons its `next()`, where the log of the nodes that ran fits the middlewares and the trie; so it does for a middleware that breaks the rules in any case, a second `next()` whose rejection is caught included, at the end of a way of nodes that let their downstream start; with well-behaved middlewares exactly the permitted targets are written and exactly the needed nodes run, and a denial (of a target or of a write) is raised exactly when asked for; best effort, exactly: without `throwOnRepairDenied`, an abort or a breach, a target that allows repair is written if and only if every node on its own path lets its downstream start, whatever the nodes on other paths do; the fault that comes out is that of the walk, then a recorded denial, then that of an awaited write |
| Repair.WrittenIfOpen | unikvs/src/_pipeline-graph.ts:1011-1127 | the log of such a walk leaves no choice: it went through everything, and a permitted target was written if and only if every node on its path let its downstream start |
| Repair.DeniedWhenWell | unikvs/src/_pipeline-graph.ts:906-962 | with all needed nodes run, a denial is recorded exactly if some target may not be repaired |
| Repair.LooseWrite | unikvs/src/_pipeline-graph.ts:1166-1169 | the failing case of waiting for all writes, for every graph with a node below another on the path of a repairable leaf |
| Repair.UnheardBreach | unikvs/src/_pipeline-graph.ts:1077-1127 | the failing case of fail-close, for every such graph: a node breaks the contract, nothing is aborted, and no contract error comes out |
| Repair.NoneLate | unikvs/src/_pipeline-graph.ts:1166-1169 | where every middleware waits for its `next()`, every started write is awaited |
| Repair.RepairRun.Walk | unikvs/src/_pipeline-graph.ts:923-1128 | the same at one node, for all behaviours |
| Repair.RepairRun.Run | unikvs/src/_pipeline-graph.ts:964-1127 | the node that runs its middleware: nested `next()`, checks and the catch block that sorts out aborts, contract errors and denials |
| Repair.RepairRun.Catch | unikvs/src/_pipeline-graph.ts:1077-1127 | which faults the catch block rethrows, records or only logs |
| Repair.NodeJudged | unikvs/src/_pipeline-graph.ts:1045-1127 | best effort, restriction and the exact account of heard breaches carry over from the entries to the node, whatever the middleware throws at any depth |
| Repair.PassedOver | unikvs/src/_pipeline-graph.ts:938-962 | skipping the encoding of a node with one unpermitted target loses no write and no denial |
| Repair.ActiveLeaves | unikvs/src/_pipeline-graph.helpers.ts:98-109 | the test `shared or first leaf permitted` singles out exactly the nodes that serve a permitted target or several targets |
| Repair.RepairRun.AwaitWrites | unikvs/src/_pipeline-graph.ts:1151-1169 | for every order in which writes end, after a walk that did not fail, a denial is raised if and only if one was recorded in the walk or an awaited write was denied (unless aborted), the write named is the first denied one to end, and all awaited writes have ended before any exit |
| Streams.BuildEncodeTree | unikvs/src/_pipeline-graph.ts:1188-1556 | on success each active leaf has its own stream end that reads what its chain makes of the source, in registration order, complete unless a fault was kept quiet; `encodeStream` runs at most once per node and only on nodes with an active leaf; the read side of `splitRead` is untouched; on failure no readable end is left but those that the downstream of a middleware that does not wait for its `next()` makes afterwards, none where all wait, and after a success none but the reader's where no fault came up; no end is ever teed, piped or assigned twice (each use demands a live end); without an abort and without `onNodeError` it fails with a contract error if and only if some middleware broke the contract and neither it nor one above it abandons its `next()`, where the log of the nodes that ran fits the middlewares, the trie and the faults that `onNodeError` takes at the root; so it does for a middleware that breaks the rules in any case at the end of a way of nodes that let their downstream start; with an `onNodeError` that takes everything, and no abort or breach, it succeeds, and an active leaf has its end if and only if every node on its own path lets its downstream start, whatever happens on other paths; then an end it made is left unread if and only if `mapKey` fails at a node that the walk gets to and the middleware there keeps quiet about it |
| Streams.ReadyIfOpen | unikvs/src/_pipeline-graph.ts:1276-1442 | the log of such a walk leaves no choice |
| Streams.LooseEnd | unikvs/src/_pipeline-graph.ts:1544-1548 | the failing case of releasing all ends, for every graph with a node below another on the path of an active leaf |
| Streams.QuietEnd | unikvs/src/_pipeline-graph.ts:1260-1273 | the failing case of leaving no end unread on success, for every graph and every node on the path of an active leaf |
| Streams.UnheardBreach | unikvs/src/_pipeline-graph.ts:1376-1442 | the failing case of fail-close, for every such graph |
| Streams.Cancelled | unikvs/src/_pipeline-graph.ts:1544-1548 | what `cancelStreams` leaves readable is exactly what is made later |
| Streams.StreamRun.Each | unikvs/src/_pipeline-graph.ts:1276-1330 | every branch entry gets its own end; the "missing branch" error cannot occur |
| Streams.StreamRun.Split | unikvs/src/_pipeline-graph.ts:1292-1305 | teeing a stream n - 1 times gives n distinct live ends with the same content and leaves no other |
| Streams.NodeEnds | unikvs/src/_pipeline-graph.ts:1344-1442 | what a node leaves of the stream ends: none where no fault comes up, its own output where it keeps quiet about a downstream that could not start |
| Streams.SomeBranch | unikvs/src/_pipeline-graph.ts:1276-1290 | a node with an active leaf has a branch, so `emptyBranches` cannot occur |
| Streams.StreamRun.Catch | unikvs/src/_pipeline-graph.ts:1376-1442 | a destination set before `next()` is registered before anything is thrown; which faults go to `onNodeError` |
| Streams.StreamRun.Run | unikvs/src/_pipeline-graph.ts:1202-1452 | a node uses only its own input end, and every end it makes is either used or in `streams` when it returns |
| Streams.NodeJudged | unikvs/src/_pipeline-graph.ts:1344-1442 | soundness, completeness and the exact account of heard breaches of a node from those of its entries |
| Use.RunUse | unikvs/src/unikvs.ts:2155-2282 | for every list of middlewares with arbitrary behaviour: each `use` runs at most once, in order, without gaps; the calls are nested, and each is settled by its checks and catch block; without an abort it rejects with a contract error if and only if some middleware called broke the contract (an un-awaited `next()` included) and neither it nor one above it abandons its `next()`; so it does when all before a middleware call `next()`, that one breaks the rules in any case, and none of them abandons its `next()`; after an abort it rejects; whether it lets the operation pass is a function of the middlewares and the signal (`Use.Passes`), and a fault that one middleware throws and those around it rethrow comes out wrapped once, with the index of that middleware |
| Use.UseRun.Dispatch | unikvs/src/unikvs.ts:2162-2281 | the calls from any position of the list on: who is called, what comes back to whom, and how each settles |
| Use.Level | unikvs/src/unikvs.ts:2221-2280 | one middleware around the calls below it, including one that replaces the downstream error |
| Use.OutermostCall | unikvs/src/unikvs.ts:2221-2280 | what nested calls let out: a contract error exactly if a breach is heard, a rejection after an abort, an abort only if some middleware was aborted |
| Use.AllWell | unikvs/src/unikvs.ts:2155-2282 | well-behaved middlewares all run and nothing fails |
| Use.OneOutcome | unikvs/src/unikvs.ts:2155-2282 | the behaviours and the signal decide how `use` ends: no two logs of the same middlewares end differently |
| Use.GuardStops | unikvs/src/unikvs.ts:2221-2280 | a middleware that throws without calling `next()`, with only forwarding ones around it, keeps the operation from going on |
| Use.AbortedStops | unikvs/src/unikvs.ts:2155-2162 | an operation that starts aborted does not go on |
| Use.WrappedOnce | unikvs/src/unikvs.ts:2259-2280 | a fault of one middleware that those around it rethrow is wrapped exactly once, with the index of the one that threw it |
| Use.ForwardingPasses | unikvs/src/unikvs.ts:2155-2282 | where every middleware forwards the fault of its downstream, the operation goes on only if all behave well |
| Use.UnheardBreach | unikvs/src/unikvs.ts:2221-2280 | the failing case of fail-close, a run of `use` on three middlewares: it succeeds although the last one, which was called, never called `next()` |
| Client.UniKvs.Set | unikvs/src/unikvs.ts:524-578 | `set` first runs the `use` hooks: where they do not let the operation pass (a guard that throws, an abort at the start), it throws what they end in and no storage changes; otherwise `encode` decides, and its fault comes out with nothing written, or exactly its targets are written, each ending as its storage says; it touches only what the chains make of its key; where every fault is forwarded it succeeds if and only if the hooks let it pass, all middlewares behave well and every write succeeds, and then every storage holds the value in its own encoding |
| Client.UniKvs.BeforeOperation | unikvs/src/unikvs.ts:553-557 | the hooks of all middlewares decide whether an operation goes on; after an abort or a guard that throws it does not |
| Client.UniKvs.Locate | unikvs/src/unikvs.ts:647-700 | the first destination in registration order that answers with the key, and exactly those before it that answered without it; it stops exactly at the first destination, before any answers, where `mapKey` fails, or the storage fails after an abort, and with that fault |
| Client.UniKvs.Get | unikvs/src/unikvs.ts:587-727 | hooks that do not let the operation pass, a key no storage has and failing decoders stop it with nothing written; the outcome is that of the lookup, then of `decode` at the first destination that answers, then of `repair` with exactly the destinations that answered before it without the key; with repair, every missing destination that allows it, and that the middlewares on its path let through, holds the value in its own encoding afterwards and no other slot changes; when nothing fails it succeeds, and a tolerant repair makes it fail only by an abort or a breach of the contract; it leaves no write behind where every middleware waits for its `next()` |
| Client.UniKvs.RepairPlain | unikvs/src/unikvs.ts:2479-2519 | the repair half of that: what the storages hold and which writes are left behind follows from the outcome of `repair`; after an abort during the lookup it fails; without a denial asked for, an abort or a breach it succeeds; with well-behaved middlewares it fails exactly if a denial is asked for and a missing destination does not allow repair or its storage denies the write |
| Client.UniKvs.Land | unikvs/src/unikvs.ts:2479-2519 | a write that a repair left behind lands later, in its one slot |
| Client.SetThenGet | unikvs/src/unikvs.ts:524-727 | read after write: a successful `get` after a successful `set` returns the value, whichever destination answers, when no write left behind lands in between |
| Client.SetBetweenGets | unikvs/src/unikvs.ts:524-727 | a `set`, successful or not, changes neither whether `get` of another key succeeds nor what it returns, when the chains keep the keys apart |
| Client.ReadsBack | unikvs/src/unikvs.ts:647-721 | storages that agree on a value decode to it from any destination |
| Client.RepairedReadsBack | unikvs/src/unikvs.ts:2479-2519 | what a repair wrote, for any missing slot that it was to fill, decodes by its own chain to the value the repairing `get` returned |
| Client.OthersUntouched | unikvs/src/unikvs.ts:2294-2360 | an operation on one key changes nothing a read of another depends on |
| Client.RepairedAll | unikvs/src/unikvs.ts:2479-2519 | the writes of a repair fill exactly the slots that lacked the key, allow repair and are let through by the middlewares on their path |
| Client.RefusedWhenWell | unikvs/src/unikvs.ts:2479-2519 | with well-behaved middlewares, a denial comes from a missing destination that does not allow repair or from a storage that denies the write |
| Client.StopDecides | unikvs/src/unikvs.ts:647-700 | the destination at which a lookup stops decides: no other fault can come out, and no later one is found |
| PluginLifecycle.Lifecycle.Open | unikvs/src/_plugin-lifecycle.ts:71-114 | the new counts and whether it rejects, for plugins with and without `open` and `close` |
| PluginLifecycle.Lifecycle.Close | unikvs/src/_plugin-lifecycle.ts:125-151 | gives up one reference; the last one really closes, and a failure leaves the ownership behind |
| PluginLifecycle.Lifecycle.RetryClose | unikvs/src/_plugin-lifecycle.ts:162-180 | repeats only a failed close, and releases nothing |
| PluginLifecycle.Lifecycle.CloseReal | unikvs/src/_plugin-lifecycle.ts:187-200 | after a close that succeeds the plugin is neither open nor marked failed; after one that fails it is marked, and as open as the plugin left it |
| SharedPlugins.StepKeeps | unikvs/src/unikvs.ts:279-427 | in every interleaving of opening, rolling back, closing and retrying clients: references = number of holders, `closeFailed` implies none, a held plugin is open, an open client holds all its plugins and a closed one none |
| SharedPlugins.FromStart | unikvs/src/unikvs.ts:1864-1977 | that invariant after any run from the start |
| SharedPlugins.ClosedByTheLast | unikvs/src/_plugin-lifecycle.ts:125-151 | the real `close` runs exactly when the closing holder is the last, and a retried one only when nobody holds the plugin |
| SharedPlugins.OpenedByTheFirst | unikvs/src/_plugin-lifecycle.ts:71-114 | the real `open` runs only on a closed plugin without holders; every successful open adds one reference |
| SharedPlugins.OpensItsPlugin | unikvs/src/_plugin-lifecycle.ts:71-114 | after `open` the plugin is open, held and not marked failed, or the real open failed and nothing changed |
| SharedPlugins.ClosesItsPlugin | unikvs/src/_plugin-lifecycle.ts:125-200 | one reference less; it stays open for the other holders; after the last holder it is neither open nor marked failed if the close succeeded, and otherwise marked failed and open exactly if the failing close left it so |
| SharedPlugins.RetriesItsPlugin | unikvs/src/_plugin-lifecycle.ts:162-200 | the same of a retried close, which changes nothing without a failed close |
| SharedPlugins.OpenOrRollBack | unikvs/src/unikvs.ts:279-416 | an opening client becomes open exactly if it holds all its plugins and was not aborted; otherwise it rolls back |
| SharedPlugins.RetrySparesNewHolder | unikvs/src/_plugin-lifecycle.ts:162-180 | a retry never takes away the reference of a client that took the plugin over |
| SharedPlugins.HeldIsOpen | unikvs/src/unikvs.ts:279-416 | every plugin of an open client is open |
| SharedPlugins.ClosedClientHoldsNothing | unikvs/src/unikvs.ts:417-427 | a failed and rolled back `open` leaves every count as if it had not been tried |
| SharedPlugins.NothingLeftOpen | unikvs/src/unikvs.ts:1864-1977 | when all clients are closed, only a failed close keeps a plugin open |
| SharedPlugins.AllClosedAgain | unikvs/src/unikvs.ts:1864-1977 | after any run in which no close failed and that ends with all clients closed, no counted plugin is open or referenced |
| KeyLocks.LocksAscend | unikvs/src/unikvs.ts:1498-1564 | every keyed operation takes its locks in one global order, both keys of a transfer included |
| KeyLocks.LocksFit | unikvs/src/unikvs.ts:1498-1564 | an operation takes exactly the locks of the keys it reads or writes and the instance lock; exclusively exactly the keys it writes, and the instance exactly for `open` |
| KeyLocks.OneWay | unikvs/src/unikvs.ts:1555-1556 | of two different keys exactly one comes first |
| KeyLocks.NoDeadlock | unikvs/src/unikvs.ts:1498-1564 | in every reachable state with an unfinished operation some operation can take its next step |
| KeyLocks.SomebodyMoves | unikvs/src/unikvs.ts:1555-1564 | following whoever stands first in line leads from any waiting operation to one that can move |
| KeyLocks.StepKeeps | unikvs/src/unikvs.ts:544 | each lock's queue holds exactly the operations that hold or await it, and holders were granted it |
| KeyLocks.MutualExclusion | unikvs/src/unikvs.ts:2310-2313 | two operations hold the same key together only to share it |
| KeyLocks.EverybodyFinishes | unikvs/src/unikvs.ts:636-644 | from every reachable state all operations can be brought to their end without an abort |
| KeyLocks.EveryRun | unikvs/src/unikvs.ts:1211-1215 | without new arrivals every run is finite, with an explicit bound, so every maximal run ends with all operations finished |
| KeyLocks.ReachableExclusion | unikvs/src/unikvs.ts:2310-2313 | in every state reachable from the start, two holders of a lock share it |
| KeyLocks.ReachableNoConflict | unikvs/src/unikvs.ts:1498-1564 | in every state reachable from the start, no two operations that have all their locks conflict: neither writes a key that the other reads or writes |
| KeyLocks.ReachableNotStuck | unikvs/src/unikvs.ts:1498-1564 | in every state reachable from the start with an unfinished operation, some operation can take its next step |
| KeyLocks.EveryRunFinishes | unikvs/src/unikvs.ts:1498-1564 | from there every schedule, aborts included, ends within the bound, with all operations finished |
| TokenBucket.WindowBound | packages/rate-limit/src/rate-limit.ts:285-298 | in any stretch of a run in which the highest clock reading moves within d ms, at most maxTokens + d * tokensPerInterval / intervalMs tokens are granted, even if the clock goes back |
| TokenBucket.RateIsExact | packages/rate-limit/src/rate-limit.ts:285-304 | the rate both ways: `intervalMs` of time gives `tokensPerInterval` tokens and the other way round, in proportion |
| TokenBucket.IntervalRefills | packages/rate-limit/src/rate-limit.ts:285-298 | `intervalMs` on the clock brings `tokensPerInterval` tokens, capped at `maxTokens` |
| TokenBucket.Conserved | packages/rate-limit/src/rate-limit.ts:195-216 | tokens stay between 0 and maxTokens, and grants are paid for by stock and time |
| TokenBucket.RetrySuffices | packages/rate-limit/src/rate-limit.ts:300-304 | after `retryAfterMs` on an advancing clock a token is there |
| TokenBucket.RetryIsFirst | packages/rate-limit/src/rate-limit.ts:300-304 | the waiting time is the least number of whole milliseconds that brings a whole token at the configured rate |
| TokenBucket.RetryIsTight | packages/rate-limit/src/rate-limit.ts:300-304 | one millisecond less would be too early |
| TokenBucket.RateLimit.Refill | packages/rate-limit/src/rate-limit.ts:285-298 | the refilled bucket: `elapsed * tokensPerInterval / intervalMs` tokens more, capped; an earlier clock reading changes nothing |
| TokenBucket.RateLimit.RetryAfterMs | packages/rate-limit/src/rate-limit.ts:300-304 | the whole milliseconds until there is a token |
| TokenBucket.RateLimit.Acquire | packages/rate-limit/src/rate-limit.ts:195-216 | the wait loop ends, whatever the clock showed before, and sleeps at most once on a clock that has not gone back; a granted token was there and is paid; `throw` tells the right waiting time |
| TurnQueue.Exclusive | packages/rate-limit/src/rate-limit.ts:226-250 | a request starts only when every earlier one is over, so no two bodies run together, aborted waiters or not |
| TurnQueue.StartedInOrder | packages/rate-limit/src/rate-limit.ts:226-250 | over any run, requests start in the order in which they queued, none twice |
| TurnQueue.StepKeeps | packages/rate-limit/src/rate-limit.ts:226-283 | tails are released in order and only by requests that are over |
| TurnQueue.EveryRunReleasesAll | packages/rate-limit/src/rate-limit.ts:226-250 | every schedule, aborts included, ends within an explicit bound, with all tails released |
| LruCache.Cache.Commit | packages/lru-cache/src/lru-cache.ts:411-442 | keeps exactly the longest most recent run of entries that meets both limits, the new entry alone if even that is too big, nothing if maxEntries is 0; a rejected size changes nothing; sizes and total agree with the entries; each kept entry has the size that was measured when its key was last committed |
| LruCache.Cache.EvictIfNeeded | packages/lru-cache/src/lru-cache.ts:449-472 | the eviction part of that; the sizes of the entries that stay are left alone |
| LruCache.Cache.Read | packages/lru-cache/src/lru-cache.ts:216-230 | returns the last value committed for the key and makes it the most recent |
| LruCache.Cache.Touch | packages/lru-cache/src/lru-cache.ts:378-383 | moves one entry to the end; entries stay in the order of their last use |
| LruCache.Cache.RemoveEntry | packages/lru-cache/src/lru-cache.ts:392-401 | takes out an entry with its size and keeps the total right |
| LruCache.Cache.Delete | packages/lru-cache/src/lru-cache.ts:253-262 | removes exactly the key, or fails without a change |
| LruCache.Cache.Close | packages/lru-cache/src/lru-cache.ts:186-193 | drops everything |
| LruCache.RemovalBooked | packages/lru-cache/src/lru-cache.ts:392-401 | `totalBytes` stays the sum of `sizes`, with the same keys as the map |
| LruCache.EvictedEnough | packages/lru-cache/src/lru-cache.ts:449-472 | what the two loops leave is the longest run allowed |
| Base64.AlphabetsValid | packages/base64url/src/base64url.ts:10-15 | the two alphabets of RFC 4648 are proper: 64 different ASCII characters without `=` |
| Base64.AlphabetsSpelt | packages/base64url/src/base64url.ts:10-15 | they are the upper-case letters, the lower-case letters, the digits, and then `+` and `/`, or `-` and `_` |
| Base64.RoundTrip | packages/base64/src/base64.ts:48-187 | for every byte string, both alphabets and both padding modes, decoding the encoding gives the bytes back |
| Base64.EncodedShape | packages/base64/src/base64.ts:48-83 | the encoding is alphabet text whose length tells the number of bytes; padding only adds `=` |
| Base64.BitOrder | packages/base64/src/base64.ts:48-83 | which bits of the bytes go into which character, highest first, and how the last one or two bytes are padded |
| Base64.BitsRoundTrip | packages/base64/src/base64.ts:53-60 | cutting 24 bits into sixes loses nothing |
| Base64.CharRoundTrip | packages/base64url/src/base64url.ts:34-38 | the lookup value of each alphabet character is its index |
| Base64.EncodeText | packages/base64/src/base64.ts:48-83 | the loop computes the encoding |
| Base64.BuildTable | packages/base64/src/base64.ts:34-38 | the table inverts the alphabet |
| Base64.DecodeInto | packages/base64/src/base64.ts:100-134 | writes exactly the decoded bytes into exactly the places they need, nothing out of range |
| Base64.DecodeChecked | packages/base64/src/base64.ts:157-187 | accepts exactly the accepted texts, and the output computed from the length is filled exactly |
| Base64.SizeIsExact | packages/base64/src/base64.ts:183-184 | the size formula is the number of bytes |
| Base64.AcceptedLengths | packages/base64/src/base64.ts:163-181 | lengths accepted: not 1 mod 4 without `=`, 0 mod 4 with `=` |
| Base64.EncodeStream.Transform | packages/base64/src/base64.ts:313-337 | after any chunks, the output encodes all whole groups and the carry is the rest |
| Base64.EncodeChunks | packages/base64url/src/base64url.ts:305-356 | however the input is cut, the stream writes the batch encoding |
| Base64.DecodeStream.Transform | packages/base64/src/base64.ts:378-436 | a chunk is refused exactly when what was read can no longer become an accepted text, also with `=` split across chunks |
| Base64.DecodeStream.Flush | packages/base64/src/base64.ts:438-452 | the final check decides acceptance of the whole |
| Base64.DecodeChunks | packages/base64/src/base64.ts:364-457 | for every cut of ASCII text the stream succeeds exactly when batch decoding accepts, and writes the same bytes |
| Base64.AcceptedWasViable | packages/base64/src/base64.ts:383-436 | an early refusal is never wrong |
| Base64.BatchAfter | packages/base64/src/base64.ts:399-436 | whole groups at the front may be decoded at once |
| ByteQueue.Queue.Append | packages/cbor/src/cbor.ts:98-114 | appends to the content; a larger buffer is taken exactly when the chunk does not fit, and costs one copy of the content; the bytes copied over any run stay at most max(2 * appended, 16) |
| ByteQueue.Queue.Consume | packages/cbor/src/cbor.ts:130-136 | drops from the front of the content |
| ByteQueue.Queue.View | packages/cbor/src/cbor.ts:121-123 | the content |
| ByteQueue.Drain | packages/cbor/src/cbor.ts:163-199 | hands on the complete items and keeps an incomplete rest; errors exactly on broken input, or on an incomplete rest at the end |
| ByteQueue.ParseOn | packages/cbor/src/cbor.ts:163-199 | parsing may stop where the first bytes end and go on later with the rest |
| ByteQueue.DecodeChunks | packages/cbor/src/cbor.ts:294-320 | however the bytes are cut, the stream succeeds exactly when the whole is a sequence of complete items, with the same values |
| RedisSessions.StepKeeps | packages/redis.bun/src/redis.ts:143-203 | the session invariant survives every step of every interleaving |
| RedisSessions.OnePlace | packages/redis.bun/src/redis.ts:549-622 | every client ever made is with one uncancelled session, published, or closed exactly once |
| RedisSessions.NothingPublishedWhilePending | packages/redis.bun/src/redis.ts:549-590 | a pending session means nothing is published, so publishing never loses a client |
| RedisSessions.CancelledNeverPublishes | packages/redis.bun/src/redis.ts:191-203 | a cancelled session never publishes, whatever follows |
| RedisSessions.ResolvedWasPublished | packages/redis.bun/src/redis.ts:143-182 | `open` resolves only after the session it shares was published |
| RedisSessions.CloseClosesAll | packages/redis.bun/src/redis.ts:598-622 | after `close` nothing is open or being opened, every client ever made has been closed once, and a pending session is cancelled |
| RedisSessions.OpenSharesOrStarts | packages/redis.bun/src/redis.ts:143-182 | `open` while a session is pending only waits for it; otherwise it closes what was open and starts a session of its own |
| RedisSessions.OpenRunsItsCourse | packages/redis.bun/src/redis.ts:143-203 | an `open` left alone publishes the client made for it and resolves; when its import or connection fails, its client is closed and the call rejects |
| RedisSessions.NothingLeaks | packages/redis.bun/src/redis.ts:598-622 | with nothing open or opening, every client has been closed |

## Left out

- Promise microtask order, timers, garbage collection and backpressure: a detached `next()` runs its downstream at once, and whether it has settled when the middleware is done is part of the behaviour; which writes and stream ends of an unsettled downstream come only after the operation is a parameter.
- A `next()` that is called for the first time only after its middleware has finished: the checks have been made by then, without it. A destination set again after `next()` throws inside the middleware, so it is one of the errors its behaviour may end with (`DestinationFrozen`).
- Encode.EncodeGraph: fail-close is stated for disciplined middlewares, because the code calls the middleware outside a `try` and its own error wins there; targets that an unsettled downstream pushes after `encode` has returned count as returned.
- Decode.DecodeRun.DecodeLeaf: fail-close is stated for disciplined middlewares, for the same reason.
- Streams.BuildEncodeTree: fail-close is stated without `onNodeError`, which may accept any error at the root; targets that an unsettled downstream pushes after a success count as returned.
- Streams.StreamRun.Each: goes over all entries and skips inactive ones, where the code filters them first.
- Repair.RepairRun.AwaitWrites: which targets a denial recorded in the walk names.
- Repair.RepairGraph: awaited writes are started during the walk and end after it; a write that ends earlier can only log, note its denial or be cut off by an abort, none of which the walk looks at, except for an abort, which may also come with any middleware call.
- PipelineFinalize.SummarizeLevel: the shared name lists (`leafNames`) and the reuse of array objects.
- PipelineCompile.Register: the Set of seen middlewares is a search in the list of those noted so far.
- Base64.EncodeText: shifts and masks on 24 bits are division and remainder; `|` of disjoint bits is a sum.
- Base64.DecodeChunks: UTF-8 decoding and byte order marks; encoding a decoded text need not give it back, since unused low bits are accepted.
- TokenBucket.RateLimit.Acquire: reals instead of floating point; option validation beyond what `Config` says.
- LruCache.Cache.Commit: cloning of values; sizes are reals; the write stream only collects chunks before the same commit.
- ByteQueue.Drain: the decoder of single items is a parameter that delimits its own items; an error that may mean missing input counts as incomplete.
- SharedPlugins.StepKeeps: opens and closes of a plugin from outside, a failing `open` that leaves its plugin open, and a lock of a plugin wrapper that is not obtained.
- KeyLocks.NoDeadlock: `clear` and `close` lock all keys at once, and `stream` holds its lock until its consumer is done; they are not among the operations.
- RedisSessions.StepKeeps: a client's `close` that throws.
- Builder.Branch.Fork: forking a branch into itself, which appends to the list it reads.
- Client.UniKvs.Set: stream values, value schemas, `afterUse` and `onOtherWriteError` notifications, and the variable store; locks are the subject of KeyLocks, so an operation is one step here.
- Client.UniKvs.Get: `exists` and `read` of one storage are one look, which may fail.
- Overlapping `close` calls on one client after a failed close.
- `decodeStream` of the pipeline, `stream`, `has`, `delete`, `clear` and the leaf part of `copy` and `move`: easier relatives of what is proved.
- Other storages and middlewares (file system, HTTP, object stores, hex, JSON Lines, metrics): input and output, or repeats of the above.
- TypeScript types, error messages, logging and build configuration.
