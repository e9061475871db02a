# Verification of pyinc

pyinc is an incremental query database. Inputs are set, resources are read from outside, queries are
functions over both, and `get` answers from stored records whenever it can show that they still hold. Its
contract is from-scratch consistency: every answer is the one a fresh database would compute. Around the
engine sit checkpoints, actions that reconcile declared output files with a directory, request spans shared
by threads, and editor tooling. This project models the parts whose correctness is hardest to see and
proves what they promise.

## How it is modelled

**Programs.** A query body is a deterministic step function: from the answers read so far to the next read,
a result, or a raise. `Programs.Eval` is the reference meaning: run everything from scratch, remember
nothing. Leaves are inputs, resources (whose probe determines what a load answers, a value or a failure) and
untracked outside state.

**The engine** (`Databases.Database`) is a class with the fields of the original: revision, request id,
records, query objects at hand, execution stack, use marks. `Set`, `SetMany`, `Get`, the mutually recursive
verification and execution, resource refresh and eviction update those fields as the original does. The whole
state is also one value, a `Graphs.Graph`, and every atomic change is shown to keep one invariant of it
(`Graphs.Inv`):

- a stored value is the body applied to the answers it read (`TraceOk`);
- a recorded edge whose target has not moved past the reader still carries the answer the reader read
  (`EdgeOk`), and targets rank below readers;
- what a query settled in this request read is settled, unchanged, and carries no later stamp (`ClosedOk`);
- with a limit on records, whatever was verified at the current revision read what the recorded leaves give
  (`CurrentOk`): this is what lets an evicted node come back without a bump;
- a body that ran in this request ran once, and had a reason (`RunOk`);
- the revision moved since the request began only if something that had a record, or was restored, was found
  changed (`BumpOk`);
- where every record was, when the request began, what a fresh database would have made of it, the revision stands
  and that stays so (`SteadyOk`).

Recursion has no static bound: bodies choose their calls from data. `held`, a ghost map of the queries under
verification, gives the termination measure and shows that coming back to one of them ends in the cycle error
of whatever is running. Given a rank that every call goes down, the same methods are shown to return. Whatever the
bodies are, a request touches only what its query needs (`Demand`: what bodies asked for, what records were computed
from, and so on down), and a query that raises has a cause that can be followed the same way to a body that raises on
what it read, a leaf that cannot be read, an unknown query, or one that is running (`Causes`).

**Checkpoints.** Saving and accepting a manifest, and restoring inside the engine: every read of a query
without a record, at the top or inside a running body, tries the checkpoint first (`Fetch`, `WarmRecord`,
`VerifyDeps`, `VerifyDep`), in mutual recursion with verification and execution. Saved dependencies are looked at
kind by kind, inputs, queries, resources, up to the first that fails. The numbers of the accepted, acyclic manifest
bound that recursion. A restored dependency has no query object and is verified through its own edges. A query that
had no record and raises is taken back (`Discard`). Where a restore would store a record, or take one back, in a
state the invariant does not reach, the request is not followed further: the field `stopped` says where and why
(`Restores.Stop`), and `Restores.StopOk` what holds there: the state in which the restore began, the state in which
each dependency was found good, the execution stack, and what has become of them.

**Actions.** The directory tree is a map from paths to files and directories. Every primitive is one step;
before each step an arbitrary environment may edit the tree, and a fuse may end the process. A ghost log
records every edit from outside and every mutation, and the tree is always what replaying the log gives.

**Spans, path sets, alias edits, the calc reader and evaluator, exposed views** are modelled in their own form: a clock
shared by threads, a scan over sorted keys, edits stated on the text, a depth-first search with a colour map, a
breadth-first traversal of includes, a heap of containers.

## Results that need a condition

- *Restoring a checkpoint.* docs/kernel-contract.md:469-471 promises the fresh value. The dependencies of a
  saved record are looked at once each; if looking at a later one runs a body that moves an earlier one, the
  record is installed over an answer it was not computed from, and its stamp hides the move.
  `Warming.RestoreExactly` gives the exact condition under which storing the record is sound, and
  `Restores.Obstacle` is the test the model makes before it stores: no dependency carries another answer, and
  with records that can be evicted each has been brought up to date in this request or all records are as of the
  revision as it is; if the query has come to have a record, it is over dependencies that do not always count as
  changed; and it is not being executed. Where it fails the request stops; every answer given before is fresh. For
  each reason to stop there is a run, by the engine's own steps from a state the invariant allows, in which going on
  does harm: `Drift.DriftIsMissed` (`Overtaken`: a dependency moved), `Unsettled.UncheckedIsStale` (`Unchecked`:
  eviction, and a dependency not brought up to date), `Reentry.RunningIsStale` (`Running`: the query is being executed
  for the first time) and `Dangling.DiscardedIsStale` (`Discarded`: a raise, and a record restored over the one
  taken back) end with a record that passes verification and is wrong; in `Twice.ContradictedRunsTwice`
  (`Contradicted`) a body runs twice in one request.
- *Answering with a checkpoint loaded.* Where the program's calls go down a rank, so do saved dependencies
  (`Restores.SavedFalls`), so nothing looked at for a query can run or restore it, and nothing raises. Of the five
  reasons two remain: a dependency moved while it was being restored, or records can be evicted
  (`Drift.DriftIsMissed` and `Unsettled.UncheckedIsStale` are over such programs). So `Databases.Database.Get`
  answers wherever nothing is evicted and the revision stands, and, with eviction too, where nothing had moved when
  the request began. Over whole runs: if inputs and world are as they are to be before the first query, every sure
  query is answered, with any loads and any limit (`Runs.Run`). A query is answered from the store and nothing runs,
  wherever of what it was computed from only inputs have a record yet, and all of it reads as it did:
  `Resuming.SaveAndReuse`; and what was just answered is in the store, with all it was computed from:
  `Resuming.GetAndSave`, `Resuming.GetSaveGet`.
- *Resuming a reconcile.* docs/action-contract.md:137-140 says the next run converges. That holds exactly if
  every orphan below a desired path is its direct child: `Trees.ResumableIffShallow`. After `a/b/c` has become
  the file `a`, a repeated run walks `a/b` through `a` and refuses (`Trees.NotResumable`).
- *Eviction.* Proved for programs that read nothing untracked, and for all programs if there are no more queries
  than the limit allows records. `Evicted.EvictionHidesUntracked` runs an untracked program step by step, from the
  empty database, to an answer that is not fresh, so the condition cannot be dropped; that it is necessary for
  each single program is not claimed.
- *Reference cycles.* `binding_cycles` is described as reporting the names that take part in a cycle
  (examples/calc/engine.py:239-243). Each name it reports lies on a cycle of reported names, and every cycle has a
  reported name, but not all names on cycles are reported: `Calc.SearchOmits`. They are if no name has two ways back
  to itself, which is part of `Calc.BindingCycles`. For evaluation, whose termination rests on it, one name of every
  cycle is enough.
- *Returning.* Dependencies are verified in label order and an exception from one escapes, so a query may raise
  where a fresh database answers: `Raising.FirstCheckRaises`. Every raise has its cause (`Causes.Raises`), and there is
  none for a query that a fresh database answers, in which unset inputs and unobservable resources raise, if nothing
  had moved, or if no checkpoint is loaded and the recorded edges of such queries go to such queries at a lesser depth
  of evaluation: `Causes.NoCause`. So an empty database, or one with inputs alone, answers whatever a fresh one does,
  whatever other bodies or other branches would do, and over whole runs so does any database as long as nothing moves
  after the first query (`Runs.StillAnswered`). Where things have moved, that a query answers is stated for bodies that
  never raise, read inputs that are set and resources that can be observed or have a record, and call down a rank;
  and, whatever the bodies are, in a part of the records that is current (`Runs.GetQuiet`).

## Model

| member | source | states |
|---|---|---|
| Programs.EvalMonotone | docs/kernel-contract.md:9-12 | the reference meaning: evaluation with more depth or more leaves known gives the same answer |
| Programs.FreshUnique | docs/kernel-contract.md:9-12 | a fresh database has at most one answer for a node, and learning more leaves does not change it |
| Programs.ReplayRuns | src/pyinc/runtime.py:3709-3744 | if every recorded answer is what evaluation gives, running the body from scratch ends in the recorded result |
| Programs.ReadsEarlier | docs/kernel-contract.md:9-12 | what an execution over fresh answers read is evaluated at a lesser depth than the query, so depth ranks records that are all current |
| Graphs.SettledFresh | src/pyinc/runtime.py:3667-3707 | everything brought up to date in a request has the value evaluation gives it |
| Graphs.SettledFreshInWorld | src/pyinc/runtime.py:3667-3707 | the same, read against the inputs as set and the world as it is |
| Graphs.SettledFreshInRecords | src/pyinc/runtime.py:3667-3707 | the same, read against the leaves as recorded, which is what eviction relies on |
| Graphs.SettledReads | src/pyinc/runtime.py:3597-3665 | whatever a fresh evaluation of something brought up to date reads, to any depth, has a record or is untracked |
| Steps.ResourceStep | src/pyinc/runtime.py:4021-4147 | rewriting a resource record keeps the invariant if it leaves answer and stamp alone or lands past every stamp |
| Steps.VerifyStep | src/pyinc/runtime.py:3692-3705 | stamping a query none of whose dependencies moved past it keeps the invariant |
| Steps.CommitStep | src/pyinc/runtime.py:3744-3841 | landing a recomputed value (cold, backdated, or one revision later), or a restored one whose dependencies have all been brought up to date, keeps the invariant: no reader that should see it can miss it |
| Steps.CommittedEdge | src/pyinc/runtime.py:3744-3757 | the edges of other readers survive a commit, also a first execution that takes the current revision under a surviving reader of an evicted node |
| Steps.RestoreStep | src/pyinc/runtime.py:3217-3236 | a record installed over dependencies that carry the answers it was computed from satisfies the invariant of an executed one; with records that can be evicted, where all of them are current |
| Steps.DropStep | src/pyinc/runtime.py:9184-9199 | taking back a query record that came up in this request and that nothing reads keeps the invariant |
| Steps.LearnKeeps | src/pyinc/runtime.py:4351-4353 | query objects coming and going change nothing the records promise |
| Requests.BeginRequest | src/pyinc/runtime.py:9110-9125 | a new request starts from a consistent graph whatever the world has become |
| Requests.EvictStep | src/pyinc/runtime.py:9172-9182 | dropping a query record leaves its readers sound although their edges dangle |
| Requests.EqualInputStep | src/pyinc/runtime.py:2045-2053 | an equal update moves nothing a reader can see |
| Requests.ChangedInputsStep | src/pyinc/runtime.py:2160-2187 | inputs that changed land together at one new revision and no reader verified before counts them as unchanged |
| Nesting.InsertKeepsOrder | src/pyinc/runtime.py:3694-3694 | dependencies are kept in label order, the order they are verified in |
| Nesting.CalmStill | src/pyinc/runtime.py:3692-3705 | in a part of the graph that is current and whose resources read as recorded, no body has run in the request and none has a reason to |
| Nesting.StillInRequest | src/pyinc/runtime.py:3667-3707 | whatever is running or under verification further down is as it was after any step above it |
| Nesting.DependencyGoes | src/pyinc/runtime.py:3692-3697 | checking a dependency ends as checking its reader must: over calls that go down a rank it succeeds or is spared and brings up no record above the reader, in a current part it succeeds |
| Demand.NarrowRead | src/pyinc/runtime.py:3728-3738 | what is touched for a node a body asked for is needed by the query of that body |
| Demand.NarrowRecord | src/pyinc/runtime.py:3693-3697 | what is touched for a node a record was computed from is needed by the query of that record |
| Demand.UnsettledNoted | src/pyinc/runtime.py:3684-3697 | a record not yet brought up to date is one the request found, or one of the checkpoint, with the execution it came from |
| Causes.FaultOfBody | src/pyinc/runtime.py:3728-3738 | a query whose body raised on what it read, or asked for something that raised, raises for that cause |
| Causes.FaultOfDependency | src/pyinc/runtime.py:3693-3697 | a query one of whose recorded dependencies raises when it is verified raises for that cause |
| Causes.ReadsInside | docs/kernel-contract.md:9-12 | what an evaluable query has read is evaluable at a lesser depth, whatever it asks for next too, and its body does not raise there |
| Causes.NoCause | docs/kernel-contract.md:9-12 | a query that a fresh database answers has no cause to raise, however deep, if nothing had moved or recorded edges go no deeper than evaluation |
| Databases.Database.constructor | src/pyinc/runtime.py:1750-1765 | an empty database is valid |
| Databases.Database.ObserveResource | src/pyinc/runtime.py:4021-4147 | one observation a request; an unrecorded raise changes nothing and the probe could not be observed; a moved answer carries a new revision |
| Databases.Database.Load | src/pyinc/runtime.py:4100-4147 | the record describes what the world holds; a failure it already describes moves nothing, any other change of answer moves the revision |
| Databases.Database.Retire | src/pyinc/runtime.py:4009-4019 | a contradicted probe is marked, moving the revision once per transition |
| Databases.Database.RefreshResource | src/pyinc/runtime.py:3975-4019 | afterwards the record stands for what the world holds now: a value, a recorded failure, or nothing confirmed |
| Databases.Database.MaybeChangedAfter | src/pyinc/runtime.py:3922-3959 | "unchanged" means settled, tracked, confirmed and not moved past the reader; "changed" names the reason |
| Databases.Database.VerifyRestored | src/pyinc/runtime.py:3961-3973 | a restored record without a query object is settled through its own edges, or a dependency gave a reason not to |
| Databases.Database.EnsureQuery | src/pyinc/runtime.py:3667-3707 | on return the query is settled, was not on the stack and not under verification; settled before, nothing happens; over a ranked program it returns unless a restore was overtaken by a moved dependency or unchecked under eviction, and only records at or below it came up; in a current part of the records it returns |
| Databases.Database.Settle | src/pyinc/runtime.py:3670-3707 | a query not yet settled in this request and not running is settled, or the call raised and it is not |
| Databases.Database.RevalidateQuery | src/pyinc/runtime.py:3684-3707 | a stored query is settled by its dependencies or by running, or the call raised and it is not settled |
| Databases.Database.RevalidateTracked | src/pyinc/runtime.py:3692-3706 | a tracked one by its dependencies, or by running for the reason one of them gives |
| Databases.Database.Rerun | src/pyinc/runtime.py:3706-3706 | a stored query with a reason to run is run, and settled unless it raised |
| Databases.Database.Stamp | src/pyinc/runtime.py:3698-3703 | only the stamp and the check mark of the verified record change |
| Databases.Database.CheckDependency | src/pyinc/runtime.py:3694-3697 | the verdict on one dependency, and progress of the recursion when its reader is already under verification |
| Databases.Database.CheckDependencies | src/pyinc/runtime.py:3693-3697 | either every dependency passed or one gives a reason to run |
| Databases.Database.ExecuteQuery | src/pyinc/runtime.py:3709-3850 | a body that finishes settles its query with the value evaluation gives; a raise leaves the query without a new record |
| Databases.Database.RunBody | src/pyinc/runtime.py:3728-3738 | every answer the body received is the settled one, every read is recorded, untracked exactly if something untracked was read; without a stop it ends in no value only if the body raised on the answers it really got, or a node it asked for raised |
| Databases.Database.ReadOn | src/pyinc/runtime.py:3728-3738 | one read more: the body has the answer a fresh database gives for the node it asked for, or that node raised |
| Databases.Database.Commit | src/pyinc/runtime.py:3744-3841 | the record stored, with revision and stamps |
| Databases.Database.Land | src/pyinc/runtime.py:3744-3831 | the three branches of the original give the one landing rule the invariant needs |
| Databases.Database.ReadNode | src/pyinc/runtime.py:3597-3665 | what a read hands to the body is what a settled node stands for; a leaf that is set, can be observed or has a record is read |
| Databases.Database.Fetch | src/pyinc/runtime.py:2203-2244 | a query without a record is tried from the checkpoint first, at the top and inside bodies alike; it is settled, or on a raise one that had no record and is not running keeps none; over an intact part of the checkpoint, whatever else has a record, it is answered as saved and nothing runs |
| Databases.Database.FetchNew | src/pyinc/runtime.py:2205-2211 | the same for a query without a record |
| Databases.Database.TryCheckpoint | src/pyinc/runtime.py:2206-2207 | the restored record carries the saved answer; over dependencies brought up to date it is settled at once |
| Databases.Database.Ensure | src/pyinc/runtime.py:2208-2211 | the query is settled, or, if it had no record and is not running, what has come up since the call is taken back |
| Databases.Database.Discard | src/pyinc/runtime.py:9184-9199 | a query not on the stack loses its record and query object, and nothing else goes; if a record was restored over it, the request stops instead |
| Databases.Database.Drop | src/pyinc/runtime.py:9184-9199 | exactly the record and the query object of a query that nothing reads go |
| Databases.Database.VerifyDep | src/pyinc/runtime.py:3354-3404 | "good" means the dependency carries the saved answer; what is running or under verification is as it was; no record came up above it |
| Databases.Database.VerifyResourceDep | src/pyinc/runtime.py:3462-3500 | a resource without a record is refreshed, and good if it holds what was saved |
| Databases.Database.VerifyQueryDep | src/pyinc/runtime.py:3395-3404 | a query without a record is restored in turn, or else run |
| Databases.Database.ExecuteToVerify | src/pyinc/runtime.py:3406-3460 | it is run and compared; if it raises, it keeps no record |
| Databases.Database.VerifyDeps | src/pyinc/runtime.py:3317-3334 | dependencies are looked at kind by kind until one fails; each found good carried its saved answer in its own state on the way, and if the revision stood all still do; over a ranked program the query itself cannot come up meanwhile |
| Databases.Database.WarmRecord | src/pyinc/runtime.py:3169-3306 | a restored record carries the saved answer and the invariant holds, with a query-node limit too; over a ranked program it stops only where spared; over leaves that read as saved it is restored with everything below it and no body runs |
| Databases.Database.WarmTracked | src/pyinc/runtime.py:3212-3236 | the same for a tracked record whose captures pin what it depends on |
| Databases.Database.StoreVerified | src/pyinc/runtime.py:3216-3236 | the record is stored, or stands already with the saved answer, or the request stops and the reason holds |
| Databases.Database.Reinstate | src/pyinc/runtime.py:3217-3236 | with nothing in the way the record is stored, marked as checked if all it depends on is |
| Databases.Database.Install | src/pyinc/runtime.py:3217-3236 | the restored record: its answer, edges and stamps; nothing else changes |
| Restores.SameExecution | src/pyinc/runtime.py:3217-3236 | a body that got the same answer for every node two executions both read was executed the same way |
| Restores.RanAsSaved | src/pyinc/runtime.py:3217-3236 | a query that ran while its dependencies were looked at, over the saved answers, produced the saved value: overwriting it changes nothing |
| Restores.ObstacleStops | src/pyinc/runtime.py:3217-3236 | where the request stops the reason holds of the restore as it went: where it began, where each dependency was found good, what is on the stack, and that the revision moved since if one no longer carries its answer; where it does not the record may be stored, or carries the saved answer already |
| Restores.ObstacleExcused | src/pyinc/runtime.py:3217-3236 | if the query has no record and is not running, only a moved dependency or eviction is in the way |
| Restores.SavedFalls | src/pyinc/runtime.py:3317-3334 | over calls that go down a rank, what a saved record depends on lies below it |
| Restores.NoObstacle | src/pyinc/runtime.py:3217-3236 | over an intact checkpoint nothing stops a restore |
| Databases.Database.Set | src/pyinc/runtime.py:2013-2083 | the inputs after, and a revision moved exactly if the value did, which the input then carries; no other record changes |
| Databases.Database.SetMany | src/pyinc/runtime.py:2085-2192 | all or nothing; the inputs after are the updates in order; one revision exactly if something changed, which exactly the inputs whose value changed carry; nothing but inputs changes |
| Databases.CheckBatch | src/pyinc/runtime.py:2098-2118 | a batch is accepted exactly if all keys are inputs and no key repeats |
| Databases.WithUpdatesAt | src/pyinc/runtime.py:2085-2192 | what each input holds after a batch, and which inputs there are |
| Databases.Database.EvictQueryNodes | src/pyinc/runtime.py:9161-9182 | over the limit, exactly as many query records stay as it allows, with their query objects, and none went that was used more recently than one that stayed, nor the one used last; within it nothing goes |
| Databases.Database.Evict | src/pyinc/runtime.py:9172-9182 | one query record, its object and its use mark go, and the invariant between requests holds |
| Databases.LastStays | src/pyinc/runtime.py:9166-9169 | whatever was used last stays as long as anything stays |
| Databases.Database.LeastUsed | src/pyinc/runtime.py:9166-9169 | the least recently used query, never-used ones first |
| Databases.Database.OpenRequest | src/pyinc/runtime.py:9110-9125 | the request starts with nothing settled and the invariant in place |
| Databases.Database.Get | src/pyinc/runtime.py:2194-2246 | the value returned is fresh, restored or not; nothing was touched but what the query needs; bodies ran at most once, with a reason; where it raises there is a cause, so none if a fresh database answers and nothing had moved or stored edges go no deeper than evaluation, and from inputs alone it returns what a fresh database does; over a ranked program it answers unless a restore was overtaken by a dependency that moved or was unchecked under eviction, so always where nothing is evicted and the revision stands, and where nothing had moved before; in a current part of the records it always answers; from an intact part of the checkpoint, of which only inputs have a record, it answers and runs nothing; use marks move only for what was brought up to date; after it exactly as many query records stay as the limit allows, the one just answered among them |
| Databases.SparedWhen | src/pyinc/runtime.py:3217-3236 | without eviction a spared restore means the revision moved; where every record was fresh when the request began there is none |
| Databases.Database.TakeCheckpoint | src/pyinc/runtime.py:2786-2794 | an accepted manifest is there to restore from, and nothing else changes |
| Databases.EvictsOver | src/pyinc/runtime.py:9161-9171 | the limit can be exceeded only by a program with more queries than it allows |
| Databases.ByReason | src/pyinc/runtime.py:3676-3707 | early cutoff: at most one run a request, and a stored tracked query only for a recorded dependency that moved |
| Runs.Run | docs/kernel-contract.md:9-12 | from-scratch consistency over any sequence of updates, world changes, queries and loads; every query about a ranked program over set inputs and resources observable or read by an answered query is answered; every query that raises has a cause in what its request found; a run stops only after a load, at a query whose request began in the state the run was in, for a reason that holds there, and at a sure one only for a moved dependency or eviction, and only if inputs or the world changed after a query |
| Runs.TracedSteady | docs/kernel-contract.md:9-12 | as long as nothing changes after the first query, every record stays what a fresh database would make of it |
| Runs.StillAnswered | docs/kernel-contract.md:9-12 | as long as nothing changes after the first query, every query a fresh database answers is answered |
| Runs.RunWithLimits | src/pyinc/runtime.py:9161-9182 | eviction is invisible: two limits, the same answers, as far as both runs are followed; both are to the end without loads, and past every sure query if nothing changes after the first |
| Runs.NoCycle | src/pyinc/runtime.py:3667-3669 | recorded edges never close a cycle, however bodies choose their calls |
| Runs.UnrunReadsHold | docs/kernel-contract.md:305-308 | a settled query that did not run still holds every read it recorded, failures included, so a reader of a healed or newly failing load ran, and so did its readers if it moved |
| Runs.RanForAReason | src/pyinc/runtime.py:3692-3706 | what made a body run: a dependency missing, untracked, unconfirmed, or truly moved; one recomputed to an equal value never |
| Runs.QuietRunsNothing | src/pyinc/runtime.py:3698-3705 | in a part of the graph that is current and whose resources read as recorded, no body runs |
| Runs.SettledIsQuiet | src/pyinc/runtime.py:3698-3705 | what one request settled and eviction left standing, tracked, confirmed and with all it read, is such a part for the next |
| Runs.GetTwice | src/pyinc/runtime.py:3676-3707 | asking twice: what both answer they answer alike; of what the first settled and left standing the second answers, and runs no body; with a checkpoint and a limit too |
| Runs.GetQuiet | src/pyinc/runtime.py:3692-3705 | a request in a part of the records that is current and has its query objects at hand answers, whatever the bodies are, and runs none of it |
| Checkpoints.SavedKeys | src/pyinc/runtime.py:2586-2624 | the largest dependency-closed set of eligible records |
| Checkpoints.Save | src/pyinc/runtime.py:2586-2742 | what is written is that set, sound, consistent with itself and free of cycles |
| Checkpoints.SaveIsSound | src/pyinc/runtime.py:2554-2584 | each saved value is its body applied to the dependency answers written beside it, even over inputs set since |
| Checkpoints.SavedLinks | src/pyinc/runtime.py:2653-2701 | a saved manifest names saved dependencies with matching answers and has no cycle |
| Manifests.CheckAcyclic | src/pyinc/runtime.py:2991-3019 | the ready-list loop accepts exactly the acyclic dependency graphs |
| Manifests.FindCycle | src/pyinc/runtime.py:3018-3019 | records left unvisited contain a cycle |
| Manifests.ChainGoesBack | src/pyinc/runtime.py:3009-3017 | the order of visiting goes down every dependency chain |
| Manifests.Invalidate | src/pyinc/runtime.py:3047-3062 | what is dropped is exactly what leads to an invalid record; the rest is closed under dependencies |
| Warming.LoadCheckpoint | src/pyinc/runtime.py:2948-3084 | a manifest is accepted exactly if it is consistent and acyclic; what is kept is exactly the queries that lead to nothing damaged or reading other inputs |
| Runs.SaveAndResume | docs/kernel-contract.md:447-471 | saving in one process and resuming in another over the same program: all that can be saved is, and with any operations before and after the load every promise of a run is kept; if inputs are set before the load and nothing changes after it, every sure query is answered |
| Warming.RestoreExactly | src/pyinc/runtime.py:3216-3233 | storing a saved record is sound exactly if each dependency carries the answer it was saved with, or, where nothing is evicted, has been contradicted |
| Resuming.SaveAndReuse | docs/kernel-contract.md:469-471 | round trip: all that can be saved is, and what one process saved another answers again from the store, running nothing, where it leads to nothing damaged, of what it was itself computed from only inputs have a record there, and all of that reads as it did |
| Resuming.SettledSaved | src/pyinc/runtime.py:2554-2624 | whatever a request settled is saved if it stands tracked, confirmed, not failed and writable, with all it was computed from |
| Resuming.ReadSavable | src/pyinc/runtime.py:3667-3707 | all that an answer was computed from, to any depth, was settled with it |
| Resuming.GetAndSave | src/pyinc/runtime.py:2554-2624 | what was just answered is in the manifest with that answer, and so is every query and resource beneath it, as far as these are tracked, confirmed, not failed, writable and not evicted |
| Resuming.GetSaveGet | docs/kernel-contract.md:469-471 | round trip: get, save, load and get answers again and runs nothing, if what was read was fit to be saved, reads as it did, and only inputs of it have a record in the other process |
| Resuming.AcceptedIntact | src/pyinc/runtime.py:3047-3084 | then all that a tracked saved query leads to is accepted, and nothing keeps it from being restored |
| Resuming.BeneathAccepted | src/pyinc/runtime.py:3047-3062 | a record is dropped only for something it leads to, so what happened beside it does not matter |
| Drift.DriftIsMissed | src/pyinc/runtime.py:3395-3397 | a run over calls that go down a rank in which each dependency was good when looked at, none counts as changed, and the stored value is wrong |
| Unsettled.UncheckedIsStale | src/pyinc/runtime.py:9161-9171 | a run with a limit, over calls that go down a rank, in which a record is restored over a dependency not brought up to date, for a query refused at its next dependency, and one eviction later hands an old value to a reader |
| Dangling.DiscardedIsStale | src/pyinc/runtime.py:9184-9199 | a run in which a record restored over one that is taken back, for a query refused at its next dependency, passes verification with an old value |
| Reentry.RunningIsStale | src/pyinc/runtime.py:3744-3757 | a run in which a record restored over one whose query is being executed for the first time passes verification with an old value |
| Twice.ContradictedRunsTwice | src/pyinc/runtime.py:3217-3236 | a run in which a query is run by a dependency looked at to restore it, and storing the saved record makes it run again in the same request |
| Evicted.EvictionHidesUntracked | src/pyinc/runtime.py:3744-3757 | from an empty database, by the engine's own steps: with an untracked read and eviction a query is answered with an old value |
| Raising.FirstCheckRaises | src/pyinc/runtime.py:3694-3695 | a state in which the dependency verified first cannot be settled, while a fresh database answers |
| Raising.CheckFirst | src/pyinc/runtime.py:3941-3941 | verifying that dependency raises |
| Spans.Clock.Sync | src/pyinc/runtime.py:2384-2401 | after a declared change the span carries an id no earlier check used |
| Spans.Clock.Open | src/pyinc/runtime.py:2300-2345 | a span starts, or joins the open one, caught up with every declared change |
| Spans.Clock.Close | src/pyinc/runtime.py:2330-2345 | only the outermost close ends the request |
| Spans.Clock.Declare | src/pyinc/runtime.py:2366-2382 | a change is declared to every span at once and rolls the thread's own |
| Spans.Clock.Get | src/pyinc/runtime.py:9110-9121 | every node of a call is checked or reused, in order, under one request: that of the thread's span, unless a change was declared since it was last used, or else a new one; records are dropped only at the end of a request of its own |
| Spans.Clock.Visit | src/pyinc/runtime.py:3676-3683 | a node is answered from the record exactly if this request checked it last |
| Spans.ReuseIsFresh | src/pyinc/runtime.py:2384-2401 | what a request checked, it checked in the epoch it reuses it in |
| Spans.ChangesOrdered | src/pyinc/runtime.py:2366-2382 | two points with the same epoch have no declared change between them |
| Spans.CallMore | src/pyinc/runtime.py:2300-2401 | what one call more, of any kind, makes of the request ids |
| Spans.ReadMore | src/pyinc/runtime.py:9110-9182 | one read more: the visits asked for, under one request, and drops only if the request ended with it |
| Spans.Interleave | src/pyinc/runtime.py:2300-2401 | in every interleaving the log tells, call by call, exactly the visits, changes and drops the calls asked for, in order, drops only where a request ends; two reads are one request exactly if one thread made them within one span with no change declared by any thread between; a reuse rests on a check by the same request with no change in between |
| Spans.MetAgain | src/pyinc/runtime.py:3676-3683 | a node met twice in one request is reused the second time, unless its record was dropped or another request checked it between |
| PathSets.ValidatePathSet | src/pyinc/action.py:120-144 | accepted exactly if paths are normal, keys differ pairwise, and none is a directory of another; otherwise what is wrong first: the first path that is not normal, or a repetition, or collides with which one before, or else the first file in key order that has another path below it, with the first such path |
| PathSets.ScanAfter | src/pyinc/action.py:134-144 | the early exit finds the first key below this one if there is any, also past keys that sort between `k` and `k/` |
| PathSets.DirectoryOfMeans | src/pyinc/action.py:134-140 | a key lies below another exactly if it goes on after it with a slash |
| PathSets.PrefixInterval | src/pyinc/action.py:134-144 | strings with a common prefix form an interval of the order |
| PathSets.LessTransitive | src/pyinc/action.py:134-134 | the order the scan relies on is an order |
| Trees.ClearedWellFormed | src/pyinc/action.py:775-813 | deleting orphans and pruning leaves a tree |
| Trees.ClearedIsFree | src/pyinc/action.py:815-821 | once cleared, every desired path can be written |
| Trees.BelowPruned | src/pyinc/action.py:711-735 | a directory that passes preflight holds only what is deleted or pruned with it |
| Trees.Resumes | docs/action-contract.md:137-140 | a run stopped at any point before its ledger, over a shallow layout change, is not refused when repeated and ends in the same tree |
| Trees.ResumableIffShallow | src/pyinc/action.py:718-719 | every stop can be resumed exactly if the layout change is shallow |
| Trees.NotResumable | src/pyinc/action.py:718-719 | a change that passes and is not resumed: the file a/b/c becomes the file a |
| Trees.SecondRunIsIdle | src/pyinc/action.py:558-837 | after a completed run nothing is left to delete, prune or write |
| Actions.Root.SafeTarget | src/pyinc/action.py:340-380 | a path is refused exactly if a file stands where it needs a directory |
| Actions.Root.OrphanCannotExist | src/pyinc/action.py:383-396 | a recorded path is unreachable exactly if a file stands in the place of one of its parents |
| Actions.Root.HoldsOnlyDesiredFiles | src/pyinc/action.py:399-415 | the walk finds a stray file at any depth exactly if there is one |
| Actions.Root.UnprunableEntry | src/pyinc/action.py:418-438 | the first entry in name order that stays when the orphans go and is not pruned; there is none exactly if the directory can be emptied |
| Actions.Root.Unlink | src/pyinc/action.py:775-798 | whatever happens meanwhile, a file is removed only if it is still the one whose bytes were read, and nothing else changes |
| Actions.Root.RemoveEmptyDirectory | src/pyinc/action.py:800-813 | whatever happens meanwhile, only an empty directory goes, and nothing else changes |
| Actions.Root.AtomicWrite | src/pyinc/action.py:289-296 | the bytes at the path, parents made, nothing else touched but by an edit from outside |
| Actions.Root.PruneSet | src/pyinc/action.py:587-598 | the directories of the previous layout at or below a desired path |
| Actions.Root.CheckOrphans | src/pyinc/action.py:618-675 | whatever happens meanwhile: a refusal met an obstacle, an orphan not listed as owned did not carry the recorded bytes at some moment, one listed did; without interference the orphans pass exactly if no orphan is a directory holding anything but desired files |
| Actions.Root.CheckOrphan | src/pyinc/action.py:618-675 | the verdict on one orphan was true at some moment of the check: not there, not its own, its own, or in the way |
| Actions.Root.CheckDesired | src/pyinc/action.py:677-714 | whatever happens meanwhile, a refusal met an obstacle and a path taken as vacant was so at some moment; without interference every desired path is free or will be, exactly |
| Actions.Root.CheckOneDesired | src/pyinc/action.py:677-714 | the same for one path |
| Actions.Root.CheckPrunes | src/pyinc/action.py:716-735 | every directory to prune can be emptied, exactly |
| Actions.Root.ClassifyOutputs | src/pyinc/action.py:737-761 | the lists of the report, in order, by what stood at each path at some moment |
| Actions.Root.ClassifyOne | src/pyinc/action.py:741-761 | the class of one output fits what stood at its path at some moment of the check |
| Actions.ClassFits | src/pyinc/action.py:741-761 | created, updated, repaired or unchanged, said apart from the branches: by whether a file stands there, whether it has the desired bytes, and whether the ledger records it with other bytes |
| Actions.Root.DeleteOrphans | src/pyinc/action.py:770-798 | every deletion was an orphan read with the recorded bytes; each listed orphan was deleted in this run or at some moment was not there as recorded; those deleted are reported in order; without interference exactly the owned orphans go |
| Actions.Root.DeleteOrphan | src/pyinc/action.py:775-796 | one orphan: deleted and logged, or at some moment not there as recorded, or an obstacle was met |
| Actions.Root.UnlinkOrphan | src/pyinc/action.py:792-796 | the orphan that was read goes, or it was no longer that file |
| Actions.Root.PruneDirectories | src/pyinc/action.py:800-813 | every directory to prune was removed in this run or at some moment was not one; without interference, deepest first, every directory is empty when its turn comes |
| Actions.Root.Prune | src/pyinc/action.py:803-813 | one directory: removed and logged, or at some moment not one, or an obstacle was met |
| Actions.Root.WriteOutputs | src/pyinc/action.py:815-821 | when it is done each output listed has been written in this run with its bytes, whatever was edited meanwhile, and nothing else; a failure met an obstacle; without interference stopping leaves a resumable tree |
| Actions.Root.WriteOutput | src/pyinc/action.py:815-821 | one output: written and logged, or an obstacle was met, or the process ended |
| Actions.Root.CarryOut | src/pyinc/action.py:770-821 | after the mutations every orphan was deleted or at some moment not as recorded, every directory to prune was removed or at some moment not one, and every desired path was written or at some moment held exactly its bytes |
| Actions.Root.Preflight | src/pyinc/action.py:558-768 | without interference, refused exactly if the tree does not pass, and nothing is touched |
| Actions.Root.Reconcile | src/pyinc/action.py:558-837 | with interference too: refused only for an obstacle met at some moment; finished, every desired path was written in this run or at some moment held exactly its bytes, every orphan and directory was dealt with likewise, the lists of the report are what was seen, the deleted ones exactly the deletions logged, in order, and the ledger is the desired set; every mutation was allowed and logged; without interference: refused untouched exactly if the tree does not pass, or ends reconciled, a dry run reporting the same lists |
| Actions.Accounted | docs/action-contract.md:194-198 | a file gone by the end went by an edit from outside, or was an orphan read with the recorded bytes one event before and unlinked under the same identity, or was replaced by a desired output |
| Actions.GoneByWhom | src/pyinc/action.py:775-798 | no file leaves the tree without an event that took that very file |
| Actions.ReportUnique | src/pyinc/action.py:830-837 | one tree and one desired set have one report, so a dry run predicts the real one |
| Actions.ReconcileAgain | docs/action-contract.md:137-140 | a run cut short and repeated converges over a shallow change; a run after a finished one reports everything unchanged |
| CalcSource.ParseExpr | examples/calc/engine.py:86-111 | tokens are accepted exactly if operators and operands alternate, up to a first sign, and then as one term for each operand, in order, negative exactly if the token just before it is a minus; otherwise which is missing and where first; equivalently, exactly if they spell an expression, and then as that one |
| CalcSource.NotComplete | examples/calc/engine.py:99-111 | where an operand or an operator is missing the tokens do not alternate |
| CalcSource.SpellsOne | examples/calc/engine.py:86-111 | tokens spell at most one expression |
| CalcSource.ParsePrinted | examples/calc/engine.py:86-111 | round trip: an expression written out is read back as it was |
| CalcSource.MergeBindings | examples/calc/engine.py:210-213 | a name keeps its first binding and every name met is bound |
| CalcSource.QueueIncludes | examples/calc/engine.py:214-218 | the next level is exactly what the level leads to and was not visited, each file once, in the order of the include lines |
| CalcSource.LevelInOrder | examples/calc/engine.py:203-220 | the files of a level come in the order of the include lines that first lead to them |
| CalcSource.WithinStable | examples/calc/engine.py:203-221 | once a level adds nothing, no deeper one does, so stopping on an empty queue misses nothing |
| CalcSource.BindingTable | examples/calc/engine.py:190-222 | the files are read level by level, in include order, exactly those within 63 includes of the root, each once; each name is bound once, by the first binding in that order, and names come in the order of those bindings |
| Calc.CycleFinder.Visit | examples/calc/engine.py:253-263 | a visited name is finished, the stack is as before, and the search invariant holds |
| Calc.BackEdge | examples/calc/engine.py:258-259 | everything on the stack above a back edge lies on the cycle it closes |
| Calc.OrderFalls | examples/calc/engine.py:253-263 | down any walk the finishing order falls until a reported name is met |
| Calc.BindingCycles | examples/calc/engine.py:237-268 | each reported name lies on a cycle of reported names, every cycle has one, and where no name has two ways back to itself all names on cycles are reported |
| Calc.AllReported | examples/calc/engine.py:237-268 | with one way back, being reported spreads along a cycle to all its names |
| Calc.SearchOmits | examples/calc/engine.py:256-261 | a table on which the search leaves out a name that is on a cycle |
| Calc.EvaluateName | examples/calc/engine.py:271-288 | it ends; a value is the meaning of the name; an error is of the name found by following, from name to name, the first term that has no value, to one that is unbound or reported on a cycle |
| Calc.NoReturn | examples/calc/engine.py:271-288 | evaluation never comes back to a name it is in the middle of |
| Calc.DefinedIsWellFounded | examples/calc/engine.py:271-288 | only names over well-founded references have a meaning |
| Calc.Evaluate | examples/calc/engine.py:271-288 | a value exactly if every name reached is bound and on no cycle; it is the one value all solutions of the binding equations below the name agree on; otherwise the error of the first term without a value, followed down |
| Calc.SolutionIsDenoted | examples/calc/engine.py:271-288 | whatever solves the binding equations agrees with the denoted values |
| Calc.DenotedSolves | examples/calc/engine.py:271-288 | the denoted values solve the binding equations |
| AliasEdits.DeletionEdits | src/pyinc_tools/_edits.py:163-269 | edits are disjoint, touch no alias that stays, and leave the list of those that stay with one original separator between neighbours |
| AliasEdits.EditRun | src/pyinc_tools/_edits.py:191-268 | a run is cut exactly if the positions its edit needs are known |
| AliasEdits.RunFrom | src/pyinc_tools/_edits.py:188-191 | the maximal run of dead aliases |
| AliasEdits.RunCut | src/pyinc_tools/_edits.py:224-268 | cutting a run with its separator keeps the list well-formed, in the middle, at the end, and when nothing is left |
| AliasEdits.GoesExactly | src/pyinc_tools/_edits.py:188-268 | a dead alias goes exactly if every alias of its run has both positions, and the neighbour its edit reaches has the one it needs |
| AliasEdits.KnownPositionsStay | src/pyinc_tools/_edits.py:192-199 | with all positions known exactly the aliases that are not dead stay |
| Views.StrictView | src/pyinc/runtime.py:4497-4580 | one new container per index, filled with what the stored one holds, references replaced by the containers themselves; every other stored position has a new container of its own; nothing stored is written |
| Views.Resolve | src/pyinc/runtime.py:4531-4556 | a cell is rebuilt entirely from new containers, each used once |
| Views.OneForEach | src/pyinc/runtime.py:4531-4556 | different stored positions show different containers, so the view shares exactly what was named by a reference |
| Views.ViewShowsStored | src/pyinc/runtime.py:4497-4580 | read to any depth, around cycles too, the view shows what is stored |

## Left out

- Hypotheses of the consistency results: bodies do not handle the raise of an unset input or of a first
  resource observation whose probe raises too (the model ends the body there), since neither leaves an edge
  or a mark; the world stands still during a request; an unobservable raise carries no payload; values are
  compared by the default equality, and equal digests mean equal values.
- Databases.Database.RunBody: a body that catches the exception of a sub-query. The original marks it untracked
  (src/pyinc/runtime.py:2216-2240): it runs again in every request and is not saved, so its own answer never comes
  from a record; with eviction its readers fall under the condition on untracked reads.
- Custom `eq` and `cutoff` policies and adapters: consistency holds up to the policy or adapter only.
- Capture fingerprinting: a query is a fixed key, and its program does not change over a run.
- Ambient-read guards, thread-start wrapping, observers, statistics, `inspect` and `explain`.
- Databases.Database.VerifyRestored: a restored record verified through its edges is marked as checked for
  the request; the original walks the edges again each time it is met, which finds the same.
- Databases.Database.WarmRecord: where a request has stopped the original goes on.
- Databases.Database.VerifyDeps: within a kind, dependencies are looked at in any order; the original has one.
- Databases.Database.StoreVerified: where the model stops, or a record stands that carries the saved answer, the
  original stores the saved one.
- Databases.Database.Install: a record restored over dependencies all brought up to date in the request is marked as
  checked; the original verifies it when it is met, which finds them as they are.
- Databases.Database.Discard: the original drops the record in every case; the model stops where another reads it.
- Steps.RestoreStep: with records that can be evicted, only where every query record is as of the revision as it is;
  the original stores in every case, and `Unsettled.UncheckedIsStale` shows what may come of it.
- Databases.Database.Fetch: the query object is at hand for the whole call; in the original a nested call that raises
  may drop it, and later readers then count the query as changed once more.
- Warming.LoadCheckpoint: parsing, versions, modes, labels and adapter keys of a manifest, and the store;
  probe hints, which only save a load. Which queries and resources are pinned, and whose code, policy or adapters
  differ, are parameters (`pinned`, `damaged`).
- Checkpoints.SavedKeys: which records carry the `checkpointable` mark and have their call or parameter at hand is
  a parameter (`writable`).
- Concurrent `set` and engine state in one model: `Spans` follows request ids, check marks and the epoch, not
  the values.
- Actions: the ledger lies outside the root, paths equal up to portable spelling are one path, digests stand for
  bytes; symbolic links, file descriptors, locks, temporary files, root incarnation and ledger parsing.
- Actions.Root.Unlink: checking the identity and unlinking are one step; in the original the instant between them
  stays open (docs/action-contract.md:124-126).
- Actions.Root.SafeTarget: symbolic links on the way and escapes from the root, which are refused.
- Actions.Root.Preflight: refusals of desired paths that are spelling twins, and of those in conflict with the place
  of the ledger.
- PathSets.ValidatePathSet: normalisation and the portable key are parameters.
- AliasEdits.DeletionEdits: line and column positions are mapped to text offsets by a parameter.
- Views.StrictView: adapted values, and the sharing of all-leaf tuples, which have no identity in the model.
- CalcSource.BindingTable: file names are normalised and resolved by a parameter; splitting lines and tokens is not
  part of the model.
- JSON-RPC, code generation, benchmarks and release scripts: easy members.
