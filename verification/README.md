# Verified models of the course projects

Dafny models of the concurrent and data-processing parts of this repository, with proofs of what those
parts are for. Four groups:

* **Barriers** (`project2`). One abstract specification (`BarrierSpec.dfy`): every participant counts the
  episodes it has entered and left, and may leave episode *e* only when everybody has entered *e*. Five
  implementations are interleaved step systems, one program counter per participant, any number of
  participants and any number of episodes, each proved to refine the specification (every run is a behaviour
  of it, `Refinement.dfy`) and to complete every episode under every fair schedule, with a bound on how long that
  takes: the sense-reversing barrier (`SenseReversal.dfy`), the shared-memory MCS tree (`McsShared.dfy`), the
  dissemination barrier (`Dissemination.dfy`), the MCS tree over messages (`McsMessages.dfy`), and the two-level
  barrier (`Combined.dfy`), which reuses the models of its two parts.
  `FairRuns.dfy` holds what is common to all arguments about schedules.
* **Map-reduce data path** (`project4`). Sharding (`Sharding.dfy`), pairs as text (`Pairs.dfy`), buffered
  emission and map jobs (`MapTask.dfy`), parsing, grouping and reducing (`ReduceTask.dfy`), word count
  (`WordCount.dfy`), and the whole run (`Pipeline.dfy`): what comes out equals a sequential group-by over the
  lines of the input files. `SplitPoints.dfy` says which inputs sharding accepts, and `MasterPipeline.dfy`
  runs the jobs that the master itself sends, and gets the same outputs.
* **Allocators** (`project1-1`). The vCPU scheduler (`CpuScheduler.dfy`) against every other assignment
  (`LongestFirst.dfy`), its branch for few VMs (`FewVms.dfy`), and the memory coordinator over runs (`MemoryCoordinator.dfy`).
* **Shared-state protocols.** The master's dispatch and failure bookkeeping: the map phase (`MasterSpec.dfy`), the
  reduce phase and the intermediate files on top of it (`ReduceSpec.dfy`), the class (`Master.dfy`), and runs that go
  wrong (`MasterMishap.dfy`, `ReduceMishap.dfy`); and the locked doubly linked queue with its producer and consumers (`LinkedQueue.dfy`,
  `ProducerConsumer.dfy`).

Code that changes variables step by step is a class or a method over arrays, proved equal to a step function
on values; the lemmas are about the step function. `dafny verify dfyconfig.toml` checks everything.

## How to read the models

* Shared memory is sequentially consistent; one access to a shared variable is one step. In the
  sense-reversing barriers entering is the read of `sense`.
* Messages between two processes with one tag are delivered in the order sent (the non-overtaking rule of
  section 3.5 of MPI-3.1), `MPI_Isend` never blocks, and `MPI_ANY_SOURCE` may choose any source that has a
  message waiting: the scheduler's label carries the choice.
* `entered`, `left`, `flips`, the tags on messages, `removed`, `printed`, `errors`, `rescanned`, `lost`,
  `restarted`, `answered` and `droppedEarly` are history: no branch of a program reads them.
* `ceil(log2(P))` is the least k with 2^k >= P. `RingArithmetic.PartnersFitInt32` shows that the partner
  computation stays within `int` for up to 2^30 processes; other integers are unbounded except where stated.
* A worker's intermediate files are numbered by its address and the partition. That the first name with a worker's
  port in it is that of its partition 0 (line 130 of `master.cc`) supposes that no port occurs in another name.
* A file is its sequence of characters. A hash function, a mapper, a reducer, a schedule and all readings of
  the hypervisor are parameters.
* Loads and usages are `real`; a standard deviation above 5 is a variance above 25.

## Where the code does not do what it is for

* `shard_files` fails on an input whose last remainder is exactly the shard budget.
  `SplitPoints.SplittableIff`: for files that end in newlines it succeeds if and only if no non-empty file ends
  one budget after a place at which a shard is closed; `SplitPoints.EnoughToSplit` is a sufficient condition that
  can be checked without cutting, and `Sharding.ExactFitFails` the simplest failing input. The project's
  description computes the number of shards as ceil(total / budget); the code makes at most that many.
* The scheduler's `new_mapping` uses 0 for "empty" although VM 0 exists. `CpuScheduler.ApartIff`: the heaviest
  VMs end on distinct pCPUs if and only if none of them goes for the pCPU of VM 0, in terms of the placement that
  would record which pCPUs are in use. `CpuScheduler.HeavyApartIff`: this holds for every current mapping if and
  only if VM 0 is not among the `n_host_cpus - 1` heaviest. The results about workloads assume no more than that
  the heaviest do end apart.
* With at most as many VMs as pCPUs the scheduler means to give each its own. A tick moves only the first VM that
  collides with one of the VMs 1, 2, ... before it, and pins it to every free pCPU in turn, so to the last
  (`FewVms.TickMovesOne`); `FewVms.OneEachIff` says exactly when that gives every VM a pCPU of its own. After
  n - 2 ticks nothing moves any more (`FewVms.Settles`), and whoever then shares a pCPU with VM 0 does so for ever
  (`FewVms.SharedWithVmZero`, `FewVms.SettledApartIff`).
* The memory coordinator subtracts without checking. `MemoryCoordinator.HostKeepsReserveIff`: the host keeps
  its reserve if and only if the shortfall does not exceed its free memory; `ReserveOverdrawn` is an instance
  of the other case.
* The master counts answers, not shards. `MasterSpec.CompletesIff`: in every reachable state the map phase is
  declared complete exactly if nothing is unfinished and the live workers have given one answer for each shard
  and one more for each error. When a worker dies that has been sent nothing, the master sends all shards again,
  and the phase can be declared complete while a shard has been answered for by nobody:
  `MasterMishap.PrematureCompletion`. Without errors every shard has been answered for at completion exactly if none
  has been answered for more often than it occurs; with e errors, exactly if there are e answers too many
  (`MasterSpec.AllAnsweredForIff`). Nothing is outstanding exactly under the condition of
  `MasterSpec.NothingOutstandingIff`, and in every run in which no pass starts over (`MasterSpec.RunDone`).
* The reduce phase counts output files in the same way. `ReduceSpec.AllReducedIff`: at completion every partition
  has been reduced exactly if none has been reduced twice; that is so in every run, failures included, in which no
  pass over the partitions starts over (`ReduceSpec.RunReduced`). When an idle worker dies the pass does start over,
  and `ReduceMishap.NeverReduced` is a run in which a partition is then never reduced. Once there are more answers
  than partitions the phase never completes (`ReduceSpec.OvershootBlocksCompletion`).
* The master means to give the partitions of a failed worker to another one, but no client records its partitions: a
  lost one is sent again only if the whole pass starts over (`ReduceSpec.LossBlocksCompletion`).
* When a worker fails in the map phase its shards are mapped again, but of its intermediate files only the first is
  removed. `ReduceSpec.StaleFilesIff`: its other files are reduced as well exactly if there are two partitions or
  more; `ReduceMishap.ReducedTwice` is the shortest such run, in which the only shard is reduced twice.
* The README of `project4` says that a job whose request timed out is given to another worker. In the code an
  error reply only lowers the count of answers: `MasterSpec.ErrorBlocksCompletion` shows that whatever follows,
  the map phase is not declared complete unless a whole pass over the shards starts over; `MasterSpec.ErrorReply`
  is the shortest such run.
* A comma in a key, or a newline in a key or a value, does not survive the intermediate files: `Pairs.SurvivesIff`.
  A file is parsed back to the pairs printed to it if and only if there is no such pair among them.

## Model

| member | source | states |
|---|---|---|
| BarrierSpec.NextSafe | project2/omp/gtmp1.c:16-24 | what every barrier must guarantee: a step that obeys the leave rule keeps it that whoever has left episode e proves that all have entered e |
| BarrierSpec.BehaviourSafe | project2/omp/gtmp1.c:16-24 | so it is at every point of every behaviour of the specification |
| Refinement.RunRefines | project2/omp/gtmp1.c:16-24 | an implementation that starts in an initial abstract state and whose steps are abstract steps has only behaviours of the specification as runs |
| FairRuns.EpisodesFinish | project2/omp/gtmp1.c:16-24 | if a number of fair rounds takes everybody from having left one episode to having left the next, e times as many take everybody out of episode e |
| FairRuns.FairRunFinishes | project2/omp/gtmp1.c:16-24 | a measure that every enabled actor lowers, and that leaves somebody enabled while positive, reaches zero under every schedule that keeps giving each actor a turn |
| SenseReversal.Barrier.constructor | project2/omp/gtmp1.c:10-14 | the initial count and sense |
| SenseReversal.Barrier.Advance | project2/omp/gtmp1.c:16-24 | each atomic action on `count` and `sense` does exactly the model's step |
| SenseReversal.Barrier.Execute | project2/omp/gtmp1.c:16-24 | any interleaving from any reachable state keeps the invariant and barrier safety |
| SenseReversal.StepInv | project2/omp/gtmp1.c:16-24 | `count` plus arrivals is the number of threads, there is at most one last thread, it resets before it flips, and `my_sense` stays the opposite of `sense` until the flip |
| SenseReversal.NotLastWhilePending | project2/omp/gtmp1.c:18 | as long as another thread has not decremented, a decrement does not find 1 |
| SenseReversal.StepRefines | project2/omp/gtmp1.c:16-24 | every step is an enter, a permitted leave, or invisible in the specification |
| SenseReversal.StartInv | project2/omp/gtmp1.c:10-24 | the start satisfies the invariant and is an initial state of the specification |
| SenseReversal.RunRefines | project2/omp/gtmp1.c:10-24 | every run, under any schedule, is a behaviour of the specification that starts in an initial state |
| SenseReversal.RunSafe | project2/omp/gtmp1.c:16-24 | in every reachable state a thread that has left episode e implies that all have entered e |
| SenseReversal.SomeoneEnabled | project2/omp/gtmp1.c:18-23 | once all have entered, somebody who is still inside can do more than spin |
| SenseReversal.EpisodeCompletes | project2/omp/gtmp1.c:16-24 | an episode that all have entered completes under every fair schedule, from every reachable state |
| SenseReversal.EveryEpisodeCompletes | project2/omp/gtmp1.c:16-24 | from the start, for every e: e times n * 5 + 1 rounds, in each of which everybody gets a turn, make all leave e episodes |
| RingArithmetic.Partners | project2/mpi/gtmpi1.c:22-23 | in every round both partners are valid ranks other than one's own, and sending and receiving partner are inverse to each other |
| RingArithmetic.PartnersFitInt32 | project2/mpi/gtmpi1.c:22-23 | with up to 2^30 processes neither the shift nor any sum or difference, with or without `num_process`, leaves the range of int |
| RingArithmetic.BackReaches | project2/mpi/gtmpi1.c:11-14 | every rank is less than 2^num_rounds places back on the ring |
| Dissemination.OneRoundPerChannel | project2/mpi/gtmpi1.c:21-31 | different rounds use different directed channels, so one tag is enough |
| Dissemination.ReceiveMatches | project2/mpi/gtmpi1.c:31 | the message received in a round is the one that the partner sent in that round of that episode |
| Dissemination.MessageMeaning | project2/mpi/gtmpi1.c:29 | a message of round r says that the 2^r ranks up to its sender have entered the episode |
| Dissemination.ChannelBound | project2/mpi/gtmpi1.c:29-31 | no channel ever holds more than two messages |
| Dissemination.KnowledgeDoubles | project2/mpi/gtmpi1.c:21-32 | completing round r means that the 2^(r+1) ranks up to one's own have entered |
| Dissemination.AllRoundsDone | project2/mpi/gtmpi1.c:21-32 | completing all rounds means that every process has entered |
| Dissemination.StepInv | project2/mpi/gtmpi1.c:16-33 | every step keeps what is known about rounds and channel contents |
| Dissemination.StepRefines | project2/mpi/gtmpi1.c:16-33 | every step is an enter, a permitted leave, or invisible in the specification |
| Dissemination.StartInv | project2/mpi/gtmpi1.c:11-33 | the start satisfies the invariant and is an initial state of the specification |
| Dissemination.RunRefines | project2/mpi/gtmpi1.c:11-33 | every run, under any schedule, is a behaviour of the specification that starts in an initial state |
| Dissemination.RunSafe | project2/mpi/gtmpi1.c:16-33 | safety in every reachable state, for every number of processes and episodes |
| Dissemination.LeastAdvancedEnabled | project2/mpi/gtmpi1.c:21-32 | the process that is furthest behind never waits for an empty channel |
| Dissemination.EpisodeCompletes | project2/mpi/gtmpi1.c:16-33 | an episode that all have entered completes under every fair schedule |
| Dissemination.EveryEpisodeCompletes | project2/mpi/gtmpi1.c:16-33 | from the start, for every e: e times n * (2 * num_rounds + 2) + 1 rounds, in each of which everybody gets a turn, make all leave e episodes |
| Dissemination.World.constructor | project2/mpi/gtmpi1.c:11-14 | the initial state, with num_rounds the least exponent |
| Dissemination.World.Advance | project2/mpi/gtmpi1.c:16-33 | each send or receive does exactly the model's step |
| Dissemination.World.Execute | project2/mpi/gtmpi1.c:16-33 | any interleaving from any reachable state is a run of the model and safe |
| McsShared.Barrier.constructor | project2/omp/gtmp2.c:9-47 | the loops build the 4-ary arrival tree and the binary wakeup tree |
| McsShared.Barrier.LinkChildren | project2/omp/gtmp2.c:27-31 | the loop marks exactly the children that exist |
| McsShared.Barrier.LinkWakeups | project2/omp/gtmp2.c:38-45 | the loops point at exactly the binary children that exist, and at nothing else |
| McsShared.Barrier.Advance | project2/omp/gtmp2.c:49-66 | each access to a node does exactly the model's step |
| McsShared.Barrier.Wake | project2/omp/gtmp2.c:60-64 | a wakeup writes the parent_sense of the child pointed at, if any, and nothing else |
| McsShared.Barrier.Execute | project2/omp/gtmp2.c:49-66 | any interleaving from any reachable state is a run of the model and safe |
| McsShared.WordMeaning | project2/omp/gtmp2.c:52 | the word `cn.value` is 0 exactly when all children of the node have arrived |
| McsShared.SignalFindsFlagSet | project2/omp/gtmp2.c:56 | an arrival is never signalled on a byte that is already 0 |
| McsShared.RearmErasesNothing | project2/omp/gtmp2.c:53 | when `cn` is copied from `hc` no child has yet arrived for the next episode |
| McsShared.WakeOverwritesNothing | project2/omp/gtmp2.c:62 | a parent_sense is only written when its owner has consumed the previous one |
| McsShared.SenseMeaning | project2/omp/gtmp2.c:57 | parent_sense equals sense exactly when the owner has been woken for this episode |
| McsShared.WokenAfterArrivals | project2/omp/gtmp2.c:52-64 | whoever has been woken knows that all threads have arrived |
| McsShared.StepInv | project2/omp/gtmp2.c:49-66 | every step keeps the meaning of every flag and sense |
| McsShared.StepRefines | project2/omp/gtmp2.c:49-66 | every step is an enter, a permitted leave, or invisible in the specification |
| McsShared.StartInv | project2/omp/gtmp2.c:9-66 | the start satisfies the invariant and is an initial state of the specification |
| McsShared.RunRefines | project2/omp/gtmp2.c:9-66 | every run, under any schedule, is a behaviour of the specification that starts in an initial state |
| McsShared.RunSafe | project2/omp/gtmp2.c:9-66 | safety in every reachable state, for every number of threads and episodes |
| McsShared.SomeoneEnabled | project2/omp/gtmp2.c:52-57 | once all have entered, somebody who is still inside can do more than spin |
| McsShared.EpisodeCompletes | project2/omp/gtmp2.c:49-66 | an episode that all have entered completes under every fair schedule |
| McsShared.EveryEpisodeCompletes | project2/omp/gtmp2.c:49-66 | from the start, for every e: e times n * 8 + 1 rounds, in each of which everybody gets a turn, make all leave e episodes |
| McsMessages.OnlyOwnArrivals | project2/mpi/gtmpi2.c:26-31 | whatever source MPI_ANY_SOURCE picks during the arrival loop, the message is this episode's arrival of one of the node's own children |
| McsMessages.AllGathered | project2/mpi/gtmpi2.c:26-31 | at the end of the loop every child has arrived in this episode |
| McsMessages.SomeChildMissing | project2/mpi/gtmpi2.c:26 | as long as the loop has not ended some child's arrival has not been received |
| McsMessages.WokenAfterArrivals | project2/mpi/gtmpi2.c:33-43 | whoever has been woken knows that all processes have arrived |
| McsMessages.StepInv | project2/mpi/gtmpi2.c:15-44 | every step keeps the counters and channel contents that these facts rest on |
| McsMessages.StepRefines | project2/mpi/gtmpi2.c:15-44 | every step is an enter, a permitted leave, or invisible in the specification |
| McsMessages.StartInv | project2/mpi/gtmpi2.c:10-44 | the start satisfies the invariant and is an initial state of the specification |
| McsMessages.RunRefines | project2/mpi/gtmpi2.c:10-44 | every run, under any schedule, is a behaviour of the specification that starts in an initial state |
| McsMessages.RunSafe | project2/mpi/gtmpi2.c:15-44 | in every reachable state the barrier is safe and the assertion at line 28 has not failed |
| McsMessages.EpisodeCompletes | project2/mpi/gtmpi2.c:15-44 | an episode that all have entered completes under every fair schedule, whatever sources are preferred |
| McsMessages.EveryEpisodeCompletes | project2/mpi/gtmpi2.c:15-44 | from the start, for every e: e times n * 11 + 1 rounds, in each of which everybody gets a turn, make all leave e episodes |
| McsMessages.World.constructor | project2/mpi/gtmpi2.c:10-13 | the initial state |
| McsMessages.World.Advance | project2/mpi/gtmpi2.c:15-44 | each send or receive, and the assertion, does exactly the model's step |
| McsMessages.World.FindSource | project2/mpi/gtmpi2.c:27 | a receive from any source takes the preferred source if it has a message, otherwise the lowest |
| McsMessages.World.Execute | project2/mpi/gtmpi2.c:15-44 | any interleaving from any reachable state is a run of the model and safe |
| Combined.NetEntryMeansThreads | project2/combined/combined.c:29-34 | a process enters the dissemination part of an episode only when all its threads have entered the episode |
| Combined.NetExitMeansAll | project2/combined/combined.c:34-46 | a process finishes that part only when all threads of all processes have entered |
| Combined.ThreadExitAfterNet | project2/combined/combined.c:47-51 | no thread returns before its process has finished that part |
| Combined.StepInv | project2/combined/combined.c:24-52 | both parts keep their own invariants, and the last thread of a process is in step with the process |
| Combined.StepRefines | project2/combined/combined.c:24-52 | every step is an enter, a permitted leave, or invisible in the specification of P*T participants |
| Combined.StartInv | project2/combined/combined.c:16-52 | the start satisfies the invariant and is an initial state of the specification |
| Combined.RunRefines | project2/combined/combined.c:16-52 | every run, under any schedule, is a behaviour of the specification that starts in an initial state |
| Combined.RunSafe | project2/combined/combined.c:24-52 | no thread anywhere has left an episode that not all P*T threads have entered |
| Combined.SomeoneEnabled | project2/combined/combined.c:29-51 | once all have entered, some thread that is still inside can do more than spin or wait |
| Combined.EpisodeCompletes | project2/combined/combined.c:24-52 | an episode that all P*T threads have entered completes under every fair schedule |
| Combined.EveryEpisodeCompletes | project2/combined/combined.c:24-52 | from the start, for every e: e times P * 5T + P * (2 * num_rounds + 2) + 1 rounds, in each of which everybody gets a turn, make all leave e episodes |
| Combined.Process.constructor | project2/combined/combined.c:16-22 | the initial count and sense of a process |
| Combined.Process.Advance | project2/combined/combined.c:24-52 | each action of a thread, shared or on the network, does exactly the model's step |
| Text.ReadLines | project4/src/worker_request.cc:61-65 | the getline loop yields exactly the records of the buffer |
| Text.LinesConcat | project4/src/file_shard.h:36-42 | cutting a text just after a newline cuts no record |
| Text.LinesIff | project4/src/worker_request.cc:62-65 | the records of a text that ends in a newline are the one list of strings without newlines that makes up the text |
| Text.LinesOpen | project4/src/worker_request.cc:62-65 | a last record without a newline is read like the others |
| Sharding.CoversLines | project4/src/file_shard.h:56-75 | the records read from ranges that tile a file are the records of the file, in order |
| Sharding.TilesLines | project4/src/file_shard.h:45-76 | the ranges of all files together give exactly the records of all input files in order, and as many bytes as these hold |
| Sharding.ShardFile | project4/src/file_shard.h:50-76 | the while loop on one file succeeds exactly when no remainder equals the budget left, its ranges tile the file with every cut just after a newline, and every closed shard exceeds the budget |
| Sharding.ShardFiles | project4/src/file_shard.h:45-92 | success exactly for splittable inputs; the shards' ranges are the tilings in order; closed shards hold more than the budget and at most budget plus longest record; there are at most ceil(total / budget) shards |
| Sharding.LongestRecord | project4/src/file_shard.h:27-43 | the bound used for the longest cut is the length of the longest record with its newline |
| Sharding.ExactFitFails | project4/src/file_shard.h:62-66 | a single file of exactly the budget cannot be sharded |
| SplitPoints.SplittableIff | project4/src/file_shard.h:27-76 | for files that end in newlines sharding succeeds if and only if all can be opened and none that is not empty ends exactly one budget after a place at which a shard is closed |
| SplitPoints.EnoughToSplit | project4/src/file_shard.h:57-66 | it is enough that one budget before the end of a file there is neither the start of the input nor a line end |
| Sharding.FullTotal | project4/src/file_shard.h:71 | closed shards are so large that their number times the budget is below the bytes they hold |
| Pairs.ParsePrintLine | project4/src/worker_request.cc:135-137 | a printed line that reaches the parser whole is parsed back to its pair if and only if the key has no comma |
| Pairs.PrintParseLine | project4/src/worker_request.cc:135-137 | a parsed line is what was printed for its pair if and only if a blank follows its first comma |
| Pairs.ParseFailsIff | project4/src/worker_request.cc:135-137 | the parser throws exactly for the empty line and for a line whose first comma is its last character |
| Pairs.SurvivesIff | project4/src/worker_request.cc:134-142 | a file is parsed back to the pairs printed to it if and only if no key has a comma and no key or value a newline |
| Pairs.ParsePrintAll | project4/src/worker_request.cc:134-142 | a reducer parses from a file exactly the pairs that were printed to it, in order |
| MapTask.BaseMapperInternal.constructor | project4/src/worker_request.cc:44-50 | an empty buffer over the worker's files |
| MapTask.BaseMapperInternal.Emit | project4/src/mr_tasks.cc:11-16 | what a file will hold after the buffer is dumped grows by exactly this pair, in its own partition; the buffer never exceeds 1000 |
| MapTask.BaseMapperInternal.Dump | project4/src/mr_tasks.cc:18-27 | every file holds what it was going to hold, and the buffer is empty |
| MapTask.MapRecord | project4/src/worker_request.cc:64 | a record adds what its mapper emits, in order |
| MapTask.MapRange | project4/src/worker_request.cc:55-66 | a range adds what its records emit, in order |
| MapTask.HandleMapJob | project4/src/worker_request.cc:39-76 | whatever the buffering, file i grows by exactly the pairs of partition i that the records of the shard emit, in order |
| ReduceTask.ValuesOfPart | project4/src/mr_tasks.cc:19-21 | a key has all its values, in order, in its own partition and none elsewhere |
| ReduceTask.AddFile | project4/src/worker_request.cc:133-142 | the map groups exactly the pairs parsed so far; it fails exactly on an unparsable line |
| ReduceTask.GroupFiles | project4/src/worker_request.cc:124-144 | the map groups exactly the pairs of all files that can be opened |
| ReduceTask.LeastExists | project4/src/worker_request.cc:146 | the order of std::map has a least key, so iteration in key order is possible |
| ReduceTask.LexLessIff | project4/src/worker_request.cc:124 | the order of the keys: at the first difference the smaller character decides, and a proper prefix comes first |
| ReduceTask.HandleReduceJob | project4/src/worker_request.cc:114-153 | every key is reduced once, each before the next as std::string compares them, with exactly its values in file order |
| WordCount.StrTok | project4/test/user_tasks.cc:17 | skipping delimiters and taking a word removes exactly the first word |
| WordCount.UserMap | project4/test/user_tasks.cc:12-24 | the strtok_r loop emits each word of the line, in order, with value 1 |
| WordCount.CStrIs | project4/test/user_tasks.cc:13-14 | what strcpy copies is the line, or what is before its first NUL |
| WordCount.WordsAreRuns | project4/test/user_tasks.cc:15-21 | the words are the maximal runs of characters other than blank, comma, full stop and the two quotes, from left to right |
| WordCount.MapperEmitsRuns | project4/test/user_tasks.cc:12-24 | for a line without NUL the mapper emits exactly these runs, in this order, each with the value 1 |
| WordCount.CountIsRuns | project4/test/user_tasks.cc:15-21 | a word is among the words of a text as often as there are runs that spell it |
| WordCount.OccurrencesArePlaces | project4/test/user_tasks.cc:12-24 | in records without NUL a word occurs as often as there are pairs of a record and a position where it is a run |
| WordCount.WordsConcat | project4/test/user_tasks.cc:15-21 | a delimiter separates the words before it from the words after it |
| WordCount.WordPairsAreClean | project4/test/user_tasks.cc:19 | what the mapper emits survives the intermediate files |
| WordCount.AtoiToString | project4/test/user_tasks.cc:33-34 | reading back a printed number gives the number |
| WordCount.AtoiReads | project4/test/user_tasks.cc:33 | white space, a sign and a numeral before anything but a digit: the numeral counts, with its sign |
| WordCount.AtoiOfNone | project4/test/user_tasks.cc:33 | where no numeral follows the result is 0 |
| WordCount.NumeralIff | project4/test/user_tasks.cc:34 | std::to_string of a number is the one string of digits without a leading zero whose positional value it is |
| WordCount.UserReduce | project4/test/user_tasks.cc:28-35 | the emitted total is the sum of the values |
| WordCount.SumOfOnes | project4/test/user_tasks.cc:30-34 | the sum of ones is their number |
| WordCount.ValuesOfWord | project4/test/user_tasks.cc:12-24 | a word gets exactly one value 1 for each of its occurrences in the records |
| Pipeline.WorkersAreJobs | project4/src/worker_request.cc:39-76 | the workers together emit what the shards emit, whichever worker maps which shard |
| Pipeline.SumOverPermuted | project4/src/master.cc:324-345 | the order in which shards are mapped does not matter |
| Pipeline.PartitionMeaning | project4/src/worker_request.cc:39-76 | if every shard is mapped once, partition i has for each of its keys exactly the values of a sequential pass over all records of all files, and nothing for other keys |
| Pipeline.PartitionParsed | project4/src/worker_request.cc:125-144 | the reducer parses from the intermediate files of a partition exactly the pairs of that partition |
| Pipeline.MapPhase | project4/src/worker_request.cc:39-76 | after all map jobs every file of every worker holds exactly the printed pairs of its partition |
| Pipeline.ReducePhase | project4/src/worker_request.cc:114-153 | every output file is the reduction of the pairs of its partition in ascending key order |
| Pipeline.MapReduce | project4/src/file_shard.h:45-92 | the whole run fails only if sharding does; otherwise every partition is reduced over exactly its keys with the values of the sequential run |
| Pipeline.OutputIsSequential | project4/src/worker_request.cc:146-148 | for a reducer that does not depend on the order of values, every output file is determined by the input records alone |
| Pipeline.SumReducerOrderFree | project4/test/user_tasks.cc:28-35 | the word-count reducer is such a reducer |
| Pipeline.CountTextReads | project4/src/mr_tasks.cc:33-37 | an output text read back: one line for each word, in order, with the word, a blank and the decimal number of the places where it is in the records |
| Pipeline.CountWords | project4/test/user_tasks.cc:10-36 | word count end to end: output file i lists in ascending order exactly the words of its partition, each with the number of its occurrences in all input files; read back, each line is such a word, a blank and the decimal number of its places in the input |
| MasterPipeline.MasterYieldsJobs | project4/src/master.cc:323-357 | a failure-free run of the master that completes the map phase maps every shard exactly once, and every worker maps what it was sent in that order |
| MasterPipeline.MasterRunIsSequential | project4/src/master.cc:323-357 | after such a run partition i of the workers' files has for each of its keys exactly the values of a sequential pass over all records of all files |
| MasterPipeline.MapReduceUnderMaster | project4/src/master.cc:301-412 | the program with the master in it: if a failure-free run of the master ends, the outputs of the jobs it sent are those of one pass over all records |
| MasterPipeline.CountWordsUnderMaster | project4/test/user_tasks.cc:10-36 | word count under the master: each output lists exactly the words of its partition with the decimal number of their places in the input |
| LongestFirst.LptBound | project1-1/cpu/src/vcpu_scheduler.c:310-354 | no machine ends above 4/3 - 1/(3m) times what any assignment of the same jobs needs |
| LongestFirst.LargeJobImpossible | project1-1/cpu/src/vcpu_scheduler.c:340-354 | a job above a third of the optimum never ends a machine above the optimum |
| LongestFirst.BoundIsReached | project1-1/cpu/src/vcpu_scheduler.c:340-354 | the factor is attained with two machines |
| CpuScheduler.CmpVmUsageOrders | project1-1/cpu/src/vcpu_scheduler.c:179-189 | the comparator is a total preorder, heaviest first |
| CpuScheduler.Sort | project1-1/cpu/src/vcpu_scheduler.c:291 | the usages are sorted by the comparator and are the same usages |
| CpuScheduler.CalculatePcpuWorkload | project1-1/cpu/src/vcpu_scheduler.c:172-177 | each workload is the sum of the usages of the VMs mapped there |
| CpuScheduler.CalculateVariance | project1-1/cpu/src/vcpu_scheduler.c:191-207 | the two loops compute the variance, whose root is the standard deviation: twice it times m^2 is the sum of the squared differences of all pairs of workloads |
| CpuScheduler.VarianceIsPairwise | project1-1/cpu/src/vcpu_scheduler.c:191-207 | so it is for any workloads |
| CpuScheduler.UnbalancedIff | project1-1/cpu/src/vcpu_scheduler.c:287 | the scheduler acts if and only if the squared differences of all pairs of workloads add up to more than 50 m^2 |
| CpuScheduler.LoadOfOne | project1-1/cpu/src/vcpu_scheduler.c:172-177 | a single VM loads its own pCPU with its usage, and no other |
| CpuScheduler.LoadOfConcat | project1-1/cpu/src/vcpu_scheduler.c:172-177 | the load of two lists of VMs is the sum of their loads |
| CpuScheduler.PlaceOneHeavy | project1-1/cpu/src/vcpu_scheduler.c:314-333 | a VM stays where it is if that pCPU counts as empty and otherwise goes to the first that does |
| CpuScheduler.FindMin | project1-1/cpu/src/vcpu_scheduler.c:341-348 | the loop finds the first pCPU of least load |
| CpuScheduler.Rebalance | project1-1/cpu/src/vcpu_scheduler.c:310-355 | the pins and workloads are those of the placement function |
| CpuScheduler.CPUScheduler | project1-1/cpu/src/vcpu_scheduler.c:279-356 | nothing is pinned unless the workloads are unbalanced; otherwise few VMs are spread out, and more than there are pCPUs are pinned by the placement of the sorted usages |
| FewVms.SpreadVms | project1-1/cpu/src/vcpu_scheduler.c:296-308 | the two loops pin what the function that places one VM after the other pins |
| FewVms.TickMovesOne | project1-1/cpu/src/vcpu_scheduler.c:296-308 | after the pins only the first VM that collides has moved, to the last pCPU that was free; there always is one |
| FewVms.PinsNothingIff | project1-1/cpu/src/vcpu_scheduler.c:296-308 | nothing is pinned if and only if the VMs other than VM 0 run on pCPUs of their own |
| FewVms.OneEachIff | project1-1/cpu/src/vcpu_scheduler.c:296-308 | the tick gives every VM a pCPU of its own if and only if they had them, or the others are apart and none is on the last free pCPU |
| FewVms.Settles | project1-1/cpu/src/vcpu_scheduler.c:296-308 | after t ticks the VMs 1 to t + 1 are apart; VM 0 is never moved |
| FewVms.SharedWithVmZero | project1-1/cpu/src/vcpu_scheduler.c:298-299 | if only VM 0 shares its pCPU, no number of ticks changes anything |
| FewVms.SettledApartIff | project1-1/cpu/src/vcpu_scheduler.c:296-308 | after n - 2 ticks nothing changes, and the VMs are apart if and only if none shares with VM 0 |
| CpuScheduler.PlacedAll | project1-1/cpu/src/vcpu_scheduler.c:313-354 | every VM gets a valid pCPU, whatever the ids are |
| CpuScheduler.EachPinnedOnce | project1-1/cpu/src/vcpu_scheduler.c:313-354 | a rebalancing pins every VM exactly once |
| CpuScheduler.ApartIff | project1-1/cpu/src/vcpu_scheduler.c:313-334 | for any current mapping: the heaviest VMs end on distinct pCPUs, and where they should, if and only if none of them finds its pCPU to be that of VM 0, or taken while all pCPUs below that of VM 0 are in use |
| CpuScheduler.HeavyApartIff | project1-1/cpu/src/vcpu_scheduler.c:313-334 | they do so for every current mapping if and only if VM 0 is not among the m - 1 heaviest |
| CpuScheduler.FitsMeansApart | project1-1/cpu/src/vcpu_scheduler.c:313-334 | if it is not, they end apart |
| CpuScheduler.Collision | project1-1/cpu/src/vcpu_scheduler.c:316-325 | in every other case some mapping makes two of the heaviest share a pCPU |
| CpuScheduler.WorkloadsAreLoads | project1-1/cpu/src/vcpu_scheduler.c:310-354 | if the heaviest VMs end apart, the workloads kept while placing are the sums of the usages pinned |
| CpuScheduler.PlacementIsLpt | project1-1/cpu/src/vcpu_scheduler.c:310-354 | if the heaviest VMs end apart, the scheduler places longest first on least loaded pCPUs |
| CpuScheduler.SchedulerBound | project1-1/cpu/src/vcpu_scheduler.c:310-354 | then every final workload is at most 4/3 - 1/(3m) times what any other mapping of the same VMs needs |
| CpuScheduler.SpreadBound | project1-1/cpu/src/vcpu_scheduler.c:335-354 | then the final spread is at most the spread of the m heaviest usages or the heaviest of the others |
| CpuScheduler.VarianceBound | project1-1/cpu/src/vcpu_scheduler.c:191-207 | the variance is at most a quarter of the squared spread |
| CpuScheduler.LoadOfPermuted | project1-1/cpu/src/vcpu_scheduler.c:172-177 | a load does not depend on the order in which the VMs are listed |
| CpuScheduler.NextTickIff | project1-1/cpu/src/vcpu_scheduler.c:279-289 | with unchanged usages, and every VM where it was pinned, the next tick acts if and only if the variance of the final workloads exceeds 25 |
| CpuScheduler.StaysBalanced | project1-1/cpu/src/vcpu_scheduler.c:287-354 | with a final spread of at most 10 it pins nothing |
| CpuScheduler.EvenUsagesStay | project1-1/cpu/src/vcpu_scheduler.c:310-354 | the final spread is at most 10 if the m heaviest usages are at most 10 apart and the others at most 10 |
| CpuScheduler.PinsHold | project1-1/cpu/src/vcpu_scheduler.c:237-244 | after the pins of a rebalancing every VM runs where it was pinned |
| CpuScheduler.TwoTicks | project1-1/cpu/src/vcpu_scheduler.c:86-92 | two ticks with the same usages: the second pins nothing if and only if the variance after the first is at most 25, or, with few VMs, if the VMs other than VM 0 are apart |
| MemoryCoordinator.ClassifyAll | project1-1/memory/src/memory_coordinator.c:133-156 | statuses, needed and available memory are those of the readings |
| MemoryCoordinator.ResizeAll | project1-1/memory/src/memory_coordinator.c:167-179 | with enough for all, every balloon moves as its status says |
| MemoryCoordinator.ResizeSome | project1-1/memory/src/memory_coordinator.c:180-193 | otherwise as many VMs are inflated as give memory, first come first served |
| MemoryCoordinator.MemoryScheduler | project1-1/memory/src/memory_coordinator.c:122-203 | a tick sets every balloon to the value of the closed form, or changes nothing if the host reports no free memory |
| MemoryCoordinator.ShrinksIff | project1-1/memory/src/memory_coordinator.c:150-171 | a balloon shrinks, by 100 MB, if and only if its VM has more than 300 MB unused |
| MemoryCoordinator.GrowsIff | project1-1/memory/src/memory_coordinator.c:138-191 | a balloon grows, by 100 MB, if and only if its VM has less than 100 MB unused and 100 MB more fit its maximum, and there is enough for all, or fewer such VMs come before it than have more than 300 MB unused |
| MemoryCoordinator.EnoughIff | project1-1/memory/src/memory_coordinator.c:159-163 | there is enough for all if and only if the VMs that give are as many, or the host covers the rest and keeps 200 MB, or has less than the rest, when the unsigned difference wraps |
| MemoryCoordinator.GrantedCountIs | project1-1/memory/src/memory_coordinator.c:185-190 | the number inflated is the number lacking, or the number giving if that is what there is |
| MemoryCoordinator.TickConserves | project1-1/memory/src/memory_coordinator.c:159-193 | host plus balloons is constant, and a tick that the host does not cover is exactly zero-sum |
| MemoryCoordinator.HostKeepsReserveIff | project1-1/memory/src/memory_coordinator.c:159-163 | the host keeps min(free, 200) if and only if the shortfall is at most its free memory |
| MemoryCoordinator.ReserveOverdrawn | project1-1/memory/src/memory_coordinator.c:160 | three needy VMs overdraw a host that has just its reserve |
| MemoryCoordinator.TwoVmsAreSafe | project1-1/memory/src/memory_coordinator.c:159-163 | with at most two VMs the reserve is always kept |
| MemoryCoordinator.BalloonLimits | project1-1/memory/src/memory_coordinator.c:138-155 | a balloon grows only up to its maximum, and shrinks only if enough unused memory stays |
| MemoryCoordinator.RunConserves | project1-1/memory/src/memory_coordinator.c:122-203 | over any sequence of readings that the host can cover: memory is conserved and the host never drops below min(initial, 200) |
| MemoryCoordinator.RunWithinMax | project1-1/memory/src/memory_coordinator.c:139-146 | over any such run no balloon exceeds its maximum |
| MasterSpec.RunNoShardLost | project4/src/master.cc:96-138 | in every reachable map-phase state every shard is in the undispatched rest, with a live worker, or unfinished |
| MasterSpec.StepNoShardLost | project4/src/master.cc:321-357 | every step keeps all shards, and none is duplicated unless a pass starts over |
| MasterSpec.RunOneJob | project4/src/master.cc:231-235 | an address occurs at most once across ready_queue and the calls in flight |
| MasterSpec.DispatchFindsClient | project4/src/master.cc:328-343 | an address taken from ready_queue that is not listed as dropped has a client |
| MasterSpec.StepLedger | project4/src/master.cc:121 | messages counted minus jobs dropped is what the live workers have completed minus the errors |
| MasterSpec.StepOwes | project4/src/worker_client.cc:18 | no worker has answered for more shards than were sent to it |
| MasterSpec.CompleteMeansSent | project4/src/master.cc:196-200 | when the map phase is declared complete every shard belongs to a live worker |
| MasterSpec.CompletesIff | project4/src/master.cc:196-200 | in every reachable state it is declared complete exactly if nothing is unfinished and the live workers have given one answer for each shard and one more for each error |
| MasterSpec.NothingOutstandingIff | project4/src/master.cc:196-200 | at completion the live workers have answered for all that was sent to them exactly if no more shards than that were sent to them |
| MasterSpec.FirstPassesCompleteIff | project4/src/master.cc:196-200 | without a pass starting over, it is declared complete exactly if nothing is unfinished, no call has failed, and all live workers have answered for all their shards |
| MasterSpec.WokenIff | project4/src/master.cc:270-272 | before anybody is dropped and a pass starts over, the waiting master is woken exactly by the last answer, and never after an error |
| MasterSpec.RunDone | project4/src/master.cc:194-200 | in every run, failures included: once it is complete the live workers have answered for all their shards and work on none, unless a pass has started over |
| MasterSpec.AllAnsweredForIff | project4/src/master.cc:196-200 | at completion every shard has been answered for if and only if there are just as many answers too many as errors; without errors, if and only if no shard has been answered for more often than it occurs |
| MasterSpec.RunTurns | project4/src/master.cc:328-343 | in every run a live worker has answered for all shards sent to it or for all but the last |
| MasterMishap.PrematureCompletion | project4/src/master.cc:323-357 | a run without errors in which an idle worker dies, all shards are sent again, and the phase is declared complete with one shard answered for by nobody |
| MasterSpec.ErrorBlocksCompletion | project4/src/master.cc:254-263 | from an error reply on, whatever follows, it is never declared complete unless a pass starts over |
| MasterSpec.ErrorReply | project4/src/master.cc:254-263 | one shard, one worker, one error reply: a reachable such state, with nobody left to send to |
| MasterSpec.ReduceWaitsForMap | project4/src/master.cc:194-200 | in runs without failures the phase is complete, and reduce calls are sent, only after every shard has been sent to exactly one worker and answered for |
| ReduceSpec.RunIsBaseRun | project4/src/master.cc:301-412 | whatever the reduce phase does, the map phase of a run is a run of MasterSpec, so all of the above holds of it |
| ReduceSpec.StepInv | project4/src/master.cc:96-296 | every step keeps what is known of shards, partitions, output files and intermediate files |
| ReduceSpec.StepLedger | project4/src/master.cc:151 | reduce messages counted minus jobs dropped is what the live workers have reduced minus the errors |
| ReduceSpec.ReduceWokenIff | project4/src/master.cc:273-276 | while nobody is dropped, the master waiting for reduce jobs is woken exactly when the live workers have given one answer for each partition and one more for each error |
| ReduceSpec.AllReducedIff | project4/src/master.cc:201-206 | when the reduce phase is declared complete every partition has been reduced if and only if none has been reduced twice, and then each exactly once |
| ReduceSpec.RunReduced | project4/src/master.cc:379-412 | in every run, failures and errors included: at completion each partition has been reduced exactly once, unless a pass over the partitions has started over |
| ReduceSpec.HarmlessReduced | project4/src/master.cc:301-412 | without failures no pass starts over: at completion each partition has been reduced exactly once and every shard answered for |
| ReduceSpec.LossBlocksCompletion | project4/src/master.cc:145-151 | once the call for a partition has failed, or its worker was dropped, whatever follows, the phase is not declared complete unless a whole pass starts over |
| ReduceSpec.OvershootBlocksCompletion | project4/src/master.cc:202-205 | with more answers than partitions it is never declared complete |
| ReduceSpec.RunAllParts | project4/src/master.cc:362-375 | in every run, while it reduces, the list of partitions holds every output file once |
| ReduceSpec.StaleFilesIff | project4/src/master.cc:125-135 | of a worker that was dropped in the map phase after an answer exactly the files other than the first are reduced; there are any if and only if there are two partitions |
| ReduceMishap.ReducedTwice | project4/src/master.cc:125-135 | a run without errors in which a worker dies after its answer and its shard is reduced from its file and from that of its successor |
| ReduceMishap.NeverReduced | project4/src/master.cc:201-206 | a run without errors in which an idle worker dies and reducing is declared complete with one partition reduced twice and the other never |
| Master.ReduceJobs.constructor | project4/src/master.cc:10-36 | nothing has been reduced and there are no files |
| Master.ReduceJobs.InsertFiles | project4/src/master.cc:243-246 | the loop adds exactly the worker's files |
| Master.ReduceJobs.CountReduced | project4/src/master.cc:248-251 | a reduce answer adds its output file and counts once, for the master and for the worker |
| Master.ReduceJobs.Note | project4/src/master.cc:240-262 | what an answer adds to files, output files and reduce counters |
| Master.ReduceJobs.Drop | project4/src/master.cc:125-151 | what a failure does to files and reduce counters |
| Master.ReduceJobs.ListPartitions | project4/src/master.cc:362-375 | exactly the partitions that have a file |
| Master.ReduceJobs.Send | project4/src/master.cc:393-399 | the next partition goes to the worker |
| Master.ReduceJobs.Judge | project4/src/master.cc:201-206 | complete exactly if there are as many output files as partitions |
| Master.ReduceJobs.NextReduce | project4/src/master.cc:402-411 | the end, or all partitions again |
| Master.Master.constructor | project4/src/master.cc:10-36 | all workers ready, all shards to be dispatched |
| Master.Master.DispatchMap | project4/src/master.cc:324-345 | one iteration of the dispatch loop does exactly the model's step |
| Master.Master.SendMapperJob | project4/src/worker_client.cc:6-34 | the client records the shard and the call is in flight |
| Master.Master.DispatchReduce | project4/src/master.cc:381-400 | one iteration of the reduce dispatch loop does exactly the model's step |
| Master.Master.HandleAnswer | project4/src/master.cc:216-265 | answers, late answers and errors do exactly the model's step |
| Master.Master.WakeMaster | project4/src/master.cc:266-287 | poll_workers wakes the waiting master exactly when the model says |
| Master.Master.DropClient | project4/src/master.cc:97-121 | the loop gives back exactly the worker's shards and takes back its count |
| Master.Master.HandleWorkerFailure | project4/src/master.cc:96-157 | a failure does exactly the model's step, once |
| Master.Master.Decide | project4/src/master.cc:194-211 | the completion tests of both phases do exactly the model's step |
| Master.Master.NextPass | project4/src/master.cc:348-375 | a new pass over unfinished shards, the reduce phase, or the same shards or partitions again |
| Master.Master.Execute | project4/src/master.cc:180-412 | any interleaving is a run of the model and keeps the invariant |
| LinkedQueue.Queue.Append | prelab/producer_consumer.c:124-136 | the list stays doubly linked and ends with the new node |
| LinkedQueue.Queue.RemoveFront | prelab/producer_consumer.c:181-191 | the first node leaves the list, which stays doubly linked; the freed node is no longer in it |
| ProducerConsumer.StepControl | prelab/producer_consumer.c:115-208 | mutual exclusion on both mutexes, removed ++ queued = produced, and whoever leaves the loop found the producer done and the queue empty |
| ProducerConsumer.RunInv | prelab/producer_consumer.c:115-208 | these, and that what consumers hold or have printed is what was removed, in every reachable state for any number of consumers |
| ProducerConsumer.ExitMeansAll | prelab/producer_consumer.c:178-208 | as soon as one consumer has left, the alphabet has been removed, in order |
| ProducerConsumer.AllPrinted | prelab/producer_consumer.c:195-210 | when all have left they have printed each letter once between them and their counts add up to 26 |
| ProducerConsumer.NoDeadlock | prelab/producer_consumer.c:123-208 | in every reachable state somebody can act until all are finished |
| ProducerConsumer.DrainCompletes | prelab/producer_consumer.c:176-208 | once the producer is done all consumers finish under every fair schedule |
| ProducerConsumer.Program.constructor | prelab/producer_consumer.c:44-51 | the initial state |
| ProducerConsumer.Program.AdvanceProducer | prelab/producer_consumer.c:115-145 | each action of the producer on the real list does exactly the model's step |
| ProducerConsumer.Program.AdvanceConsumer | prelab/producer_consumer.c:163-208 | each action of a consumer on the real list does exactly the model's step |
| ProducerConsumer.Program.Execute | prelab/producer_consumer.c:44-208 | any interleaving is a run of the model |

## Left out

- Weak memory effects, MPI thread levels, request objects that are never freed, and the finalize functions.
- Counters of episodes do not occur in the programs; overflow of `int` counts of threads and processes beyond the partner computation is not modelled.
- Combined.Process.Advance: the processes are separate objects around one network; a run over several of them is stated on the model only.
- Sharding.ShardFiles: `map_kilobytes * 1024`, offsets and sizes are unbounded integers; files are assumed not to change between the calls that open them; ranges are only claimed to tile files that end in a newline or are empty.
- MapTask.HandleMapJob: a range beyond 2^31 bytes, files that cannot be opened while mapping, and names of files are not modelled; a worker runs one task at a time.
- ReduceTask.HandleReduceJob: an unparsable line, which ends the worker with an exception, is the result `ok = false`.
- WordCount.UserReduce: `atoi` and the sum are without the limits of `int`.
- Pipeline.MapReduce: a run without failures, workers numbered in the order of their files, intermediate and output files empty at the start; the schedule is any assignment of every shard to one worker.
- Pipeline.CountWords: on an input without records there is no answer that could wake the master (project4/src/master.cc:180-185), so it waits for ever, while this method and Pipeline.MapReduce succeed; MasterPipeline.MapReduceUnderMaster then reports that the run did not end.
- CpuScheduler.CPUScheduler: reading CPU times, the first tick, which only stores them, `double` rounding and DBL_MAX; the sort is an insertion sort in place of the C library's.
- The function check_balance, which is not called.
- MemoryCoordinator.MemoryScheduler: KB/MB conversion; `balloon + 100` cannot wrap for values that are a 64-bit count of bytes divided by 1024; a request to the hypervisor takes effect at once and VMs neither start nor stop during a run.
- Master.Master.HandleWorkerFailure: dispatching a shard or a partition and handling a failure are atomic; pings, and the text of the files that are removed, are not modelled.
- Master.Master.constructor: the reset of num_dropped_workers at line 321 is left out, so failures before the first dispatch count as failures of the first pass.
- ReduceSpec.RunReduced: it says which partitions are reduced and from which files; that a partition reduced twice is appended twice to its output file is not followed up in the data path.
- MasterSpec.RunNoShardLost: it is about the map phase only; after completion a failure loses the worker's shards in the code as well.
- Liveness of the master's condition variables: a last answer that is handled before the master waits leaves both sides waiting.
- ProducerConsumer.DrainCompletes: before the producer is done a consumer may win the mutex forever, so there is no completion claim for that part; creating and joining threads is not modelled.
- project3, gRPC, libvirt, configuration parsing, scripts, harnesses and the stock examples.
