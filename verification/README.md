# Instruction-mix counter: a verified model

This project models the counting core of `metrics`, a DynamoRIO client that
profiles the instruction mix of a running program in two phases.

- **Discovery (static phase).** Every time the host builds a basic block,
  the client's basic-block event walks the block's instruction list once.
  The event ignores its `for_trace` and `translating` flags, so a block
  rebuilt for a trace or for address translation is walked and counted
  again: the static totals count basic-block events, not distinct blocks.
  The walk builds a five-field tally: `total`, conditional branches
  (`cbr`), floating-point instructions (`fp`), memory reads (`memR`) and
  memory writes (`memW`). Each instruction bumps `total`. The
  four predicates are tested independently, so one instruction may count
  toward several fields. The tally is added to the five static counters.
- **Execution (dynamic phase).** The same five numbers are baked into a
  clean call inserted at the head of the block. Every execution of the
  block runs that call, which adds them to the five dynamic counters under
  a mutex.
- **Exit.** The exit event reports the ten counters and, for each phase,
  the combined memory count `memR + memW`.

The model has three modules, one per file:

- `classifier.dfy` (module `Classifier`) holds the tally and the
  classification. The host's four instruction predicates are a `Decoder`
  of four uninterpreted total functions over an arbitrary instruction
  type. `Classify` is the specification of the loop: a fold over the block
  in list order. `Count` is an independent reference that counts one
  predicate. `ClassifyBlock` is the loop itself, with its five local
  counters, and is proved against both.
- `counters.dfy` (module `Counters`) holds the ten global counters as the
  fields of class `Metrics`. `BbEvent` classifies a block, adds the tally to
  the static fields and returns the tally that the clean call carries.
  `Callback` adds a tally to the dynamic fields. The mutex-guarded region is
  one atomic step. `ExitCounts` gives the reported absolute counts.
- `probes.dfy` (module `Probes`) models how the host drives the client over
  a whole run. A run is a sequence of events: a basic-block event on a
  block (a rebuild of the same code is a discovery of its own), or an
  execution of an earlier-built block. `Run` keeps the tally bound into
  each block's clean call and replays it on every execution. The module
  proves four things. Replaying gives the same dynamic totals as
  classifying the block again at every execution would. k executions add
  exactly k times the tally. The "sub-count at most total" invariant holds
  in both phases. Once every discovered block has run, each dynamic total
  is at least the matching static total.

Counters are unbounded naturals. The host's guarantee that a block is
built before it executes is a precondition (`DiscoveredFirst`).

## Model

| member | source | states |
|---|---|---|
| `Classifier.Add` | metrics.cc:109-113 | adding two tallies field-wise keeps every sub-count at most the total, and the totals add |
| `Classifier.Scale` | metrics.cc:67-71 | the contribution of k executions of a block keeps every sub-count at most the total |
| `Classifier.ScaleIsProduct` | metrics.cc:115-121 | k executions of a block contribute exactly k times each of its five counts |
| `Classifier.Classify` | metrics.cc:80-107 | a block's tally has `total` equal to the number of instructions, and each of `cbr`, `fp`, `memR`, `memW` is at most `total`; the empty block gives the zero tally |
| `Classifier.Count` | metrics.cc:88-106 | the number of instructions satisfying one predicate is at most the block length |
| `Classifier.CountExtremes` | metrics.cc:88-106 | a predicate's count equals the block length exactly when every instruction satisfies it, and is 0 exactly when none does |
| `Classifier.ClassifyIsPerPredicateCount` | metrics.cc:82-107 | the single-pass tally agrees field by field with counting each predicate on its own, so the four tests are independent |
| `Classifier.ClassifyAppend` | metrics.cc:82-107 | the tally of a concatenation of instruction lists is the field-wise sum of their tallies |
| `Classifier.SubCountsSum` | metrics.cc:88-106 | the four sub-counts sum to at most four times `total`, and to exactly four times it when every instruction satisfies all four predicates, so they can exceed `total` |
| `Classifier.ClassifyBlock` | metrics.cc:80-107 | the classification loop returns the block's tally, whose fields are the block length and the four per-predicate counts |
| `Counters.Report` | metrics.cc:35-45 | the reported counts are the counters unchanged, the memory count is reads plus writes, and it is at most twice the total when the tally is bounded |
| `Counters.Metrics.constructor` | metrics.cc:16-20 | all ten counters start at zero, so the invariant holds |
| `Counters.Metrics.BbEvent` | metrics.cc:76-121 | returns the block's tally, adds it field-wise to the static counters, leaves the five dynamic counters unchanged, and keeps the invariant |
| `Counters.Metrics.Callback` | metrics.cc:62-74 | adds the tally field-wise to the dynamic counters, leaves the static counters unchanged, and keeps the invariant for any bounded tally |
| `Counters.Metrics.ExitCounts` | metrics.cc:33-57 | reports both phases' counters, with the memory count of each phase equal to its reads plus writes and at most twice its total |
| `Probes.StaticSum` | metrics.cc:109-113 | the static totals of any run satisfy "sub-count at most total" |
| `Probes.DynamicSum` | metrics.cc:67-71 | the dynamic totals of any run, defined by classifying the executed block afresh, satisfy "sub-count at most total" |
| `Probes.MemoAt` | metrics.cc:115-121 | the clean call of the u-th discovered block carries exactly that block's tally |
| `Probes.DiscoverKeeps` | metrics.cc:109-121 | a discovery adds the block's tally to the static sum, appends it to the kept tallies and leaves the dynamic sum unchanged |
| `Probes.ExecuteKeeps` | metrics.cc:67-71 | an execution replays a kept tally equal to the executed block's tally, grows the dynamic sum by it and leaves the static sum unchanged |
| `Probes.Deliver` | metrics.cc:115-121 | after one host event the counters and the kept clean-call tallies still agree with the run so far |
| `Probes.Run` | metrics.cc:109-121 | over a whole run the static counters grow by exactly the static sum, the dynamic counters by exactly the re-classified dynamic sum, and the invariant is kept |
| `Probes.ExecuteOnce` | metrics.cc:67-71 | one execution of a discovered block adds its tally to the dynamic sum only |
| `Probes.ExecutionsAdd` | metrics.cc:67-71 | k executions of a discovered block add exactly k times its tally to the dynamic sum and nothing to the static sum |
| `Probes.DiscoverThenExecute` | metrics.cc:115-121 | one discovery followed by k executions gives static totals equal to the tally once and dynamic totals equal to k times it |
| `Probes.StaticCovered` | metrics.cc:109-113 | over any run, the static totals are at most the dynamic totals plus the tallies of discovered blocks that have not run, and only discovered blocks run |
| `Probes.DynamicCoversStatic` | metrics.cc:67-71 | once every discovered block has executed at least once, each dynamic total is at least the matching static total |

## Left out

- Ratio lines of the exit event (metrics.cc:37-57, the `-ratio` outputs): they use single-precision floating-point division and divide by zero when a total is 0. Floating point is outside the model, and the code has no zero-total policy.
- Output: the `fprintf(stderr, …)` calls are I/O. `ExitCounts` returns the ten counters and each phase's memory count instead.
- The mutex (`dr_mutex_create`, `dr_mutex_lock`, `dr_mutex_unlock`, `dr_mutex_destroy`) is concurrency. `Callback` is one atomic step.
- DynamoRIO host calls: `dr_init`'s event registration and `dr_insert_clean_call` with `OPND_CREATE_INT32` operands are foreign API. The clean call is modelled as the tally that `BbEvent` returns, which `Run` keeps per block and replays. The meaning of `instr_is_cbr`, `instr_is_floating`, `instr_reads_memory` and `instr_writes_memory` belongs to the host, so they are uninterpreted.
- The linked instruction list (`instrlist_first`, `instr_get_next`) is a sequence.
- Machine widths: the counters are `uint64_t` and the per-block counts are `uint` narrowed to 32-bit operands. All are unbounded naturals here, and wrap-around is not modelled.
- The unused `opcode` variable, the `NULL_TERMINATE` macro and the file's header comment (which describes a different tool) carry no behaviour.
- The host's guarantees (a block is built before it executes, and its clean call fires once per execution) are assumptions. `Run` takes the first as a precondition and models the second by construction. `exit_event` destroys the mutex (metrics.cc:59). Callbacks arriving after exit are not modelled.
- `Run`: the `for_trace` and `translating` flags are ignored, as in the source (metrics.cc:77). Every rebuild of a block is a new `Discover` event, which adds the block's tally to the static totals again and gets its own clean call.
- `Run`: basic-block events are assumed to be serialized. The static `+=` lines (metrics.cc:109-113) take no lock, so concurrent basic-block events could lose increments there. The sequential model does not capture that.
