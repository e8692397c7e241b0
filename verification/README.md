# Visuall, verified

A model of the parts of the Visuall compiler, its runtime and its package resolver that have
the most state and branching, and proofs about them. `dafny verify dfyconfig.toml` checks all
of it.

- **Lowering.** The code generator turns structured statements over 64-bit integers into basic
  blocks with branches, stack slots and phis (`src/codegen.cpp`). Generators become a resume
  function with a state number: at each yield the tracked slots are saved to the heap record,
  and the next call restores them on a fresh stack. `Ast` and `Semantics` say what a program
  means, `Machine` how blocks run, `Emit` what is generated, and `Codegen` is the generator
  with its fields. The machine is run by a caller that leaves arbitrary contents in the stack
  slots of every call. `Flagged` is the meaning of a lowered body for every such content: it
  differs from `Semantics` in one place, the did-break flag of a while loop with an else branch.
- **Scheduler.** Tasks, the ready queue, and channels with ring buffers and wait queues
  (`stdlib/scheduler.c`). `Scheduler` is a state machine whose steps are what one thread does
  while it holds a lock; `SchedulerInv` and `SchedulerRuns` speak of all runs; `TaskQueues` has
  the linked lists and the ring in memory, tied to the same steps.
- **Resolver.** The minimal version selection of the package manager (`src/vsl_resolver.cpp`):
  the worklist with its merge, its aliases and its errors. `Walk` says what is queued, fetched and
  named in which order; `ResolutionOrder` and `OrderFree` say for which answers the order in which
  tables are iterated matters.
- **Expressions.** The precedence-climbing parser with its comparison chains, lambdas, calls with
  type arguments and postfix loops (`src/parser.cpp`). `RoundTrip` has the round trip, `Grouping`
  which operators bind tighter, said by plain tokens.
- **Types and layout.** Assignability, printing and resolving type names, the edit distance
  behind hints (`src/typechecker.cpp`), and the field layout of classes
  (`src/class_analyzer.cpp`).
- **Lexer.** Indentation, comments, literals, escapes and the recovery from errors
  (`src/lexer.cpp`), on bytes.

Functions specify, classes with fields follow the source's loops and are tied to the
functions, and lemmas say what the functions mean.

## Findings

Properties one would expect that the code does not have. Each has a lemma with an input that
shows it and one with the exact condition.

- **A lost flag.** The did-break flag of a while loop with an else branch is a stack slot that a
  generator does not save at a yield. Where the condition fails after a yield, the else branch
  runs exactly if the slot happens to be zero in the current call (`Flagged.DoLoop`, which
  `Lowering.CallsComplete` and `CallsSound` prove the generated code to follow for every
  stack). `FlagLoss.FlagLost` has the input. Generators whose loops with else branches do not
  yield in their bodies are right on every stack (`Lowering.KeptMeaning`).
- **Yields that are not seen.** A function whose yields are all in else branches of while loops is
  compiled as an ordinary function (`MissedYields.KindIff`). It returns nothing on the way and
  halts with what is left of the body without its yields (`NotSeen`). `YieldLost` has the input:
  the source yields 7, the lowered function returns 0.
- **The sentinel is a value.** A loop over a generator stops at the least 64-bit integer, so it
  sees all values exactly if that is not one of them (`Lowering.CallsCollected`).
  `Sentinel.NothingSeen` has a generator that yields two values of which the loop sees none,
  `BothSeen` one that yields a zero, which is seen.
- **A missed wake-up.** An unbuffered receive lets go of the channel between its two looks. A
  sender that retries in between queues up, the receiver queues up after it, and neither wakes
  the other (`SchedulerRuns.BothWaitIff`; the run is in `MissedWakeup`).
- **Receivers of a closed channel.** A receive does not look whether the channel is closed: the
  condition under which it waits for good is `SchedulerRuns.WaitsClosedIff`, and only a second
  close ends the wait (`StuckStep`; the run is in `ClosedReceiver`).
- **Values of another channel.** A receive takes a value that was handed to its task before it looks
  at its channel. It returns a value its channel never accepted exactly if its task holds one from
  another channel (`ForeignValues.ForeignIff`; the run is in `ForeignReceive`).
- **Compiled channels never block.** Compiled sends and receives pass no task, so nobody waits,
  and an unbuffered channel, which the program's own documentation offers, never takes a value
  (`SchedulerRuns.CompiledNeverWaits`, `ForeignValues.CompiledUnbuffered`; the run is in `CompiledLoses`).
- **Copies without type arguments.** Operands inside a comparison chain are cloned, and the clone
  of a call drops its type arguments (`Comparisons.CloneIsSame`, `ChainMeansConjunction`; the
  input is in `TypeArgsDropped`).
- **Chains that are calls.** `a < b > (c)` is read as a call with type arguments
  (`Comparisons.ConfusableChain`); `ConfusedChains.ChainReadsIff` says which chains are not read
  as chains.
- **Printed types.** The printed text of unions, of function types and of unknown does not
  resolve to the type, and neither does a name that the scope knows as something else
  (`TypeNamesExact.PrintResolvesIff`). `UnionMisread` has a union that comes back as a union of
  two classes with blanks in their names.
- **Characters that pass.** The lexer raises the first error at its end, but a character that begins
  nothing only leaves a token: for every such character the lexer does not fail
  (`Operators.UnexpectedPasses`). It fails exactly if one of the tokens stands for a failure
  (`Lexer.SourceLexer.Tokenize`).
- **Unions that are channels.** A union whose text begins like a channel and ends with a bracket is
  read as a channel (`WrittenTypes.UnionWritten`; the input is in `UnionLost`).
- **Assignability has gaps.** Unknown and type variables go both ways, so through a type that holds
  one assignability is not transitive (`Types.TransIff`; `WildBreaks` gives the types).
- **Results of functions.** Function types are compared by their parameters alone, although the
  comment above the comparison speaks of results too (`Types.FunctionResultsIgnored`,
  `ResultMismatch`).
- **Fields without a slot.** The class analyzer does not look into match cases, with statements, the
  else branches of loops and the further targets of a chained assignment. A field has no slot
  exactly if all its assignments are there (`ClassLayout.LayoutMisses`, `LayoutComplete`; the
  input is in `FieldMissed`).
- **Wild aliases.** A resolution stumbles over an alias exactly if the first manifest to require a URL for
  which the root has none is called like an alias of the root (`ResolutionOrder.ClashIff`), and
  who is first depends on the order in which tables are iterated: `OrderInputs.OrderDecides` has
  one table that locks in one order and fails in the other, `OrderNames` one whose order
  decides under which alias a package is locked. If no package is called like an alias of the
  root, the order does not decide whether a resolution locks (`OrderFree.OutcomeOrderFree`); if
  moreover no URL can be given two names, it does not decide the aliases
  (`AliasesOrderFree`).
- **Versions that cannot be read.** One makes a resolution fail exactly if its package is required
  another time (`ResolutionOrder.UnreadableIff`); required once it is locked
  (`OrderInputs.UnreadableOnce`).

## Model

| member | source | states |
|---|---|---|
| Lowering.FunctionCorrect | src/codegen.cpp:854-1026 | a lowered function halts with a result exactly when the source evaluates to it, whatever the stack holds; so one diverges when the other does |
| Lowering.FunctionRuns | src/codegen.cpp:854-1026 | with any fuel the machine comes to the result the source comes to, or has made as many steps as the fuel; it never gets stuck |
| Lowering.CallsComplete | src/codegen.cpp:6184-6280 | for every generator body, argument list and stack content: every value the lowered body yields is returned, in order, and after the end the sentinel as often as it is asked for |
| Lowering.CallsSound | src/codegen.cpp:6184-6280 | for every generator body, argument list, stack content and number of steps: what the calls returned is a prefix of what the lowered body yields, with sentinels only where it is over |
| Lowering.KeptMeaning | src/codegen.cpp:1989-2033 | the lowered body means what the source means if no loop with an else branch yields in its body, or if the stack is zero where calls start |
| Lowering.GeneratorComplete | src/codegen.cpp:6184-6280 | under that condition every value the source yields is returned, then sentinels |
| Lowering.GeneratorSound | src/codegen.cpp:6184-6280 | under that condition the calls return nothing but what the source yields, then sentinels |
| Lowering.FinishedReturns | src/codegen.cpp:6215-6272 | the emitted resume function, entered in a state it has no resume block for, reaches its done block, marks the generator finished and returns the least 64-bit integer |
| Lowering.FirstCallRuns | src/codegen.cpp:6282-6355 | the first call restores the arguments the wrapper saved and reaches the body with the parameters bound |
| Lowering.OverReturns | src/codegen.cpp:6260-6272 | once more values were returned than the lowered body yields, all the others are sentinels |
| Lowering.CallsCollected | src/codegen.cpp:1769-1807 | a loop over a generator that comes to an end sees exactly the yielded values if and only if all of them are greater than the least 64-bit integer |
| Lowering.CollectorExact | src/codegen.cpp:1769-1807 | the same about what the source yields, where flags are kept |
| Sentinel.CollectedPrefix | src/codegen.cpp:1783-1790 | what such a loop sees is what is returned before the first least 64-bit integer |
| Sentinel.NothingSeen | src/codegen.cpp:1783-1790 | a generator that yields the least 64-bit integer and then 5: however far the loop comes, it sees nothing |
| Sentinel.BothSeen | src/codegen.cpp:1783-1790 | a generator that yields any other number, zero included, and then 5: the calls return both and then the least 64-bit integer, and a loop that comes to its end sees both |
| Lowering.FunctionWellFormed | src/codegen.cpp:836-843 | every block of a lowered function ends in one terminator, and its targets exist |
| Lowering.ResumeWellFormed | src/codegen.cpp:6184-6280 | the same of a resume function, its entry, dispatch and done blocks included |
| Lowering.LowerWellFormed | src/codegen.cpp:854-1026 | the same of whatever the lowering produces |
| Scoping.LoweredIff | src/codegen.cpp:52-78 | the lowering accepts a function exactly if every name is assigned, in a scope that is still open, before it is read; code that cannot be reached is not looked at |
| Scoping.BranchScope | src/codegen.cpp:52-78 | a name assigned in a branch is not in scope behind it, unless it was assigned before or is a parameter |
| FlagLoss.FlagLost | src/codegen.cpp:1989-2033 | a while loop with an else branch and a yield in its body, so outside the condition of KeptMeaning: the source yields 0 and 7; the calls return 0, 7, sentinel if the flag slot is zero in the second call, and 0, sentinel if not |
| Flagged.ListAgrees | src/codegen.cpp:1989-2033 | in ordinary functions, in generators without such loops, and on a stack of zeros, the meaning with flags is the structured meaning, for every statement list |
| Structured.ListRuns | src/codegen.cpp:836-843 | the emitted code of a list does what the list does, statement by statement, and stops emitting where the rest cannot be reached |
| Structured.IfRuns | src/codegen.cpp:1460-1530 | the machine runs exactly the branch whose condition is the first to hold, and goes on behind the statement |
| Structured.ElsifsRuns | src/codegen.cpp:1480-1525 | the same for the elsif branches from any one on |
| Structured.LoopRuns | src/codegen.cpp:1989-2033 | the machine goes round as long as the condition holds; after it fails the else branch runs exactly if the flag reads zero |
| Structured.BrokeRuns | src/codegen.cpp:6010-6020 | a break ends the loop and skips its else branch, also from nested statements |
| Structured.CasesRuns | src/codegen.cpp:2723-2832 | the first case whose pattern equals the subject and whose guard holds runs, and no other |
| Structured.CheckRuns | src/codegen.cpp:2735-2810 | the check of a case goes to its body exactly if the case takes the subject |
| Simulation.AssignRuns | src/codegen.cpp:3087-3130 | an assignment stores to the slot of the name in scope or declares a new one; all other names keep their values |
| Simulation.ReturnRuns | src/codegen.cpp:2133-2160 | a return ends a function with the value; in a generator it drops the value, marks the generator finished and returns the sentinel |
| Simulation.BreakRuns | src/codegen.cpp:6010-6018 | a break sets the flag of the innermost loop, if it has one, and goes to its exit |
| Simulation.ContinueRuns | src/codegen.cpp:6020-6024 | a continue goes to the header of the innermost loop |
| Yielding.YieldRuns | src/codegen.cpp:2039-2113 | a yield returns the value, and in the next call every name in scope has its value back, whatever the stack held |
| Yielding.SaveRuns | src/codegen.cpp:6122-6152 | each tracked slot is stored in its own place of the record |
| Yielding.RestoreRuns | src/codegen.cpp:6154-6182 | each tracked slot gets its saved value back, and slots that are not tracked hold what the stack did |
| Running.ExprRuns | src/codegen.cpp:3787-3802 | the code of an expression computes its value with wrap-around and changes no variable |
| Running.PowRuns | src/codegen.cpp:458-492 | the multiply-and-count loop computes the integer power, wrapped; a negative exponent counts as zero |
| Running.CondRuns | src/codegen.cpp:3564-3610 | the code of a condition computes its truth, and the right side of and and or runs only where the left side leaves it open |
| Programs.WrapIs | src/codegen.cpp:3787-3802 | arithmetic wraps to 64 bits: what is kept fits and differs by a multiple of 2 to the 64 |
| Programs.ValuesAre | src/codegen.cpp:3787-3802 | the operators are those of integers where nothing overflows |
| Programs.ComparesAs | src/codegen.cpp:3794-3802 | a comparison holds exactly if it holds of the integers |
| Programs.ConnectivesAre | src/codegen.cpp:3564-3610 | zero is false and all else true; and and or decide without their right side where the left one settles it |
| Programs.CountsUp | src/codegen.cpp:1989-2033 | for every n: a counting loop yields the numbers below n, up to n, and until n |
| Programs.CountsDown | src/codegen.cpp:1989-2033 | for every n: counting down yields n to 1, and n to 0 |
| ControlFlow.BranchesRun | src/codegen.cpp:1460-1530 | for every x: the first branch whose condition holds runs |
| ControlFlow.MatchesRun | src/codegen.cpp:2723-2832 | for every subject: the first case that fits and whose guard holds runs |
| ControlFlow.BreakLeaves | src/codegen.cpp:1989-2033 | a break skips the rest of the body and the else branch; a loop whose condition fails runs its else branch |
| ControlFlow.BreakLeavesInnermost | src/codegen.cpp:6010-6018 | a break leaves the innermost loop only |
| ControlFlow.ContinueGoesBack | src/codegen.cpp:6020-6024 | a continue skips the rest of the body and tests the condition again |
| ControlFlow.BareYield | src/codegen.cpp:2046-2052 | a yield without a value yields zero |
| ControlFlow.ReturnGives | src/codegen.cpp:2133-2160 | parameters have their arguments in order, a return gives its value, and the end of a function gives zero |
| ControlFlow.ReturnEnds | src/codegen.cpp:2133-2160 | a return ends a generator and drops its value |
| MissedYields.KindIff | src/codegen.cpp:499-530 | a function is compiled as what it is not exactly if it yields and all of its yields are in else branches of while loops |
| MissedYields.NotSeen | src/codegen.cpp:499-530 | such a function returns nothing on the way, and halts with what is left of its body without the yields |
| MissedYields.YieldLost | src/codegen.cpp:499-530 | one whose source yields 7 and whose lowered function returns 0 |
| Codegen.Lower | src/codegen.cpp:854-1026 | the imperative generator produces the program the specification describes, or fails exactly when it does |
| Codegen.EmitFunction | src/codegen.cpp:854-1026 | the same for an ordinary function |
| Codegen.EmitResume | src/codegen.cpp:6184-6280 | the same for a resume function |
| Codegen.Generator.LookupVar | src/codegen.cpp:72-78 | the innermost binding of a name, found by walking the scopes outwards |
| Codegen.Generator.DeclareVar | src/codegen.cpp:60-70 | binds the name in the innermost scope and tracks each slot once |
| Codegen.Generator.EmitExpr | src/codegen.cpp:3787-3802 | ends in the state of the specification, or fails exactly when that does |
| Codegen.Generator.EmitPow | src/codegen.cpp:458-492 | appends the loop of an integer power |
| Codegen.Generator.EmitCond | src/codegen.cpp:247-262 | ends in the state of the specification, or fails exactly when that does |
| Codegen.Generator.EmitAnd | src/codegen.cpp:3564-3586 | the left side, the branch past the right side, the right side and the merge |
| Codegen.Generator.EmitOr | src/codegen.cpp:3588-3610 | the same with the branches exchanged |
| Codegen.Generator.EmitList | src/codegen.cpp:836-843 | stops at the first statement that ends the current block |
| Codegen.Generator.EmitBlock | src/codegen.cpp:52-58 | a nested list in a scope of its own |
| Codegen.Generator.EmitAssign | src/codegen.cpp:3087-3130 | ends in the state of the specification, or fails exactly when that does |
| Codegen.Generator.EmitIf | src/codegen.cpp:1460-1530 | ends in the state of the specification, or fails exactly when that does |
| Codegen.Generator.EmitElsif | src/codegen.cpp:1480-1525 | one elsif branch and the block its failed test leads to |
| Codegen.Generator.EmitWhile | src/codegen.cpp:1989-2033 | ends in the state of the specification, or fails exactly when that does |
| Codegen.Generator.EmitMatch | src/codegen.cpp:2723-2832 | ends in the state of the specification, or fails exactly when that does |
| Codegen.Generator.EmitCase | src/codegen.cpp:2735-2826 | one case and the block its failed check leads to |
| Codegen.Generator.EmitBreak | src/codegen.cpp:6010-6018 | sets the flag and branches to the exit |
| Codegen.Generator.EmitReturn | src/codegen.cpp:2133-2160 | ends in the state of the specification, or fails exactly when that does |
| Codegen.Generator.EmitYield | src/codegen.cpp:2039-2113 | ends in the state of the specification, or fails exactly when that does |
| Codegen.Generator.FinishYield | src/codegen.cpp:2062-2112 | suspends and then restores the slots in the new resume block, as the specification has it |
| Codegen.Generator.Suspend | src/codegen.cpp:2062-2109 | saves the slots, sets the next state, returns, and goes on in a new block, as the specification has it |
| Codegen.Generator.Split | src/codegen.cpp:2084-2109 | the return block and the new resume block of the next state, as the specification has them |
| Codegen.Generator.SaveVars | src/codegen.cpp:6122-6152 | the loop over the tracked slots appends what the specification appends |
| Codegen.Generator.RestoreVars | src/codegen.cpp:6154-6182 | the loop over the tracked slots appends what the specification appends |
| SchedulerInv.RunsSafe | stdlib/scheduler.c:213-332 | in every interleaving of any number of tasks and channels: each live task is in exactly one place, values leave each channel in order, each accepted value is delivered once, closed channels keep no senders |
| SchedulerInv.OnePlaceKept | stdlib/scheduler.c:58-114 | every step keeps each live task in exactly one of the ready queue, a wait queue, a worker or the hands of a waker |
| SchedulerInv.ChansKept | stdlib/scheduler.c:213-332 | every step keeps receivers waiting only where nothing is buffered, without an undelivered value, and no senders on a closed channel |
| SchedulerInv.FifoKept | stdlib/scheduler.c:213-314 | every step keeps what left a channel a prefix of what it accepted |
| SchedulerInv.ConservedKept | stdlib/scheduler.c:213-314 | every step keeps the values that left channels equal to those returned and those handed to a task |
| SchedulerRuns.DeliveredOnce | stdlib/scheduler.c:213-314 | in every reachable state each accepted value was returned by one receive, waits in one task, or is in one ring buffer |
| SchedulerRuns.ChannelFifo | stdlib/scheduler.c:213-314 | in every reachable state what left a channel is what it accepted first, and the ring holds the rest in order |
| SchedulerRuns.NothingOverwritten | stdlib/scheduler.c:221-232 | a value handed to a receiver never overwrites one it has not taken |
| SchedulerRuns.SendTakesIff | stdlib/scheduler.c:213-256 | a send is accepted exactly if the channel is open and has a waiting receiver or room |
| ChannelSteps.PossibleIff | stdlib/scheduler.c:58-332 | in every reachable state: when each step is possible; no buffer and no queue keeps a channel from being used |
| ChannelSteps.SendSteps | stdlib/scheduler.c:213-256 | the whole new state after a send in each of its cases: closed, handed over, buffered, queued, dropped |
| ChannelSteps.RecvWakes | stdlib/scheduler.c:276-294 | the whole new state after a receive where senders wait: the first of them is taken out of the queue and held to be made ready, whether or not a value is buffered |
| ChannelSteps.RecvLooks | stdlib/scheduler.c:297-314 | the whole new state after a receive where none waits: the oldest value, a wait, or nothing |
| ChannelSteps.RestLooks | stdlib/scheduler.c:297-314 | the same of the second look |
| ChannelSteps.HeldStep | stdlib/scheduler.c:262-275 | a value left for the caller is returned, and nothing else changes |
| ChannelSteps.SendersStep | stdlib/scheduler.c:213-332 | in every reachable state: which steps take the first waiting sender, which add one, and that no others change the queue |
| ChannelSteps.SenderWaitEnds | stdlib/scheduler.c:276-332 | the wait of a sender ends exactly if it is the first and a receive looks at the channel, or a close comes to the senders; then it is held to be made ready |
| ChannelSteps.ReceiverWaitEnds | stdlib/scheduler.c:221-232 | the wait of a receiver ends exactly if it is the first and a send comes to the open channel, or a close; then it is held to be made ready |
| ChannelSteps.ReadyStep | stdlib/scheduler.c:58-76 | the ready queue is first in, first out |
| ChannelSteps.HeldUntilWoken | stdlib/scheduler.c:229-232 | a held task stops being held exactly when it is made ready |
| SchedulerRuns.ClosedAcceptsNothing | stdlib/scheduler.c:316-332 | from its close on a channel accepts nothing, in every continuation of the run |
| SchedulerRuns.ClosedNoSenders | stdlib/scheduler.c:316-332 | a closed channel has no waiting senders once its close is done |
| SchedulerRuns.WaitsClosedIff | stdlib/scheduler.c:258-314 | a task comes to wait on a closed channel exactly if it is closed already and the task receives, finds no value and no sender, and may wait |
| SchedulerRuns.StuckStep | stdlib/scheduler.c:258-332 | such a wait ends by no step but a second close, and that one ends it |
| SchedulerRuns.ClosedReceiverStuck | stdlib/scheduler.c:258-332 | so it goes on in every run without a second close |
| SchedulerRuns.ClosedReceiver | stdlib/scheduler.c:258-314 | a run that comes to such a wait |
| SchedulerRuns.BothWaitIff | stdlib/scheduler.c:286-314 | a sender and a receiver come to wait on one channel exactly if a second look finds nothing buffered and a sender queued in between |
| SchedulerRuns.MissedWakeup | stdlib/scheduler.c:286-314 | a run that ends so: an open channel, a waiting sender and a waiting receiver, and no step left |
| SchedulerRuns.CompiledNeverWaits | src/codegen.cpp:2967-3005 | in compiled programs, which pass neither a continuation nor a task, nobody ever waits, and an unbuffered channel never takes a value |
| ForeignValues.CompiledUnbuffered | src/codegen.cpp:2967-3005 | in every run of a compiled program a send on an unbuffered channel, and a receive on one, change nothing: the value is lost |
| ForeignValues.CompiledLoses | src/codegen.cpp:2967-3005 | a run that loses a value |
| ForeignValues.ReceivedReturned | stdlib/scheduler.c:258-314 | what a receive returns is what its step adds to the returned values |
| ForeignValues.ForeignIff | stdlib/scheduler.c:258-275 | in every reachable state: a receive returns a value that its channel never accepted exactly if its task holds such a value, and then another channel accepted it |
| ForeignValues.HeldAccepted | stdlib/scheduler.c:221-232 | in every reachable state each undelivered value was accepted by some channel |
| ForeignValues.ForeignReceive | stdlib/scheduler.c:258-275 | a reachable state in which a receive on a channel that accepted nothing returns a value |
| TaskQueues.ReadyQueue.Enqueue | stdlib/scheduler.c:58-66 | the linked queue holds its old tasks and then the new one |
| TaskQueues.ReadyQueue.Dequeue | stdlib/scheduler.c:69-76 | the first task, or none exactly if the queue is empty; the rest stay in order |
| TaskQueues.ReadyQueue.GoCreate | stdlib/scheduler.c:171-179 | a new task goes to the end of the queue with nothing received, as the step of the state machine has it |
| TaskQueues.ReadyQueue.WorkerTakes | stdlib/scheduler.c:118-141 | a worker takes the first task exactly if the dispatch step is possible, and the queue changes as that step has it |
| TaskQueues.BlockedEnqueue | stdlib/scheduler.c:96-105 | walks to the end of the list and appends |
| TaskQueues.BlockedDequeue | stdlib/scheduler.c:108-114 | takes the head |
| TaskQueues.Channel.Push | stdlib/scheduler.c:233-240 | the ring buffer becomes the one of the specification, with wrap-around |
| TaskQueues.Channel.Pop | stdlib/scheduler.c:276-284 | the oldest value, and the ring without it |
| TaskQueues.Channel.Send | stdlib/scheduler.c:213-256 | the channel in memory changes as the atomic step does, the handed value is left in the receiver, and all other tasks keep theirs |
| TaskQueues.Channel.Recv | stdlib/scheduler.c:258-297 | a value left for the caller comes first; otherwise the channel changes as the atomic step does |
| TaskQueues.Channel.RecvRest | stdlib/scheduler.c:297-314 | the second look changes the channel as the atomic step does |
| TaskQueues.Channel.Close | stdlib/scheduler.c:316-332 | all waiting receivers and then all waiting senders are made ready, in order |
| Resolver.Resolve | src/vsl_resolver.cpp:49-168 | fetches no requirement twice and none that is not reachable, in the order of the worklist; a lock holds exactly the reachable packages, each at the first of its largest required versions, number by number, all of one major number, and the aliases the order gives; it fails only for what went wrong in the order so far |
| Resolver.RootRequirements | src/vsl_resolver.cpp:59-67 | queues the requirements of the root and notes its names and aliases; of two aliases for one URL the later one counts |
| Resolver.Enqueue | src/vsl_resolver.cpp:124-146 | queues the requirements of a fetched manifest and names the URLs that have no alias yet, each as the manifest names it first; or fails exactly if the manifest is called like an alias of the root and there is such a URL |
| Resolver.Merge | src/vsl_resolver.cpp:80-107 | keeps the version so far unless the new one is above it, number by number; rejects exactly if there is one and it or the new one cannot be read, or they differ in their major version |
| Resolver.FailsIffConflict | src/vsl_resolver.cpp:80-107 | where versions can be read, fetches succeed and no name is taken, resolution fails exactly if two reachable requirements of a package differ in their major version |
| Resolver.OrderIndependent | src/vsl_resolver.cpp:49-168 | two runs over the same requirements, in whatever order they are iterated, lock the same packages at equal versions |
| Resolver.EveryManifestServed | src/vsl_resolver.cpp:149-165 | the requirements of the root and of every reachable manifest are met by what is locked |
| ResolutionOrder.OrderExists | src/vsl_resolver.cpp:73-147 | with the same tables in the same order there is exactly one order in which all requirements are fetched |
| ResolutionOrder.WalkedPrefix | src/vsl_resolver.cpp:73-147 | every run, failed or not, fetches along that order |
| ResolutionOrder.LockedIff | src/vsl_resolver.cpp:73-147 | a resolution locks exactly if nothing goes wrong in the whole order; what it fails with went wrong there |
| ResolutionOrder.FailsWith | src/vsl_resolver.cpp:73-147 | where only one kind of thing goes wrong it fails with that |
| ResolutionOrder.NamedBy | src/vsl_resolver.cpp:59-67 | the alias of each URL: the root's last one, or else the first one in the first manifest to require it |
| ResolutionOrder.ClashIff | src/vsl_resolver.cpp:129-141 | an alias goes wrong exactly if the first manifest to require some URL for which the root has none is called like an alias of the root |
| ResolutionOrder.AliasFailsIff | src/vsl_resolver.cpp:129-141 | where nothing else goes wrong the resolution fails exactly then, and locks otherwise |
| ResolutionOrder.UnreadableIff | src/vsl_resolver.cpp:80-92 | a version goes wrong exactly if it cannot be read and its package is required another time |
| OrderFree.PushesPermuted | src/vsl_resolver.cpp:125-146 | which requirements are queued, and how often, does not depend on the order of tables and fetches |
| OrderFree.OutcomeOrderFree | src/vsl_resolver.cpp:49-168 | if no reachable package is called like an alias of the root, the same tables iterated in another order lock exactly if they do in this one |
| OrderFree.AliasesOrderFree | src/vsl_resolver.cpp:124-146 | if no URL can be given two names, two such runs that lock have the same aliases |
| OrderInputs.OrderDecides | src/vsl_resolver.cpp:129-141 | two requirements of the root, of which one is called like an alias: the resolution fails in one order and locks in the other |
| OrderInputs.OrderNames | src/vsl_resolver.cpp:141 | two manifests with different names for one URL: the order decides which is locked |
| OrderInputs.UnreadableOnce | src/vsl_resolver.cpp:80-92 | a version that cannot be read is locked when it is required once and fails when it is required twice |
| OrderInputs.NumbersDecide | src/vsl_resolver.cpp:94-106 | of 1.2.0 and 1.10.0 the second is locked in either order; 1.2.0 and 2.0.0 fail |
| Resolver.PlainVersions | src/vsl_resolver.cpp:109-112 | the keys of two requirements differ if their versions hold no at sign |
| Resolver.WrittenKeysDiffer | src/vsl_resolver.cpp:109-112 | so they do for versions written as X.Y.Z |
| Semver.GreaterTotal | src/vsl_resolver.cpp:33-37 | the comparison of versions is a strict total order |
| Semver.GreaterIsNumber | src/vsl_resolver.cpp:33-37 | to any base above the parts a version is greater exactly if its parts, read as digits, are the larger number |
| Semver.RaisedGreater | src/vsl_resolver.cpp:33-37 | raising a part makes a version greater, whatever the later parts become |
| Semver.ParseWritten | src/vsl_resolver.cpp:22-31 | a version written as X.Y.Z is read back, whatever text follows it |
| Semver.TooLarge | src/vsl_resolver.cpp:22-31 | a number that does not fit 32 bits cannot be read |
| Semver.Texts | src/vsl_resolver.cpp:22-31 | 1.10.0, 1.2.3-beta, v1.2.3, 1.2 and others, and what they are read as |
| Requirements.SelectsLargest | src/vsl_resolver.cpp:104-106 | meeting all requirements is the same as being the largest of one major number, number by number |
| RoundTrip.RoundTrips | src/parser.cpp:1101-1445 | every expression, written with parentheses only where precedence needs them, is read back, and all tokens are consumed |
| RoundTrip.Reads | src/parser.cpp:1141-1445 | the same at every precedence level, before anything that cannot continue the expression |
| Grouping.Groups | src/parser.cpp:1141-1320 | for all names and all pairs of operators, listed in the order of the functions of the source: a op1 b op2 c groups to the right exactly if op2 is in a later row |
| Grouping.Chains | src/parser.cpp:1235-1294 | two comparisons are both to hold |
| Grouping.PowerGroups | src/parser.cpp:1340-1347 | a power binds tighter than all of them, and to the right |
| Grouping.PrefixGroups | src/parser.cpp:1322-1338 | a minus, a tilde and an arrow bind tighter than all of them, on either side |
| Grouping.PrefixPowers | src/parser.cpp:1322-1347 | they come after a power on their right, and before one on their left |
| Grouping.NotGroups | src/parser.cpp:1171-1177 | a not binds tighter than ??, or and and, and looser than all others |
| Grouping.PostfixGroups | src/parser.cpp:1349-1445 | members, calls and indexes come first, from left to right |
| Grouping.InitIsMember | src/parser.cpp:1362-1370 | the keyword init may name a member |
| Grouping.StarsSpread | src/parser.cpp:1447-1655 | one star spreads a list, two a dict |
| Grouping.ArrowGroups | src/parser.cpp:1101-1123 | a lambda and an assignment expression take all that follows |
| Grouping.NumberReads | src/parser.cpp:1452-1466 | an integer literal is read exactly if it fits 63 bits |
| ArgumentLists.ArgumentsAre | src/parser.cpp:1353-1361 | any expressions between commas are the arguments, and none is no argument |
| ArgumentLists.BareArguments | src/parser.cpp:1353-1361 | f(a op b, c) passes two arguments for every operator but < |
| ArgumentLists.ListIs | src/parser.cpp:1447-1655 | any expressions between brackets are a list, with or without a comma behind the last |
| ArgumentLists.ParenIs | src/parser.cpp:1447-1655 | in parentheses: the empty tuple, the expression itself, a tuple of one with a comma, a tuple |
| ArgumentLists.NotIsNoOperand | src/parser.cpp:1171-1347 | a not behind an operator that binds tighter is an error |
| Brackets.ReadBalanced | src/parser.cpp:1101-1655 | for all tokens: what is read as an expression has its brackets closed |
| Comparisons.CloneIsSame | src/parser.cpp:14-178 | a cloned expression is the original exactly if no call in it has type arguments |
| Comparisons.ChainMeansConjunction | src/parser.cpp:1235-1294 | the chain a < b < c is built as a < b and b < c exactly if no operand in between has a call with type arguments |
| Comparisons.TypeArgsDropped | src/parser.cpp:71-80 | a < f[T]() < c, with type arguments in angle brackets, is built with f() in its first comparison |
| ConfusedChains.ChainReadsIff | src/parser.cpp:1349-1411 | a comparison chain is read as the chain it was written from exactly if nowhere a name stands between < and > before something in parentheses |
| Comparisons.ConfusableChain | src/parser.cpp:1373-1411 | a < b > (c) is read as a call of a |
| Comparisons.ConfusableArguments | src/parser.cpp:1373-1411 | f(a < b, c > (d)) is read as a call with one argument |
| Parser.ExprParser.ParseExpression | src/parser.cpp:1101-1123 | the token-walking parser reads what the specification reads and stops where that does |
| Parser.ExprParser.ParseLeft | src/parser.cpp:1141-1233 | the loops over left-associative operators read what the specification reads |
| Parser.ExprParser.ParseComparison | src/parser.cpp:1235-1294 | the chain loop reads what the specification reads |
| Parser.ExprParser.BuildChain | src/parser.cpp:1280-1294 | the loop that joins the comparisons builds the chain of the specification |
| Parser.ExprParser.ParsePower | src/parser.cpp:1340-1347 | power binds to the right |
| Parser.ExprParser.ParsePostfix | src/parser.cpp:1349-1445 | the loop over calls, members and indexes reads what the specification reads |
| Parser.ExprParser.MatchTypeArgs | src/parser.cpp:1373-1411 | looks ahead for type arguments and goes back if there are none |
| Parser.ExprParser.ParsePrimary | src/parser.cpp:1447-1655 | reads what the specification reads |
| Types.AssignableTrans | src/typechecker.cpp:484-561 | assignability is transitive through every type without a wildcard where assignability looks |
| Types.WildBreaks | src/typechecker.cpp:484-561 | through any other type it is not: two types that show it |
| Types.TransIff | src/typechecker.cpp:484-561 | so the types assignability can go through are exactly the definite ones |
| TypeTable.BasicTable | src/typechecker.cpp:484-496 | of the basic types only an integer goes to a float, and null to all |
| TypeTable.UnionTable | src/typechecker.cpp:498-504 | a union takes what a member takes, and goes only to itself |
| TypeTable.ListTable | src/typechecker.cpp:511-518 | lists go element by element |
| TypeTable.DictTable | src/typechecker.cpp:520-528 | dicts go by keys and by values |
| TypeTable.TupleTable | src/typechecker.cpp:530-542 | tuples of one length go part by part, and all go to the bare tuple |
| TypeTable.KindsApart | src/typechecker.cpp:484-561 | types of different kinds go to each other only in the listed cases |
| TypeTable.DeepWidening | src/typechecker.cpp:484-518 | however deep in lists, integers go to floats, and not the other way |
| TypeTable.ImplementsIff | src/typechecker.cpp:563-577 | a class implements an interface exactly if some way up its bases leads to a class that lists it |
| TypeTable.InheritsIff | src/typechecker.cpp:470-482 | a class inherits from another exactly if the first bases lead there |
| Types.FunctionResultsIgnored | src/typechecker.cpp:544-553 | one function type is accepted for another exactly if their parameters are the same or unknown, whatever their results |
| Types.ResultMismatch | src/typechecker.cpp:544-553 | a function that returns a string is accepted for one that returns an integer |
| Types.InheritsTrans | src/typechecker.cpp:470-482 | inheritance is transitive |
| Types.InheritsImplements | src/typechecker.cpp:563-577 | a class implements what its bases implement |
| TypeNamesProof.PrintResolves | src/typechecker.cpp:292-420 | the printed text of a printable type resolves to the type |
| TypeNamesExact.PrintResolvesIff | src/typechecker.cpp:66-159 | for all types named by identifiers: the printed text resolves to the type exactly if the type is printable |
| TypeNamesExact.UnionMisread | src/typechecker.cpp:322-335 | the printed union of int and null resolves to a union of two classes whose names have a blank |
| WrittenTypes.NamesStandFor | src/typechecker.cpp:398-405 | int, float, str, bool, void and null |
| WrittenTypes.BareNames | src/typechecker.cpp:407-420 | list, dict and tuple without arguments, and any other name as a class |
| WrittenTypes.GenericNames | src/typechecker.cpp:337-396 | any other name with brackets is a class, its arguments dropped, and so is dict without exactly two parts |
| WrittenTypes.PartTrimmed | src/typechecker.cpp:352-360 | blanks and tabs around a part are dropped |
| WrittenTypes.UnionWritten | src/typechecker.cpp:292-335 | types with bars between them are read as their union, exactly unless the text begins with chan[ and ends with a bracket |
| WrittenTypes.UnionLost | src/typechecker.cpp:292-298 | `chan[int]` and `list[str]` with a bar between them are read as a channel |
| WrittenTypes.SignatureWritten | src/typechecker.cpp:300-320 | a parameter list with an arrow is read as a function type, if no parameter has a comma of its own |
| WrittenTypes.TextsOf | src/typechecker.cpp:66-120 | the texts of types made of others |
| TypeCuts.SplitAtTopLevelCommas | src/typechecker.cpp:344-365 | the scan with a depth counter gives the trimmed pieces between the commas outside of brackets, without empty ones |
| TypeCuts.Cuts | src/typechecker.cpp:344-365 | the places cut at are exactly those of the commas with as many brackets opened as closed before them |
| TypeCuts.PiecesRejoin | src/typechecker.cpp:344-365 | the pieces joined with commas are the text |
| TypeCuts.SplitAtBars | src/typechecker.cpp:322-335 | the parts hold no bar, and joined with bars they are the text, but for one bar at its end |
| EditDistance.Levenshtein | src/typechecker.cpp:14-31 | two rows compute the edit distance |
| EditDistance.IsMetric | src/typechecker.cpp:14-31 | the distance is symmetric, zero exactly between equal names, and satisfies the triangle inequality |
| Edits.LeastEdits | src/typechecker.cpp:14-31 | the distance is the least number of insertions, deletions and replacements that turn one text into the other |
| EditDistance.Hint | src/typechecker.cpp:268-281 | the hint is the first of the nearest names within two edits, and there is none exactly if no name is that near |
| ClassLayout.LayoutStable | src/class_analyzer.cpp:34-64 | each field has one slot, and every ancestor's fields keep their slots |
| ClassLayout.AssignedIff | src/class_analyzer.cpp:66-137 | a field is assigned somewhere in a class exactly if the analyzer meets it or an assignment of it is in a match case, a with statement, the else branch of a loop or a further target |
| ClassLayout.LayoutMet | src/class_analyzer.cpp:34-64 | a class has exactly the fields that are met in it or an ancestor |
| ClassLayout.SlotsInOrder | src/class_analyzer.cpp:73-137 | a class with a branch, loops and a try, and its subclass: slots are in the order in which fields are assigned first |
| ClassLayout.LayoutMisses | src/class_analyzer.cpp:66-137 | a field it or an ancestor assigns has no slot exactly if all its assignments are in those places |
| ClassLayout.LayoutComplete | src/class_analyzer.cpp:66-137 | so a class has all the fields it or an ancestor assigns exactly if none is assigned only there |
| ClassLayout.FieldMissed | src/class_analyzer.cpp:66-137 | a class that assigns a field in a match case and has no slot for it |
| ClassLayout.Analyzer.CollectFields | src/class_analyzer.cpp:66-71 | adds the fields met in the list, each once and in order |
| ClassLayout.Analyzer.CollectFromStmt | src/class_analyzer.cpp:73-137 | adds the fields met in the statement, whatever its kind |
| ClassLayout.Analyzer.Analyze | src/class_analyzer.cpp:10-28 | whatever the order in which classes are visited, each gets that layout |
| ClassLayout.Analyzer.ProcessClass | src/class_analyzer.cpp:34-64 | the base is processed first, and processed classes keep their layout |
| ClassLayout.Analyzer.AddField | src/class_analyzer.cpp:142-150 | appends a field unless it is there |
| LexingProof.ScanBounded | src/lexer.cpp:752-902 | for every source, errors included: at most two tokens for each byte and one more |
| LexingProof.ScanBalanced | src/lexer.cpp:752-902 | for every source, errors included: indents and dedents are well nested, and all are closed at the end |
| Lexer.SourceLexer.Tokenize | src/lexer.cpp:752-902 | the loop ends on every source; the tokens are those of the specification, error tokens included, and the result is none exactly if there was an error |
| Lexer.SourceLexer.Step | src/lexer.cpp:757-889 | one round of the loop, recovery included, goes on in the specification and makes progress |
| Lexer.SourceLexer.HandleIndentation | src/lexer.cpp:229-275 | indents, dedents and the errors of inconsistent indentation are those of the specification |
| Lexer.SourceLexer.LexString | src/lexer.cpp:321-441 | the bytes of a string literal, or the error |
| Lexer.SourceLexer.ReadCodePoint | src/lexer.cpp:362-428 | the encoding of a Unicode escape, or the error |
| Lexer.SourceLexer.LexFString | src/lexer.cpp:455-499 | the raw text of an interpolated string, or the error |
| Lexer.SourceLexer.LexNumber | src/lexer.cpp:514-563 | a number, or the error |
| Lexer.SourceLexer.LexOperator | src/lexer.cpp:611-733 | the longest operator that comes next, or the error |
| Lexer.SourceLexer.SkipComment | src/lexer.cpp:283-312 | goes behind a comment of a line or a block, or reports that the block does not end |
| Rendering.TokensRoundTrip | src/lexer.cpp:752-902 | words, integers, floats with fraction and exponent, strings and operators written with single blanks are read back |
| Rendering.ForestRoundTrip | src/lexer.cpp:229-275 | lines nested by tabs are read as exactly the nesting they were written from, with any blank lines and comments in between |
| Rendering.FillersIgnored | src/lexer.cpp:229-275 | blank lines, comment lines and block comments on lines of their own, put in anywhere, change no token |
| Rendering.StringReads | src/lexer.cpp:321-441 | every string of bytes, written with escapes where needed, is read back |
| Escapes.NamedReads | src/lexer.cpp:335-347 | every string, written with the named escapes by the numbers of their bytes, is read back |
| Escapes.OtherKept | src/lexer.cpp:422-428 | any other byte after a backslash is kept with its backslash |
| Escapes.HexEscapes | src/lexer.cpp:348-361 | after an x one digit counts, or two, of either case; without any it fails |
| Escapes.Unterminated | src/lexer.cpp:321-334 | a literal whose line or source ends before its quote fails there |
| Unicode.ShortEscapeReads | src/lexer.cpp:362-388 | an escape of four digits is accepted exactly if it is no surrogate |
| Operators.LongestRead | src/lexer.cpp:611-733 | of the operators of the language the longest is read, and none exactly if the text starts with none |
| Operators.UnexpectedPasses | src/lexer.cpp:723-733 | a character that begins nothing leaves a token of its own, and the lexer does not fail |
| Operators.UnclosedFails | src/lexer.cpp:321-334 | a literal that is not closed makes it fail |
| Characters.Classes | src/lexer.cpp:784-880 | letters, digits, hexadecimal digits and quotes, by number |
| Characters.FirstDecides | src/lexer.cpp:828-866 | which token is read follows from the first byte, and for an interpolated string from the second |
| Characters.WordEndsAt | src/lexer.cpp:570-600 | a word ends at the first byte that is no letter, digit or underscore |
| Characters.BlanksSkipped | src/lexer.cpp:773-776 | blanks, tabs and carriage returns inside a line leave no token |
| Characters.BlankIndentation | src/lexer.cpp:229-275 | a blank in the indentation is an error, and the rest of the line is skipped |
| Characters.IntegerReads | src/lexer.cpp:514-530 | underscores in integers are dropped |
| Characters.PointAlone | src/lexer.cpp:531-540 | a point belongs to a number only before a digit |
| Characters.BadNumbers | src/lexer.cpp:531-563 | an exponent without digits and a second point are errors |
| Characters.BlockEnds | src/lexer.cpp:292-312 | a block comment ends at the next three number signs, and fails exactly if there are none |
| Characters.IndentationIs | src/lexer.cpp:229-275 | the tokens of an indentation: one indent, or a dedent for each deeper level and an error exactly at a level that is not open |
| Characters.FormattedReads | src/lexer.cpp:455-499 | an interpolated string keeps its text, and fails if a brace is open at its quote |
| Characters.FormattedEscape | src/lexer.cpp:455-499 | a backslash keeps the byte behind it from ending an interpolated string |
| Rendering.FloatReads | src/lexer.cpp:514-563 | every digits[.digits][e[sign]digits] is read as one float |
| Unicode.UnicodeRoundTrip | src/lexer.cpp:362-428 | numbers written as eight-digit escapes are accepted exactly if all are Unicode scalar values, and then the bytes decode to them |
| Unicode.EncodedDecodes | src/lexer.cpp:362-428 | the bytes of a scalar value decode to it, whatever follows |

## Left out

- Statements and values of the code generator other than the modelled ones: for loops, division, shifts, floats, strings, lists, try and with, captured variables, walrus assignments, slots that change their type, and functions that return anything but an integer.
- The `value` field of a generator record and the traceback calls, which do not change results.
- The semantics counts rounds of loops with fuel; a run that is longer than any fuel is divergence.
- Threads: a step is what one thread does while it holds a lock, in any order; the locks themselves, null channels and failed allocations are not modelled.
- A task that was queued by a send or receive is taken to stop running there, and a woken sender of an unbuffered channel to send again, as the comment at stdlib/scheduler.c:289-291 says.
- Resolver.Resolve: needs a finite set that the requirements do not leave and versions without at signs, because the source's walk need not end on an infinite world and its keys join URL and version with an at sign.
- Messages, the required-by texts and the final sort of lock entries.
- Resolver.OrderIndependent: speaks of version numbers, since 1.0.0 and 01.0.0 are equal and either may be kept.
- Lowering.FirstCallRuns: the wrapper that allocates the record and saves the arguments is not emitted; the record it leaves is where the first call starts.
- Lowering.CallsCollected: the for loop that collects the values is a function of what the calls return, since for loops are not emitted.
- Lowering.CollectorExact: the same.
- Running.ExprRuns: expressions without division and shifts, which trap or are undefined for some operands, and without bit operations.
- Codegen.Generator.EmitExpr: the same expressions.
- RoundTrip.RoundTrips: expressions without ternaries, slices, dict literals, comprehensions, and literals other than integers.
- RoundTrip.Reads: the same expressions.
- Parser.ExprParser.ParseExpression: the same expressions.
- Parser.ExprParser.ParsePostfix: the same expressions.
- Parser.ExprParser.ParsePrimary: the same expressions.
- Comparisons.CloneIsSame: expressions without interpolated strings, which clone to nothing.
- Comparisons.ChainMeansConjunction: the same expressions.
- The ternary, slices, dict literals, comprehensions, interpolated strings in expressions, literals other than integers, and source positions.
- The parser's statements and its recovery from errors (`parse` and `synchronize`).
- Comparisons.ChainReadsAll: the one direction that `ConfusedChains.ChainReadsIff` completes.
- Nullable types, unification of type variables, generics and the symbol table around the modelled parts of the type checker.
- TypeNamesExact.PrintResolvesIff: speaks of types without nullable ones whose class, interface, parameter and function names are identifiers, as the parser makes them.
- normalizeIndentation: the lexer is modelled on source that is indented by tabs, as that pass leaves it.
- Line and column numbers, the texts of error messages and the table of keywords: a token's kind is a function of its text.
- The rules that force an advance after an error are not in the model because every round with an error has already moved (`Lexer.SourceLexer.Step`).
