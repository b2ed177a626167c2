# krpsim in Dafny

krpsim reads a description of stocks and processes and looks for a schedule.
Each process consumes input stocks, takes some time, and produces output stocks.
The schedule should maximise the objective stocks, or reach them as early as possible.
The description file is read by a hand-written lexer and parser. Several search strategies then look for a schedule:

- a serial schedule generation scheme (SGS);
- tabu search;
- A*, Dijkstra and IDA*, over stock states;
- ant colony optimisation (ACO);
- a genetic algorithm;
- simulated annealing.

Each strategy is guided by precomputed stock scores.

The best schedule is written to a log file. A separate verifier reads such a log back, replays its executions against the description and compares the final stocks.

This project models that core in Dafny, one module per source file:

| module | file | models |
|---|---|---|
| `Wrappers` | wrappers.dfy | `Option` and `Result` |
| `Resources` | resources.dfy | stocks as a map from names to quantities, processes, and the shared firing transition (inputs out, outputs in) |
| `Text` | text.dfy | the string functions the readers and writers use: `trim`, `split(':')`, `starts_with`, `u64::from_str`, decimal rendering |
| `Tokens` | tokens.dfy | the token type |
| `Lexer` | lexer.dfy | `Lexer` (`src/lexer.rs`) as a class with its cursor, and the tokens of one line as a function |
| `Parsing` | parser.dfy | `Parser` (`src/parser.rs`) as a class over the token list, with grammar functions it is proved against |
| `Verifier` | verifier.dfy | `check_execution` (`krpsim_verif/src/main.rs`) |
| `ResultFile` | result_file.dfy | `parse_result_file` (`krpsim_verif/src/main.rs`) |
| `LogFile` | log_file.dfy | `generate_log_file` (`src/gen_file.rs`) and what the verifier's reader makes of its output |
| `StockScores` | stock_scores.dfy | `precompute_stock_scores`: a breadth-first walk from the objectives |
| `Sgs` | sgs.dfy | `sgs_algorithm` |
| `Tabu` | tabu.dfy | `tabu_search` (`src/forbidden_name.rs`) |
| `StateSpace` | statespace.dfy | the successor generation A* and IDA* share (`apply_processes`) |
| `AStar`, `Dijkstra`, `IdaStar` | a_star.dfy, dijkstra.dfy, ida_star.dfy | the three state-space searches |
| `Aco` | aco.dfy | ant colony optimisation |
| `Genetic` | genetic.dfy | the genetic algorithm |
| `Annealing` | annealing.dfy | simulated annealing |

Quantities are unbounded naturals; where the source's 64-bit or 32-bit arithmetic matters, the model writes it out (see "Left out").
The timer that stops every search is a thread that sets a flag after a delay. It is modelled as a budget: the number of times the flag is read as unset before it is read as set.
Random choices are parameters: a sequence of draws, or the chosen indices and counts.

## Model

| member | source | states |
|---|---|---|
| Resources.Find | krpsim_verif/src/main.rs:129-132 | the process found is the first in the list with the id asked for, as `iter().find` returns it; nothing is found exactly when no process has that id |
| Resources.ConsumeKeys | src/a_star.rs:76-82 | consuming keeps every stock name and adds none but the input names |
| Resources.ProduceKeys | src/a_star.rs:88-90 | producing adds exactly the output names to the stock names (`entry().or_insert(0)`) |
| Resources.AmountAt | src/a_star.rs:76-82 | with distinct input names, the total amount asked of an entry's name is that entry's amount |
| Resources.CoversAmount | src/a_star.rs:76-80 | an affordable run count bounds the total amount of every stock the inputs ask for |
| Resources.ConsumeGet | krpsim_verif/src/main.rs:135-147 | once every input is affordable, consuming takes exactly amount × runs from each stock and never goes below zero |
| Resources.ProduceGet | krpsim_verif/src/main.rs:148-150 | producing adds exactly amount × runs to each output stock, an absent one counting as 0 |
| Resources.FireGet | src/a_star.rs:76-90 | after an affordable firing, each stock plus what the inputs took equals its old quantity plus what the outputs gave |
| Resources.FireKeys | src/a_star.rs:76-90 | after a firing, the stock names are the old names plus every input and output name |
| Resources.CoversPresent | src/sgs.rs:39-49 | with positive amounts, an affordable run means every input stock is present |
| Resources.HoldsIffCovers | src/aco.rs:144-153 | the check that treats an absent input stock as "not runnable" agrees with the one that reads it as 0, once amounts are positive |
| Resources.CoversLess | src/a_star.rs:71 | a count that is affordable makes every smaller count affordable |
| Resources.FireLeavesRest | src/a_star.rs:71-90 | after n1 of n1 + n2 affordable runs, the other n2 are still affordable |
| Resources.FireLinear | src/aco.rs:55-61 | firing n1 runs and then n2 runs leaves the same stocks as firing n1 + n2 runs at once |
| Resources.MinRunsCovers | src/a_star.rs:59-69 | the minimum of available / amount over the inputs is exactly the largest affordable count |
| Resources.MinRunsMonotone | src/a_star.rs:59-69 | more stock never lowers the largest affordable count |
| Resources.ConsumeUntouched | src/a_star.rs:76-82 | before an input entry is subtracted, its stock still holds what it held before the firing |
| Resources.ConsumeChecked | krpsim_verif/src/main.rs:145-147 | the input loop, `get_mut(name).unwrap() -= amount`, never meets an absent stock or a too-small one once the guard passed, and computes the consumption function |
| Resources.ProduceEntries | krpsim_verif/src/main.rs:148-150 | the output loop, `entry(name).or_insert(0) += amount`, computes the production function |
| Resources.ApplyFiring | src/a_star.rs:76-90 | both loops of an affordable firing compute the firing function |
| Text.TrimStart | krpsim_verif/src/main.rs:71 | trimming the front leaves a suffix of the line |
| Text.TrimEnd | krpsim_verif/src/main.rs:71 | trimming the back leaves a prefix of the line |
| Text.TrimNoOp | krpsim_verif/src/main.rs:82 | a string with no whitespace at either end is its own trim |
| Text.Split | krpsim_verif/src/main.rs:80 | `split(':')` always yields at least one piece |
| Text.SplitOnce | krpsim_verif/src/main.rs:80-84 | splitting `a:b`, where neither side holds a colon, gives exactly the two sides |
| Text.SplitNone | krpsim_verif/src/main.rs:90-92 | a string with no colon splits into itself alone |
| Text.ParseU64 | krpsim_verif/src/main.rs:83 | `u64::from_str` yields only values that fit in 64 bits |
| Text.DigitChar | src/gen_file.rs:11 | the digit written for d < 10 is a decimal digit whose value is d |
| Text.Decimal | src/gen_file.rs:11 | `{}` writes a natural as a non-empty run of decimal digits |
| Text.DecimalValueOfDecimal | src/gen_file.rs:18 | reading the digits that `{}` writes gives back the number |
| Text.ParseDecimal | krpsim_verif/src/main.rs:93 | `u64::from_str` reads back every 64-bit number that `{}` writes |
| Verifier.Merge | krpsim_verif/src/main.rs:123-125 | merging the buffer gives every stock the sum of its current and buffered quantities, over the union of their names |
| Verifier.FirstShortFrom | krpsim_verif/src/main.rs:135-143 | the input reported short is the first one, in list order, whose stock is below its amount; none is reported exactly when every input is covered |
| Verifier.DrainInto | krpsim_verif/src/main.rs:123-125 | the drain loop, entry by entry in any order, computes the merge |
| Verifier.FindShortage | krpsim_verif/src/main.rs:135-143 | the input check loop reports the first input the stocks cannot cover |
| Verifier.ReplayOne | krpsim_verif/src/main.rs:120-153 | one execution: on a new time stamp merge the buffer first, then look the process up, check its inputs, take them and buffer its outputs; errors as the source reports them |
| Verifier.CheckExecution | krpsim_verif/src/main.rs:115-168 | the whole check: replay every execution, stop at the first error, merge the last buffer and compare with the final stocks |
| Verifier.RunNext | krpsim_verif/src/main.rs:120 | a successful replay of a prefix is extended by one execution's step |
| Verifier.CheckFails | krpsim_verif/src/main.rs:131 | once a prefix of the trace fails, the verdict is that failure |
| Verifier.CheckCompares | krpsim_verif/src/main.rs:156-167 | after a successful replay, the verdict is the comparison of the merged stocks with the final stocks |
| Verifier.FailureSticks | krpsim_verif/src/main.rs:131-141 | the first error ends the replay: later executions do not change it |
| Verifier.TickStart | krpsim_verif/src/main.rs:122 | the last tick starts inside the trace, and at an execution of the trace when there is one |
| Verifier.GivenSplit | krpsim_verif/src/main.rs:148-150 | what the executions produce adds up over any split of the trace |
| Verifier.StepState | krpsim_verif/src/main.rs:145-150 | a successful step takes the process's inputs out of the tick's current stocks and adds its outputs to the buffer |
| Verifier.RunState | krpsim_verif/src/main.rs:115-154 | after a successful replay, the current stocks are the initial ones minus all inputs taken plus the outputs of every tick but the last; the buffer holds exactly the last tick's outputs |
| Verifier.SameTick | krpsim_verif/src/main.rs:122 | an execution with the previous time stamp stays in the current tick |
| Verifier.NewTick | krpsim_verif/src/main.rs:122-127 | an execution with a new time stamp moves the previous tick's outputs into the current stocks |
| Verifier.ValidTraceConserves | krpsim_verif/src/main.rs:115-161 | an accepted trace conserves every stock: final plus all inputs equals initial plus all outputs |
| Verifier.EmptyTrace | krpsim_verif/src/main.rs:156-161 | an empty trace is accepted exactly when the final stocks equal the initial ones |
| Verifier.FailureWitness | krpsim_verif/src/main.rs:120-154 | a rejected replay has a first failing execution, reached after a successful prefix |
| Verifier.RejectionExplained | krpsim_verif/src/main.rs:130-166 | every rejection names a real culprit: an execution of an unknown process, an input of a listed process that the stocks could not cover, or final stocks that differ from the replay |
| Verifier.DemoAfterMake | krpsim_verif/src/main.rs:145-150 | after `make` at time t, its input is used up and its output waits in the buffer |
| Verifier.SameTickRejected | krpsim_verif/src/main.rs:122-143 | an execution cannot use what another execution of the same tick produced: the trace is rejected for want of stock |
| Verifier.DemoUseNextTick | krpsim_verif/src/main.rs:122-150 | at a different time stamp, the buffered output is merged before the next execution is checked |
| Verifier.OtherTickAccepted | krpsim_verif/src/main.rs:122-161 | at any other time stamp, earlier ones included, the same trace is accepted |
| ResultFile.ParseResultFile | krpsim_verif/src/main.rs:62-113 | the reading loop collects exactly the executions and final stocks that reading the lines one by one defines: trimmed lines, the marker switching sections, two-field lines only, unreadable numbers as 0 |
| ResultFile.FoldAppend | krpsim_verif/src/main.rs:68 | reading two blocks of lines in a row is reading them joined |
| ResultFile.FoldSame | krpsim_verif/src/main.rs:68-106 | lines that each leave the reader's state unchanged leave it unchanged together |
| ResultFile.FoldChain | krpsim_verif/src/main.rs:68 | four blocks read one after the other, each taking the state one step on, take it from the first state to the last |
| ResultFile.ReadFromLast | krpsim_verif/src/main.rs:68 | reading lines is reading all but the last, then the last |
| ResultFile.ExecutionsGrow | krpsim_verif/src/main.rs:90-96 | reading more lines only ever appends executions |
| ResultFile.MarkerEndsExecutions | krpsim_verif/src/main.rs:73-78 | after the "Final stocks:" line the reader stays in the final section and reads no more executions |
| ResultFile.ReadLineKeepsExecutions | krpsim_verif/src/main.rs:73-89 | the marker line and every line after it add no execution |
| ResultFile.NotMarker | krpsim_verif/src/main.rs:73 | a line `name:…` with a name that starts with a letter never starts with "Final stocks:" |
| ResultFile.NumberNotMarker | krpsim_verif/src/main.rs:73 | a line `digits:…` never starts with "Final stocks:" |
| ResultFile.ReadExecutionLine | krpsim_verif/src/main.rs:90-96 | before the marker, a line `t:name` as the log writer writes it is read back as the execution of `name` at time t |
| ResultFile.ReadStockLine | krpsim_verif/src/main.rs:78-85 | after the marker, a line `name:q` sets the final stock `name` to q |
| ResultFile.ReadStockLineEarly | krpsim_verif/src/main.rs:90-96 | before the marker, a stock line `name:q` is read as an execution at time 0 of a process called like the quantity |
| LogFile.Repeat | src/gen_file.rs:17-19 | n copies of a line, each the same line |
| LogFile.GenerateLogFile | src/gen_file.rs:5-34 | the writer emits the header, one line per initial stock, a blank, one `time:process` line per run of every log entry, a blank, the finish time, a blank, the marker and one line per final stock |
| LogFile.ReadInitialStocks | src/gen_file.rs:10-12 | with unreadable times skipped, the initial stock lines leave the reader unchanged |
| LogFile.ReadFinalStocks | src/gen_file.rs:28-31 | after the marker, the final stock lines build the table of the listing |
| LogFile.ReadRepeat | src/gen_file.rs:17-19 | the n lines written for one log entry are read back as n executions of that process at that time |
| LogFile.ReadRuns | src/gen_file.rs:16-20 | all run lines are read back as the log expanded run by run |
| LogFile.ReadHeader | src/gen_file.rs:9 | read as written, the header `Initial stocks:` is an execution of process "" at time 0; with unreadable times skipped it is ignored |
| LogFile.HeaderFields | src/gen_file.rs:9 | the header trims to itself, is not the marker, and splits at ':' into "Initial stocks" and "", whose first field is not a number |
| LogFile.ReadFinished | src/gen_file.rs:24 | the finish-time line holds no ':' and is never read as an execution |
| LogFile.ReadMarker | src/gen_file.rs:28 | the marker line switches the reader to the final section |
| LogFile.ReadPrelude | src/gen_file.rs:9-13 | with unreadable times skipped, the header, the initial stocks and the blank line leave a fresh reader as it was |
| LogFile.ReadTail | src/gen_file.rs:21-28 | the blank, finish-time, blank and marker lines only switch to the final section |
| LogFile.ReadGap | src/gen_file.rs:21-25 | the blank, finish-time and blank lines leave the reader as it was |
| LogFile.GeneratedLogReadsBack | src/gen_file.rs:5-34 | with unreadable times skipped, a generated log reads back as exactly the expanded log and the final stocks written |
| LogFile.LogSections | src/gen_file.rs:5-34 | a written log is its prelude, its run lines, its closing lines and its final stock lines |
| LogFile.TableOfListing | src/gen_file.rs:29-31 | a listing that enumerates a stock map once per name writes back exactly that map |
| LogFile.HeaderExecution | krpsim_verif/src/main.rs:90-96 | read as the verifier reads it, a file starting with the initial header starts with an execution of "" at time 0 |
| LogFile.GeneratedLogRejected | krpsim_verif/src/main.rs:129-132 | the verifier rejects every generated log of a problem whose processes have names: process "" is not found at time 0 |
| StockScores.UnvisitedMembers | src/stock_scores.rs:22-26 | one process's inputs queue exactly the unvisited input names, each at the next level |
| StockScores.ProcessPushesMembers | src/stock_scores.rs:20-28 | a process queues anything only when one of its outputs is the scored stock |
| StockScores.FeedsPrefix | src/stock_scores.rs:19 | a stock feeds another through the process list exactly when it does through its last process or the ones before |
| StockScores.PushesMembers | src/stock_scores.rs:19-29 | scoring a stock queues exactly its unvisited feeders, one level further |
| StockScores.FeedsInUniverse | src/stock_scores.rs:22 | every feeder is a process input, so the search only meets objectives and inputs |
| StockScores.PushInputs | src/stock_scores.rs:22-26 | the input loop appends the unvisited inputs in input order |
| StockScores.PushForProcess | src/stock_scores.rs:20-28 | the output loop appends one process's pushes, once per output entry equal to the stock |
| StockScores.PushFeeders | src/stock_scores.rs:19-29 | the process loop appends every process's pushes in declaration order |
| StockScores.SearchStarts | src/stock_scores.rs:9-11 | with every objective queued at level 0 and nothing scored, the search invariant holds |
| StockScores.SearchEnds | src/stock_scores.rs:13 | with the queue empty, the invariant gives the finished table its levels |
| StockScores.SkipStep | src/stock_scores.rs:14-16 | dequeuing a stock already visited keeps the invariant |
| StockScores.ParentKept | src/stock_scores.rs:17 | scoring a new stock keeps every existing parent link |
| StockScores.PushedEntries | src/stock_scores.rs:24 | every entry queued for x is an unvisited feeder of x, one level above x |
| StockScores.VisitOrdered | src/stock_scores.rs:13-29 | the queue stays sorted by level and spans at most two levels |
| StockScores.VisitRooted | src/stock_scores.rs:13-29 | objectives stay queued or scored at level 0, and only objectives sit at level 0 |
| StockScores.VisitParented | src/stock_scores.rs:13-29 | every scored or queued stock above level 0 has a parent scored one level lower |
| StockScores.VisitClosed | src/stock_scores.rs:13-29 | every feeder of a scored stock is scored at most one level higher, or waits at exactly that level |
| StockScores.PushedFeeders | src/stock_scores.rs:19-29 | scoring x queues every unvisited feeder of x |
| StockScores.VisitStep | src/stock_scores.rs:14-29 | dequeuing a new stock, scoring it and queuing its feeders keeps the invariant |
| StockScores.PushedInUniverse | src/stock_scores.rs:24 | everything queued is a stock the search may meet, so the search ends |
| StockScores.PrecomputeStockScores | src/stock_scores.rs:4-33 | the finished table scores the objectives 0 and nothing else 0, gives every positive score a neighbour one level lower, and scores every feeder of a scored stock at most one level higher |
| StockScores.LevelAtMostChain | src/stock_scores.rs:4-33 | no backward chain from an objective to a stock is shorter than that stock's score |
| StockScores.ParentOf | src/stock_scores.rs:17-24 | a stock scored above 0 feeds a stock scored one lower |
| StockScores.ChainExtend | src/stock_scores.rs:20-24 | a backward chain grows by any stock that feeds its last stock |
| StockScores.ChainOfLevel | src/stock_scores.rs:4-33 | every scored stock is reached by a backward chain whose length is its score |
| StockScores.LevelIsShortestChain | src/stock_scores.rs:4-33 | a stock is scored exactly when some backward chain reaches it, and its score is the length of the shortest such chain |
| Sgs.ScoreParts | src/sgs.rs:12-30 | a process's score lies between minus its total input and its total output; the input cost lies between the halved inputs and the whole inputs |
| Sgs.GainBound | src/sgs.rs:15-19 | the objective gain is at most the total output |
| Sgs.CostBound | src/sgs.rs:21-27 | the input cost is at least every input halved (rounded down) and at most every input whole |
| Sgs.ScoreWithoutObjectives | src/sgs.rs:21-27 | with no objectives, a process scores minus the sum of its halved inputs |
| Sgs.NoGain | src/sgs.rs:15-19 | with no objectives, no output gains anything |
| Sgs.NoObjectiveCost | src/sgs.rs:24-26 | with no objectives, every input costs half its amount |
| Sgs.ScoreProcess | src/sgs.rs:12-30 | the two accumulation loops compute the score |
| Sgs.EligibleMembers | src/sgs.rs:36-53 | a process is eligible exactly when it is listed and every input stock is present with at least its amount |
| Sgs.Best | src/sgs.rs:59-61 | the first process after the stable sort on the negated score has the highest score, and every process before it scores strictly less |
| Sgs.IsEligible | src/sgs.rs:38-49 | the input loop with its early `break` decides eligibility: an absent or short input makes the process ineligible |
| Sgs.EligibleProcesses | src/sgs.rs:36-53 | the process loop collects the eligible processes in declaration order |
| Sgs.MaxExecutionsCovers | src/sgs.rs:63-68 | for an eligible process the run count is at least 1 and affordable; it is `u64::MAX` with no inputs, and otherwise the largest affordable count capped at `u64::MAX` |
| Sgs.CountExecutions | src/sgs.rs:63-68 | the loop starting from `u64::MAX` computes the run count |
| Sgs.SgsAlgorithm | src/sgs.rs:8-91 | the loop performs the steps of the schedule until the timer or until nothing is eligible, and returns the problem with only its stocks changed, the clock and the log |
| Sgs.StepFires | src/sgs.rs:55-82 | a step fires a listed, eligible process with no eligible process scoring higher, as often as the stocks allow (at least once), logs it at the time before the step and advances the clock by its duration once |
| Sgs.StepStops | src/sgs.rs:55-57 | the loop stops exactly when no process has all its inputs present in sufficient quantity |
| Sgs.RunLog | src/sgs.rs:35-84 | a run only appends to the log, at most one entry per loop test; logged times never decrease, none is after the clock, and every count is at least 1 |
| Sgs.StepLog | src/sgs.rs:80-82 | one step appends exactly one well-formed entry and never moves the clock back |
| Tabu.NeighborMembers | src/forbidden_name.rs:34-44 | the neighbours are exactly the states one run of a runnable process away, each paired with that process's duration |
| Tabu.Pick | src/forbidden_name.rs:58-71 | the chosen neighbour is not tabu, has a positive value, no non-tabu neighbour beats it and none before it equals it; nothing is chosen exactly when every non-tabu neighbour has value 0 |
| Tabu.GenerateNeighbors | src/forbidden_name.rs:34-44 | the neighbour loop clones the state and runs each runnable process once, in declaration order |
| Tabu.ObjectiveValueOf | src/forbidden_name.rs:15-17 | the objective value sums the objective stocks, an absent stock counting as 0 |
| Tabu.ChooseNeighbor | src/forbidden_name.rs:58-71 | the selection loop computes the choice |
| Tabu.Iterate | src/forbidden_name.rs:56-91 | one iteration moves to the chosen neighbour, or to the first neighbour when none is chosen, records a strict improvement, and pushes the current stocks onto the bounded tabu list |
| Tabu.TabuSearch | src/forbidden_name.rs:47-96 | the search runs exactly `max_iterations` iterations and returns the best state and its time |
| Tabu.NeighborsKeepProcesses | src/forbidden_name.rs:38-39 | a neighbour keeps the processes and objectives of its state |
| Tabu.StepMoves | src/forbidden_name.rs:73-84 | an iteration moves one run of a runnable process away and adds its duration, or stays put when nothing can run |
| Tabu.StepBest | src/forbidden_name.rs:76-79 | the best state changes only to the new current state, and only on a strict improvement |
| Tabu.StepTabu | src/forbidden_name.rs:86-89 | the tabu list stays within its size, ends with the newest current stocks, and drops its oldest entry only when full |
| Tabu.RunInvariants | src/forbidden_name.rs:55-93 | over a whole search the best value never decreases, the tabu list stays within its size, and the processes and objectives never change |
| StateSpace.Distinct | src/a_star.rs:47-52 | the objective map's keys: the same names as the objective list, each once |
| StateSpace.MaxCountCovers | src/a_star.rs:59-71 | the counts `1..=max_executable_times` are exactly the positive counts the stocks cover; a process without inputs has none (`min()` of nothing is 0) |
| StateSpace.RunsMembers | src/a_star.rs:71-105 | the count loop yields exactly the successors for counts 1 to k |
| StateSpace.SuccessorOrigin | src/a_star.rs:55-109 | every successor fires a listed process that has inputs a positive number of times the stocks cover, advancing the clock by that many durations and logging it |
| StateSpace.SuccessorPresent | src/a_star.rs:55-109 | every such firing is among the successors |
| StateSpace.SuccessorMembers | src/a_star.rs:55-109 | a state is a successor exactly when it is one affordable firing, at a positive count, of a listed process with inputs |
| StateSpace.MaxCountOf | src/a_star.rs:59-69 | the `map … min … unwrap_or(0)` chain computes the largest affordable count, 0 without inputs |
| StateSpace.TryConsume | src/a_star.rs:74-86 | the guarded subtraction loop never finds an input short for a count up to the largest affordable one, so it never skips a count |
| StateSpace.AddRuns | src/a_star.rs:71-105 | the count loop appends the successors for counts 1 to the largest affordable count, in increasing count |
| StateSpace.ApplyProcesses | src/a_star.rs:55-109 | `apply_processes` yields the successors process by process in declaration order, then by increasing count |
| StateSpace.LevelsAtZero | src/stock_scores.rs:9-17 | the stock-score table gives every objective 0 |
| StateSpace.HeuristicZero | src/a_star.rs:157-162 | the estimate added to the clock sums the scores of objective names only, so it is always 0 and the heap is ordered by the true clock |
| StateSpace.FindDistinct | src/aco.rs:175 | with distinct ids, looking a listed process up by its id finds that process |
| StateSpace.SuccessorTraced | src/a_star.rs:88-104 | firing a listed process an affordable positive number of times keeps a state explained by its log |
| StateSpace.SuccessorsTraced | src/a_star.rs:55-109 | every successor of a state its log explains is explained by its own log |
| AStar.CmpOrder | src/a_star.rs:32-38 | the state ordering is total and consistent: swapping the arguments mirrors the answer, and it is transitive |
| AStar.Top | src/a_star.rs:127 | `heap.pop()` takes a greatest state under the ordering, which has the smallest objective sum and the latest clock among states of that sum; the earliest pushed wins among equals |
| AStar.ImproveRule | src/a_star.rs:141-152 | the best state is replaced exactly when the new sum is larger, or equal and reached strictly earlier; the best sum never decreases |
| AStar.PushedZero | src/a_star.rs:161-168 | raising the clocks by an estimate of 0 leaves the successors unchanged |
| AStar.RunStep | src/a_star.rs:127-170 | the search with a non-empty heap and the flag unset is one step followed by the rest of the search |
| AStar.RunVisit | src/a_star.rs:127-170 | one loop pass pops the top state and visits it |
| AStar.Optimize | src/a_star.rs:112-177 | `optimize` returns the outcome of the search from the initial state, with the clock as budget |
| AStar.Search | src/a_star.rs:125-170 | the heap loop: pop, check the timer, skip a visited (stocks, clock) pair, update the best state, push the successors |
| AStar.VisitState | src/a_star.rs:135-169 | the loop body after the timer check computes one visit |
| AStar.PushAll | src/a_star.rs:155-169 | the push loop adds each successor with its clock plus the heuristic estimate, which is 0 |
| AStar.RunKeepsSome | src/a_star.rs:143-152 | once a state is processed, a best state stays present |
| AStar.OptimizeFindsSome | src/a_star.rs:125-152 | as soon as the timer lets one state through, the result is `Some`: the initial state beats the initial `u64::MAX` clock |
| AStar.VisitTraced | src/a_star.rs:135-169 | visiting a state its log explains keeps every heap state and the best state explained by their logs |
| AStar.StepTraced | src/a_star.rs:127-169 | one loop pass keeps every heap state and the best state explained by their logs |
| AStar.RunTraced | src/a_star.rs:127-170 | the best state returned by any search from explained states is explained by its log |
| AStar.OptimizeResultReplays | src/a_star.rs:112-177 | with unique process ids, the returned log replays from the initial stocks, firing by firing, to exactly the returned stocks and the returned time |
| Dijkstra.RunsMembers | src/dijkstra.rs:69-98 | the count loop yields exactly the successors for counts 1 to k |
| Dijkstra.ApplyProcessMembers | src/dijkstra.rs:55-105 | `apply_process` gives `None` exactly when the process has no inputs or cannot run once; otherwise its successors are exactly the affordable positive counts, each advancing the clock by one duration |
| Dijkstra.ExpansionOrigin | src/dijkstra.rs:150-156 | every pushed state fires a listed process an affordable positive number of times |
| Dijkstra.Top | src/dijkstra.rs:32-38 | `heap.pop()` takes the smallest key (objective sum plus stored heuristic), the latest clock among equal keys, and the earliest pushed among equals |
| Dijkstra.RunVisit | src/dijkstra.rs:126-157 | one loop pass pops the top state and visits it |
| Dijkstra.RunStops | src/dijkstra.rs:126-132 | an empty heap or a set flag ends the search with the best state so far |
| Dijkstra.HeuristicOf | src/dijkstra.rs:108-110 | `calculate_heuristic` sums the objective quantities over the objective list, an absent one as 0 |
| Dijkstra.ApplyProcessTo | src/dijkstra.rs:55-105 | the loop of `apply_process`, whose unchecked subtraction never underflows because no count exceeds what the stocks cover |
| Dijkstra.VisitState | src/dijkstra.rs:134-156 | the loop body after the timer check: skip a visited stock snapshot, make a state with a positive objective sum the best one, push every process's successors |
| Dijkstra.Optimize | src/dijkstra.rs:112-164 | `optimize` returns the outcome of the heap search from the initial state |
| Dijkstra.DistinctOfDistinct | src/dijkstra.rs:47-52 | an objective list that names each stock once is its own list of distinct names |
| Dijkstra.KeyIsTwiceSum | src/dijkstra.rs:32-38 | with each objective listed once, the heap key of a state is twice its objective sum |
| Dijkstra.ExpansionConsistent | src/dijkstra.rs:85-97 | every pushed state stores the heuristic of its own stocks |
| Dijkstra.VisitBest | src/dijkstra.rs:140-148 | a visit keeps a present best state present and of positive objective sum, and a new state with a positive sum becomes the best one |
| Dijkstra.RunBestPositive | src/dijkstra.rs:126-157 | the best state stays one of positive objective sum over the whole search |
| Dijkstra.RunKeepsSome | src/dijkstra.rs:126-157 | once a best state is set, it stays set |
| Dijkstra.OptimizeResultPositive | src/dijkstra.rs:112-164 | a returned state always has a positive objective sum |
| Dijkstra.FirstVisit | src/dijkstra.rs:125-148 | the initial state, popped first with a positive objective sum, becomes the best one |
| Dijkstra.OptimizeFindsSome | src/dijkstra.rs:112-164 | initial stocks with a positive objective sum give a result once one state is popped |
| IdaStar.Search | src/ida_star.rs:160-211 | `depth_limited_search` only uses up timer reads, never adds any |
| IdaStar.Children | src/ida_star.rs:195-208 | the loop over the successors only uses up timer reads |
| IdaStar.Searcher.constructor | src/ida_star.rs:116-123 | a search starts with an empty visited set, no best state and the given timer budget |
| IdaStar.Searcher.DepthLimitedSearch | src/ida_star.rs:160-211 | the recursive search over the shared visited set and best state returns what `Search` says and leaves the shared state as `Search` says |
| IdaStar.Searcher.SearchChildren | src/ida_star.rs:195-208 | the successor loop returns the last state a child returned and the smallest child threshold, as `Children` says |
| IdaStar.Optimize | src/ida_star.rs:114-158 | the threshold rounds, each clearing the visited set and restarting from the initial state, return what `Rounds` says |
| IdaStar.NotWorseTrans | src/ida_star.rs:185-193 | "at least as good" under the best-state rule is transitive |
| IdaStar.SearchFacts | src/ida_star.rs:160-211 | a call only adds to the visited set and never worsens the best state; it returns a state exactly when bound, timer and visited set let the state through, and then that state is the best one; a threshold below `u64::MAX` exceeds the limit |
| IdaStar.ChildrenFacts | src/ida_star.rs:195-210 | the successor loop keeps the same facts: visited grows, the best state never worsens and, once present, stays present |
| IdaStar.SearchTraced | src/ida_star.rs:160-211 | every state the search returns or keeps as best is explained by its log from the initial stocks |
| IdaStar.ChildrenTraced | src/ida_star.rs:195-210 | the successor loop keeps every returned and best state explained by its log |
| IdaStar.RoundsKeepSome | src/ida_star.rs:125-152 | once a best state exists, later rounds keep one |
| IdaStar.OptimizeFindsSome | src/ida_star.rs:120-152 | with two unset timer reads the initial state is visited in the first round and the result is `Some` |
| IdaStar.RoundsTraced | src/ida_star.rs:125-157 | the rounds' result is explained by its log |
| IdaStar.OptimizeResultReplays | src/ida_star.rs:114-158 | with unique process ids, the returned log replays from the initial stocks to the returned stocks and time |
| Aco.UpdateStocksAndTime | src/aco.rs:144-167 | a process runs once exactly when every input is present with at least its amount, and then the stocks are those of one run; otherwise nothing changes |
| Aco.EvaluateObjective | src/aco.rs:86-94 | the score is the objective value of the stocks, an absent objective adding nothing |
| Aco.AttemptsStuck | src/aco.rs:55-61 | of `count` unit attempts at most `count` succeed, and if fewer succeed the process can no longer run |
| Aco.AttemptsPrefix | src/aco.rs:55-61 | asking only for the attempts that succeeded gives the same stocks and count |
| Aco.AttemptsFirst | src/aco.rs:55-61 | a process that can run once succeeds at least once when asked for one run or more |
| Aco.RunUnits | src/aco.rs:176-180 | the inner replay loop leaves the stocks of the unit attempts, and the duration counts when at least one attempt succeeded |
| Aco.EvaluateSolution | src/aco.rs:169-194 | `evaluate_solution` replays each `(id, count)` entry on the first process with that id, skipping unknown ids, adds a duration per entry that ran, and scores the final stocks by the objective value |
| Aco.CapacityHolds | src/aco.rs:106-118 | a process is a candidate (`max_count > 0`) exactly when it can run once |
| Aco.CapacityOf | src/aco.rs:107-116 | the `max_count` loop computes the smallest `stock / amount` from `u64::MAX`, 0 on an absent input |
| Aco.CapacityZero | src/aco.rs:112-114 | the early `break` on an absent input does not change the count |
| Aco.CandidatesMembers | src/aco.rs:106-126 | a pair is a candidate exactly when its process is listed, can run once and carries its `max_count` |
| Aco.SelectedValid | src/aco.rs:128-139 | the selected process is one of the list and can run once, asked for 1 to `max_count` runs |
| Aco.SelectNextProcesses | src/aco.rs:96-142 | the candidate loop and the draw give no selection when no process can run, and otherwise one candidate with a count the draw picks |
| Aco.StepOrigin | src/aco.rs:45-66 | a step that does something ran a listed process that could run once, asked for at least one run |
| Aco.AntStep | src/aco.rs:45-80 | the loop body after the stop tests does what `Step` says |
| Aco.ConstructSolution | src/aco.rs:18-84 | the solution and log of one ant are those of `Construct`: timer read, 50-step and stall stops, selection, unit runs, clock and stall count |
| Aco.StepExecutes | src/aco.rs:45-70 | a step does nothing exactly when no process can run, so the "nothing ran" stop fires only then |
| Aco.ConstructBounds | src/aco.rs:28-81 | an ant stops after at most 50 steps with at most 6 stalled ones, logs one record per step, and only appends to its solution and log |
| Aco.AdvanceGrows | src/aco.rs:50-80 | a step that ran something adds one step and one log record stamped with the old clock, and only appends to the solution |
| Aco.AdvanceReplays | src/aco.rs:53-72 | one step keeps the ant's stocks and clock equal to the replay of one `(id, runs)` entry per step |
| Aco.RunsReplay | src/aco.rs:33-81 | the whole loop keeps that replay equality |
| Aco.AntReplays | src/aco.rs:18-84 | with unique process ids, a solution holding one `(id, runs)` entry per step replays to the ant's own stocks and clock |
| Aco.UnitFire | src/aco.rs:155-164 | one run of a one-input, one-output process moves one unit from input to output |
| Aco.UnitTwice | src/aco.rs:55-61 | two unit attempts with two units of input both succeed |
| Aco.UnitStuck | src/aco.rs:145-153 | without its input a process never runs, however many attempts are made |
| Aco.UnitCapacity | src/aco.rs:107-116 | the `max_count` of a single unit input is the stock itself |
| Aco.ExampleCandidates | src/aco.rs:106-126 | in the two-process example both processes are candidates exactly when some `a` is left |
| Aco.ExampleScore | src/aco.rs:86-94 | the example's objective value is its `c` stock |
| Aco.ExampleFirst | src/aco.rs:53-61 | the example's first step runs `p` twice and pushes `("p", 2)` twice |
| Aco.ExampleSecond | src/aco.rs:53-61 | the example's second step runs `q` twice and pushes `("q", 2)` twice |
| Aco.ConstructUnfold | src/aco.rs:33-81 | a pass that passes its stop tests and does something continues the loop from the stepped ant |
| Aco.ExampleAnt | src/aco.rs:18-84 | the example ant ends with 2 `b` and 2 `c` and the solution `[("p",2),("p",2),("q",2),("q",2)]` |
| Aco.EvaluateLast | src/aco.rs:174-184 | replaying one more entry of a known process makes its unit attempts on the previous stocks |
| Aco.EvaluateSnoc | src/aco.rs:174-184 | replaying one more entry replays it on the replay of the others |
| Aco.ExampleReplay | src/aco.rs:169-194 | the example solution replays to 4 `b` and no `c` |
| Aco.SolutionOvercounts | src/aco.rs:53-61 | the solution as returned does not replay to the ant's stocks: 2 units of the objective reached, 0 scored |
| Aco.Champion | src/aco.rs:223-259 | the kept ant is the first with the highest score and, among those, the shortest time; none is kept when no ant beats score 0 at time `u64::MAX` |
| Aco.BestAnt | src/aco.rs:247-259 | the best-ant update over the evaluated ants keeps the ant `Champion` names |
| Genetic.SimulateStops | src/genetic.rs:82-85 | once the accumulated time reaches the delay, the rest of the chromosome is ignored |
| Genetic.SimulateGene | src/genetic.rs:82-98 | time never decreases along a chromosome, and each gene either changes nothing or fires once, while time is below the delay, a listed process with that id whose inputs are covered, adding its duration cast to 32 bits |
| Genetic.Affordable | src/genetic.rs:88 | the precondition check holds exactly when every input is covered, an absent stock counting as 0 |
| Genetic.SimulateChromosome | src/genetic.rs:78-101 | `simulate` walks the ids in order as `Simulate` says |
| Genetic.EvaluateFitness | src/genetic.rs:73-76 | the fitness is the final quantity of `client_content` of the simulation, 0 when absent |
| Genetic.Ids | src/genetic.rs:30-32 | the chromosome of the first population lists the process ids in order |
| Genetic.InitialPopulation | src/genetic.rs:28-35 | 150 copies of the id list, each with fitness 0 |
| Genetic.Evaluated | src/genetic.rs:39-41 | every individual is re-scored from its own chromosome and keeps its chromosome |
| Genetic.InsertPerm | src/genetic.rs:43 | insertion keeps every individual and adds one |
| Genetic.InsertSorted | src/genetic.rs:43 | insertion keeps a population sorted fittest first |
| Genetic.InsertBelow | src/genetic.rs:43 | insertion keeps every fitness under a common bound |
| Genetic.SortByFitnessFacts | src/genetic.rs:43 | the sort on `Reverse(fitness)` is a permutation of the population, fittest first |
| Genetic.SurvivorsFittest | src/genetic.rs:43-44 | the truncated population is a prefix of the sorted one, and no survivor is less fit than any dropped individual |
| Genetic.CrossoverParts | src/genetic.rs:51-53 | a child has the second parent's length, the first parent's genes before the point and the second's from it on |
| Genetic.Children | src/genetic.rs:48-55 | the refill loop makes exactly the missing number of offspring, each of the common chromosome length |
| Genetic.MutateOneGene | src/genetic.rs:57-63 | a mutation keeps the length and the fitness and changes at most one gene, to some process id |
| Genetic.Mutated | src/genetic.rs:57-63 | the mutation loop mutates each individual with its own draw and keeps the population's size and lengths |
| Genetic.SortedUniform | src/genetic.rs:43 | sorting keeps every chromosome length |
| Genetic.Parents | src/genetic.rs:43-44 | the survivors are at least one and at most 75 individuals |
| Genetic.NextPopulation | src/genetic.rs:47-63 | refilling and mutating gives 150 individuals of the common length |
| Genetic.NextPopulationParts | src/genetic.rs:47-63 | the next population starts with the survivors, each mutated at most once with its old fitness kept; the rest are offspring scored 0 |
| Genetic.Generation | src/genetic.rs:37-66 | a generation yields 150 individuals of the common length |
| Genetic.ChildrenUnscored | src/genetic.rs:48-55 | every offspring starts with fitness 0 |
| Genetic.LastFittest | src/genetic.rs:68 | `max_by_key` picks the last individual of greatest fitness |
| Genetic.Evolve | src/genetic.rs:37-66 | after at least one generation the population has 150 individuals, all of the common length |
| Genetic.EvaluatePopulation | src/genetic.rs:39-41 | the fitness loop does what `Evaluated` says |
| Genetic.Refill | src/genetic.rs:47-55 | the new population is the survivors followed by the offspring |
| Genetic.MutatePopulation | src/genetic.rs:57-63 | the in-place mutation loop does what `Mutated` says |
| Genetic.MutatedEquals | src/genetic.rs:57-63 | a population mutated individual by individual equals `Mutated` |
| Genetic.GeneticAlgorithm | src/genetic.rs:23-71 | the result is the kept fitness of the last fittest individual after 200 generations, with the stocks its chromosome simulates to |
| Genetic.RunGeneration | src/genetic.rs:39-65 | one pass of the generations loop |
| Genetic.SelectSurvivors | src/genetic.rs:39-44 | evaluate, sort and truncate |
| Genetic.Breed | src/genetic.rs:46-65 | refill and mutate |
| Genetic.LastFittestOf | src/genetic.rs:68 | the `max_by_key` scan finds the index `LastFittest` names |
| Annealing.SimulateAgrees | src/simmulated_annealing.rs:89-108 | while the total time stays below the delay and every duration fits in 32 bits, this walk gives the same stocks and time as the genetic algorithm's `simulate` |
| Annealing.SimulateSequence | src/simmulated_annealing.rs:89-108 | `simulate` walks the ids in order: unknown ids and processes whose inputs are not covered are skipped, the others fire once and add their duration |
| Annealing.Pick | src/simmulated_annealing.rs:85 | the sum takes out some stock that is present |
| Annealing.WeightRemove | src/simmulated_annealing.rs:85 | any stock can be taken out of the weight sum first |
| Annealing.WeightExchange | src/simmulated_annealing.rs:85 | the weight sum does not depend on the order the map yields its entries |
| Annealing.WeightIgnoresObjectives | src/simmulated_annealing.rs:85 | objectives score 0, so their quantities never count in the weight |
| Annealing.WeightOf | src/simmulated_annealing.rs:85 | the loop over the map, in any order, computes the sum of score times quantity, a missing score counting as 0 |
| Annealing.ToI32 | src/simmulated_annealing.rs:86 | `as i32` keeps the low 32 bits in two's complement, and leaves values below 2^31 unchanged |
| Annealing.NegI32 | src/simmulated_annealing.rs:86 | `-1 *` on `i32` wraps, so only `i32::MIN` is its own negation |
| Annealing.FitnessIsNegatedWeight | src/simmulated_annealing.rs:83-87 | while the weight fits in 31 bits the fitness is exactly its negation |
| Annealing.FitnessWraps | src/simmulated_annealing.rs:83-87 | a weight of exactly 2^32 wraps to fitness 0, the fitness of an empty stock |
| Annealing.EvaluateFitness | src/simmulated_annealing.rs:83-87 | `evaluate_fitness` returns the wrapped negated weight of the simulated stocks and the simulated time |
| Annealing.InitialSolution | src/simmulated_annealing.rs:62-65 | the first solution lists the process ids in order, with fitness and time 0 |
| Annealing.PerturbOnePosition | src/simmulated_annealing.rs:67-73 | a perturbation keeps the length and changes exactly one position, to the id of some process |
| Annealing.PerturbSolution | src/simmulated_annealing.rs:67-73 | `perturb_solution` sets the drawn position to the drawn process id |
| Annealing.ScoredConsistent | src/simmulated_annealing.rs:39-45 | a solution stored by the loop carries the fitness and time of its own sequence |
| Annealing.Anneal | src/simmulated_annealing.rs:43-56 | every round keeps the current solution as long as the process list |
| Annealing.RoundRules | src/simmulated_annealing.rs:44-53 | a candidate at least as fit as the current solution is always accepted (probability 1 or `exp(0) = 1`), a less fit one exactly when the coin says so, and the best is replaced only by a strictly fitter current solution |
| Annealing.AnnealFacts | src/simmulated_annealing.rs:38-56 | after any number of rounds both solutions carry their own fitness, the best is at least as fit as the current and the initial one, and it never gets worse from one round to the next |
| Annealing.AnnealLast | src/simmulated_annealing.rs:43-56 | the last round is applied to the result of the earlier ones |
| Annealing.RoundKeeps | src/simmulated_annealing.rs:44-53 | a round keeps both solutions consistent and the best at least as fit as before and as the current one |
| Annealing.AnnealRounds | src/simmulated_annealing.rs:43-56 | the temperature loop does what `Anneal` says |
| Annealing.AnnealRound | src/simmulated_annealing.rs:44-55 | the loop body does what `Round` says |
| Annealing.SimulatedAnnealing | src/simmulated_annealing.rs:28-60 | the result is the simulated time and stocks of the best sequence after the rounds, scored by the stock levels of the backward search |
| Lexer.Utf8Width | src/lexer.rs:46-47 | a character takes 1 to 4 bytes in UTF-8, and 1 exactly when it is ASCII |
| Lexer.ByteLength | src/lexer.rs:46-47 | `String::len` counts at least one byte per character and at most four |
| Lexer.Word | src/lexer.rs:58-63 | the collected word is the text from the cursor up to the first delimiter or the end of the line, and holds no delimiter |
| Lexer.Classify | src/lexer.rs:64-76 | an identifier keeps its word, an invalid token keeps its non-empty word, and only the word "\n" gives a NewLine |
| Lexer.Punctuation | src/lexer.rs:34-37 | `:`, `;`, `(` and `)` are pushed directly, and no other character is |
| Lexer.Lexer.constructor | src/lexer.rs:26-28 | a lexer starts at the beginning of its line |
| Lexer.Lexer.Tokenize | src/lexer.rs:30-42 | `tokenize` pushes the tokens from the cursor to the end of the line after those already pushed, ending with one NewLine, and returns only with the cursor at the end; it never returns on a space |
| Lexer.Lexer.Advance | src/lexer.rs:44-55 | `advance` moves the cursor by the token's width, pushes the token and goes on; a token of width 0 makes it run forever |
| Lexer.Lexer.Identifier | src/lexer.rs:57-77 | `identifier` classifies the word at the cursor and advances past it |
| Lexer.CodeLines | src/lexer.rs:16-19 | at most every line is tokenized |
| Lexer.Lex | src/lexer.rs:13-23 | `lex` tokenizes every line not starting with `#` with a fresh lexer and collects the tokens in order |
| Lexer.NeverFinishes | src/lexer.rs:16-21 | once one line never finishes, `lex` never finishes |
| Lexer.Log10Digits | src/lexer.rs:48 | `ilog10(n) + 1` is the number of decimal digits of a positive `n` |
| Lexer.NumberWidth | src/lexer.rs:48 | a number moves the cursor by the length of its decimal text without leading zeros, 0 counting as one digit |
| Lexer.DigitsCover | src/lexer.rs:48 | a run of digits is at least as long as the decimal text of its value |
| Lexer.AsciiByteLength | src/lexer.rs:46-47 | on ASCII text `len` counts characters |
| Lexer.ClassifyWidth | src/lexer.rs:44-76 | an ASCII word moves the cursor at least one character and at most to its end |
| Lexer.WordWidth | src/lexer.rs:44-76 | the word at a non-delimiter of an ASCII line moves the cursor at least one character and at most to its end |
| Lexer.TokenNotNewLine | src/lexer.rs:62-67 | a word holds no delimiter, so the "\n" case never fires inside a line |
| Lexer.OneNewLine | src/lexer.rs:30-32 | a line lexed to its end yields exactly one NewLine, and it comes last |
| Lexer.BlankShift | src/lexer.rs:6 | moving over non-blank text does not change whether a blank lies ahead |
| Lexer.TokenAtWidth | src/lexer.rs:30-55 | on ASCII text a token at a non-blank stays within the line and covers no blank, and the lexer pushes it and goes on past it |
| Lexer.BlankNeverEnds | src/lexer.rs:30-55 | an ASCII line is lexed to its end exactly when no space, tab, newline or carriage return lies ahead |
| Lexer.NewLinePerLine | src/lexer.rs:13-23 | when `lex` finishes, it has pushed exactly one NewLine per line that is not a comment |
| Lexer.WordIs | src/lexer.rs:58-63 | the word at a position is the text up to the next delimiter |
| Lexer.SpellingFacts | src/lexer.rs:34-37 | a readable token is written without blanks; a word token holds no delimiter, and punctuation is one character the lexer pushes directly |
| Lexer.ClassifySpelling | src/lexer.rs:44-76 | `identifier` gives every readable word token back from its text, and moves past all of it |
| Lexer.ReadToken | src/lexer.rs:30-76 | a readable token written in a line and ended by a delimiter or the end of the line is read back as itself |
| Lexer.TokensStep | src/lexer.rs:44-55 | the lexer pushes a token it reads and goes on past its width |
| Lexer.SpelledWidth | src/lexer.rs:44-52 | a readable token moves the cursor by the length of its text |
| Lexer.ChainStep | src/lexer.rs:30-55 | the lexer pushes the first of the tokens both lexers find and goes on where the corrected lexer does |
| Lexer.ChainRead | src/lexer.rs:30-55 | the lexer reads back the readable tokens both lexers find next to each other, then a NewLine |
| Lexer.HeadReads | src/lexer.rs:30-76 | both lexers read a readable token written in a line and ended by a delimiter or the end of the line |
| Lexer.TightHead | src/lexer.rs:30-76 | both lexers read the first token of a line written without separators |
| Lexer.SpacedHead | src/lexer.rs:30-76 | both lexers read the first token of a line written with a space after each token |
| Lexer.TightStep | src/lexer.rs:30-76 | reading the first token of a line written without separators leaves the rest written the same way |
| Lexer.HeadExtends | src/lexer.rs:30-55 | a token read at the cursor extends what is read after it |
| Lexer.TightReads | src/lexer.rs:30-76 | both lexers find the tokens of a line written as readable tokens without separators and with no two words side by side |
| Lexer.SpellingReadsBack | src/lexer.rs:26-76 | such a line is lexed back into its tokens followed by a NewLine |
| Lexer.FixedWidth | src/lexer.rs:44-52 | the corrected lexer always moves at least one character |
| Lexer.FixedWidthOf | src/lexer.rs:44-52 | the corrected lexer moves past a readable token by the length of its text |
| Lexer.FixedStep | src/lexer.rs:30-55 | the corrected lexer pushes the token at a non-blank and goes on past it |
| Lexer.SkipBlank | src/lexer.rs:38 | the corrected lexer passes over a blank |
| Lexer.SpacedStep | src/lexer.rs:30-55 | the corrected lexer pushes a token followed by a blank and goes on past both |
| Lexer.SpacedChain | src/lexer.rs:30-55 | the corrected lexer reads back tokens it finds one blank apart, then a NewLine |
| Lexer.TightChain | src/lexer.rs:30-55 | the corrected lexer reads back the tokens both lexers find next to each other, then a NewLine |
| Lexer.FixedSpacedReads | src/lexer.rs:30-76 | the corrected lexer finds the tokens of a line written with a space after each |
| Lexer.FixedReadsBack | src/lexer.rs:30-76 | the corrected lexer reads back any line of readable tokens written with a space after each, and agrees with the lexer on lines written without separators |
| Lexer.ClassifyDigits | src/lexer.rs:68-69 | a run of digits whose value fits in 64 bits becomes a Number of that value |
| Lexer.SpaceWords | src/lexer.rs:58-63 | the words of `a b` are `a` and `b` |
| Lexer.SpaceNeverEnds | src/lexer.rs:38 | the line `a b` is never lexed to its end |
| Lexer.FixedSpaceWords | src/lexer.rs:38 | the corrected lexer reads `a b` as two identifiers and a NewLine |
| Lexer.LeadingZerosRepeat | src/lexer.rs:48 | `007` is read as three Numbers 7 |
| Lexer.FixedLeadingZeros | src/lexer.rs:48 | the corrected lexer reads `007` as the one Number 7 |
| Lexer.ZerosValue | src/lexer.rs:68 | `007`, `07` and `7` all parse to 7 |
| Lexer.ZerosRead | src/lexer.rs:57-76 | in `007` every position starts a word that becomes the Number 7 |
| Lexer.WideCharSkips | src/lexer.rs:46 | in `aé:1` the colon is skipped, because `é` takes two bytes |
| Lexer.FixedWideChar | src/lexer.rs:46 | the corrected lexer reads the colon in `aé:1` |
| Lexer.WideRead | src/lexer.rs:57-76 | the tokens at positions 0, 2 and 3 of `aé:1` are the identifier, the colon and the number |
| Parsing.Expect | src/parser.rs:191-200 | `consume` steps over the expected token and only over it; otherwise it reports the token found, or `UnexpectedEOF` at the end |
| Parsing.ExpectIdent | src/parser.rs:202-216 | `consume_ident` steps over an identifier and returns its name, and stays put on anything else |
| Parsing.ExpectNumber | src/parser.rs:218-229 | `consume_number` steps over a number and returns its value; at the end of the tokens the error is `MissingProcess` |
| Parsing.TupleItems | src/parser.rs:120-136 | the pair loop only moves forward, and on success returns at least one more pair after those already read |
| Parsing.TupleNext | src/parser.rs:125-135 | after a pair, `)` ends the tuple and `;` reads another; the pairs already read are kept |
| Parsing.Tuple | src/parser.rs:116-137 | `parse_tuple` returns at least one pair and moves the cursor |
| Parsing.OptimizeItems | src/parser.rs:156-185 | the objective loop only moves forward and on success returns at least one more name |
| Parsing.OptimizeNext | src/parser.rs:170-184 | after a name, `)` ends the list and `;` reads another; the names already read are kept |
| Parsing.AddOutputs | src/parser.rs:101-105 | every output stock not yet known is added with quantity 0, and known quantities are kept |
| Parsing.OptimizeLine | src/parser.rs:147-189 | `parse_optimize` refuses a second optimize line and touches nothing else; it sets a non-empty objective list exactly when it succeeds, which ends on a NewLine |
| Parsing.ProcessLine | src/parser.rs:85-114 | `parse_process` refuses an id already used by a stock or a process; on success it appends one process built from the two tuples and the number; unknown outputs get stock 0 even when the line fails later; the objectives are untouched |
| Parsing.StockLine | src/parser.rs:139-145 | `parse_stock` stores the quantity even for a known name, then fails with `DuplicatedIdentifier`; a new name succeeds only when a NewLine follows |
| Parsing.Declaration | src/parser.rs:67-78 | the identifier branch dispatches on the token after `name:` and moves the cursor on success |
| Parsing.Line | src/parser.rs:62-83 | `parse_line` moves the cursor whenever it succeeds |
| Parsing.Parsed | src/parser.rs:45-60 | at the end of the tokens `parse` checks, in order, for an optimize line, at least one stock and at least one process; success means all three are there |
| Parsing.LineGrows | src/parser.rs:62-189 | one line only appends at most one process, only adds stock names, sets the objectives at most once, and keeps process ids distinct |
| Parsing.ParsedGrows | src/parser.rs:45-60 | the whole parse keeps those facts |
| Parsing.Pairs | src/parser.rs:120-136 | a tuple body of `n` pairs is `4n - 1` tokens long |
| Parsing.PairsHead | src/parser.rs:120-135 | a written tuple body starts with its first pair, then `)` or `;` |
| Parsing.PairStep | src/parser.rs:121-124 | one `name:q` pair is read where the tokens spell it |
| Parsing.PairsRead | src/parser.rs:120-136 | the pair loop reads back every pair of a written tuple body, in order, and stops after its `)` |
| Parsing.TupleRoundTrip | src/parser.rs:116-137 | `parse_tuple` reads back exactly the pairs of a written tuple |
| Parsing.Objectives | src/parser.rs:156-185 | a list of `n` objectives is `2n - 1` tokens long |
| Parsing.ObjectiveStep | src/parser.rs:157-168 | one objective, `time` or a name, is read where the tokens spell it |
| Parsing.ObjectivesRead | src/parser.rs:156-185 | the objective loop reads back every name of a written list and stops after its `)` |
| Parsing.OptimizeRoundTrip | src/parser.rs:147-189 | a written optimize line sets exactly its objectives, `time` included, when none were set |
| Parsing.StockRoundTrip | src/parser.rs:139-145 | a written stock line with a new name stores its quantity |
| Parsing.StockRedeclared | src/parser.rs:139-145 | a stock line for a known name, including an output a process created, fails with `DuplicatedIdentifier` after storing the new quantity |
| Parsing.ProcessLineReads | src/parser.rs:85-114 | when the five parts read as a process's parts, `parse_process` appends exactly that process and adds its outputs |
| Parsing.ProcessInputRead | src/parser.rs:92-99 | the input tuple of a written process reads back and a colon follows |
| Parsing.ProcessOutputRead | src/parser.rs:100-107 | the output tuple reads back and `: time` follows |
| Parsing.ProcessBodyRead | src/parser.rs:85-114 | `parse_process` reads a written process body back as that process |
| Parsing.ProcessRoundTrip | src/parser.rs:62-114 | a written process line with a fresh id appends exactly that process and adds its unknown outputs with 0 |
| Parsing.Parser.constructor | src/parser.rs:32-43 | a parser starts at the first token with no stocks, no processes and no objectives |
| Parsing.Parser.Peek | src/parser.rs:240-242 | `peek` returns the token at the cursor, if any |
| Parsing.Parser.Advance | src/parser.rs:231-238 | `advance` returns the token at the cursor and steps over it |
| Parsing.Parser.Consume | src/parser.rs:191-200 | the method does what `Expect` says, on the fields |
| Parsing.Parser.ConsumeIdent | src/parser.rs:202-216 | the method does what `ExpectIdent` says |
| Parsing.Parser.ConsumeNumber | src/parser.rs:218-229 | the method does what `ExpectNumber` says |
| Parsing.Parser.ParseTuple | src/parser.rs:116-137 | the method does what `Tuple` says |
| Parsing.Parser.ParseOptimize | src/parser.rs:147-189 | the method does what `OptimizeLine` says, on the cursor and the configuration |
| Parsing.Parser.ParseObjectives | src/parser.rs:156-185 | the loop does what `OptimizeItems` says |
| Parsing.Parser.ParseStock | src/parser.rs:139-145 | the method does what `StockLine` says |
| Parsing.Parser.ParseProcess | src/parser.rs:85-114 | the method does what `ProcessLine` says |
| Parsing.Parser.AddOutputStocks | src/parser.rs:101-105 | the loop does what `AddOutputs` says |
| Parsing.Parser.ParseDeclaration | src/parser.rs:67-78 | the method does what `Declaration` says |
| Parsing.Parser.ParseLine | src/parser.rs:62-83 | the method does what `Line` says |
| Parsing.Parser.Parse | src/parser.rs:45-60 | the recursion does what `Parsed` says |

## Left out

- File reading and writing: `read_lines`, `parse_result_file`'s and `generate_log_file`'s file handles, and the command-line front ends are left out. Lines are given as sequences of strings, and the log as the sequence of lines it would hold.
- Printing of progress and timing messages is left out; it has no effect on the results.
- The timer thread and `Instant` are replaced by a count of flag reads that still find the flag unset. The model says nothing about how that count relates to wall-clock time.
- Random numbers are left out. Every draw is a parameter: an index, a count, a coin, or a sequence of draws with `Aco.DrawAt` reading past its end as `(0, 0)`. The model therefore covers every outcome the source can reach, not their probabilities.
- Floating point is left out: ACO's pheromone weights and their update (`initialize_pheromones`, `update_pheromones`, the roulette weights), the annealing temperature schedule and `acceptance_probability`'s exponential, and the genetic mutation rate. Apart from the zero-duration case in the next two lines, they only shape the random draws above. An equally fit annealing candidate gets probability `exp(0) = 1`, so `Annealing.Round` accepts it whatever the coin.
- Aco.SelectNextProcesses: a runnable candidate of duration 0 makes the source's weight `pheromone * (1.0 / 0.0)` infinite. `gen_range(0.0..total_weight)` then panics on the infinite bound (src/aco.rs:120-129). The model does not capture that panic: it selects among the candidates as it does for positive durations.
- Aco.ConstructSolution: for the same reason, an ant whose step offers a runnable process of duration 0 panics in the source, while the model goes on building its solution.
- `aco_optimization`'s outer iteration loop is modelled only through its best-ant rule (`Aco.BestAnt`); its pheromone update is floating point.
- `Annealing.SimulatedAnnealing`: the number of rounds is a parameter. The source's schedule (200 down to 0.1 by a factor 0.96) gives 187.
- 64-bit arithmetic: quantities and times are unbounded naturals. The model does not capture u64 overflow in sums of stocks, in `amount * count`, or in `time + duration * count`.
- `Sgs.SgsAlgorithm`: a process with no inputs is fired `u64::MAX` times, exactly as the source counts it. The output additions that overflow in the source stay exact here.
- Resources.ValidProcesses: every firing member requires that each input names a stock once and asks for a positive amount of it. The model promises nothing for other input lists. What the source does with them, module by module:
  - `StateSpace`, `AStar` and `IdaStar` (src/a_star.rs:55-86, src/ida_star.rs:57-86): a repeated input does not fail. The guard finds the running stock short of `input_amount * count` on the second entry and skips that count, while `StateSpace.TryConsume` never skips one. A zero amount divides by zero when the stock is present, and the process never fires when it is absent.
  - `Dijkstra` (src/dijkstra.rs:55-73): a repeated input underflows in the unguarded subtraction, and a zero amount on a present stock divides by zero.
  - `Sgs` (src/sgs.rs:36-73): a repeated input passes the per-entry eligibility test and underflows in the subtraction. A zero amount on a present stock divides by zero in `max_executions`.
  - `Aco` (src/aco.rs:96-158): a repeated input passes the per-entry check of `update_stocks_and_time` and underflows. A zero amount on a present stock divides by zero in `select_next_processes`.
  - `Tabu.GenerateNeighbors`, `Tabu.Iterate` and `Tabu.TabuSearch` (src/forbidden_name.rs:19-32): a repeated input underflows. A zero amount is accepted on a present stock and unwraps an absent key otherwise.
  - `Genetic.SimulateChromosome`, `Genetic.EvaluateFitness`, `Genetic.EvaluatePopulation`, `Genetic.SelectSurvivors`, `Genetic.RunGeneration` and `Genetic.GeneticAlgorithm` (src/genetic.rs:88-90): the same as `Tabu`.
  - `Annealing.SimulateSequence`, `Annealing.EvaluateFitness`, `Annealing.AnnealRound`, `Annealing.AnnealRounds` and `Annealing.SimulatedAnnealing` (src/simmulated_annealing.rs:96-98): the same as `Tabu`.
  - `Verifier.ReplayOne`, `Verifier.CheckExecution`, `Verifier.StepState`, `Verifier.RunState` and `Verifier.ValidTraceConserves` (krpsim_verif/src/main.rs:135-147): the same as `Tabu`.
  - Underflow here means u64 subtraction below zero: a panic in a debug build, a wrap-around in a release build.
- Several replay lemmas require distinct process ids, because the replays look a process up by id: `StateSpace.DistinctIds`. `Parsing.LineGrows` shows that the parser keeps ids distinct.
- Annealing.SimulatedAnnealing, `Annealing.AnnealRounds`, `Annealing.AnnealRound`, `Annealing.Anneal`, `Annealing.Round`, `Annealing.Perturb`, `Annealing.PerturbOnePosition` and `Annealing.PerturbSolution` require at least one process. With none, the source's `gen_range(0..0)` in `perturb_solution` panics (src/simmulated_annealing.rs:70). A parsed configuration always has one: `Parsing.Parsed` succeeds only when at least one process was declared.
- `Genetic.GeneticAlgorithm` requires at least one process, because the source's `gen_range(0..0)` in crossover panics on an empty chromosome.
- Genetic fitness: a survivor keeps the fitness it had before mutation, and offspring carry 0 until the next evaluation. The final `max_by_key` uses these kept values; the model does the same and does not re-evaluate them.
- 32-bit arithmetic: `Genetic.Simulate` casts each duration to 32 bits as the source does. The running total is modelled without the u32 wrap of `total_time += …`.
- `Annealing.ToI32` and `Annealing.NegI32` are written out, but the u64 sum before the cast is unbounded.
- HashMap iteration order is left out: `generate_log_file` writes the stock maps as listings given as sequences that enumerate the map once per name. The annealing weight is proved independent of the order.
- AStar.Search: the visited set uses `StockState`'s hash, which feeds the stock map's entries in `HashMap` iteration order (src/a_star.rs:15-22). Two equal maps whose orders differ can hash differently, so the source can miss a visited (stocks, clock) pair and expand it again. The model compares stock maps exactly and never re-expands a visited pair.
- IdaStar.Search: the same hash (src/ida_star.rs:14-21) can let `depth_limited_search` revisit an equal (stocks, clock) pair that the model skips.
- Dijkstra.VisitState: the same hash (src/dijkstra.rs:14-20) can let the source revisit an equal stock snapshot that the model skips.
- `BinaryHeap` ties: among states that compare equal, A* and Dijkstra pop the earliest pushed; Rust does not define that order.
- `Lexer.IsAlphabetic` accepts only ASCII letters, where `char::is_alphabetic` accepts every Unicode letter. Words starting with another letter are classified as Invalid rather than Identifier.
- `Parsing.Parser.constructor` takes the token list. The `lex(file).unwrap()` inside `Parser::new` is file I/O and is left out.
- `Parsing.Expect` compares tokens structurally. `src/tokens.rs` derives only `Debug`, so the equality `src/parser.rs:193` relies on is not defined in the files modelled.
- The round trip of a whole configuration file through lexer and parser is not proved. The proved round trips are line by line: a written line lexes back to its tokens, and written token lines parse back to their stock, process or optimize declaration.
- A lexer call that never returns is modelled as `None` at exactly that call. The model does not capture the stack overflow it ends in.
- `Data::new` in `src/forbidden_name.rs` is left out; it is never called.

## Findings

| source | as written | input that shows it | evidently intended | confidence | as-written member | corrected member |
|---|---|---|---|---|---|---|
| src/gen_file.rs:9, krpsim_verif/src/main.rs:90-96 | the log starts with `Initial stocks:`, which the verifier's reader turns into an execution of process "" at time 0 (an unreadable time counts as 0) | any generated log, for processes that all have names | the header and the initial stock lines are not read as executions, and the log reads back as the runs and final stocks written | not executed | LogFile.GeneratedLogRejected | LogFile.GeneratedLogReadsBack |
| src/aco.rs:57, src/aco.rs:176 | `construct_solution` pushes `(id, count)` once per successful unit run, and `evaluate_solution` replays `count` runs per entry, so a step of `count` runs is replayed `count²` times | 4 `a`; `p: a→b` and `q: a→c` of duration 1; objective `c`; draws `p`×2 then `q`×2 | one `(id, runs)` entry per step, which replays to the ant's own stocks and clock | not executed | Aco.SolutionOvercounts | Aco.AntReplays |
| src/lexer.rs:38 | on a space `tokenize` calls itself without moving the cursor. On a tab or carriage return the empty word becomes an identifier of width 0. Either way the lexer never returns | the line `a b` | blanks are skipped and every line is lexed to its end | not executed | Lexer.SpaceNeverEnds | Lexer.FixedSpaceWords |
| src/lexer.rs:48 | a number moves the cursor by the digits of its value, so leading zeros are read again | the line `007` | one Number 7 | not executed | Lexer.LeadingZerosRepeat | Lexer.FixedLeadingZeros |
| src/lexer.rs:46-47 | a word moves the cursor, which counts characters, by its length in UTF-8 bytes | the line `aé:1` | the cursor moves by the characters of the word, so the colon is read | not executed | Lexer.WideCharSkips | Lexer.FixedWideChar |
