# Verified models of SCORPIO's replay VM, PAPI registry, decompositions and utilities

This project models the parts of the SCORPIO repository that schedule, count, divide and delete,
and proves what they promise. `dafny verify dfyconfig.toml` checks all of it.

## The replay virtual machine

`SPIOVM.execute` interleaves the trace logs of several I/O systems. Each system has an execution
engine with six states. Two systems are dependent when a rank belongs to both; dependent systems
must not run at the same time. A *ready pass* visits the systems in descending order of time
stamps and knocks dependent READY systems back to INIT; a *run pass* executes one call of every
system that runs. The state-transition callbacks cut the emitted source into numbered phases, and
the VM records the order in which phases started. A driver later replays whole phases in that
order.

The proof has three layers.

* `Trace`, `Engine` and `VirtualMachine` hold the program: classes whose fields the methods update
  as the Python code does. Every method is proved against a function on values.
* `Machine` is the same VM as a state machine over values: six kinds of steps on single systems, in
  any order. Its invariant is proved step by step and then for every run. `VirtualMachine` proves
  that each state the program goes through is reached by such steps, so everything shown in
  `Theorems` for reachable states holds of the program, in the middle of a pass too.
* `Runs` is the whole execution as a list of states between rounds, each a function of the one
  before: the systems, both sequences, the time stamps and totals of the quiescence check, and the
  clock. `VirtualMachine` proves that the program's own variables are the last state of such a list
  after every iteration, so what is shown for every list holds of the program's rounds. `Executions`
  links the layers: every state of such a list is reachable by steps of the state machine.

The main results are stated on `SPIOVM.Execute`, in `Theorems`, in `Runs`, in `Totals` and in
`DriverOrder`: the loop terminates, it fails exactly when a log is corrupt, otherwise every engine
ends in FINALIZE, every system has emitted its own trace in order and once, in well-formed phases,
and for every two dependent systems replaying whole phases in the order of the run sequence gives the same order of calls as the
interleaved execution. On traces whose calls do not overlap, in no round of any execution does a
system ask for a pause before it has executed 12 calls, and `QuietRun` is an execution in which one
asks after exactly 12. `Totals` says what the check computes: the totals are sums of the gaps
between calls, and a gap asks for a pause exactly when, times the calls before it less one, it is more
than ten times the sum of the gaps up to it. `Clock` says what the tics that the systems record are:
positions in the instruction sequence.

Where the code differs from its own comments or its evident intent, the code is modelled:

* The quiescence check decides about system `idx` but moves `sys`, the last system of the list
  (`tools/replay/spio_vm.py:98`). `Quiescence.Moved` does the same. `Quiescence.MovesAsIntended`
  gives the exact condition under which the check still does what it is for: no gap of a running
  system other than the last one is too long. `QuietRun.QuietBoundAttained` is an execution of two
  dependent systems in which it does not. As a consequence, every system but the last one of the
  list has at most one phase (`Runs.OnePhase`); a phase is broken off exactly as `Runs.BrokenOff`
  says. The state machine's pause step takes any system, so the theorems about reachable states hold
  for either reading.
* A total of -1 stands for one that has not started (`tools/replay/spio_vm.py:25`), so a total whose
  gaps happen to add up to -1 starts anew. `Totals.SumsExactly` says that this is the only exception;
  it needs calls that overlap.
* The generated driver uses the position in the run sequence as the index of the system
  (`tools/replay/src_templates/driver_template.cpp:46-51`). It replays what the VM recorded if and
  only if the run sequence is 0, 1, 2, and so on. When all systems depend on each other, that can be
  read off the logs (`DriverOrder.DriverOfLogs`): the systems with calls come first in the list, in
  the strict order of their first calls, and no gap in the last system's trace asks for a pause
  (`DriverOrder.DriverBySums` puts that in plain sums).
  `DriverRun.DriverCounterexample` is a finished execution of two dependent systems with one call
  each, recorded as 1, 0, which the driver calls as 0, 1 without an error.
* As parsed, the colours of a communicator map are digits only
  (`tools/replay/spio_trace_mdata_parser.py:75-76`), so a colour is never negative and any two
  systems with at least one rank are dependent (`Theorems.AllRelated`). Replaying whole phases is
  then the interleaved execution itself (`Theorems.WholeOrder`). The model keeps the test of the
  code (`tools/replay/spio_iosys.py:54`) and allows negative colours, which is the more general
  case.

Modelling decisions: the engine and its I/O system are one class, because they refer to each other
one to one. A log is a list of lines, each a string; what `float` makes of the text of a time stamp
is a parameter, and a time stamp that is not a number makes the line malformed when it is read, not
when the VM converts it. Source text is a list of events (prefix, instruction, suffix,
dispatcher) with phase numbers in place of substituted tokens. The passes before the main loop use
the methods of the passes inside it, which do the same because nobody is in RUN yet. Different
systems have different ids, which the engine relies on to find its own index.

## The PAPI registry and counters

`Papi` models the table of raw counters and the table of printed events, with the requests that
append to them. The ten cases for derived events are one table of defining quotients, in order of
preference. What the PAPI library answers is a parameter of each call, so the results hold for any
hardware. `Counters` models start, stop, merge and the value of an event.

An event is looked up by its name. The name of a native event is cut to 12 characters when it is
stored, and the row for `PAPI_TLB_DM` lacks a comma, so that it is stored under a name that runs on
into the next string (`src/gptl/gptl_papi.c:48`). `Papi.FoundByName` says exactly which enabled
events are found by their full names.

A derived event asks for two free slots in the raw table even if its counters are there already;
`Papi.Granted` says so. A bad interval is not remembered: later intervals are added to the bad
count itself, so a run is reported as bad only if the counter does not move any more
(`Counters.ReportedBad`, `Counters.BadIsForgotten`). Counters with such a past can make the order of
merging matter; `Counters.OrderMattersWhen` says exactly when.

## Decompositions

`Decomp` models the generators of the F, G and I examples and the block distribution of
`put_var.c`. The partitions are exact for all sizes and all numbers of ranks up to one more than
there are columns or edges, and not beyond (`Decomp.LonPartition`, `Decomp.EdgePartition`).

## Utilities

`RemoveTree` proves that the explicit-stack deletion makes the calls of recursive post-order
removal, and that in a file system those calls all succeed and remove exactly the tree.
`CommandLine` models the tokenizer and the parser without regular expressions. Only the exact
argument `--help` shows the help; `-h` is too short to be tokenized and raises an error, although
the parser compares with it. A program that asks for the option `help` after parsing, as
`examples/cxx/e3sm_fgi.cpp:74` does, then finds it after `--help=` but not after `--help`. An
option given as `--o=noval` cannot be told from `--o`.
`NearestPower` models the rounding to a power of two.

## Model

| member | source | states |
|---|---|---|
| VirtualMachine.SPIOVM.Execute | tools/replay/spio_vm.py:24-116 | terminates on all traces; fails exactly when some log is corrupt; otherwise all engines are in FINALIZE, every system has emitted its own trace completely, and replaying phases is faithful for all dependent pairs; the final state is the last one of an execution as specified, in which, if no calls overlap, every pause was asked for by a system with at least 12 executed calls |
| Runs.QuietRounds | tools/replay/spio_vm.py:65-116 | the quiescence bound over whole executions: if no calls of a trace overlap, then in every round of every execution a system whose gap asks for a pause has executed at least 12 calls |
| Runs.BrokenOff | tools/replay/spio_vm.py:84-116 | in a round, a running system breaks off its phase if and only if it is the last one of the list, its trace goes on, and the gap of some system asks for a pause |
| Runs.OnePhase | tools/replay/spio_vm.py:84-116 | at every moment of every execution, each system but the last one of the list has exactly one phase if it has executed a call, and none otherwise |
| Executions.RunReached | tools/replay/spio_vm.py:24-116 | every state of every execution is reachable by steps of the state machine |
| Executions.RunToEnd | tools/replay/spio_vm.py:64-116 | on logs that can be read to their ends, there is an execution that ends with every system finalized |
| LaunchOrder.StartsInOrder | tools/replay/spio_vm.py:100-111 | if all systems depend on each other, they start in the order of their first calls, those with equal stamps from the end of the list; at every moment the systems that have not started come later than those that have |
| LastPhase.LastPhases | tools/replay/spio_vm.py:84-98 | if all systems depend on each other, the last one of the list ends with more than one phase if and only if some gap of its own trace asks for a pause, on any traces |
| Totals.LastPhasesBySums | tools/replay/spio_vm.py:84-98 | the same in plain sums: exactly if for some e the gap after its first e calls, times e - 1, is more than ten times the sum of its first e gaps |
| Totals.TotalsAreSums | tools/replay/spio_vm.py:84-92 | at every moment of every execution, a running system in its first phase has the total -1 after its first call and the sum of the gaps between its executed calls from then on |
| Totals.FirstPause | tools/replay/spio_vm.py:84-116 | in every round of every execution, the last system of the list, running in its first phase, is cut off before the end of its trace if and only if its trace goes on and for some running system the gap before its next call, times its executed calls less one, is more than ten times the sum of its gaps so far |
| Totals.AsksExactly | tools/replay/spio_vm.py:88-96 | from the second call on, a gap asks for a pause if and only if, times the calls less one, it is more than ten times the sum of the gaps up to it |
| Totals.SumsExactly | tools/replay/spio_vm.py:89-92 | the running totals are the sums of the gaps if and only if no sum that is added to equals the marker -1; calls that do not overlap suffice (`Totals.CalmUnmarked`) |
| Totals.CalmUnmarked | tools/replay/spio_vm.py:89-92 | on a trace whose calls do not overlap no sum of gaps is the marker |
| Clock.ClockCounts | tools/replay/spio_vm.py:34-115 | at every moment of every execution the clock is the number of executed calls, each system has recorded for each phase the position of its first call in the instruction sequence, and the run sequence is the merge of those records in time order |
| DriverOrder.DriverOfLogs | tools/replay/src_templates/driver_template.cpp:45-55 | if all systems depend on each other, the driver makes the recorded calls if and only if the non-empty logs come first, their first stamps strictly ascend, and no gap in the last log asks for a pause |
| DriverOrder.DriverBySums | tools/replay/src_templates/driver_template.cpp:45-55 | the same in plain sums: no gap of the last log, times the calls before it less one, is more than ten times the sum of the gaps up to it |
| Runs.RoundsOk | tools/replay/spio_vm.py:64-116 | between all rounds of every execution, nobody is READY, each system is on track in its trace, and the remembered stamps are those of the last executed calls |
| Runs.NextRoundOk | tools/replay/spio_vm.py:65-116 | an iteration keeps all that, and leaves strictly less to execute while some system is live |
| Runs.ReadsOn | tools/replay/spio_vm.py:68-77 | on logs that can be read to their ends, every execution can go on |
| QuietRun.QuietBoundAttained | tools/replay/spio_vm.py:84-98 | two dependent systems on readable logs without overlapping calls: after exactly 12 executed calls the gap of the first asks for a pause, and the second, which was waiting, is the one moved |
| Quiescence.MovesAsIntended | tools/replay/spio_vm.py:94-98 | the check moves every system whose gap is too long and no other, with the right totals, if and only if no such system precedes the last one of the list; too long means more than ten times the new total divided by the executed calls less one |
| Theorems.MutualExclusion | tools/replay/spio_iosys.py:164-182 | in no reachable state, also inside a pass, are two dependent systems both in READY or RUN |
| Theorems.Serialisable | tools/replay/spio_vm.py:100-116 | at every moment, every dependent pair sees the replay of whole phases in the same order as the interleaved execution |
| Theorems.FinishedOrder | tools/replay/spio_vm.py:102-116 | after a finished run, that order is the interleaving of the two complete traces |
| Theorems.Transitions | tools/replay/spio_iosys.py:91-101 | FINALIZE is absorbing, an engine finalizes only from RUN or with an empty trace from INIT, only READY systems start, and the READY-to-FINALIZE and QUIESCENT-to-RUN callbacks never fire |
| Theorems.CachedSinceFetch | tools/replay/spio_vm.py:68-77 | from its first fetch on, whatever steps follow, an engine holds an unexecuted call unless it is in RUN or FINALIZE |
| Theorems.Cached | tools/replay/spio_iosys.py:208-256 | in every reachable state a READY or QUIESCENT engine holds an unexecuted call, and an INIT engine without one has emitted nothing |
| Theorems.PhaseStructure | tools/replay/spio_iosys.py:78-98 | at every moment the source is a list of non-empty phases numbered from 0, open exactly in RUN and closed by one dispatcher over all of them in FINALIZE, with one entry of the run sequence and one function name per phase |
| Theorems.AllRelated | tools/replay/spio_iosys.py:50-57 | on maps with ranks and no negative colours all systems depend on each other |
| Theorems.WholeOrder | tools/replay/spio_vm.py:100-116 | if all systems depend on each other, replaying whole phases is the interleaved execution itself, call by call, at every moment |
| Replay.ViewsDetermine | tools/replay/spio_vm.py:108-116 | two orders of calls that look the same to all pairs of systems are the same order |
| Theorems.Completeness | tools/replay/spio_vm.py:64-116 | once all engines are in FINALIZE, each source holds its own trace, in order, each call once, closed by one dispatcher over all its phases |
| Theorems.FinishedRun | tools/replay/spio_vm.py:24-116 | completeness for all systems and faithfulness for all dependent pairs of a finished run |
| Theorems.DriverOfFinishedRun | tools/replay/src_templates/driver_template.cpp:45-55 | after any finished run, the driver makes the recorded calls if and only if the run sequence is 0, 1, 2, ... |
| Machine.StepInv | tools/replay/spio_iosys.py:154-194 | every enabled step keeps exclusion, phase structure, progress through the trace, the counts of both sequences and the order seen by dependent pairs |
| Machine.RunInv | tools/replay/spio_vm.py:24-116 | the same for every run of enabled steps from an untouched state |
| Machine.VisitExclusive | tools/replay/spio_iosys.py:172-182 | a ready test with its knock-back leaves no two dependent systems active |
| Machine.StartSerial | tools/replay/spio_vm.py:109-114 | opening a phase with its first call keeps the two orders equal for every system and every dependent pair |
| Machine.ContinueOrder | tools/replay/spio_vm.py:112-116 | a further call of an open phase comes last in the replay seen by its pairs, although the phase need not be the last one of the run sequence, and changes nothing for the others |
| Replay.ReplayedContinue | tools/replay/spio_vm.py:108-116 | extending an open phase adds its call at the end of what a pair sees, if no later phase belongs to the pair |
| Replay.ProjectOthers | tools/replay/spio_vm.py:108-116 | and changes nothing for pairs that the system does not belong to |
| Phases.StartOk | tools/replay/spio_iosys.py:78-83 | starting a phase keeps the shape of the source and executes exactly the next call of the trace |
| Phases.ContinueOk | tools/replay/spio_iosys.py:184-194 | a further call keeps both too |
| Phases.RefillOk | tools/replay/spio_iosys.py:95-101 | fetching keeps both, and at the end of the log closes the source with suffix and dispatcher |
| Engine.IOSys.IsDependent | tools/replay/spio_iosys.py:50-57 | fails exactly on maps of different lengths, and otherwise says whether a rank belongs to both systems |
| Engine.DependentSymmetric | tools/replay/spio_iosys.py:146-150 | dependence is symmetric |
| Engine.IOSys.Init | tools/replay/spio_iosys.py:137-152 | finds the last position with the own id and the table of all dependencies, or fails if two maps differ in length |
| Engine.IOSys.SetState | tools/replay/spio_iosys.py:154-162 | the transition with the callback of the matrix, and nothing out of FINALIZE |
| Engine.IOSys.IsReady | tools/replay/spio_iosys.py:164-182 | true exactly if no dependent system runs, and then every dependent READY system is back in INIT and nothing else has changed |
| Engine.IOSys.Execute | tools/replay/spio_iosys.py:184-194 | emits the text, drops the cached call, and fails exactly in FINALIZE |
| Trace.InstructionStream.Fetch | tools/replay/spio_iosys.py:208-246 | the next call of the log's lines unless one is cached; end and corruption as what the lines say determines |
| Trace.InstructionStream.ReadFields | tools/replay/spio_iosys.py:225-231 | a line gives a time stamp and a text exactly if it says so |
| Trace.FieldsExactly | tools/replay/spio_iosys.py:217-244 | a line carries a call's stamp and text if and only if it is three fields without colons, joined by two colons, the second a number |
| Trace.RuleExactly | tools/replay/spio_iosys.py:220-222 | a line ends the log if and only if it consists of equals signs and perhaps a line end |
| Trace.BlankExactly | tools/replay/spio_iosys.py:212-218 | a line of ASCII characters is skipped if and only if it consists of spaces, the controls from tab to carriage return, and the four separator controls |
| Trace.VisibleIsNotBlank | tools/replay/spio_iosys.py:212-218 | a line with a visible ASCII character is never skipped |
| Trace.EmptySkipped | tools/replay/spio_iosys.py:212-218 | any number of empty lines, as strings, changes nothing about what is read next or in all |
| Trace.ThreeTokens | tools/replay/spio_iosys.py:225-226 | splitting at the colons gives three fields exactly for joined ones, and those three |
| Trace.ReadsWritten | tools/replay/spio_iosys.py:212-246 | whatever a line says is given, a log of entry and exit lines, with blank lines before entries and at the end, is read back to exactly its calls |
| Trace.ReadsText | tools/replay/spio_iosys.py:208-246 | the same on lines of text: pairs of lines with three fields each, with any empty lines before them and before the end, which is a line of equals signs or the end of the file, are read back to exactly their calls |
| Trace.ReadableExactly | tools/replay/spio_iosys.py:208-246 | exactly which logs can be read to their end: all others are corrupt |
| Trace.ReadableText | tools/replay/spio_iosys.py:208-246 | a log of ASCII lines of text can be read to its end if and only if it is such a log |
| Trace.InstructionStream.Decode | tools/replay/spio_iosys.py:248-253 | the text is wrapped once, however often it is asked for |
| ReadyPass.PassExact | tools/replay/spio_vm.py:102-106 | for any order of visits, the outcome of the pass for every system, with no reference to the visits |
| ReadyPass.ReadyAreLocalMinima | tools/replay/spio_vm.py:102-106 | in descending order of time stamps, a system is READY if and only if it is eligible and every eligible dependent was visited before it |
| ReadyPass.VisitOrder | tools/replay/spio_vm.py:82 | a permutation of the systems in descending order of time stamps, equal stamps in list order |
| ReadyPass.SomeReady | tools/replay/spio_vm.py:102-106 | if nothing runs and some system is unfinished, some system is READY after the pass |
| RunPass.OneTurn | tools/replay/spio_vm.py:108-116 | every system has exactly one turn in a run pass |
| RunPass.RunPassEffect | tools/replay/spio_vm.py:108-116 | every READY or RUN system has executed exactly one call and the others none |
| Rounds.DispatchRound | tools/replay/spio_vm.py:65-116 | a ready pass and a run pass over unfinished systems leave strictly less to execute, with nobody in READY |
| Bookkeeping.WorkFalls | tools/replay/spio_vm.py:65-116 | the unexecuted calls of all systems together fall if one system executes and none gains |
| VirtualMachine.SPIOVM.Create | tools/replay/spio_vm.py:17-22 | building the VM fails exactly if two maps differ in length; otherwise every engine has its index and its dependencies |
| VirtualMachine.SPIOVM.FetchPass | tools/replay/spio_vm.py:68-77 | every live system has a cached call or is finalized, and the count of live systems is right |
| VirtualMachine.SPIOVM.ReadyPass | tools/replay/spio_vm.py:102-106 | the program's pass is the visits that the exact specification speaks of |
| VirtualMachine.SPIOVM.RunPass | tools/replay/spio_vm.py:108-116 | the program's pass gives every system its turn, and every counter plus the calls left is unchanged |
| VirtualMachine.SPIOVM.QuiescePass | tools/replay/spio_vm.py:84-98 | the program's check computes the totals of the specified check and moves the last system if some gap is too long |
| VirtualMachine.SPIOVM.Round | tools/replay/spio_vm.py:65-116 | an iteration takes the program's variables from one state of the specified execution to the next, and leaves strictly less to execute |
| VirtualMachine.SPIOVM.Begin | tools/replay/spio_vm.py:27-62 | the passes before the loop lead to the first state of the specified execution |
| Quiescence.CheckExact | tools/replay/spio_vm.py:85-98 | a pause is asked for if and only if the gap of some running system fires; each running system before the last has its gap added, nobody else but perhaps the last one |
| Quiescence.CheckBySums | tools/replay/spio_vm.py:85-98 | for each system: the new total is the gap if the old one is the marker -1 and their sum otherwise; it asks for a pause if and only if it has two calls and the gap times the calls less one is more than ten times the new total; the last one is skipped if another has asked |
| Quiescence.FiresExactly | tools/replay/spio_vm.py:89-96 | the comparison with the average is that of products, with the marker -1, the factor ten and the calls less one |
| Quiescence.QuietBound | tools/replay/spio_vm.py:94-98 | in a single check, with a total that includes the present gap and non-negative gaps, a pause needs at least 12 executed calls |
| Quiescence.CheckBound | tools/replay/spio_vm.py:85-98 | the bound holds for every system whose gap asks for a pause, and totals stay non-negative |
| Driver.RunDriver | tools/replay/src_templates/driver_template.cpp:45-55 | the calls of the driver's loop, and where it reads outside a list |
| Driver.DriverFaithful | tools/replay/src_templates/driver_template.cpp:45-55 | the driver performs the recorded replay if and only if the run sequence is 0, 1, 2, ... |
| DriverRun.DriverCounterexample | tools/replay/src_templates/driver_template.cpp:45-55 | an execution of the VM's own rounds to the end, recorded as 1, 0, that the driver calls as 0, 1 |
| Papi.SetOptionKeeps | src/gptl/gptl_papi.c:185-512 | every call keeps index integrity; a successful request appends its event, under its name, and only counters that the event uses; a failing call changes nothing; a flag option sets that flag alone |
| Papi.AnyCallsName | src/gptl/gptl_papi.c:434-512 | after any calls, every printed event is stored under the name shown for it, that of a native event cut to 12 characters |
| Papi.FoundByName | src/gptl/gptl_papi.c:1159-1173 | an enabled event is found by its full name if and only if that name is stored unchanged and no event enabled earlier is stored under it |
| Papi.ShownInFull | src/gptl/gptl_papi.c:475-482 | a name is stored unchanged except for data TLB misses and for native events with more than 12 characters |
| Papi.StoredName | src/gptl/gptl_papi.c:28-150 | the name under which each event is stored, written out; a native event under the first 12 characters of its name |
| Papi.AnyCallsKeep | src/gptl/gptl_papi.c:185-512 | after any calls under any hardware the tables are in order and earlier entries have not moved |
| Papi.Granted | src/gptl/gptl_papi.c:228-512 | exactly when a request for an event succeeds |
| Papi.Chosen | src/gptl/gptl_papi.c:260-432 | a derived event is the quotient of the first definition that the machine supports, fallbacks second |
| Papi.EventCounters | src/gptl/gptl_papi.c:260-432 | for each of the ten derived events, the two counters that a granted request makes it the quotient of, written out, with the fallback where the machine lacks one |
| Papi.PrintedCounters | src/gptl/gptl_papi.c:260-432 | whatever was enabled in between, a printed event points to those counters |
| Papi.SupportedWhen | src/gptl/gptl_papi.c:260-432 | for each derived event, which counters the machine must have |
| Papi.AddPairKeeps | src/gptl/gptl_papi.c:622-641 | enabling two counters, either of which may be there already, leaves both indexes right |
| Papi.Tables.Set | src/gptl/gptl_papi.c:185-512 | the tables changed in place are those of the specification, with integrity |
| Papi.Tables.Enable | src/gptl/gptl_papi.c:622-641 | the counter's index, appended only if it is new |
| Papi.Tables.PapiEventIsEnabled | src/gptl/gptl_papi.c:582-590 | the counter's index, or -1 if it is not enabled |
| Papi.Tables.CanEnablePair | src/gptl/gptl_papi.c:549-567 | two free slots and both counters available |
| Counters.Papistats.Start | src/gptl/gptl_papi.c:847-871 | the readings of the enabled counters are saved and nothing else changes; a failed read changes nothing |
| Counters.Papistats.Stop | src/gptl/gptl_papi.c:887-921 | every enabled counter has its difference added, or becomes bad; a failed read changes nothing |
| Counters.Accumulates | src/gptl/gptl_papi.c:910-919 | over any run of intervals, a counter grows by the sum of stop minus start |
| Counters.AccumulatesAfterBad | src/gptl/gptl_papi.c:915-918 | after a bad interval, by the sum of the later ones on top of the bad count |
| Counters.ReportedBad | src/gptl/gptl_papi.c:915-918 | exactly which runs end with the bad count |
| Counters.BadIsForgotten | src/gptl/gptl_papi.c:915-918 | a run with a bad interval that does not |
| Counters.ValueOfRun | src/gptl/gptl_papi.c:1159-1173 | after clean intervals from zero, a derived event is worth the quotient of the sums of stop minus start of its two counters, and a raw event its own sum |
| Counters.WorthIs | src/gptl/gptl_papi.c:1159-1173 | the value times a positive denominator is the numerator, the value is 0 otherwise, and both are the sums of the counters that the event is made of by name |
| Counters.PerCycle | src/gptl/gptl_papi.c:1159-1173 | operations per cycle are operations per instruction times instructions per cycle |
| Counters.PerLoadStore | src/gptl/gptl_papi.c:1159-1173 | operations per instruction are computational intensity times the load-store fraction, where both use the same counter |
| Counters.MissesAndHits | src/gptl/gptl_papi.c:1159-1173 | the miss rate and the accesses per miss are reciprocal, where both use the same counter |
| Counters.Papistats.GetEventValue | src/gptl/gptl_papi.c:1151-1177 | succeeds exactly if some printed event is stored under the name, with the value of the first one: that of the counters that the event is defined from, and 0 if the denominator is not positive |
| Counters.Papistats.Add | src/gptl/gptl_papi.c:1070-1080 | counter by counter, also if an object is added to itself |
| Counters.MergedIs | src/gptl/gptl_papi.c:1070-1080 | a merge of counts is bad if and only if one of them is, and their sum otherwise |
| Counters.MergedInAnyOrder | src/gptl/gptl_papi.c:1070-1080 | the order of merging counts does not matter |
| Counters.MergedExact | src/gptl/gptl_papi.c:1070-1080 | exactly what a merge of any integers is: bad if one of them is bad or the sum equals the bad count on the way, the sum otherwise |
| Counters.OrderMattersWhen | src/gptl/gptl_papi.c:1070-1080 | two orders of the same counters differ if and only if none is bad, the total is not the bad count, and one order reaches it on the way and the other does not |
| Counters.OrderMatters | src/gptl/gptl_papi.c:1070-1080 | three counters, two of them with a forgotten bad interval, for which the order matters |
| Decomp.LonPartition | examples/cxx/e3sm_i.cpp:29-64 | the ranks' lists contain every offset of the grid exactly once, if and only if there is at most one rank more than there are columns |
| Decomp.LonSizes | examples/cxx/e3sm_i.cpp:61-62 | no local size is negative under the same condition exactly |
| Decomp.LonOffsetIs | examples/cxx/e3sm_i.cpp:39-53 | the k-th offset of a rank lies in the grid, in row k / w and in one of the rank's own columns |
| Decomp.EvenWidth | examples/cxx/e3sm_i.cpp:30 | ranks before the last one share evenly: each width is the largest that fits as many times as there are ranks, and 1 if there are fewer columns or edges than ranks |
| Decomp.LonGenerator.Next | examples/cxx/e3sm_i.cpp:38-53 | the k-th call gives the closed form and leaves the generator ready for the next |
| Decomp.LonDecomp | examples/cxx/e3sm_i.cpp:29-64 | the generated list, which exists if and only if the local size is not negative; before the last rank it is an even share: its length times the ranks is at most the size of the grid, and one more column would exceed it |
| Decomp.LevPartition | examples/cxx/e3sm_f.cpp:28-93 | the grid with equal columns per rank is partitioned exactly, in lists of equal length |
| Decomp.LevDecomp | examples/cxx/e3sm_f.cpp:70-93 | this generator makes the lists of the longitude generator |
| Decomp.EdgePartition | examples/cxx/e3sm_g.cpp:30-87 | the ranks' lists one after another are 1, 2, 3, ... up to the end, if and only if there is at most one rank more than there are edges |
| Decomp.EdgeSizes | examples/cxx/e3sm_g.cpp:85-86 | no local size is negative under the same condition exactly |
| Decomp.NoWrap | examples/cxx/e3sm_g.cpp:70-75 | a generator does not start over within its list, and at its end only on the first and the last rank |
| Decomp.EdgeDecomp | examples/cxx/e3sm_g.cpp:64-87 | the generated list is the rank's block, which before the last rank is an even share of the edges |
| Decomp.StartCount | examples/c/put_var.c:273-286 | start and count of a rank's block, for any length and number of ranks |
| Decomp.BlocksTile | examples/c/put_var.c:273-286 | the first block starts at 0, each ends where the next starts, the last ends at the end |
| Decomp.BlocksBalanced | examples/c/put_var.c:273-286 | larger blocks first, sizes differ by at most one |
| Decomp.BlockOf | examples/c/put_var.c:273-286 | every element is in exactly one block |
| RemoveTree.RmdirF | util/spio_misc_tool_utils.cxx:44-101 | terminates and makes the calls of recursive post-order removal |
| RemoveTree.CallsListed | util/spio_misc_tool_utils.cxx:71-97 | those calls are made for exactly the listed entries, at every depth; only the names "." and ".." give none |
| RemoveTree.RemovesTree | util/spio_misc_tool_utils.cxx:44-101 | those calls all succeed and remove the directory with its contents and nothing else, so what links point to stays |
| RemoveTree.EachOnce | util/spio_misc_tool_utils.cxx:44-101 | calls that succeed remove an entry of their own each, and directories after everything below them |
| CommandLine.TokensExact | util/argparser.cxx:175-235 | exactly which arguments give two tokens, one token or none |
| CommandLine.ArgParser.TokenizeCmdLineArgs | util/argparser.cxx:175-235 | the loops compute those tokens |
| CommandLine.ParseExact | util/argparser.cxx:98-147 | the last occurrence of every option before the first unaccepted argument is stored; which end each argument list comes to |
| CommandLine.ParseSucceeds | util/argparser.cxx:98-147 | parsing succeeds if and only if every argument sets a registered option |
| CommandLine.AcceptedExactly | util/argparser.cxx:98-147 | an argument is accepted if and only if it is two dashes and a registered name, alone or with an equals sign and any value, and is not the long help option |
| CommandLine.StoredValue | util/argparser.cxx:98-147 | what is stored for an option: its value, or the text noval if it has none |
| CommandLine.HelpOnlyLong | util/argparser.cxx:120-124 | only the exact long form asks for the help text |
| CommandLine.ArgParser.NoRegexParse | util/argparser.cxx:98-147 | the stored arguments, the error and the usage flag are those of the specification |
| CommandLine.ValueReadable | util/argparser.h:80-88 | a value can be had exactly if the last occurrence has one other than the placeholder |
| CommandLine.StoredOptions | util/argparser.cxx:98-152 | after parsing, exactly the options that had a stored argument before or that an argument sets before the first unaccepted one have one, and only registered options are added |
| CommandLine.HelpStored | util/argparser.cxx:120-124 | the option help is found after parsing if and only if it was given with an equals sign before parsing stopped |
| CommandLine.GetUserOptions | examples/cxx/e3sm_fgi.cpp:59-76 | the test program fails on invalid arguments and stops exactly if the option help is stored |
| NearestPower.NearestPowerOf2 | src/gptl/GPTLprint_memusage.c:135-155 | a power of two at minimal distance among all powers of two, ties going up; 0 below 2 |
| NearestPower.PowersOfTwo | src/gptl/GPTLprint_memusage.c:135-155 | 1 is the only odd power of two, 0 is none, and a number is one if and only if its double is |

## Left out

- Trace headers, metadata, token substitution and the writing of files: the VM emits events instead of text, and run function declarations are omitted.
- The error that an engine raises when it is used before its initialisation: the VM always initialises its engines.
- The rounding of time stamps and of the ratios of counters: both are real numbers.
- Overflow of C integers in counters, offsets and the power of two: integers are unbounded.
- The texts in the tables of events other than names, and the names of the table rows that no definition uses, which are a parameter.
- Start-up, shutdown and multiplexing of the PAPI library, and its messages: its answers are parameters.
- CommandLine.ArgParser.GetArg: models the string form only; conversions of values to numbers are left out.
- The parser that uses regular expressions, and the text of messages and of the usage.
- RemoveTree.RmdirF: does not model failing system calls, a directory that changes meanwhile, or a root given as a symbolic link; a directory stream is the list of entries not yet read, and a path is the list of its components.
- The one-dimensional generators of the F and G examples, and the values written with a decomposition.
- Decomp.LonDecomp: creating the decomposition in the library from the list is left out.
- The clib rearrangers, the asynchronous message handler, the file-information tools and the logger.
