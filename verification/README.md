# A model of the Re Distinto lock-and-schedule protocol

Four kinds of process run client scripts against a distributed key-value store.

- An *ESI* owns a script and runs one line of it (GET, SET or STORE of a key) each time the planner orders it to.
- The *coordinator* asks the planner for permission, passes a permitted operation to a storage instance, and reports
  the lock change and the end of the line to the planner.
- The *planner* keeps the ESIs in four queues (ready, running, blocked, finished) and a table of BLOCKED and WAITING
  entries for keys. A denied GET blocks its ESI. A release wakes all waiters and marks them to repeat their last line.
- An *instance* keeps values in a table of slots filled circularly, and writes a value to a file on STORE.

No lock protects any of this. What the project proves is that the protocol is nevertheless safe, because at most one
order is ever outstanding (a property of whole runs spread over all processes), and that every run ends. It also proves
what that single order implies: without console commands on locks nobody is ever woken, so an ESI that blocks once stays
blocked.

## How the model is built

- Every process exists twice. The functions on values in `PlannerSpec`, `EsiSpec`, `CoordinatorSpec` and
  `InstanceSpec` say what each handler does; the classes in `PlannerProcess`, `EsiProcess`, `CoordinatorProcess` and
  `InstanceProcess` update fields, lists and an array in place with the loops of the program, and every method is
  proved to have the effect of its function. The laws are proved about the functions, so they hold of the classes.
- `System` puts the functions together. A step is the delivery of one message to its handler, one turn of the
  planner's running thread, one console command (pause, resume, block, unblock), the arrival of an ESI with any script,
  or the arrival of an instance. A handler is one atomic step. Messages on one connection are delivered in order,
  messages on different connections in any order. A theorem about `Reached(config, keys, nodes, steps, s)` speaks of
  every sequence of steps from a start with preloaded keys `keys` and freshly set up instances `nodes`.
- `Invariant` is the protocol invariant; `Moves` gives each step its explicit next state; `OneOrder` proves that every
  step keeps the invariant; `Locks`, `Releases` (locks when the console releases keys), `Isolation`, `Placement`
  (several instances, any number of keys), `Distribution`, `Scripts`, `Termination`, `Progress`,
  `NoWakeUp`, `Deadlock`, `Stuck` and `Fifo` build on it; `Theorems` states the results over runs.
- `Limits` and parts of `Theorems` show where the code gives less than one may expect, and exactly when. `LoneRuns`
  proves how a single ESI's lines are carried out, and `Examples` gives for each limit a run from the start of the
  system that shows it.
- A run is *harmless* (`Locks.HarmlessRun`) if the console enters no key and releases none that somebody holds.
- `log` (operations carried out, and by which instance) and `obs` (run orders sent to each ESI, lengths of its bursts)
  are observations kept beside the state. No handler reads them. The field `who` of LINE_OK and of a lock
  notice is an observation too.
- A null pointer dereference ends a process: `None` in the functions, `ok == false` in the methods, `crashed` in the
  system. It happens for SET and STORE on a key nobody holds (`Examples.SetOfFreeKey`) and when no instance is
  available; `Theorems.CrashCauses` proves that these are the only causes.
- A refusal of SET or STORE, or a failure at the instance, is answered with nothing that reaches the planner: the ESI
  keeps the running queue, nothing is in flight, and so it stays. `Theorems.StandsIff` proves that this is the outcome
  of a run exactly if it contains such a refusal or such an operation on an instance without its key.

## Where the model follows the code rather than its intent

- `define_planner_algorithm` assigns its own parameter (planner/src/launcher.c:401-409), so the program always runs
  FIFO. The algorithm is an argument of the model's configuration, FIFO or SJF_SD.
- An ESI that registers goes to the front of the ready queue. So FIFO keeps, in front, the ESIs that never ran, the
  latest first, and behind them the woken ones (`Theorems.FifoOrder`); a dispatch overtakes an earlier ESI that never
  ran exactly if two such ESIs are ready (`Theorems.FifoOvertakesIff`, shown by `Examples.LaterArrivalFirst`).
- A finished ESI keeps the keys its script takes and does not store (`Theorems.FinishedHoldsIff`,
  `Limits.LeakedForever`, shown by `Examples.KeyLost`).
- The console's `block` inserts an entry whoever holds the key (`Limits.BlockKeepsExclusionIff`, shown by
  `Examples.BlockedTwice`), and so lets an ESI store a key it did not take (`Examples.GivenByConsole`).
- The console's `unblock` releases a key whoever holds it (`Locks.UnblockKeepsHistoryIff`, shown by
  `Examples.TakenAway`) and wakes all its waiters, although its help text speaks of one. Even so, every SET and STORE
  carried out lies in its ESI's own window (`Theorems.RoundsAndReleases`, `Theorems.OwnWindows`).
- The processor is never taken away from an ESI, so when one asks for a key that is held, the holder has finished, is
  blocked, or is the asker. Hence in harmless runs the wake-up never finds anybody (`Theorems.NobodyIsWoken`), and
  whoever blocks first waits for a key that was preloaded, that a finished ESI kept, or that it holds itself
  (`Examples.WaitsForItself`). Only the console wakes (`Examples.WokenByConsole`).
- Equitable Load does not ask which instance has a key. A SET or STORE that goes to an instance without it fails for
  good (`Limits.CarriedOutIff`, `Limits.OtherInstanceStrands`, shown by `Examples.SetElsewhere`), and one that goes to
  an instance with an older copy uses that copy (`Theorems.IsolationIff`, shown by `Examples.StaleCopy`).
- Dictionary rows are never removed, so past capacity keys share slots (`InstanceLaws.SharedSlots`,
  `Limits.CreationClobbersIff`, shown by `Examples.ValueLost`), and a STORE may write what was set for another key
  (`Theorems.IsolationIff`, shown by `Examples.SharedBlock`).
- A key's initial value is stored with its terminator, because its size is taken with `sizeof`.

## Model

| member | source | states |
|---|---|---|
| Theorems.SingleOutstandingOrder | planner/src/launcher.c:163-198 | in every reachable state at most one ESI is in the running queue, at most one message (or a lock notice with LINE_OK behind it) is in flight, and it was sent at the order to that ESI; so LINE_OK and FINISHED, credited to the head of the running queue, hit the ESI that caused them |
| Theorems.ExactlyOnce | esi/src/launcher.c:81-161 | whatever denials, wake-ups and repetitions happen, the operations carried out for an ESI are the first lines of its script, each once and in order; a finished ESI has had all lines up to the end or the first bad line |
| Theorems.RelaysOwnLine | coordinator/src/launcher.c:141-196 | what the planner is asked about, what the coordinator passes on and what an instance is to carry out is, in the ESI's own name, the line the running ESI has just read: the first not yet carried out, where its mark stands |
| Theorems.StandsIff | coordinator/src/launcher.c:229-238 | an ESI runs with nothing in flight if and only if in the run a SET or STORE was refused (the key's first holder is somebody else) or delivered to an instance that lacks its key, and nothing is in flight; and then for ever: nothing is delivered, dispatched or carried out any more, whatever arrives and whatever the console does |
| Theorems.FifoOrder | planner/src/launcher.c:156-156 | in every FIFO run the ready queue holds in front the ESIs that never ran, the latest registered first, and behind them the woken ones; a ready ESI is marked for repetition exactly if it ran before |
| Theorems.FifoOvertakesIff | planner/src/launcher.c:297-300 | a FIFO dispatch overtakes a ready ESI that registered earlier and never ran if and only if at least two ESIs that never ran are ready, which shows at the second place of the queue |
| Theorems.FinishedHoldsIff | planner/src/launcher.c:185-198 | in harmless runs a finished ESI holds a key if and only if its script, up to its end or first bad line, takes the key and does not store it, whatever was preloaded |
| Theorems.StoresWriteSlots | instance/src/launcher.c:233-258 | in every run, with any instances and any number of keys, each instance is what its share of the operations makes of a fresh one, and a STORE writes what was last written into its key's slot on its instance, by whatever key and ESI |
| Theorems.PlainMapIff | instance/src/launcher.c:161-277 | in every run, console commands included, with any instances and any number of keys, a STORE writes what a plain map fed with the operations holds if and only if the last write to the key's slot on its instance left the value that the last write to the key left; if that one went to the same instance the slot's is not older, and within that instance's capacity they are the same write |
| Theorems.RoundsAndReleases | planner/src/launcher.c:476-503 | in every run without console `block`, the operations the planner grants and the console's releases together keep the lock discipline on every key, preloaded ones included: rounds of GET, SETs, STORE by one ESI, ended early only by a release; what is carried out is what was granted, in that order, except perhaps the last |
| Theorems.OwnWindows | planner/src/launcher.c:239-274 | in every run without console `block`, each SET and STORE carried out lies in a window its ESI opened with a GET and in which only it did SETs, and a plain map fed with the operations holds the window's value |
| Theorems.IsolationIff | coordinator/src/launcher.c:183-198 | in every run without console `block`, with any instances and any number of keys, a STORE closes a window its ESI opened by GET, and writes the window's value under exactly the same condition |
| Theorems.EveryEsiOnce | planner/src/launcher.c:140-162 | every registered ESI is in exactly one of the four queues, once; their number is the growth of the id counter; no two names agree even up to case, and a name finds its own socket |
| Theorems.WaitersAreBlocked | planner/src/launcher.c:227-233 | in every run, console commands included, the names in WAITING entries are, in order, the ids of the blocked queue, each once |
| Theorems.NoLostWakeUp | planner/src/launcher.c:492-503 | in every run each WAITING entry coexists with a BLOCKED entry for its key, and a release from any reachable state ends normally, is the filter, and leaves nobody waiting for the key |
| Theorems.CrashCauses | planner/src/launcher.c:523-533 | a step crashes the system if and only if it delivers a SET or STORE question on a key nobody holds, or a permission while no instance is available |
| Theorems.WhatCanHappen | planner/src/launcher.c:293-300 | in every reachable state: nothing after a crash; else arrivals, console commands and new instances at any time, the oldest message in flight, a sorting turn at any time, and a dispatch exactly if scheduling is on, somebody is ready and nobody runs, under every algorithm |
| Theorems.FromOutside | planner/src/launcher.c:140-156 | in every reachable state: an ESI that registers comes to the front of ready, at the first line of its script, with the next name; an instance that joins is available and empty; `pause` and `resume` turn the switch, `block` appends its entry, a sorting turn changes the order of ready; nothing else changes |
| Theorems.PausedStartsNobody | planner/src/include/commands.c:14-17 | from a paused state, until the next `resume`, no run contains a dispatch and nobody comes into the running queue, under every algorithm |
| Theorems.EstimateHistory | planner/src/launcher.c:536-552 | the program counter is the number of run orders sent in the current burst; the estimate is the closed exponential average of all earlier bursts and, for 0 <= ALPHA <= 100, lies within any interval that holds EST_ZERO and the bursts |
| Theorems.ShortestFirst | planner/src/launcher.c:293-315 | under SJF_SD a dispatch happens only with scheduling on and nobody running, takes an ESI with least estimate among all ready ones and leaves the others as a sorted permutation |
| Theorems.MutualExclusion | planner/src/launcher.c:512-521 | from distinct preloaded keys, in every run without console `block` (`unblock` is allowed), no key ever has two BLOCKED entries, though it is tested and entered by separate messages |
| Theorems.BracketedHistory | planner/src/launcher.c:214-274 | in harmless runs the operations carried out on a key are rounds of GET, SETs, STORE, each by one ESI, the last perhaps open; nothing is permitted or carried out on a preloaded key |
| Theorems.BracketedNeverRefused | planner/src/launcher.c:239-272 | in harmless runs, whatever distinct keys were preloaded, for a script whose SETs and STOREs lie in its own windows the planner always finds a holder and always approves |
| Theorems.EndToEndIsolation | instance/src/launcher.c:161-266 | with one instance within capacity and no console `block`, every STORE closes a window its ESI opened by GET and writes the last SET of that window, or else the value the key had when it opened; the files are those last written |
| Theorems.NobodyIsWoken | planner/src/launcher.c:575-605 | in harmless runs, with any instances, scripts and distinct preloaded keys, the ready ESIs never ran, no order repeats a line, and whoever is blocked stays blocked in every harmless continuation; somebody is blocked if and only if somebody waits for a key that was preloaded, that a finished ESI holds, or that it holds itself |
| Theorems.DealtEvenly | coordinator/src/launcher.c:183-198 | over every run in which no instance joins, the numbers of permitted operations passed on to two available instances differ by at most one |
| Theorems.EveryRunEnds | planner/src/launcher.c:163-236 | from every state of every run, whatever the scripts, instances, preloaded keys and console commands so far, the number of deliveries and dispatches still to come is bounded by a function of the state, as long as no ESI arrives and the console releases no held key |
| Theorems.UnfinishedIff | planner/src/launcher.c:220-234 | in harmless runs with one available instance and scripts that bracket their keys, where the planner schedules and no delivery or dispatch is possible, nobody has crashed, the unfinished ESIs are the blocked ones, and there are any if and only if somebody waits for a key that was preloaded, that a finished ESI holds, or that it holds itself |
| Theorems.EveryRunFinishes | planner/src/launcher.c:185-198 | in such runs, if the scripts take no preloaded key and no key they hold already and store what they take, nobody ever blocks or crashes, and where no delivery or dispatch is possible all ESIs are finished and each script, up to its end or first bad line, and nothing else was carried out; a common order is not needed |
| OneOrder.StepKeeps | planner/src/launcher.c:106-315 | every step of every kind keeps the protocol invariant |
| OneOrder.RunKeeps | coordinator/src/launcher.c:124-256 | so does every run |
| OneOrder.CursorMoves | esi/src/launcher.c:88-150 | the mark goes to the line to be read and the cursor behind it, a bad line included; at the end of the script both stay there; FINISHED is sent exactly at the end and at a bad line |
| OneOrder.LineRead | esi/src/launcher.c:194-210 | a run order makes a resting ESI send its next line and a repetition makes a parked ESI send the same line again, never skipping and never repeating |
| Moves.StepForm | coordinator/src/launcher.c:177-239 | from an invariant state every step has exactly the given explicit effect on queues, table, message in flight, chosen instance, tables of the instances and observations |
| WakeUp.WakeIsFilter | planner/src/launcher.c:575-605 | the wake-up loop ends, appends to ready exactly the key's waiters in waiting order marked for repetition, deletes exactly those from blocked and their entries from the table, and keeps the order of all others |
| WakeUp.FiltersInOrder | planner/src/launcher.c:584-603 | the filters in the wake-up's result decide element by element and keep the order |
| WakeUp.WakeFrom | planner/src/launcher.c:586-604 | the same from any intermediate point of the loop |
| PlannerSound.ReleaseIsFilter | planner/src/launcher.c:492-503 | a release never dereferences null, is the filter on the table without the holder's entry, and leaves no waiter for the key |
| PlannerSound.ReleaseSound | planner/src/launcher.c:500-502 | a release keeps conservation, the match of waiters and blocked ESIs, and a holder behind every waiter |
| PlannerSound.DenySound | planner/src/launcher.c:223-234 | a denied GET moves the asking ESI to blocked and keeps the planner's invariant |
| PlannerSound.DispatchSound | planner/src/launcher.c:297-312 | a dispatch always finds the socket and keeps the planner's invariant |
| PlannerSound.CountLineSound | planner/src/launcher.c:163-183 | LINE_OK with somebody running always finds the socket and keeps the planner's invariant |
| PlannerSound.FinishSound | planner/src/launcher.c:185-191 | FINISHED with somebody running keeps the planner's invariant |
| PlannerSound.RegisterSound | planner/src/launcher.c:140-156 | a registration keeps the planner's invariant |
| PlannerSound.Conservation | planner/src/launcher.c:361-399 | the four queues together hold each registered ESI once and nobody else |
| PlannerSound.Apart | planner/src/launcher.c:423-430 | records of different queues, and different records of one queue, have different names |
| PlannerSound.SocketFound | planner/src/launcher.c:375-381 | the case-insensitive search by name finds the entry registered under it, not an earlier one |
| Names.NameIff | planner/src/launcher.c:394-399 | a name is the text "ESI", a minus sign if the counter is negative, and the decimal numeral of its amount without leading zeros, and no other text is |
| Names.DigitsIff | planner/src/launcher.c:396-396 | exactly one numeral without leading zeros stands for a number, and that one is printed |
| Names.CaseIff | planner/src/launcher.c:375-378 | two texts are equal up to case exactly if they have the same length and at each place the same character or the same letter |
| Names.NamesDistinct | planner/src/launcher.c:394-399 | "ESI" plus decimal digits is injective, case ignored or not |
| Estimates.ClosedForm | planner/src/launcher.c:368-372 | after bursts d1..dn the estimate is (1-a)^n EST_ZERO + sum of a(1-a)^(n-i) di with a = ALPHA/100 |
| Estimates.EstimateStaysInside | planner/src/launcher.c:368-371 | for 0 <= ALPHA <= 100 the estimate stays inside every interval that holds EST_ZERO and all bursts |
| EquitableLoad.ChooseIsNext | coordinator/src/launcher.c:268-287 | the scan yields the first available instance cyclically after the last used one, and -1 exactly when none is available |
| EquitableLoad.NextPassesOver | coordinator/src/launcher.c:270-286 | walking upwards from the last used index and around, every instance before the chosen one is unavailable |
| EquitableLoad.InRounds | coordinator/src/launcher.c:198-198 | over any number of choices every available instance has had the same number of turns, and those up to the current place of the round one more |
| EquitableLoad.Fair | coordinator/src/launcher.c:258-299 | so the turns of two available instances never differ by more than one |
| InstanceLaws.KeepsCircular | instance/src/launcher.c:165-222 | every operation keeps: keys distinct, pointer = number of keys mod MAX_ENTRIES, row i has slot (length-1-i) mod MAX_ENTRIES |
| InstanceLaws.SharedSlots | instance/src/launcher.c:176-196 | all slots differ if and only if there are at most as many keys as blocks |
| InstanceLaws.DictionaryIsCreated | instance/src/launcher.c:187-187 | after any operations the dictionary lists the keys newest first |
| InstanceLaws.SlotsHoldLastWrite | instance/src/launcher.c:268-277 | after any operations every slot holds the last write among all keys whose creation number has its residue, however many keys there are |
| InstanceLaws.ReadAfter | instance/src/launcher.c:206-232 | within capacity an operation changes the readable value of its own key only |
| InstanceLaws.SimulatesMap | instance/src/launcher.c:161-277 | within capacity GET, SET and STORE simulate a key-to-value map with initial value "Default" and its terminator, success and file included |
| InstanceLaws.SizesKept | instance/src/launcher.c:221-222 | within capacity a row's size is its block's size |
| LockHistory.DisciplineIsGrammar | planner/src/launcher.c:214-274 | a history that never breaks the lock discipline is a sequence of full rounds and perhaps an open one of the holder |
| LockHistory.GrammarIsDiscipline | coordinator/src/launcher.c:165-228 | and the other way round: every such sequence keeps the discipline |
| Locks.StepExclusive | planner/src/launcher.c:207-222 | every step but console `block` keeps: one BLOCKED entry per key, none for a key whose GET is permitted but not yet entered |
| Locks.UnblockKeepsHistoryIff | planner/src/include/commands.c:26-29 | console `unblock` keeps the table in step with the operations carried out if and only if nobody holds the key, and then does nothing at all |
| Locks.StepKeys | planner/src/launcher.c:557-573 | every step but a console `block` and an `unblock` of a held key keeps the table equal to what the operations imply, and permissions right |
| Releases.StepFollows | planner/src/launcher.c:492-503 | every step but console `block` keeps: grants and releases are disciplined on every key, the table is behind them by at most the operation under way, and the history is the grants |
| Releases.GrantInWindow | planner/src/launcher.c:239-274 | a granted SET or STORE lies in its ESI's own window of grants, with no release in it |
| Releases.CarriedInWindow | coordinator/src/launcher.c:183-228 | so does every SET and STORE carried out |
| Isolation.WindowMap | instance/src/launcher.c:220-226 | inside a window the plain map holds the window's value |
| Isolation.StepStored | instance/src/launcher.c:111-128 | every step keeps the one instance equal to a plain map fed with the history, and its files to those written |
| Scripts.HeldIsLocked | planner/src/launcher.c:523-533 | a key is locked by an ESI exactly if its own operations took it and did not store it |
| Scripts.NeverRefused | planner/src/launcher.c:239-274 | a bracketed SET or STORE finds itself as the holder, whatever was preloaded |
| Scripts.RestingHolds | planner/src/launcher.c:523-533 | an ESI that does not run holds a key if and only if its operations took it and did not store it |
| Scripts.FinishedHolds | planner/src/launcher.c:187-191 | a finished ESI holds a key if and only if its operations took it and did not store it, whatever was preloaded |
| Progress.NeverFails | instance/src/launcher.c:123-127 | what was permitted succeeds at the one instance |
| Termination.StepLowers | planner/src/launcher.c:163-236 | every delivery and dispatch that does not crash lowers the lexicographic measure (lines whose operation, notice or LINE_OK is outstanding, ESIs ready or running, ESIs ready, phase of the order) |
| Termination.RunsAreFinite | planner/src/launcher.c:293-315 | so from any invariant state a run in which nobody arrives or is woken by the console has boundedly many deliveries and dispatches, a crash being the last |
| Progress.StepAdvances | coordinator/src/launcher.c:177-239 | with one available instance and bracketing scripts every delivery and dispatch is orderly: nothing is refused, nothing fails, nobody crashes |
| NoWakeUp.StepUnwoken | planner/src/launcher.c:220-234 | every harmless step keeps: ready ESIs never ran and hold nothing, nobody waits for the running one, whoever blocked first waits in vain, and the blocked queue only grows |
| Deadlock.BlockedIffVain | planner/src/launcher.c:575-605 | somebody is blocked if and only if somebody waits for a key that is gone for good |
| Deadlock.NobodyBlocks | planner/src/launcher.c:214-237 | with scripts that take no preloaded key and none they hold and that store what they take, nobody is ever blocked |
| Deadlock.OrderIsTidy | planner/src/launcher.c:214-237 | scripts that take keys in a common order, bracket and store them and leave preloaded keys alone are of that kind |
| Deadlock.Moving | planner/src/launcher.c:297-300 | while the planner schedules and a message is in flight or an ESI is ready, a delivery or a dispatch is possible |
| Distribution.StepPasses | coordinator/src/launcher.c:183-198 | only a permission moves the last used index, to the instance it is passed on to |
| Distribution.RunPasses | coordinator/src/launcher.c:258-299 | over a run the instances get their turns one after the other |
| KeyTable.LoadedHolder | planner/src/launcher.c:476-482 | a new BLOCKED entry goes behind all old ones, so it makes its name the first holder only of a key that nobody holds |
| KeyTable.FirstHolderRemoved | planner/src/launcher.c:492-500 | a release takes away the first BLOCKED entry for its key and nothing else |
| Limits.BlockChangesAnswerIff | planner/src/include/commands.c:22-25 | console `block` changes the planner's answer to a question under way if and only if the question is about that key and nobody holds it |
| Limits.BlockKeepsExclusionIff | planner/src/include/commands.c:22-25 | console `block` keeps mutual exclusion if and only if nobody holds the key and no GET of it is permitted and unentered |
| Limits.LeakedForever | planner/src/launcher.c:185-198 | such a key stays held in every harmless run |
| Limits.CarriedOutIff | coordinator/src/launcher.c:185-199 | a permitted operation is carried out if and only if it is a GET or the next instance in turn has its key |
| Limits.OtherInstanceStrands | coordinator/src/launcher.c:229-233 | if only the instance used last has the key and another one is available, a permitted SET or STORE fails, and in every continuation of the run the ESI keeps the processor and nothing is delivered or dispatched |
| Limits.CreationClobbersIff | instance/src/launcher.c:176-193 | creating a key leaves all other keys' values unchanged if and only if a block is free or the reused block held the initial value |
| Stuck.LostIff | planner/src/launcher.c:246-252 | a step loses the system, which then stands still or will when a failure is reported, if and only if it delivers a refused SET or STORE question or a SET or STORE to an instance that lacks its key |
| Stuck.StandsForever | coordinator/src/launcher.c:229-238 | from a stand no run has a delivery or a dispatch, and the ESI keeps the processor |
| Stuck.LostForever | coordinator/src/launcher.c:229-233 | once lost, at most the report is still delivered, and nothing is carried out |
| Stuck.RunLostIff | planner/src/launcher.c:264-270 | a run loses the system if and only if one of its steps is such a delivery |
| Fifo.StepOrder | planner/src/launcher.c:293-315 | every step of a FIFO run keeps the never-run ESIs in front, the latest first, and the woken ones behind |
| Fifo.StepMarks | planner/src/launcher.c:599-600 | every step keeps: ready ESIs are marked for repetition exactly if they ran before, and blocked ones all ran before |
| Fifo.FirstOvertakesIff | planner/src/launcher.c:298-299 | the first of such a queue overtakes if and only if the second never ran |
| Placement.StepReplayed | instance/src/launcher.c:111-128 | every step, arrivals of instances included, keeps each instance equal to its share of the history replayed on a fresh one |
| Placement.StoreWritesSlot | instance/src/launcher.c:288-302 | the event whose value a STORE writes is the last one on its instance to write the slot of its key |
| Placement.SlotWriter | instance/src/launcher.c:268-277 | the last write to a slot in an instance's share, found in the whole history |
| Placement.OwnWriteInSlot | instance/src/launcher.c:220-224 | what gives a key its value writes the slot that the key has for good on that instance |
| Placement.SlotIsOwn | instance/src/launcher.c:176-193 | while an instance has had at most as many keys as blocks, a write into a key's slot is a write to the key |
| Placement.MapValueIff | coordinator/src/launcher.c:258-287 | the condition of `Theorems.PlainMapIff`, for any history that instances carried out |
| LoneRuns.LoneRun | coordinator/src/launcher.c:183-228 | a lone ESI's lines are carried out one after the other, line i by instance i modulo their number, as long as GETs are of keys not held, SETs and STOREs of keys held, and the instance whose turn it is knows the key |
| LoneRuns.LoneEnd | esi/src/launcher.c:150-160 | after its last line the ESI finishes and nothing runs |
| Examples.LaterArrivalFirst | planner/src/launcher.c:156-156 | two arrivals, and FIFO starts the second although the first never ran |
| Examples.BlockedTwice | planner/src/include/commands.c:22-25 | console `block` of a preloaded key gives it two BLOCKED entries |
| Examples.KeyLost | planner/src/launcher.c:185-198 | the script GET k ends with k held by the finished ESI, in every harmless continuation |
| Examples.SetRefused | planner/src/launcher.c:246-252 | the script SET k v with k preloaded is refused and the system stands still |
| Examples.SetOfFreeKey | planner/src/launcher.c:531-532 | the script SET k v with k held by nobody crashes the planner |
| Examples.TakenAway | planner/src/include/commands.c:26-29 | after GET k the console releases k: the ESI's window is open in the history and nobody holds k |
| Examples.GivenByConsole | planner/src/include/commands.c:22-25 | after GET k, STORE k the console enters the ESI for k, and its next STORE k is carried out without any window |
| Examples.WokenByConsole | planner/src/launcher.c:586-604 | an ESI waits for a preloaded key, the console releases it, and the ESI is ready, to repeat its line |
| Examples.WaitsForItself | planner/src/launcher.c:220-234 | the script GET k, GET k blocks its ESI on a key that it holds itself |
| Examples.SetElsewhere | coordinator/src/launcher.c:229-233 | two fresh instances and the script GET k, SET k: the SET fails and the system stands still for ever |
| Examples.DefaultStored | instance/src/launcher.c:180-188 | the script GET k, STORE k on a fresh instance writes the eight characters "Default" and a terminator into the file k |
| Examples.ValueLost | instance/src/launcher.c:176-193 | one block and GET a, SET a, GET b: the value of a is gone after the last line |
| Examples.SharedBlock | instance/src/launcher.c:268-277 | one block and GET a, GET b, SET b v, STORE a: the STORE writes v, not the value of its own window |
| Examples.StaleCopy | coordinator/src/launcher.c:258-287 | two instances with room for everything and GET k, GET j, STORE k, GET k, SET k v, STORE k: every operation is carried out and the last STORE writes the initial value |
| PlannerProcess.PlannerQueues.constructor | planner/src/launcher.c:505-510 | empty queues, the preloaded keys entered for nobody, the counter at its initial value, scheduling on |
| PlannerProcess.PlannerQueues.RegisterEsi | planner/src/launcher.c:384-399 | fresh ESI with EST_ZERO at the front of ready, its socket entry at the end, counter up by one, all else unchanged; the name is the text "ESI" and the counter in decimal |
| PlannerProcess.PlannerQueues.SortByBurst | planner/src/launcher.c:321-326 | ready becomes an ascending permutation of itself |
| PlannerProcess.PlannerQueues.SortingQueues | planner/src/launcher.c:333-340 | FIFO leaves ready alone, SJF_SD sorts it; nothing else changes |
| PlannerProcess.PlannerQueues.SearchSocket | planner/src/launcher.c:374-382 | the first entry whose name agrees up to case, none if there is none |
| PlannerProcess.PlannerQueues.RunningTurn | planner/src/launcher.c:293-313 | one turn sorts; while paused, with nobody ready or with somebody running it does nothing else; otherwise the first of the sorted queue runs with its counter up and its mark cleared, and its own socket gets the order, a repetition if it was marked |
| PlannerProcess.PlannerQueues.ExecutionLineOk | planner/src/launcher.c:163-167 | the first running ESI's counter goes up and its socket gets the next run order; nothing else changes; null dereference exactly without a running ESI or socket |
| PlannerProcess.PlannerQueues.ExecutionFinished | planner/src/launcher.c:185-197 | the first running ESI goes to the end of finished with its burst averaged in and its counter at zero; nothing else changes |
| PlannerProcess.PlannerQueues.LoadKey | planner/src/launcher.c:476-482 | a BLOCKED entry is appended and nothing else changes |
| PlannerProcess.PlannerQueues.WaitForKey | planner/src/launcher.c:484-490 | a WAITING entry is appended and nothing else changes |
| PlannerProcess.PlannerQueues.BlockEsi | planner/src/launcher.c:536-552 | the first running ESI of that name goes to the end of blocked with its burst averaged in and its counter at zero; null dereference exactly if there is none |
| PlannerProcess.PlannerQueues.TakeBlocked | planner/src/launcher.c:591-597 | the first blocked ESI of that name is removed and returned, or nothing changes |
| PlannerProcess.PlannerQueues.CheckWhosWaiting | planner/src/launcher.c:575-605 | the loop ends; if waiters and blocked ESIs match it succeeds and its effect is the filter |
| PlannerProcess.PlannerQueues.ReleaseKey | planner/src/launcher.c:492-503 | the first BLOCKED entry for the key goes, its waiters become ready in order and marked, their entries go, everything else stays |
| PlannerProcess.PlannerQueues.ChangeKeyStatus | planner/src/launcher.c:557-573 | BLOCKED and WAITING append the very entry, RELEASED releases the key |
| PlannerProcess.PlannerQueues.AnswerQuestion | planner/src/launcher.c:214-274 | a GET is granted exactly if nobody holds the key, otherwise the asker is blocked and its WAITING entry appended; a SET or STORE is granted exactly if the first holder asks, null dereference exactly if there is none |
| PlannerProcess.PlannerQueues.Pause | planner/src/include/commands.c:14-17 | scheduling off, nothing else |
| PlannerProcess.PlannerQueues.Resume | planner/src/include/commands.c:18-21 | scheduling on, nothing else |
| PlannerProcess.PlannerQueues.Block | planner/src/include/commands.c:22-25 | a BLOCKED entry is appended behind all others whatever the table holds |
| PlannerProcess.PlannerQueues.Unblock | planner/src/include/commands.c:26-29 | the release of the key, whoever holds it first |
| CoordinatorProcess.Coordinator.RegisterInstance | coordinator/src/launcher.c:87-97 | one more available instance at the end of the list |
| CoordinatorProcess.Coordinator.GetInstanceIndexToUse | coordinator/src/launcher.c:258-299 | upwards from the last used index and around, the first available instance; -1 exactly when none is available or the algorithm has no code |
| CoordinatorProcess.Coordinator.constructor | coordinator/src/launcher.c:10-10 | no instances, last used index -1 |
| CoordinatorProcess.Coordinator.OnPermit | coordinator/src/launcher.c:183-198 | the operation goes to the chosen instance, which becomes the last used one |
| CoordinatorProcess.Coordinator.OnReply | coordinator/src/launcher.c:202-233 | on success the lock notice (none for SET) and then LINE_OK; on failure OPERATION_ERROR to the ESI and nothing for the planner |
| InstanceProcess.InstanceTables.constructor | instance/src/launcher.c:142-159 | MAX_ENTRIES empty blocks, empty dictionary, pointer 0 |
| InstanceProcess.InstanceTables.FindEntry | instance/src/launcher.c:169-175 | the first row with the key, if there is one |
| InstanceProcess.InstanceTables.CopyValueToBlock | instance/src/launcher.c:272-277 | that block holds the value and its size, all others are unchanged |
| InstanceProcess.InstanceTables.DumpEntry | instance/src/launcher.c:288-302 | the file named by the row's key gets the block's data |
| InstanceProcess.InstanceTables.ProcessInstruction | instance/src/launcher.c:161-266 | GET of a new key puts its row in front and "Default" with a terminator into the slot at the pointer, which moves on or around; GET of a known key does nothing; SET writes value and size to the key's first row and slot; STORE writes that slot's data to the key's file; SET and STORE of an unknown key fail and change nothing |
| EsiProcess.ScriptReader.constructor | esi/src/launcher.c:24-24 | the script open at its first line, no name yet |
| EsiProcess.ScriptReader.Registered | esi/src/launcher.c:211-225 | the name given by the planner is kept, the cursor stays |
| EsiProcess.ScriptReader.Parser | esi/src/launcher.c:81-161 | mark at the line's beginning, cursor behind it, the operation or FINISHED sent; at the end of the script mark and cursor stay there and the coordinator hears of FINISHED too, which it does not at a bad line |
| EsiProcess.ScriptReader.OnRunOrder | esi/src/launcher.c:194-210 | the same from the cursor, or for a repetition from the mark |

## Left out

- Sockets, `select`, threads, handshakes, logging, configuration files and file handles: they are steps, messages and
  arguments. The atomicity of a handler is assumed, so a torn read of a list shared by two planner threads is not
  captured.
- Registration is one step: the ESI has its name and its two connections when its first run order arrives.
- The planner's reply to a permission question is delivered to the coordinator thread that asked; a denial, which that
  thread only logs, is consumed in the step that sends it. All coordinator threads read one planner socket; a reply
  reaching another thread is not modelled.
- Byte layout of messages, such as the shortened name reply (planner/src/launcher.c:159) and the misplaced terminator
  (coordinator/src/launcher.c:151): whole names and values are delivered.
- Scripts are taken as already parsed, newline-terminated lines; a line that does not parse is `Garbage`. The external
  parser is not part of this model.
- Lists are sequences and ESI records are values in them, so two queues sharing one record is not captured. The sort is
  any ascending permutation (`SortResult`), the order of equal estimates is open.
- Integers are unbounded and `float` is `real`: overflow of counters and rounding of estimates are not captured.
- Entry counts are positive: an instance set up with no entries dereferences null at its first GET.
- SJF_CD, HRRN, LSU and KE: the first frees and dereferences live or missing queue elements, the others have no code
  (the two distribution algorithms yield -1, as in `GetInstanceIndexToUse`).
- `status` fields, the instance's `blocked` and `blockedBy` (bypassed by a constant), `ENTRY_SIZE_PARAM` (never used),
  `dump_all_entries` (never called), and the console's `list`, `info`, `kill`, `status` and `deadlock`.
- Lost connections, and an instance becoming unavailable: no code changes an instance's status during a run, but
  Equitable Load and `CrashCauses` are proved for any statuses.
- After OPERATION_ERROR an ESI ends its coordinator connection; it has no further effect on the planner and is not
  modelled.
- EndToEndIsolation: is stated for one instance, at most as many keys as blocks, and no console `block`. Several
  instances or more keys are the subject of IsolationIff; `Examples.StaleCopy` and `Examples.SharedBlock` are runs in
  which a STORE does not write its own window's value.
- IsolationIff: is stated without console `block`, with which a STORE need not close any window
  (`Examples.GivenByConsole`); what a STORE writes is given for all runs by StoresWriteSlots and PlainMapIff.
- SortingQueues: leaves out the SJF_CD branch (planner/src/launcher.c:341-350).
- ExecutionLineOk: leaves out the SJF_CD branch (planner/src/launcher.c:168-179).
- OnReply: names OPERATION_ERROR as a result; the system does not carry it, because the ESI only answers by ending its
  coordinator connection.
- Parser: names the FINISHED sent to the coordinator as a result; the system does not carry it, because it only ends the
  coordinator's thread for that ESI.
- EveryRunEnds: counts deliveries and dispatches, since the running thread may turn without effect any number of times;
  as arrivals are open-ended, it bounds the rest of a run after the last one.
- EveryRunFinishes: is for one instance, because with several a bracketing script may be stranded
  (`Examples.SetElsewhere`).
