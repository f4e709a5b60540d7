# The device worker: condition language and scheduler

A Dafny model of the two parts of the device worker that decide what runs on a device.

**Conditions.** A device profile is a set of named conditions such as `cpu < 5% || cpu > 40%`. The model
follows a condition from its text to its value: the lexer over its character buffer, the recursive-descent
parser, the tree printer and the evaluator, then the evaluation of all profiles and the decision whether a
workload is active. Lexer, parser, profile evaluator and the workload decision are imperative and proved
against reference functions or declarative descriptions; printer and evaluator are functions.

**Scheduler.** `Machine.dfy` is the scheduler as a step machine: the job store over its shared backing
array, the futures, the reconciliation goroutines one executor call at a time, the profile results, the
pending-evaluation flag, the clock and the pods that exist. Steps of different goroutines interleave freely
and the executor answers as it likes within the states its mapper produces. `Runs.dfy` states the results
over every run from the empty store. `Jobs.dfy`, `Store.dfy`, `Reconcilers.dfy` and `Scheduler.dfy` hold the objects that the
program updates in place, with methods proved against the functions the machine is built from.

| file | contents |
|---|---|
| `Syntax`, `Numbers`, `Lexer`, `Grammar`, `Parser` | tokens, numerals, scanner, the implemented grammar, parser |
| `ParserTheorems`, `Documented` | parser against the implemented grammar, and against the documented one |
| `Evaluator`, `Printer`, `Conditions` | values and errors, printing and the round trip, what conditions mean |
| `Profiles`, `Activation`, `EndToEnd` | device profiles, the workload decision, both together |
| `Jobs`, `Store`, `Reconcilers`, `Visits`, `Scheduler` | the job object, the store, the sync functions, a visit, the message handlers |
| `Slices`, `Machine` | deletion from a shared array, the step machine |
| `InFlight`, `MarkedJobs`, `ExecutionPass`, `Configuration`, `Removal`, `Progress`, `Settling`, `Ownership`, `Timing`, `Launching`, `Starting` | one invariant or ranking each, kept by every step |
| `Runs`, `Counterexamples` | the results over whole runs, and runs in which something goes wrong |

## Where the code and its documentation differ

The model follows the code.

- The grammar comment allows any number of `&&` (`internal/configuration/interpreter/parser.go:5`), the loop
  returns after the first (`parser.go:82-87`). It also allows any primary as right operand of a comparison,
  with a sign and a unit (`parser.go:8-9`), where the code wants a constant (`parser.go:127-141`).
  `Documented.PromiseKeptIffPlain` says for which texts the two agree; `Documented.NameOperandIsRejected` and
  `Documented.FalseThirdConjunctIsIgnored` give texts for which they do not.
- `parse` does not check that the text is used up (`parser.go:52-55`), so what follows a conjunction is
  silently unread.
- A comment wants one true condition for each profile of the workload (`internal/scheduler/scheduler.go:436`,
  `scheduler.go:443`); the code compares its count with the number of device profiles (`scheduler.go:466`).
  `Activation.PromiseKept`, `PromiseBroken` and `PromiseBrokenExample` say when the two differ. Before any
  results have come, every workload is started (`scheduler.go:372`, `Activation.ActiveBeforeResults`).
- A condition is documented as evaluated only when all its variables are known
  (`internal/entity/profile.go:14`); the evaluator gives an unknown variable the value nil, and a comparison
  with it is false without an error.
- A marked job is to be removed once it has stopped, but one that is Inactive is not in the removal list
  (`scheduler.go:200`) and does not leave that state on an Unknown report (`internal/entity/job.go:130-132`).
  `Runs.MarkedJobsSettle` says what becomes of every marked job, `Runs.RemovedIffNotInactive` and
  `Settling.VisitDecides` which of the two ends it comes to, and `Counterexamples.StrandedRun` is a run to the
  bad one.
- A job removed in a pass can be visited again in the same pass, because the loop runs over the array that the
  removal shifts (`scheduler.go:168-205`, `internal/scheduler/store.go:57`). If it is then found running it gets
  a goroutine, whose result is later given to a new job with the same ID (`scheduler.go:170-188`).
  `Runs.ResultsReachTheirJob` gives the exact condition, `Counterexamples.MisdirectedRun` such a run.
- The retry interval is 10 seconds (`scheduler.go:332`), not the 20 of the manual.

## Model

| member | source | states |
|---|---|---|
| Lexing.Lexer.constructor | internal/configuration/interpreter/lexer.go:11-16 | a new lexer has the whole text ahead of it |
| Lexing.Lexer.Next | internal/configuration/interpreter/lexer.go:135-151 | loading a character advances by exactly one and never passes the end of the buffer; on a NUL at the end only the position changes |
| Lexing.Lexer.Scan | internal/configuration/interpreter/lexer.go:18-132 | for every text a scan stays in bounds, returns the reference lexeme and leaves exactly the rest; the reported position is the start of an identifier and the end of any other token |
| Lexing.Lexer.ScanIdentifier | internal/configuration/interpreter/lexer.go:34-51 | an identifier is the maximal run of word characters in the source, and `nil` is its own token |
| Lexing.Lexer.ScanNumber | internal/configuration/interpreter/lexer.go:53-72 | a number is the maximal run of digits and dots, illegal with two dots |
| Lexing.ScanText | internal/configuration/interpreter/lexer.go:18-132 | every scan but EOL strictly advances |
| Lexing.ScanIsLongestMatch | internal/configuration/interpreter/lexer.go:18-132 | whatever is accepted is blanks, the spelling of a lexeme, and a rest that does not continue it |
| Lexing.LongestMatchIsScanned | internal/configuration/interpreter/lexer.go:18-132 | conversely every lexeme so spelled is the one scanned |
| Lexing.EolIsSticky | internal/configuration/interpreter/lexer.go:23-25 | scanning after EOL gives EOL again and moves nowhere |
| Lexing.EolIff | internal/configuration/interpreter/lexer.go:19-25 | EOL is found exactly where behind the blanks nothing is left or a NUL stands |
| Lexing.IllegalIff | internal/configuration/interpreter/lexer.go:27-129 | ILLEGAL is found exactly where the text is not at its end and no lexeme is spelled at full length |
| Lexing.Operators | internal/configuration/interpreter/lexer.go:75-123 | parentheses, the minus sign and the logical operators as they are written |
| Lexing.ComparisonOperators | internal/configuration/interpreter/lexer.go:81-107 | the six comparison operators as they are written |
| Lexing.IllegalForms | internal/configuration/interpreter/lexer.go:53-129 | half of a two-character operator and a numeral with two dots are illegal |
| Syntax.Classes | internal/configuration/interpreter/lexer.go:153-163 | the character classes by code points |
| Lexing.LexIffSpells | internal/configuration/interpreter/lexer.go:18-132 | the scanner delivers exactly the lexemes that the text consists of, up to its end or a NUL, and then EOL |
| Lexing.LexShape | internal/configuration/interpreter/lexer.go:18-132 | every text is a finite list of well-spelled lexemes closed by one EOL or ILLEGAL |
| Parsing.Parser.Next | internal/configuration/interpreter/parser.go:170-175 | the pending tokens become the lexemes of the remaining text; an illegal token is a failure |
| Parsing.Parser.Primary | internal/configuration/interpreter/parser.go:143-167 | the object returns the reference tree and stands at the reference rest, or fails where that fails |
| Parsing.Parser.UnaryTerm | internal/configuration/interpreter/parser.go:127-141 | the same for a signed constant |
| Parsing.Parser.ValueTerm | internal/configuration/interpreter/parser.go:114-125 | the same for a constant with a unit |
| Parsing.Parser.Compare | internal/configuration/interpreter/parser.go:100-111 | the same for a comparison |
| Parsing.Parser.Conjunction | internal/configuration/interpreter/parser.go:77-94 | the same for `and`, at most one `&&` |
| Parsing.Parser.Expression | internal/configuration/interpreter/parser.go:58-73 | the same for the `or` loop |
| Parsing.ParseText | internal/configuration/interpreter/parser.go:40-56 | for every text the mutually recursive parser over the lexer object ends with the tree of the reference parser, or with a parse error exactly when that one fails |
| ParserTheorems.ParseSound | internal/configuration/interpreter/parser.go:40-167 | on success the consumed tokens are derivable in the implemented grammar with exactly the returned tree |
| ParserTheorems.WholeInputIffSentence | internal/configuration/interpreter/parser.go:40-167 | a text is read to its end with tree e if and only if it is a sentence with tree e |
| ParserTheorems.SentenceIsAccepted | internal/configuration/interpreter/parser.go:58-167 | every sentence followed by EOL is accepted whole |
| ParserTheorems.WholeTextIffSentence | internal/configuration/interpreter/parser.go:40-167 | a text is read to its end with tree e if and only if it consists of spelled lexemes that are a sentence with tree e |
| ParserTheorems.TreeIsUnique | internal/configuration/interpreter/parser.go:58-167 | a token list has at most one tree |
| ParserTheorems.LaterConjunctsAreDropped | internal/configuration/interpreter/parser.go:82-87 | a second `&&` ends the parse: the tree of the first two operands is returned and the rest is unread |
| ParserTheorems.TrailingTokenRejectedAfterCompare | internal/configuration/interpreter/parser.go:88-93 | after a single comparison only the two logical operators, a closing parenthesis and EOL are accepted |
| Documented.PromiseKeptIffPlain | internal/configuration/interpreter/parser.go:1-10 | a sentence of the documented grammar is read whole with its tree if and only if no conjunction has a third operand and every comparison is with a constant, signed or with a name as unit |
| Documented.OperandMustBeConstant | internal/configuration/interpreter/parser.go:127-141 | a comparison whose right side does not start like a constant is rejected |
| Documented.NameOperandIsRejected | internal/configuration/interpreter/parser.go:8-9 | the comparison of two names is a documented sentence and a parse error |
| Documented.ThirdConjunctIsUnread | internal/configuration/interpreter/parser.go:77-94 | for any three operands the text of their conjunction parses into the first two, the third left unread |
| Documented.FalseThirdConjunctIsIgnored | internal/configuration/interpreter/parser.go:77-94 | a text whose condition holds although its third conjunct is false |
| Evaluation.ErrorIsStatic | internal/configuration/interpreter/interpreter.go:40-61 | over numeric metrics an error depends on the expression alone: a type assertion or nil ordering that panics, or no boolean at the root |
| Evaluation.Evaluate | internal/configuration/interpreter/interpreter.go:40-61 | an error always comes with the result false |
| Conditions.KnownIsCompared | internal/configuration/interpreter/ast.go:52-65 | a known number is compared with a constant, signed or with a unit, as each of the six operators says, without an error |
| Conditions.UnknownIsFalse | internal/configuration/interpreter/ast.go:46-50 | every comparison of an unknown variable with a number is false, without an error |
| Conditions.TruthIsZero | internal/configuration/interpreter/ast.go:95-97 | a truth value is compared as the number 0 |
| Conditions.NilTests | internal/configuration/interpreter/ast.go:34-44 | `== nil` and `!= nil` tell unknown from known, other comparisons with nil are errors |
| Conditions.VariableAlone | internal/configuration/interpreter/ast.go:88-105 | a variable as a condition: its truth value, or the error for each other case |
| Conditions.Connectives | internal/configuration/interpreter/ast.go:16-28 | the truth tables of the two logical operators |
| Conditions.FaultsPass | internal/configuration/interpreter/ast.go:17-18 | both operands are evaluated: a fault of the left one, else of the right one, is the fault of the whole |
| Conditions.GroupIsTransparent | internal/configuration/interpreter/ast.go:107-109 | parentheses change no value |
| Conditions.NumberTestHolds | internal/configuration/interpreter/parser.go:100-111 | from text to value: for every name, operator and numeral the text is read whole and has the value of the comparison |
| Conditions.ExampleHolds | README.md:60 | the condition of the manual holds for every value below 5 and above 40 and for no other |
| Conditions.ExampleText | README.md:60 | and that is its text |
| Evaluation.EvalIsStatic | internal/configuration/interpreter/ast.go:16-109 | which trees fail, and which give a boolean, for all numeric metrics |
| Evaluation.ParsedTree | internal/configuration/interpreter/parser.go:58-167 | the shape of every tree the parser can return |
| Evaluation.TrueStaysTrue | internal/configuration/interpreter/ast.go:16-109 | a condition without a test `== nil` that holds keeps holding when further metrics become known |
| Printing.NilTestIsNotMonotone | internal/configuration/interpreter/ast.go:34-44 | with `== nil` that fails, by a concrete text |
| Printing.RoundTrip | internal/configuration/interpreter/expr.go:18-122 | the printed text of a tree is accepted to its end, gives the same tree up to groups, evaluates alike under every metrics map, errors included, and prints as itself |
| Printing.UngroupExactly | internal/configuration/interpreter/expr.go:112-126 | what being the same up to groups means: no group is left, and trees without groups are unchanged |
| Printing.ParsePrintParse | internal/configuration/interpreter/expr.go:42-48 | the same from any accepted text whose constants are integers |
| Numbers.IntegersReprint | internal/configuration/interpreter/expr.go:42-48 | integer constants below 2^63 print and read back exactly |
| Numbers.DecimalReads | internal/configuration/interpreter/parser.go:152-158 | a numeral with a dot is the number before it plus the fraction behind it, rejected from the float32 limit on |
| Numbers.WholeReads | internal/configuration/interpreter/parser.go:152-158 | a numeral without a dot is its digits |
| Numbers.LeadingDigit | internal/configuration/interpreter/parser.go:152-158 | digits count for powers of ten |
| Printing.PrintedForms | internal/configuration/interpreter/expr.go:42-109 | the printed text of comparisons, logical nodes, units and signs |
| Profiles.EvaluateProfile | internal/profile/evaluator.go:14-28 | one result per condition, in order, with the interpreter's value and error |
| Profiles.SimpleEvaluator.SetProfiles | internal/profile/evaluator.go:34-43 | the evaluators are the entries of the profile map, each once, in some order |
| Profiles.SimpleEvaluator.Evaluate | internal/profile/evaluator.go:47-57 | one result per profile with distinct names; none exactly for no profiles |
| Activation.Populate | internal/scheduler/scheduler.go:382-407 | an inactive entry per listed condition, the last of equal profile names counting |
| Activation.ListedIsLast | internal/scheduler/scheduler.go:385-407 | of several profiles with one name the last one counts |
| Activation.HoldsInOne | internal/scheduler/scheduler.go:423-433 | a result counts if it is true and without error, and one is enough |
| Activation.FindEntry | internal/scheduler/scheduler.go:409-417 | the first entry of a name, if there is one |
| Activation.MarkEntries | internal/scheduler/scheduler.go:423-433 | an entry becomes active exactly when it is first of its name and some result for it is true without error |
| Activation.MarkTable | internal/scheduler/scheduler.go:419-434 | the same for all device profiles together |
| Activation.Cheaper | internal/scheduler/scheduler.go:446-461 | the least CPU seen so far, and whether a profile has an active entry |
| Activation.Summarise | internal/scheduler/scheduler.go:438-462 | in any order of the map: the number of profiles with an active entry, and the least CPU offered |
| Activation.CountingTheorem | internal/scheduler/scheduler.go:443-468 | as many active profiles as results means exactly that results have distinct names and each is satisfied |
| Activation.EvaluateWorkload | internal/scheduler/scheduler.go:371-471 | active exactly when there are no profiles, no results, or every evaluated device profile is listed by the workload with a condition that is true without error; and the resource is the least CPU between 0 and 100000 among active conditions |
| Activation.CheapestIsUnique | internal/scheduler/scheduler.go:436-468 | the resource is the same for every iteration order |
| Activation.PromiseKept | internal/scheduler/scheduler.go:436-468 | if the workload names exactly the profiles of the device, the decision is one true condition per workload profile |
| Activation.PromiseBroken | internal/scheduler/scheduler.go:436-468 | for all workloads and results: one that meets the promise is started exactly if it lists no profiles or the device has no others; one that is started meets it exactly if it names no others |
| Activation.ActiveBeforeResults | internal/scheduler/scheduler.go:372-377 | without results every workload is started, and none that lists a profile meets the promise |
| Activation.PromiseBrokenExample | internal/scheduler/scheduler.go:443-466 | a workload whose only profile is satisfied and that is not started |
| EndToEnd.KnowingMoreKeepsActive | internal/profile/evaluator.go:14-57 | a workload active under some metrics stays active when unknown metrics become known |
| EndToEnd.OrderOfProfilesIsIrrelevant | internal/profile/evaluator.go:34-57 | the order of the profile map changes neither the decision nor the resource |
| EndToEnd.Decide | internal/profile/manager.go:122-128 | profile map and metrics determine decision and resource; with an empty map nothing is sent and the earlier results decide |
| Jobs.CreateJob | internal/scheduler/scheduler.go:327-353 | a job exists unless its cron specification fails to parse; it is Ready, and has a cron at the next instant from now or a retry, never both |
| Jobs.ObservedState | internal/entity/job.go:129-144 | which state a report leads to, in every case |
| Jobs.ObservedRetry | internal/scheduler/scheduler.go:337-347 | which reports set the retry, ten seconds from now, and which clear it |
| Jobs.RemoveIff | internal/scheduler/scheduler.go:200-205 | exactly which jobs are removed |
| Jobs.LaunchIff | internal/scheduler/scheduler.go:207-228 | exactly for which jobs and times a reconciliation is launched |
| Jobs.LaunchedCron | internal/scheduler/scheduler.go:222-228 | a launch to run moves the cron to the next instant from now |
| Jobs.Job.Build | internal/entity/job.go:255-290 | the job object as created |
| Jobs.Job.SetTargetState | internal/entity/job.go:91-103 | only the target changes |
| Jobs.Job.MarkForDeletion | internal/entity/job.go:182-185 | only the mark changes |
| Jobs.Job.SetCurrentState | internal/entity/job.go:115-147 | the new job after a state report, with the hook of `createJob` |
| Jobs.Job.Gate | internal/scheduler/scheduler.go:199-228 | remove, leave or launch, and the cron moved on by a launch only |
| Stores.Store.Add | internal/scheduler/store.go:61-66 | the job is appended |
| Stores.Store.Index | internal/scheduler/store.go:75-83 | the first position with the ID, or none |
| Stores.Store.Find | internal/scheduler/store.go:36-44 | a stored job with the ID, or none exists |
| Stores.Store.Delete | internal/scheduler/store.go:46-59 | the first job with the ID is shifted out of the same array, the rest of the array staying as it was |
| Stores.Store.ToList | internal/scheduler/store.go:68-73 | the list is the store's own array |
| Schedulers.Substract | internal/scheduler/util.go:8-35 | for every key of the first list that the second has not, the last element with it, once |
| Schedulers.LastKeyIsLast | internal/scheduler/util.go:17-25 | of several elements with one key the last one is taken |
| Schedulers.DifferenceIsFresh | internal/scheduler/scheduler.go:141 | subtracting jobs from workloads gives the additions of the step machine |
| Schedulers.DifferenceIsStale | internal/scheduler/scheduler.go:140 | subtracting workloads from jobs gives its marks |
| Schedulers.Future.Drain | internal/entity/future.go:28-35 | resolved with the last message, or with no value |
| Schedulers.Future.Poll | internal/entity/future.go:40-47 | a value only when resolved |
| Schedulers.Scheduler.ReceiveNone | internal/scheduler/scheduler.go:132-138 | every job is marked with target Exited, nothing else changes |
| Schedulers.Scheduler.ReceiveConfig | internal/scheduler/scheduler.go:139-160 | new jobs exactly for the last workload of each new ID whose cron parses, marks exactly for the jobs not desired, an evaluation pending |
| Schedulers.Scheduler.ReceiveResults | internal/scheduler/scheduler.go:161-166 | results replaced, an evaluation pending exactly if it was or they differ, in values or in the contents of errors |
| Schedulers.Scheduler.EvaluationPass | internal/scheduler/scheduler.go:281-302 | unmarked jobs get the target the results ask for, marked ones nothing |
| Schedulers.Scheduler.VisitJob | internal/scheduler/scheduler.go:169-233 | what a visit does to the job and to the futures for every answer of the executor, and whether the job is to be deleted |
| Schedulers.Scheduler.ExecutionPass | internal/scheduler/scheduler.go:167-236 | the pass over the aliased, shrinking array is a sequence of visits, one for each place, with the answers given for them; it stays in bounds, removes only marked jobs, keeps the order of the others, visits only jobs stored at its start, and leaves no more of them unvisited than it removes |
| Schedulers.EveryVisit | internal/scheduler/scheduler.go:168-234 | every iteration visits the job in its place: job, futures and array after it follow from those before and the answer |
| Schedulers.LeavesIff | internal/scheduler/scheduler.go:197-205 | a visit takes a job out of the store if and only if it is there, marked, without future, and reported Exited, or Unknown while not Inactive |
| Visits.RemovedIff | internal/scheduler/scheduler.go:197-205 | the same for one visit on values |
| Visits.LaunchedIff | internal/scheduler/scheduler.go:207-233 | a visit gives a job without future one exactly if a report is there and the job is to be launched |
| Visits.OtherFuturesStay | internal/scheduler/scheduler.go:169-233 | a visit leaves the futures of other jobs alone |
| Visits.VisitIsMachineReport | internal/scheduler/scheduler.go:190-234 | a visit that asks for the state does to the job, to the futures and to the array of the store what the machine step does |
| Visits.VisitIsMachinePoll | internal/scheduler/scheduler.go:170-188 | likewise for a visit that finds a future |
| Slices.RemovalAccounts | internal/scheduler/store.go:56-57 | after a deletion under the loop every job is visited, ahead, or counted as passed over |
| Slices.RemovalKeepsOrder | internal/scheduler/store.go:56-57 | the shifted slice is the old one without the deleted element, in order |
| Reconcilers.SyncPod | internal/scheduler/reconcile/reconciler.go:47-97 | for every state, target and answers: which calls the pod function makes, in order and up to the first failure, and with what result; and the goroutine of the machine does the same |
| Reconcilers.InOrderExactly | internal/scheduler/reconcile/reconciler.go:47-129 | calls in order: all of the list if none fails, else up to the first that does |
| Reconcilers.SyncK8s | internal/scheduler/reconcile/reconciler.go:99-129 | the same for the k8s function: Run and GetState to run, Remove and GetState to stop, GetState otherwise |
| Reconcilers.StepsDecrease | internal/scheduler/reconcile/reconciler.go:38-129 | a goroutine comes to its end, whatever is answered and however the target changes |
| InFlight.StoreKept | internal/scheduler/scheduler.go:131-236 | every step keeps the store well formed with distinct IDs |
| InFlight.FuturesKept | internal/scheduler/scheduler.go:168-234 | every step keeps each live goroutine registered as the future of its ID |
| InFlight.CurrentIsFixedInFlight | internal/scheduler/scheduler.go:170-188 | no step changes the current state of a job whose reconciliation is in flight |
| MarkedJobs.MarksKept | internal/scheduler/reconcile/reconciler.go:47-129 | every step keeps marked jobs at target Exited and goroutines launched after a mark away from `Run` |
| MarkedJobs.PodsKept | internal/scheduler/reconcile/reconciler.go:55-68 | every step keeps a goroutine about to call `Run` for a pod without such a pod |
| MarkedJobs.MarkIsForever | internal/scheduler/scheduler.go:281-302 | no step unmarks a job or changes its target |
| ExecutionPass.PassKept | internal/scheduler/scheduler.go:167-205 | every step keeps the account of the pass over the shared array |
| ExecutionPass.EndOfPass | internal/scheduler/scheduler.go:167-205 | what a finished pass has done to the store |
| ExecutionPass.RemovalPassesOver | internal/scheduler/store.go:57 | after a removal the pass goes past the next job if another one is behind that; if not, it finds the next job in the stale last place |
| Configuration.DesiredKept | internal/scheduler/scheduler.go:131-160 | every step keeps the unmarked IDs, together with those on their way, equal to the IDs wanted |
| Configuration.CleanKept | internal/scheduler/scheduler.go:161-166 | every step, a skipped message of unchanged results among them, keeps targets up to date or an evaluation pending |
| Removal.RemovesIff | internal/scheduler/scheduler.go:197-205 | a visit removes a marked job if and only if the report is Exited, or Unknown for a job that is not Inactive |
| Removal.ReportStored | internal/scheduler/scheduler.go:197-205 | a visit removes at most the visited job |
| Removal.RemovalIsSafe | internal/scheduler/scheduler.go:170-205 | a job leaves the store only marked, with nothing in flight and a report Unknown or Exited in that visit |
| Removal.StuckStays | internal/entity/job.go:129-132 | no step moves a job marked while Inactive and unknown to the executor |
| Progress.RankStep | internal/scheduler/reconcile/reconciler.go:77-129 | no step raises the rank of a marked job, pod or k8s, and each counted visit lowers it |
| Timing.RetriesKept | internal/scheduler/scheduler.go:337-347 | every step keeps the retry of a job equal to what the history says |
| Timing.CronsKept | internal/scheduler/scheduler.go:222-228 | every step keeps the cron launches within the instants passed |
| Runs.Always | internal/scheduler/scheduler.go:114-310 | all invariants hold in every state of every run |
| Machine.MapperProduces | internal/executor/podman/mapper.go:5-20 | the states an executor reports: all but Ready and Inactive |
| Machine.EnvironmentSteps | internal/scheduler/reconcile/reconciler.go:61-83 | time and pods change as the environment says, Run creates and Remove removes |
| Runs.OneAtATime | internal/scheduler/scheduler.go:168-234 | at most one reconciliation per ID is in flight, and executor calls for one ID never overlap, the scheduler's own state query included |
| Runs.CurrentIsFixedWhileInFlight | internal/scheduler/scheduler.go:168-234 | over any stretch of a run the current state of a job stays the same while its reconciliation is in flight |
| Ownership.PolledIsOwn | internal/scheduler/scheduler.go:170-188 | the goroutine found by a visit works on the visited job if and only if its own job is in the store or the visited one is not |
| Ownership.ClearKept | internal/scheduler/scheduler.go:168-205 | every step with a truthful report keeps jobs removed in a pass without pod and goroutine |
| Runs.ResultsReachTheirJob | internal/scheduler/scheduler.go:170-188 | over every run, exactly when a result is given to the job it is about, and what the other job is like if not |
| Runs.TruthfulResultsReachTheirJob | internal/scheduler/scheduler.go:170-188 | with truthful reports it always is |
| Counterexamples.MisdirectedRun | internal/scheduler/scheduler.go:168-205 | a run in which a job that no goroutine has worked on is taken for Exited |
| Runs.RunCallsAreSafe | internal/scheduler/reconcile/reconciler.go:47-129 | no pod is run while one with its ID exists, and no goroutine launched after a mark calls `Run` |
| Runs.MarkedStaysMarked | internal/scheduler/scheduler.go:133-160 | once marked, marked with target Exited for ever |
| Runs.ConfigurationHolds | internal/scheduler/scheduler.go:139-160 | from a configuration message to the next one the unmarked IDs are exactly those asked for, minus the already marked and those whose cron fails to parse |
| Runs.EmptyConfigurationHolds | internal/scheduler/scheduler.go:132-138 | after an empty one there is no unmarked job |
| Runs.StoreIdsAreDistinct | internal/scheduler/scheduler.go:139-151 | store IDs are distinct throughout |
| Runs.TargetsAreUpToDate | internal/scheduler/scheduler.go:281-302 | an evaluation is pending, or every unmarked job's target is Running exactly if the results that arrived last make it active, and Inactive otherwise |
| Runs.PassesAreSound | internal/scheduler/scheduler.go:167-205 | the account of an execution pass, under every interleaving |
| Runs.PassesAreCompleted | internal/scheduler/scheduler.go:168-234 | a pass is left only at its end |
| Runs.RestartsAreSpaced | internal/scheduler/scheduler.go:214-220 | a restart comes strictly later than the interval after the first failure since the job was last seen running, and the interval is computed once in between |
| Launching.RestartIffDue | internal/scheduler/scheduler.go:214-220 | a failed job that is to run is restarted by a visit if and only if more than ten seconds have passed since its first failure |
| Launching.StartAtOnce | internal/scheduler/scheduler.go:359-369 | one that has not run yet or was stopped on purpose is started at once |
| Launching.CronIffDue | internal/scheduler/scheduler.go:222-228 | a cron job that is to run and is not running is launched if and only if the first instant after its last launch, or its creation, has passed |
| Launching.RunningIffToStop | internal/scheduler/scheduler.go:364-366 | a running job is stopped by a visit exactly if its target is Exited or Inactive |
| Launching.NextKept | internal/scheduler/scheduler.go:227 | every step keeps the next time of a cron the first instant after the last launch or the creation |
| Runs.RestartsWhenDue | internal/scheduler/scheduler.go:214-220 | restarts happen when due, over every run |
| Runs.CronsRunWhenDue | internal/scheduler/scheduler.go:222-228 | and so do cron launches |
| Launching.RunIsRecorded | internal/scheduler/reconcile/reconciler.go:66-66 | the history has every `Run` call, with whether a pod was there |
| Launching.LaunchIsRecorded | internal/scheduler/scheduler.go:229-233 | it has every launch, with the job as it was decided upon |
| Launching.ReportIsRecorded | internal/scheduler/scheduler.go:197 | and every report |
| Launching.MarkIsRecorded | internal/scheduler/scheduler.go:133-160 | and every mark |
| Launching.JobIsRecorded | internal/scheduler/scheduler.go:142-150 | and every new job |
| Starting.StartingGoesOn | internal/scheduler/reconcile/reconciler.go:55-75 | every step takes a goroutine whose job is to run closer to a running workload, or keeps it |
| Starting.StoppingGoesOn | internal/scheduler/reconcile/reconciler.go:77-91 | every step takes one whose job is to stop closer to a workload that is gone, or keeps it |
| Runs.GoroutinesStart | internal/scheduler/reconcile/reconciler.go:55-75 | over every run: a goroutine whose job is to run, and whose calls succeed, ends with the pod or deployment there and brings back a state |
| Runs.GoroutinesStop | internal/scheduler/reconcile/reconciler.go:77-91 | one whose job is to stop ends with it gone |
| Runs.CronLaunchesAreBounded | internal/scheduler/scheduler.go:222-228 | launches never exceed the schedule instants that have passed, and no job has both a cron and a retry |
| Runs.RemovalsAreSafe | internal/scheduler/scheduler.go:197-205 | safe removal, over every run |
| Runs.RemovedWithinFourVisits | internal/scheduler/scheduler.go:168-234 | a marked job that is not Inactive, pod or k8s, is removed by its fourth visit that finds a resolved future or learns the state, if Stop and Remove succeed and reports are truthful |
| Settling.WaitStep | internal/scheduler/scheduler.go:168-234 | no step lengthens the wait of a marked job, Inactive or not, and every counted visit shortens it until the job is removed or stranded |
| Settling.VisitDecides | internal/scheduler/scheduler.go:197-228 | the next visit that learns the state of an Inactive marked job decides: with a pod it is on its way out, without one it is stranded |
| Runs.MarkedJobsSettle | internal/scheduler/scheduler.go:168-234 | every marked job, whatever its state and whatever is in flight, is by its fourth counted visit removed, or Inactive with no pod and no goroutine, if Stop and Remove succeed and reports are truthful |
| Runs.StrandedForever | internal/entity/job.go:129-132 | in the second case it stays so, however the run goes on |
| Runs.RemovedIffNotInactive | internal/scheduler/scheduler.go:197-205 | with its pod gone and nothing in flight, a marked job is removed by its next counted visit if and only if it is not Inactive |
| Runs.StuckForever | internal/entity/job.go:129-132 | otherwise it stays for as long as the executor knows nothing of it |
| Runs.MarkingInactiveStrands | internal/scheduler/scheduler.go:156-160 | marking an Inactive job with nothing in flight strands it |
| Runs.StrandedIsNeverWanted | internal/scheduler/scheduler.go:139-151 | and no configuration message brings its workload back |
| Counterexamples.StrandedRun | internal/scheduler/scheduler.go:197-205 | a run from the empty store, with an executor that reports only the truth, in which a job is started, stopped because of its profile, marked, and stranded |
| Runs.SchedulerCanStep | internal/scheduler/scheduler.go:128-310 | the guards of the machine never hold up the scheduler goroutine |
| Runs.RoutineCanStep | internal/scheduler/reconcile/reconciler.go:38-129 | nor a goroutine in flight |

## Left out

- Printing.RoundTrip: constants are exact decimals, so float32 rounding is not modelled, and the `%.6g` text of fractional constants is a parameter for which the round trip asks that it reads back; for integers below 2^63 nothing is asked.
- Schedulers.Scheduler.ReceiveResults: an empty list of results and no list at all are the same here; the profile manager sends neither.
- Runs.RunCallsAreSafe: the statement about existing pods is for pods only, since the k8s function calls `Run` without looking, and assumes that nobody else creates pods.
- Runs.RemovedWithinFourVisits: a deployment counts as gone when the k8s Remove returns; that Kubernetes may still list it for a while is not modelled.
- Counterexamples.MisdirectedRun: uses that the executor may report any state its mapper knows, here Unknown and then Running within one pass; with reports that follow the pods there is no such run (Runs.TruthfulResultsReachTheirJob).
- Runs.CronLaunchesAreBounded: the cron library is a parameter; the bound is for schedules whose next instant is always later.
- Jobs.CreateJob: of the retries only the constant one that the scheduler uses.
- The wording of parse and evaluation errors, and where a parse error is reported: that there is one is stated exactly, its position is carried but not described. An evaluation error has its expression and what is wrong with it.
- Workload hashing: IDs are stable values, although the hash depends on the order of a map (`internal/entity/workload.go:95-105`).
- CPU resources of running jobs (`scheduler.go:237-280`): the resource chosen by an evaluation is modelled, its application to cgroups is not, nor are the resource futures.
- Blocking of the select loop, the heartbeat branch and cancellation: safety over steps, not freedom from deadlock.
- Workload kinds without a sync function; the podman and k8s executors beyond the states they report.
- `Store.Get` and `Store.Len`, the status map of the heartbeat, logging: easy members.
- Edge controller, HTTP client and server, certificates and configuration loading.
