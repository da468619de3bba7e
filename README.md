# WAGNER scheduler, factory and workers in Dafny

This project models the job-scheduling core of WAGNER. An HTTP request
carries a JSON object. The object lists workers, each given as a worker type
with its arguments, and a schedule that says when to run them (`instant`,
after a `delay` in seconds, or at an `alarm` time). The core has three parts:

- `Scheduler.__init__` parses and validates the request. It builds every
  worker through `WorkerFactory.build`.
- `WorkerFactory` resolves a `WORKER_ID` against the registered worker
  classes. It constructs and validates the worker, and it calls the
  class-level setup and teardown hooks.
- `Scheduler.run`, the supervisor, runs in a fixed order: it sets up every
  worker, waits as the mode says, starts a thread per worker, then joins and
  tears down each worker in turn.

The model is organised in modules:

- `Base` holds the `Option` and `Result` types.
- `Json` holds the decoded request value. It also states the Python
  semantics the code relies on:
  - `dict.get` with a default; JSON `null` and `None` are the same value;
  - `isinstance(x, (int, float))`, which also accepts `True` and `False`;
  - the `in` operator on a dict, a list and a string;
  - hashability, for the `MODE_MAP.get` lookup.
- `Errors` gives the exceptions that can leave the core as one datatype:
  `SchedulerError`, `FactoryError` and `WorkerError`, each with a structured
  reason, plus the Python `AttributeError` and `TypeError` that the code lets
  escape.
- `Workers` models `src/worker/__init__.py`:
  - a `Worker` class with its `args` and its mutable thread handle;
  - `start`, `join` and the default hooks;
  - `PrintWorker.validate`.
- `Factory` models `src/worker/factory.py`. The registered classes
  (`Worker.__subclasses__()`) form an ordered registry given as a parameter.
- `Scheduling` models `src/scheduler/scheduler.py`:
  - the request parser, as pure functions;
  - an encoder that serves as the parser's round-trip partner;
  - the parsing loop as written in the code (see Findings);
  - the `Scheduler` class, whose methods do what `__init__` and `run` do.

The supervisor's behaviour is a log of the calls it makes (`Setup(i)`,
`Sleep(s)`, `WaitUntil(t)`, `Start(i)`, `Join(i)`, `Teardown(i)`). `Run` is
proved to produce the log given by `Trace`. Lemmas then prove what that log
promises: its order, which calls it contains, and the pairing of each join
with its teardown.

The model follows the code, including where it is lenient:

- An empty `workers` list is accepted (`EmptyWorkersAccepted`).
- A negative `delay` is accepted (`ScheduleRoundTrip`). A boolean `delay` is accepted and acts as 1 or 0 seconds (`LenientSchedules`, from the acceptance clause of `ParseSchedule`).
- The `async` flag is only checked to be a bool and then dropped. Every worker
  is started on its own thread; none runs inline on the supervisor.
- The factory is called by the scheduler with a different arity than it
  declares (see Findings).

## Model

| member | source | states |
|---|---|---|
| Json.Numeric | src/scheduler/scheduler.py:89 | a value passes the numeric check exactly when it is a number or a bool; a number passes as itself, `true` as 1 and `false` as 0 |
| Workers.StartStep | src/worker/__init__.py:53-62 | `start()` succeeds exactly when the thread was not already started and the runtime can spawn; every failure is WorkerError; a handle always exists afterwards |
| Workers.Worker.constructor | src/worker/__init__.py:21-33 | a new worker keeps its args and has no thread |
| Workers.Worker.Setup | src/worker/__init__.py:45-47 | the default setup hook changes nothing |
| Workers.Worker.Teardown | src/worker/__init__.py:49-51 | the default teardown hook changes nothing |
| Workers.Worker.Start | src/worker/__init__.py:53-62 | the new handle and the outcome are those of `StartStep` on the old handle |
| Workers.Worker.Join | src/worker/__init__.py:64-80 | the caller waits exactly when the thread was started; join fails, with WorkerError, exactly when a thread exists but was never started; with no thread it only warns |
| Workers.PrintValidate | src/worker/__init__.py:91-94 | on a dict, validation passes exactly when "message" is a key; failures are WorkerError or, for a null, number or bool, TypeError |
| Factory.LastMatch | src/worker/factory.py:55-59 | the scan finds the last registered class with that id, or reports that none has it |
| Factory.BuildResult | src/worker/factory.py:40-70 | a built worker is of the last matching class and passed validation; an unknown id raises FactoryError naming it |
| Factory.BuildDecidedByValidation | src/worker/factory.py:64-68 | once the class is found, the worker is returned exactly when its validation passes; otherwise a WorkerError comes out wrapped as FactoryError and any other exception unchanged |
| Factory.Build | src/worker/factory.py:40-70 | the method's loop returns a new worker with no thread, of the class and args `BuildResult` gives, or the same error |
| Factory.Setup | src/worker/factory.py:16-25 | the setup hook of every registered class is called once, in registry order |
| Factory.Teardown | src/worker/factory.py:28-37 | the teardown hook of every registered class is called once, in registry order |
| Factory.DefaultRegistryBuild | src/worker/__init__.py:82-94 | with PrintWorker the only class, "print" with a "message" argument builds, "print" without one fails validation, and any other id is unknown |
| Scheduling.WorkersField | src/scheduler/scheduler.py:43-49 | the request is accepted exactly when `workers` is present and a list; otherwise AttributeError (not a dict), missing, or not a list |
| Scheduling.EntryFields | src/scheduler/scheduler.py:52-59 | an entry passes exactly when it is a dict with a non-null `type` and, if present, a bool `async`; `args` defaults to an empty dict |
| Scheduling.ParseEntry | src/scheduler/scheduler.py:51-66 | a parsed entry names the last registered class with its type, and its args pass that class's validation |
| Scheduling.ParseWorkers | src/scheduler/scheduler.py:51-66 | the loop succeeds exactly when every entry does, and then yields each entry's worker in request order |
| Scheduling.FirstFailureDecides | src/scheduler/scheduler.py:51-66 | the first failing entry decides the error, whatever follows it |
| Scheduling.AllEntriesParse | src/scheduler/scheduler.py:51-66 | when every entry parses, the loop yields exactly their results |
| Scheduling.ParseSchedule | src/scheduler/scheduler.py:68-104 | a schedule is accepted exactly when it is absent, or is a dict whose mode is a MODE_MAP key, with a numeric delay in delay mode and a parseable time string in alarm mode; each missing, unhashable, unrecognised or ill-typed field raises its own error; on success the mode comes from MODE_MAP, the delay is the numeric value given and the alarm is the parsed time |
| Scheduling.LenientSchedules | src/scheduler/scheduler.py:84-92 | a bool delay is accepted as 1 or 0 seconds, and a key the mode does not use is ignored |
| Scheduling.ParseRequest | src/scheduler/scheduler.py:32-104 | a parsed request has one worker per entry and a time that fits its mode; a bad `workers` field decides the error |
| Scheduling.WorkerErrorsComeFirst | src/scheduler/scheduler.py:42-71 | a bad worker entry decides the error whatever the schedule says |
| Scheduling.EmptyWorkersAccepted | src/scheduler/scheduler.py:44-51 | an empty worker list with a good schedule is accepted with no worker |
| Scheduling.ScheduleRoundTrip | src/scheduler/scheduler.py:68-104 | every mode and fitting time, negative delays included, parse back from their encoding |
| Scheduling.WorkersRoundTrip | src/scheduler/scheduler.py:51-66 | encoded entries whose types resolve and whose args validate parse back, in order, each with its own args |
| Scheduling.AsWrittenBuildsNoWorker | src/scheduler/scheduler.py:62 | as written, only an empty worker list can succeed, and every request with a worker that the corrected parser accepts fails with TypeError |
| Scheduling.ParseEntryAsWritten | src/scheduler/scheduler.py:52-64 | as written, an entry never builds: it fails its own checks, or the call to `build` raises TypeError |
| Scheduling.ParseWorkersAsWritten | src/scheduler/scheduler.py:51-66 | as written, the worker loop gets through exactly the empty list, and otherwise fails as its first entry does |
| Scheduling.ParseRequestAsWritten | src/scheduler/scheduler.py:32-104 | as written, a bad `workers` field or the first entry decides the error; a request is accepted only with no worker, and then exactly when its schedule is |
| Scheduling.PrintRequestExample | src/scheduler/scheduler.py:61-64 | one print worker with a message is accepted in instant mode when the factory is called as declared, and rejected with TypeError as written |
| Scheduling.WaitPhase | src/scheduler/scheduler.py:112-120 | instant waits not at all, alarm waits for its time, and delay sleeps for what is left after setup, or not at all when the delay has already passed |
| Scheduling.DrainPhaseShape | src/scheduler/scheduler.py:127-129 | the drain joins then tears down each worker, in order |
| Scheduling.TraceOrdered | src/scheduler/scheduler.py:106-129 | the log is strictly ordered: setups in worker order, then the wait, then starts in worker order, then join and teardown per worker; no call occurs twice |
| Scheduling.RunLogOrdered | src/scheduler/scheduler.py:106-129 | whatever the mode, the clock readings and the number of successful starts, the log of `run` is ordered |
| Scheduling.TraceAt | src/scheduler/scheduler.py:106-129 | the length of the log and the event at each of its positions |
| Scheduling.TraceCallsAtMost | src/scheduler/scheduler.py:123-129 | no start after the first failing one, and no join or teardown unless every start succeeded |
| Scheduling.TraceCallsAtLeast | src/scheduler/scheduler.py:106-129 | every setup, every start up to the first failing one and, when all started, every join and teardown are in the log |
| Scheduling.TraceCalls | src/scheduler/scheduler.py:106-129 | which calls the log holds, as if-and-only-if statements per worker |
| Scheduling.JoinThenTeardown | src/scheduler/scheduler.py:127-129 | every join is directly followed by the teardown of the same worker |
| Scheduling.LeadingStarts | src/scheduler/scheduler.py:123-124 | the workers before the count all start, and the one at the count, if any, fails to start |
| Scheduling.FreshWorkersAllStart | src/scheduler/scheduler.py:123-124 | workers fresh from construction all start when the runtime can spawn every thread |
| Scheduling.Scheduler.constructor | src/scheduler/scheduler.py:43-104 | a scheduler holds the given distinct workers, mode and fitting time, and is valid |
| Scheduling.Scheduler.BuildEntry | src/scheduler/scheduler.py:51-66 | one iteration builds a new worker, with no thread, from what `ParseEntry` gives, or fails with its error |
| Scheduling.Scheduler.BuildWorkers | src/scheduler/scheduler.py:51-66 | the loop yields distinct new workers with no thread that realise `ParseWorkers`, or its error |
| Scheduling.Scheduler.Create | src/scheduler/scheduler.py:32-104 | construction succeeds exactly when `ParseRequest` does, with its error otherwise; the new scheduler is valid and holds the parsed plan with new, distinct, thread-less workers |
| Scheduling.Scheduler.SetupAll | src/scheduler/scheduler.py:108-110 | every worker's setup is called, in order |
| Scheduling.Scheduler.StartAll | src/scheduler/scheduler.py:123-124 | the workers start in order until one fails; the failure is WorkerError and ends the loop; every handle is as `StartStep` makes it |
| Scheduling.Scheduler.DrainAll | src/scheduler/scheduler.py:127-129 | once all threads are started, each worker is joined without error and then torn down, in order |
| Scheduling.Scheduler.Run | src/scheduler/scheduler.py:106-129 | the supervisor's log is `Trace` over the wait `WaitPhase` gives and the count of leading starts, and is ordered; it succeeds exactly when every worker starts, and otherwise raises WorkerError |

## Left out

- Threads, clocks and sleeping are not run. The clock readings before and after setup are parameters of `Run`, and whether the runtime can spawn each worker's thread is a parameter. The alarm's half-second polling loop is a single `WaitUntil` event.
- The body of a worker's `run` (PrintWorker's `print`), all logging through `app.logger`, and the `print(e)` of a time that fails to parse are left out. They have no effect on the modelled state.
- `Factory.Setup`, `Factory.Teardown`, `Scheduling.Scheduler.SetupAll` and `Scheduling.Scheduler.DrainAll` assume that every registered class keeps the default no-op `setup` and `teardown` hooks. A registered class is its id and its `validate` only, so the model cannot express an overriding hook that raises. In Python, such an exception would end `WorkerFactory.setup`/`teardown` or `run` at that worker. PrintWorker does not override the hooks; the rest of the registry is arbitrary.
- `Scheduler.start` is left out. It only spawns the supervisor thread. It refers to `self.WORKER_ID`, which a Scheduler does not have, so a failing spawn would raise AttributeError instead of SchedulerError.
- MessageWorker is left out. Its `run` has no body, so `src/worker/__init__.py` does not parse as written. The model assumes the module loads, with PrintWorker as the only concrete class. It also leaves out the TypeError Python raises when an abstract class would be instantiated.
- `Worker.__subclasses__()` is a registry parameter. It lists only direct subclasses, in definition order. Instantiating a class is modelled as recording its registry position and args.
- `Worker.Join` does not model the `timeout` argument. A timed-out join only stops waiting, so it does not change the log.
- Floating-point delays are modelled as reals. Rounding in `amount - now + begin` is not modelled.
- Exception messages are replaced by structured reasons (for example `UnknownWorker(id)`), and their text is not modelled.
- `datetime.strptime` is foreign code, passed as the parameter `parseStamp`. Any exception it raises, for a non-string included, becomes the `UnparsableTime` SchedulerError, as in the code.
- `Scheduling.Scheduler.Create` allocates the Scheduler object after parsing instead of before. A failed construction leaves no object behind, so no caller can tell the difference.
- The three loops of `run` are the methods `SetupAll`, `StartAll` and `DrainAll`, which `Run` calls in sequence.
- `api.py` is not part of this model. Its `/trigger` route calls `WorkerFactory.build(app, name, args)` and `start()` directly, and its main block calls the factory's `setup` and `teardown`. No file in the repository constructs a Scheduler.
- `app.py` is not part of this model. It is a separate webhook that answers a CRC challenge with an HMAC, and it does not use the core.

## Findings

| source | as written | input that shows it | evidently intended | confidence | as-written member | corrected member |
|---|---|---|---|---|---|---|
| src/scheduler/scheduler.py:62 | `WorkerFactory.build(name, args, pid, background)` passes four arguments to `build(app, id, args)` (src/worker/factory.py:40), which takes three, so Python raises TypeError for every entry that passes its own checks | `{"workers": [{"type": "print", "args": {"message": "hi"}}]}` is rejected with TypeError | the factory is called with the worker id and its args, and builds a PrintWorker | not executed | Scheduling.AsWrittenBuildsNoWorker | Scheduling.Scheduler.Create |
