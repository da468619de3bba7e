/** Scheduler (src/scheduler/scheduler.py): turns a decoded JSON request into
    built workers plus a timing mode, and drives the workers from the
    supervisor. Threads and clocks are abstracted: the supervisor's behaviour
    is the sequence of calls it makes, as an event log. */
module Scheduling {
  import opened Base
  import opened Json
  import opened Errors
  import opened Workers
  import Factory

  /** What `datetime.strptime(s, '%m/%d/%y %H:%M:%S')` returns. The parser
      itself is foreign code and is a parameter `parseStamp` everywhere. */
  datatype Stamp = Stamp(month: nat, day: nat, year: nat, hour: nat, minute: nat, second: nat)

  /** The scheduling modes; the class constants MODE_INSTANT, MODE_DELAY and
      MODE_ALARM only tell them apart. */
  datatype Mode = Instant | Delay | Alarm

  /** MODE_MAP: the accepted spellings of `schedule.mode`. */
  const MODE_MAP: map<string, Mode> := map["instant" := Instant, "delay" := Delay, "alarm" := Alarm]

  /** The scheduler's `time` field: `None`, the delay in seconds, or the alarm time. */
  datatype Time = NoTime | Seconds(amount: real) | At(stamp: Stamp)

  /** The `time` value that goes with each mode. */
  predicate Fits(mode: Mode, time: Time)
  {
    match mode
    case Instant => time == NoTime
    case Delay => time.Seconds?
    case Alarm => time.At?
  }

  /** A built worker as the parser describes it: its class (registry position)
      and the arguments it holds. */
  datatype Built = Built(kind: nat, args: Json)

  /** A successfully parsed request. */
  datatype Plan = Plan(workers: seq<Built>, mode: Mode, time: Time)

  // ---------------------------------------------------------------------
  // Parsing the request (Scheduler.__init__)
  // ---------------------------------------------------------------------

  /** `meta.get("workers")` and its checks: present and a list. */
  function WorkersField(meta: Json): (r: Result<seq<Json>, Exc>)
    ensures r.Ok? <==> meta.Map? && "workers" in meta.fields && meta.fields["workers"].List?
    ensures r.Ok? ==> r.value == meta.fields["workers"].items
    ensures !meta.Map? ==> r == Err(AttributeError)
    ensures meta.Map? && Get(meta.fields, "workers", Null) == Null ==> r == Err(SchedulerError(MissingWorkers))
    ensures meta.Map? && Get(meta.fields, "workers", Null) != Null && !meta.fields["workers"].List? ==>
              r == Err(SchedulerError(WorkersNotList))
  {
    if !meta.Map? then Err(AttributeError)
    else
      var workers := Get(meta.fields, "workers", Null);
      if workers == Null then Err(SchedulerError(MissingWorkers))
      else if !workers.List? then Err(SchedulerError(WorkersNotList))
      else Ok(workers.items)
  }

  /** The checks on one worker entry before the factory is called; yields the
      `type` value and the `args` value. The `async` flag is checked to be a
      bool and then dropped: it never reaches the factory. */
  function EntryFields(entry: Json): (r: Result<(Json, Json), Exc>)
    ensures !entry.Map? ==> r == Err(AttributeError)
    ensures entry.Map? && Get(entry.fields, "type", Null) == Null ==> r == Err(SchedulerError(MissingType))
    ensures (entry.Map? && Get(entry.fields, "type", Null) != Null &&
             !Get(entry.fields, "async", Bool(false)).Bool?) ==> r == Err(SchedulerError(AsyncNotBool))
    ensures r.Ok? <==> entry.Map? && Get(entry.fields, "type", Null) != Null &&
                       ("async" in entry.fields ==> entry.fields["async"].Bool?)
    ensures r.Ok? ==> r.value.0 == entry.fields["type"]
    ensures r.Ok? ==> r.value.1 == if "args" in entry.fields then entry.fields["args"] else Map(map[])
  {
    if !entry.Map? then Err(AttributeError)
    else
      var name := Get(entry.fields, "type", Null);
      var background := Get(entry.fields, "async", Bool(false));
      var args := Get(entry.fields, "args", Map(map[]));
      if name == Null then Err(SchedulerError(MissingType))
      else if !background.Bool? then Err(SchedulerError(AsyncNotBool))
      else Ok((name, args))
  }

  /** The `except FactoryError` around the factory call: a FactoryError
      becomes a SchedulerError naming the worker type; anything else escapes. */
  function WrapBuild(name: Json, e: Exc): Exc
  {
    if e.FactoryError? then SchedulerError(BuildFailed(name, e.ff)) else e
  }

  /** One loop iteration of `__init__`: checks, then `build(name, args)`. */
  function ParseEntry(registry: seq<WorkerType>, entry: Json): (r: Result<Built, Exc>)
    ensures r.Ok? ==> entry.Map? && "type" in entry.fields &&
                      Factory.IsLastMatch(registry, entry.fields["type"], r.value.kind) &&
                      registry[r.value.kind].validate(r.value.args) == Pass
  {
    var (name, args) :- EntryFields(entry);
    match Factory.BuildResult(registry, name, args)
    case Ok(k) => Ok(Built(k, args))
    case Err(e) => Err(WrapBuild(name, e))
  }

  /** An entry whose own checks pass is decided by the factory alone. */
  lemma ParseEntryByParts(registry: seq<WorkerType>, entry: Json, name: Json, args: Json)
    requires EntryFields(entry) == Ok((name, args))
    ensures Factory.BuildResult(registry, name, args).Ok? ==>
              ParseEntry(registry, entry) == Ok(Built(Factory.BuildResult(registry, name, args).value, args))
    ensures Factory.BuildResult(registry, name, args).Err? ==>
              ParseEntry(registry, entry) == Err(WrapBuild(name, Factory.BuildResult(registry, name, args).error))
  {
  }

  /** The worker loop of `__init__`: all or nothing, in request order. */
  function ParseWorkers(registry: seq<WorkerType>, entries: seq<Json>): (r: Result<seq<Built>, Exc>)
    ensures r.Ok? <==> forall i :: 0 <= i < |entries| ==> ParseEntry(registry, entries[i]).Ok?
    ensures r.Ok? ==> |r.value| == |entries| &&
                      forall i :: 0 <= i < |entries| ==> r.value[i] == ParseEntry(registry, entries[i]).value
  {
    if entries == [] then Ok([])
    else
      match ParseEntry(registry, entries[0])
      case Err(e) => Err(e)
      case Ok(b) =>
        match ParseWorkers(registry, entries[1..])
        case Err(e) =>
          assert forall i :: 0 <= i < |entries| - 1 ==> entries[1..][i] == entries[i + 1];
          Err(e)
        case Ok(bs) =>
          assert forall i :: 0 < i < |entries| ==> entries[i] == entries[1..][i - 1];
          Ok([b] + bs)
  }

  /** The first entry that fails decides the error; later entries are never looked at. */
  lemma {:induction false} FirstFailureDecides(registry: seq<WorkerType>, entries: seq<Json>, i: nat)
    requires i < |entries|
    requires forall j :: 0 <= j < i ==> ParseEntry(registry, entries[j]).Ok?
    requires ParseEntry(registry, entries[i]).Err?
    ensures ParseWorkers(registry, entries) == Err(ParseEntry(registry, entries[i]).error)
  {
    if i > 0 {
      assert ParseEntry(registry, entries[0]).Ok?;
      FirstFailureDecides(registry, entries[1..], i - 1);
    }
  }

  /** When every entry parses, the loop yields exactly their results. */
  lemma AllEntriesParse(registry: seq<WorkerType>, entries: seq<Json>, built: seq<Built>)
    requires |built| == |entries|
    requires forall j :: 0 <= j < |entries| ==> ParseEntry(registry, entries[j]) == Ok(built[j])
    ensures ParseWorkers(registry, entries) == Ok(built)
  {
    var r := ParseWorkers(registry, entries);
    assert r.Ok?;
    assert r.value == built;
  }

  /** The `schedule` part of `__init__`: the mode and the `time` value. */
  function ParseSchedule(schedule: Json, parseStamp: string -> Option<Stamp>): (r: Result<(Mode, Time), Exc>)
    ensures schedule == Null ==> r == Ok((Instant, NoTime))
    ensures r.Ok? ==> Fits(r.value.0, r.value.1)
    ensures schedule.Map? && Get(schedule.fields, "mode", Null) == Null ==> r == Err(SchedulerError(MissingMode))
    ensures schedule.Map? && Get(schedule.fields, "mode", Null) != Null &&
            Hashable(schedule.fields["mode"]) &&
            !(schedule.fields["mode"].Str? && schedule.fields["mode"].s in MODE_MAP) ==>
              r == Err(SchedulerError(UnrecognizedMode(schedule.fields["mode"])))
    ensures r.Ok? && schedule != Null ==>
              schedule.Map? && "mode" in schedule.fields && schedule.fields["mode"].Str? &&
              schedule.fields["mode"].s in MODE_MAP && MODE_MAP[schedule.fields["mode"].s] == r.value.0
    ensures schedule != Null && !schedule.Map? ==> r == Err(AttributeError)
    ensures (schedule.Map? && Get(schedule.fields, "mode", Null) != Null &&
             !Hashable(schedule.fields["mode"])) ==> r == Err(TypeError)
    ensures schedule.Map? && Get(schedule.fields, "mode", Null) == Str("delay") ==>
              (Get(schedule.fields, "delay", Null) == Null ==> r == Err(SchedulerError(MissingDelay))) &&
              (Get(schedule.fields, "delay", Null) != Null && Numeric(schedule.fields["delay"]).None? ==>
                 r == Err(SchedulerError(DelayNotNumber)))
    ensures schedule.Map? && Get(schedule.fields, "mode", Null) == Str("alarm") ==>
              (Get(schedule.fields, "time", Null) == Null ==> r == Err(SchedulerError(MissingTime))) &&
              (Get(schedule.fields, "time", Null) != Null &&
               (!schedule.fields["time"].Str? || parseStamp(schedule.fields["time"].s).None?) ==>
                 r == Err(SchedulerError(UnparsableTime(schedule.fields["time"]))))
    ensures r.Ok? <==>
              schedule == Null ||
              (schedule.Map? && "mode" in schedule.fields && schedule.fields["mode"].Str? &&
               schedule.fields["mode"].s in MODE_MAP &&
               (schedule.fields["mode"].s == "delay" ==> Numeric(Get(schedule.fields, "delay", Null)).Some?) &&
               (schedule.fields["mode"].s == "alarm" ==>
                  Get(schedule.fields, "time", Null).Str? && parseStamp(schedule.fields["time"].s).Some?))
    ensures r.Ok? && r.value.0 == Delay ==>
              Numeric(Get(schedule.fields, "delay", Null)) == Some(r.value.1.amount)
    ensures r.Ok? && r.value.0 == Alarm ==>
              Get(schedule.fields, "time", Null).Str? &&
              parseStamp(schedule.fields["time"].s) == Some(r.value.1.stamp)
  {
    if schedule == Null then Ok((Instant, NoTime))
    else if !schedule.Map? then Err(AttributeError)
    else
      var mode := Get(schedule.fields, "mode", Null);
      if mode == Null then Err(SchedulerError(MissingMode))
      else if !Hashable(mode) then Err(TypeError)
      else if !(mode.Str? && mode.s in MODE_MAP) then Err(SchedulerError(UnrecognizedMode(mode)))
      else
        match MODE_MAP[mode.s]
        case Instant => Ok((Instant, NoTime))
        case Delay =>
          var delay := Get(schedule.fields, "delay", Null);
          if delay == Null then Err(SchedulerError(MissingDelay))
          else if Numeric(delay).None? then Err(SchedulerError(DelayNotNumber))
          else Ok((Delay, Seconds(Numeric(delay).value)))
        case Alarm =>
          var time := Get(schedule.fields, "time", Null);
          if time == Null then Err(SchedulerError(MissingTime))
          else if !time.Str? || parseStamp(time.s).None? then Err(SchedulerError(UnparsableTime(time)))
          else Ok((Alarm, At(parseStamp(time.s).value)))
  }

  /** A bool delay passes the `isinstance(delay, (int, float))` check and
      acts as 1 or 0 seconds; keys the mode does not use are ignored. */
  lemma LenientSchedules(b: bool, extra: Json, parseStamp: string -> Option<Stamp>)
    ensures ParseSchedule(Map(map["mode" := Str("delay"), "delay" := Bool(b)]), parseStamp) ==
            Ok((Delay, Seconds(if b then 1.0 else 0.0)))
    ensures ParseSchedule(Map(map["mode" := Str("instant"), "delay" := extra]), parseStamp) == Ok((Instant, NoTime))
  {
    var d := Map(map["mode" := Str("delay"), "delay" := Bool(b)]);
    assert d.fields["mode"] == Str("delay");
    var i := Map(map["mode" := Str("instant"), "delay" := extra]);
    assert i.fields["mode"] == Str("instant");
  }

  /** `Scheduler.__init__` as a whole, with the factory called as `build(name, args)`. */
  function ParseRequest(meta: Json, registry: seq<WorkerType>, parseStamp: string -> Option<Stamp>): (r: Result<Plan, Exc>)
    ensures r.Ok? ==> Fits(r.value.mode, r.value.time)
    ensures r.Ok? ==> WorkersField(meta).Ok? && |r.value.workers| == |WorkersField(meta).value|
    ensures WorkersField(meta).Err? ==> r == Err(WorkersField(meta).error)
  {
    var entries :- WorkersField(meta);
    var built :- ParseWorkers(registry, entries);
    var (mode, time) :- ParseSchedule(Get(meta.fields, "schedule", Null), parseStamp);
    Ok(Plan(built, mode, time))
  }

  /** Workers are parsed before the schedule: a bad worker entry decides the
      error whatever the schedule says. */
  lemma WorkerErrorsComeFirst(meta: Json, registry: seq<WorkerType>, parseStamp: string -> Option<Stamp>)
    requires WorkersField(meta).Ok?
    requires ParseWorkers(registry, WorkersField(meta).value).Err?
    ensures ParseRequest(meta, registry, parseStamp) == Err(ParseWorkers(registry, WorkersField(meta).value).error)
  {
  }

  /** An empty `workers` list is not rejected: the request then builds no worker. */
  lemma EmptyWorkersAccepted(meta: Json, registry: seq<WorkerType>, parseStamp: string -> Option<Stamp>)
    requires WorkersField(meta) == Ok([])
    requires ParseSchedule(Get(meta.fields, "schedule", Null), parseStamp).Ok?
    ensures ParseRequest(meta, registry, parseStamp).Ok?
    ensures ParseRequest(meta, registry, parseStamp).value.workers == []
  {
  }

  // ---------------------------------------------------------------------
  // A request encoder, the partner of the parser
  // ---------------------------------------------------------------------

  /** `{"type": id, "args": args}`. */
  function EncodeEntry(id: string, args: Json): Json
  {
    Map(map["type" := Str(id), "args" := args])
  }

  /** A `schedule` object for a mode and its time; `format` renders an alarm time. */
  function EncodeSchedule(mode: Mode, time: Time, format: Stamp -> string): Json
    requires Fits(mode, time)
  {
    match mode
    case Instant => Map(map["mode" := Str("instant")])
    case Delay => Map(map["mode" := Str("delay"), "delay" := Num(time.amount)])
    case Alarm => Map(map["mode" := Str("alarm"), "time" := Str(format(time.stamp))])
  }

  /** Every mode and time survive encoding and parsing, including a negative
      delay: the delay's sign is never checked. */
  lemma ScheduleRoundTrip(mode: Mode, time: Time, format: Stamp -> string, parseStamp: string -> Option<Stamp>)
    requires Fits(mode, time)
    requires time.At? ==> parseStamp(format(time.stamp)) == Some(time.stamp)
    ensures ParseSchedule(EncodeSchedule(mode, time, format), parseStamp) == Ok((mode, time))
  {
    var s := EncodeSchedule(mode, time, format);
    assert s.fields["mode"] == Str(match mode case Instant => "instant" case Delay => "delay" case Alarm => "alarm");
  }

  /** Encoding a list of (type, args) pairs as worker entries. */
  function EncodeEntries(ws: seq<(string, Json)>): (r: seq<Json>)
    ensures |r| == |ws|
    ensures forall i :: 0 <= i < |ws| ==> r[i] == EncodeEntry(ws[i].0, ws[i].1)
  {
    if ws == [] then [] else [EncodeEntry(ws[0].0, ws[0].1)] + EncodeEntries(ws[1..])
  }

  /** Worker entries whose types resolve and whose arguments validate are all
      built, one per entry and in request order, each holding its own args. */
  lemma WorkersRoundTrip(registry: seq<WorkerType>, ws: seq<(string, Json)>)
    requires forall i :: 0 <= i < |ws| ==> Factory.BuildResult(registry, Str(ws[i].0), ws[i].1).Ok?
    ensures var r := ParseWorkers(registry, EncodeEntries(ws));
            r.Ok? && |r.value| == |ws| &&
            forall i :: 0 <= i < |ws| ==>
              r.value[i] == Built(Factory.BuildResult(registry, Str(ws[i].0), ws[i].1).value, ws[i].1)
  {
    var es := EncodeEntries(ws);
    forall i | 0 <= i < |ws|
      ensures ParseEntry(registry, es[i]) == Ok(Built(Factory.BuildResult(registry, Str(ws[i].0), ws[i].1).value, ws[i].1))
    {
      assert es[i].fields["type"] == Str(ws[i].0);
      assert EntryFields(es[i]) == Ok((Str(ws[i].0), ws[i].1));
    }
  }

  // ---------------------------------------------------------------------
  // The call as written: build(name, args, pid, background)
  // ---------------------------------------------------------------------

  /** One entry as the code is written: `WorkerFactory.build` is called with
      four arguments but takes three, so once an entry passes its own checks
      the call raises TypeError before the factory does anything. */
  function ParseEntryAsWritten(entry: Json): (r: Result<Built, Exc>)
    ensures r.Err?
    ensures EntryFields(entry).Err? ==> r.error == EntryFields(entry).error
    ensures EntryFields(entry).Ok? ==> r.error == TypeError
  {
    var _ :- EntryFields(entry);
    Err(TypeError)
  }

  /** The worker loop as written: it gets through only an empty list, and
      otherwise fails as its first entry does. */
  function ParseWorkersAsWritten(entries: seq<Json>): (r: Result<seq<Built>, Exc>)
    ensures r.Ok? <==> entries == []
    ensures r.Ok? ==> r.value == []
    ensures entries != [] ==> r == Err(ParseEntryAsWritten(entries[0]).error)
  {
    if entries == [] then Ok([])
    else
      match ParseEntryAsWritten(entries[0])
      case Err(e) => Err(e)
      case Ok(_) =>
        // no entry gets past the call, so the loop never reaches a second one
        assert false; Ok([])
  }

  /** `Scheduler.__init__` as written: the same checks in the same order,
      but a request is accepted only with no worker at all. */
  function ParseRequestAsWritten(meta: Json, parseStamp: string -> Option<Stamp>): (r: Result<Plan, Exc>)
    ensures WorkersField(meta).Err? ==> r == Err(WorkersField(meta).error)
    ensures WorkersField(meta).Ok? && WorkersField(meta).value != [] ==>
              r == Err(ParseEntryAsWritten(WorkersField(meta).value[0]).error)
    ensures r.Ok? ==> WorkersField(meta) == Ok([]) && r.value.workers == [] && Fits(r.value.mode, r.value.time)
    ensures WorkersField(meta) == Ok([]) ==>
              (r.Ok? <==> ParseSchedule(Get(meta.fields, "schedule", Null), parseStamp).Ok?)
  {
    var entries :- WorkersField(meta);
    var built :- ParseWorkersAsWritten(entries);
    var (mode, time) :- ParseSchedule(Get(meta.fields, "schedule", Null), parseStamp);
    Ok(Plan(built, mode, time))
  }

  /** As written, only a request with an empty worker list can succeed, and
      every request the corrected parser accepts with at least one worker is
      rejected with TypeError. */
  lemma AsWrittenBuildsNoWorker(meta: Json, registry: seq<WorkerType>, parseStamp: string -> Option<Stamp>)
    ensures ParseRequestAsWritten(meta, parseStamp).Ok? ==> WorkersField(meta) == Ok([])
    ensures ParseRequest(meta, registry, parseStamp).Ok? && ParseRequest(meta, registry, parseStamp).value.workers != [] ==>
              ParseRequestAsWritten(meta, parseStamp) == Err(TypeError)
  {
    if WorkersField(meta).Ok? && WorkersField(meta).value != [] {
      var entries := WorkersField(meta).value;
      if ParseRequest(meta, registry, parseStamp).Ok? {
        assert ParseEntry(registry, entries[0]).Ok?;
      }
    }
  }

  /** The request `{"workers": [{"type": "print", "args": {"message": "hi"}}]}`:
      accepted in Instant mode with one PrintWorker when the factory is called
      as `build(name, args)`, rejected with TypeError as the code is written. */
  lemma PrintRequestExample(parseStamp: string -> Option<Stamp>)
    ensures var meta := Map(map["workers" := List([EncodeEntry("print", Map(map["message" := Str("hi")]))])]);
            ParseRequest(meta, Factory.DefaultRegistry, parseStamp) ==
              Ok(Plan([Built(0, Map(map["message" := Str("hi")]))], Instant, NoTime)) &&
            ParseRequestAsWritten(meta, parseStamp) == Err(TypeError)
  {
    var args := Map(map["message" := Str("hi")]);
    var meta := Map(map["workers" := List([EncodeEntry("print", args)])]);
    Factory.DefaultRegistryBuild(Str(PRINT_ID), args.fields);
    assert "message" in args.fields;
    assert Factory.BuildResult(Factory.DefaultRegistry, Str("print"), args) == Ok(0);
    WorkersRoundTrip(Factory.DefaultRegistry, [("print", args)]);
    assert WorkersField(meta) == Ok([EncodeEntry("print", args)]);
    assert EncodeEntries([("print", args)]) == [EncodeEntry("print", args)];
    var pw := ParseWorkers(Factory.DefaultRegistry, [EncodeEntry("print", args)]);
    assert pw.Ok? && |pw.value| == 1;
    assert pw.value == [Built(0, args)];
    assert ParseWorkers(Factory.DefaultRegistry, [EncodeEntry("print", args)]) == Ok([Built(0, args)]);
    assert Get(meta.fields, "schedule", Null) == Null;
    assert ParseRequest(meta, Factory.DefaultRegistry, parseStamp) == Ok(Plan([Built(0, args)], Instant, NoTime));
    assert ParseEntryAsWritten(EncodeEntry("print", args)) == Err(TypeError);
  }

  // ---------------------------------------------------------------------
  // The supervisor (Scheduler.run) as an event log
  // ---------------------------------------------------------------------

  /** One step of the supervisor, naming workers by their position. */
  datatype Event =
    | Setup(worker: nat)
    | Sleep(seconds: real)
    | WaitUntil(stamp: Stamp)
    | Start(worker: nat)
    | Join(worker: nat)
    | Teardown(worker: nat)

  /** The wait between the setup and the start phases. `begin` is the clock
      reading before setup and `now` the one after it: in Delay mode the time
      spent in setup is debited from the delay. The Alarm poll loop is one
      event. */
  function WaitPhase(mode: Mode, time: Time, begin: real, now: real): (w: seq<Event>)
    requires Fits(mode, time)
    ensures mode == Instant ==> w == []
    ensures mode == Alarm ==> w == [WaitUntil(time.stamp)]
    ensures mode == Delay ==> (w == [] <==> now - begin >= time.amount)
    ensures mode == Delay && w != [] ==>
              w == [Sleep(time.amount - (now - begin))] && time.amount - (now - begin) > 0.0
  {
    match mode
    case Instant => []
    case Delay =>
      var left := time.amount - now + begin;
      if left > 0.0 then [Sleep(left)] else []
    case Alarm => [WaitUntil(time.stamp)]
  }

  function SetupPhase(n: nat): seq<Event>
  {
    seq(n, (i: nat) => Setup(i))
  }

  function StartPhase(n: nat): seq<Event>
  {
    seq(n, (i: nat) => Start(i))
  }

  lemma StartPhaseGrows(n: nat)
    ensures StartPhase(n + 1) == StartPhase(n) + [Start(n)]
  {
  }

  lemma SetupPhaseGrows(n: nat)
    ensures SetupPhase(n + 1) == SetupPhase(n) + [Setup(n)]
  {
  }

  /** Join then teardown, worker by worker. */
  function DrainPhase(n: nat): seq<Event>
  {
    if n == 0 then [] else DrainPhase(n - 1) + [Join(n - 1), Teardown(n - 1)]
  }

  /** The whole log of `run` over `n` workers when the first `started` starts
      succeed: if one fails, its exception ends the supervisor right there. */
  function Trace(n: nat, wait: seq<Event>, started: nat): seq<Event>
    requires started <= n
  {
    SetupPhase(n) + wait + StartPhase(if started < n then started + 1 else n) +
    if started < n then [] else DrainPhase(n)
  }

  /** The phase an event belongs to: setup, wait, start, then join/teardown. */
  function Phase(e: Event): nat
  {
    match e
    case Setup(_) => 0
    case Sleep(_) => 1
    case WaitUntil(_) => 1
    case Start(_) => 2
    case Join(_) => 3
    case Teardown(_) => 3
  }

  /** The place of an event within its phase: worker order, and within the
      last phase join before teardown. */
  function Slot(e: Event): nat
  {
    match e
    case Setup(i) => i
    case Start(i) => i
    case Join(i) => 2 * i
    case Teardown(i) => 2 * i + 1
    case _ => 0
  }

  /** `a` comes strictly before `b` in the supervisor's order. */
  predicate Precedes(a: Event, b: Event)
  {
    Phase(a) < Phase(b) || (Phase(a) == Phase(b) && Slot(a) < Slot(b))
  }

  /** Every event of `t` strictly precedes every later one. */
  predicate Ordered(t: seq<Event>)
  {
    forall p, q :: 0 <= p < q < |t| ==> Precedes(t[p], t[q])
  }

  lemma {:induction false} DrainPhaseShape(n: nat)
    ensures |DrainPhase(n)| == 2 * n
    ensures forall p :: 0 <= p < 2 * n ==>
              DrainPhase(n)[p] == if p % 2 == 0 then Join(p / 2) else Teardown(p / 2)
  {
    if n > 0 {
      DrainPhaseShape(n - 1);
    }
  }

  lemma OrderedConcat(a: seq<Event>, b: seq<Event>)
    requires Ordered(a) && Ordered(b)
    requires forall i, j :: 0 <= i < |a| && 0 <= j < |b| ==> Precedes(a[i], b[j])
    ensures Ordered(a + b)
  {
    forall p, q | 0 <= p < q < |a + b|
      ensures Precedes((a + b)[p], (a + b)[q])
    {
      if q < |a| {
      } else if p >= |a| {
        assert (a + b)[p] == b[p - |a|] && (a + b)[q] == b[q - |a|];
      } else {
        assert (a + b)[p] == a[p] && (a + b)[q] == b[q - |a|];
      }
    }
  }

  /** The wait phase is at most one event, of the wait kind. */
  lemma WaitPhaseIsWait(mode: Mode, time: Time, begin: real, now: real)
    requires Fits(mode, time)
    ensures var w := WaitPhase(mode, time, begin, now);
            |w| <= 1 && forall i :: 0 <= i < |w| ==> Phase(w[i]) == 1
  {
  }

  /** The supervisor's log is in order: all setups (workers in order), then
      the wait, then the starts (in order), then join and teardown of each
      worker in turn; so no event occurs twice. */
  lemma TraceOrdered(n: nat, wait: seq<Event>, started: nat)
    requires started <= n
    requires |wait| <= 1 && forall i :: 0 <= i < |wait| ==> Phase(wait[i]) == 1
    ensures Ordered(Trace(n, wait, started))
  {
    var m := if started < n then started + 1 else n;
    var drain := if started < n then [] else DrainPhase(n);
    DrainPhaseOrdered(n);
    var tail := StartPhase(m) + drain;
    OrderedConcat(StartPhase(m), drain);
    PhaseAtLeast(StartPhase(m), drain, 2);
    OrderedConcat(wait, tail);
    var rest := wait + tail;
    PhaseAtLeast(wait, tail, 1);
    OrderedConcat(SetupPhase(n), rest);
    assert Trace(n, wait, started) == SetupPhase(n) + rest;
  }

  lemma DrainPhaseOrdered(n: nat)
    ensures Ordered(DrainPhase(n))
    ensures forall p :: 0 <= p < |DrainPhase(n)| ==> Phase(DrainPhase(n)[p]) == 3
  {
    DrainPhaseShape(n);
    forall p | 0 <= p < |DrainPhase(n)| ensures Slot(DrainPhase(n)[p]) == p && Phase(DrainPhase(n)[p]) == 3 {
    }
  }

  /** Concatenation keeps a lower bound on the phases of its parts. */
  lemma PhaseAtLeast(a: seq<Event>, b: seq<Event>, k: nat)
    requires forall i :: 0 <= i < |a| ==> Phase(a[i]) >= k
    requires forall i :: 0 <= i < |b| ==> Phase(b[i]) >= k
    ensures forall i :: 0 <= i < |a + b| ==> Phase((a + b)[i]) >= k
  {
    forall i | 0 <= i < |a + b| ensures Phase((a + b)[i]) >= k {
      if i >= |a| {
        assert (a + b)[i] == b[i - |a|];
      }
    }
  }

  /** The log of `run` is ordered whatever the mode, the clock readings and
      the number of successful starts. */
  lemma RunLogOrdered(n: nat, mode: Mode, time: Time, begin: real, now: real, started: nat)
    requires Fits(mode, time) && started <= n
    ensures Ordered(Trace(n, WaitPhase(mode, time, begin, now), started))
  {
    WaitPhaseIsWait(mode, time, begin, now);
    TraceOrdered(n, WaitPhase(mode, time, begin, now), started);
  }

  /** The event at each position of the log. */
  lemma TraceAt(n: nat, wait: seq<Event>, started: nat, p: nat)
    requires started <= n
    ensures var starts := if started < n then started + 1 else n;
            var drains := if started < n then 0 else 2 * n;
            |Trace(n, wait, started)| == n + |wait| + starts + drains
    ensures var t := Trace(n, wait, started);
            var starts := if started < n then started + 1 else n;
            p < |t| ==>
              (p < n ==> t[p] == Setup(p)) &&
              (n <= p < n + |wait| ==> t[p] == wait[p - n]) &&
              (n + |wait| <= p < n + |wait| + starts ==> t[p] == Start(p - n - |wait|)) &&
              (n + |wait| + starts <= p ==>
                 started == n &&
                 t[p] == if (p - 2 * n - |wait|) % 2 == 0 then Join((p - 2 * n - |wait|) / 2)
                         else Teardown((p - 2 * n - |wait|) / 2))
  {
    var starts := if started < n then started + 1 else n;
    var drain := if started < n then [] else DrainPhase(n);
    DrainPhaseShape(n);
    assert Trace(n, wait, started) == SetupPhase(n) + wait + StartPhase(starts) + drain;
  }

  /** No start after the first failing one, and no join or teardown unless
      every start succeeded. */
  lemma TraceCallsAtMost(n: nat, wait: seq<Event>, started: nat)
    requires started <= n
    requires forall i :: 0 <= i < |wait| ==> Phase(wait[i]) == 1
    ensures var t := Trace(n, wait, started);
            forall p :: 0 <= p < |t| ==>
              (t[p].Start? ==> t[p].worker <= started) &&
              (t[p].Join? || t[p].Teardown? ==> started == n)
  {
    var t := Trace(n, wait, started);
    forall p | 0 <= p < |t|
      ensures t[p].Start? ==> t[p].worker <= started
      ensures t[p].Join? || t[p].Teardown? ==> started == n
    {
      TraceAt(n, wait, started, p);
    }
  }

  /** Every setup, every start up to the first failing one, and, when every
      start succeeded, every join and teardown. */
  lemma TraceCallsAtLeast(n: nat, wait: seq<Event>, started: nat)
    requires started <= n
    ensures var t := Trace(n, wait, started);
            forall i :: 0 <= i < n ==>
              Setup(i) in t &&
              (i <= started ==> Start(i) in t) &&
              (started == n ==> Join(i) in t && Teardown(i) in t)
  {
    var t := Trace(n, wait, started);
    forall i | 0 <= i < n
      ensures Setup(i) in t
      ensures i <= started ==> Start(i) in t
      ensures started == n ==> Join(i) in t && Teardown(i) in t
    {
      SetupInTrace(n, wait, started, i);
      if i <= started {
        StartInTrace(n, wait, started, i);
      }
      if started == n {
        DrainInTrace(n, wait, i);
      }
    }
  }

  lemma SetupInTrace(n: nat, wait: seq<Event>, started: nat, i: nat)
    requires started <= n && i < n
    ensures Setup(i) in Trace(n, wait, started)
  {
    TraceAt(n, wait, started, i);
    assert Trace(n, wait, started)[i] == Setup(i);
  }

  lemma StartInTrace(n: nat, wait: seq<Event>, started: nat, i: nat)
    requires started <= n && i < n && i <= started
    ensures Start(i) in Trace(n, wait, started)
  {
    var p := n + |wait| + i;
    TraceAt(n, wait, started, p);
    assert Trace(n, wait, started)[p] == Start(i);
  }

  lemma DrainInTrace(n: nat, wait: seq<Event>, i: nat)
    requires i < n
    ensures Join(i) in Trace(n, wait, n) && Teardown(i) in Trace(n, wait, n)
  {
    var p := 2 * n + |wait| + 2 * i;
    TraceAt(n, wait, n, p);
    TraceAt(n, wait, n, p + 1);
    assert Trace(n, wait, n)[p] == Join(i);
    assert Trace(n, wait, n)[p + 1] == Teardown(i);
  }

  /** Which calls the log holds: every setup; the starts up to and including
      the first failing one; and join and teardown of every worker only when
      every start succeeded. */
  lemma TraceCalls(n: nat, wait: seq<Event>, started: nat)
    requires started <= n
    requires forall i :: 0 <= i < |wait| ==> Phase(wait[i]) == 1
    ensures var t := Trace(n, wait, started);
            (forall i :: 0 <= i < n ==> Setup(i) in t) &&
            (forall i :: 0 <= i < n ==> (Start(i) in t <==> i <= started)) &&
            (forall i :: 0 <= i < n ==> (Join(i) in t <==> started == n)) &&
            (forall i :: 0 <= i < n ==> (Teardown(i) in t <==> started == n))
  {
    TraceCallsAtMost(n, wait, started);
    TraceCallsAtLeast(n, wait, started);
  }

  /** In the log, every join is directly followed by the teardown of the same worker. */
  lemma JoinThenTeardown(n: nat, wait: seq<Event>, started: nat)
    requires started <= n
    requires forall i :: 0 <= i < |wait| ==> Phase(wait[i]) == 1
    ensures var t := Trace(n, wait, started);
            forall p :: 0 <= p < |t| && t[p].Join? ==> p + 1 < |t| && t[p + 1] == Teardown(t[p].worker)
  {
    var t := Trace(n, wait, started);
    forall p | 0 <= p < |t| && t[p].Join?
      ensures p + 1 < |t| && t[p + 1] == Teardown(t[p].worker)
    {
      TraceAt(n, wait, started, p);
      TraceAt(n, wait, started, p + 1);
    }
  }

  /** A scheduler fresh from construction, where every thread can be spawned,
      starts every worker. */
  lemma FreshWorkersAllStart(hs: seq<Handle>, spawns: nat -> bool)
    requires forall i :: 0 <= i < |hs| ==> hs[i] == NoThread && spawns(i)
    ensures LeadingStarts(hs, spawns, 0) == |hs|
  {
  }

  /** The number of leading workers, from position `from` on, whose `start()`
      succeeds, given their handles and whether the runtime can spawn a thread. */
  function LeadingStarts(hs: seq<Handle>, spawns: nat -> bool, from: nat): (k: nat)
    requires from <= |hs|
    decreases |hs| - from
    ensures from <= k <= |hs|
    ensures forall j :: from <= j < k ==> StartStep(hs[j], spawns(j)).1 == Pass
    ensures k < |hs| ==> StartStep(hs[k], spawns(k)).1 != Pass
  {
    if from == |hs| || StartStep(hs[from], spawns(from)).1 != Pass then from
    else LeadingStarts(hs, spawns, from + 1)
  }

  /** What a worker was built from: its registry entry and its args. */
  function Blueprint(w: Worker): Built
  {
    Built(w.kind, w.args)
  }

  function Blueprints(ws: seq<Worker>): seq<Built>
  {
    seq(|ws|, i requires 0 <= i < |ws| => Blueprint(ws[i]))
  }

  /** The thread handles of a list of workers. */
  ghost function Threads(ws: seq<Worker>): (hs: seq<Handle>)
    reads ws
  {
    seq(|ws|, i requires 0 <= i < |ws| reads ws => ws[i].thread)
  }

  class Scheduler {
    const workers: seq<Worker>
    const mode: Mode
    const time: Time

    /** Distinct workers, and a `time` that goes with the mode. */
    ghost predicate Valid()
      reads this
    {
      (forall i, j :: 0 <= i < j < |workers| ==> workers[i] != workers[j]) && Fits(mode, time)
    }

    /** The scheduler holds exactly the workers, mode and time of `plan`. */
    ghost predicate Realises(plan: Plan)
      reads this
    {
      Blueprints(workers) == plan.workers && mode == plan.mode && time == plan.time
    }

    /** The fields of a scheduler; `Create` builds its arguments. */
    constructor (workers: seq<Worker>, mode: Mode, time: Time)
      requires forall i, j :: 0 <= i < j < |workers| ==> workers[i] != workers[j]
      requires Fits(mode, time)
      ensures this.workers == workers && this.mode == mode && this.time == time
      ensures Valid()
    {
      this.workers := workers;
      this.mode := mode;
      this.time := time;
    }

    /** One iteration of the worker loop of `Scheduler.__init__`: the checks
        on the entry, then the factory call, with a FactoryError reported
        as a SchedulerError naming the worker type. */
    static method BuildEntry(registry: seq<WorkerType>, entry: Json) returns (r: Result<Worker, Exc>)
      ensures r.Ok? <==> ParseEntry(registry, entry).Ok?
      ensures r.Err? ==> r.error == ParseEntry(registry, entry).error
      ensures r.Ok? ==> fresh(r.value) && r.value.thread == NoThread &&
                        ParseEntry(registry, entry).value == Blueprint(r.value)
    {
      var fields := EntryFields(entry);
      if fields.Err? {
        return Err(fields.error);
      }
      var (name, args) := fields.value;
      // scheduler.py calls build(name, args, pid, background) on a
      // build(app, id, args) signature; the model makes the call the
      // factory defines (see ParseRequestAsWritten).
      var w := Factory.Build(registry, name, args);
      ParseEntryByParts(registry, entry, name, args);
      if w.Err? {
        return Err(WrapBuild(name, w.error));
      }
      r := Ok(w.value);
    }

    /** The worker loop of `Scheduler.__init__`: build every entry in
        request order through the factory. Either the error of the first
        failing entry, or one new worker per entry, with no thread yet. */
    static method BuildWorkers(registry: seq<WorkerType>, entries: seq<Json>) returns (r: Result<seq<Worker>, Exc>)
      ensures r.Ok? <==> ParseWorkers(registry, entries).Ok?
      ensures r.Err? ==> r.error == ParseWorkers(registry, entries).error
      ensures r.Ok? ==> ParseWorkers(registry, entries).value == Blueprints(r.value)
      ensures r.Ok? ==> forall i :: 0 <= i < |r.value| ==> fresh(r.value[i]) && r.value[i].thread == NoThread
      ensures r.Ok? ==> forall i, j :: 0 <= i < j < |r.value| ==> r.value[i] != r.value[j]
    {
      var ws: seq<Worker> := [];
      for i := 0 to |entries|
        invariant |ws| == i
        invariant forall j :: 0 <= j < i ==> ParseEntry(registry, entries[j]) == Ok(Blueprint(ws[j]))
        invariant forall j :: 0 <= j < i ==> fresh(ws[j]) && ws[j].thread == NoThread
        invariant forall j, l :: 0 <= j < l < i ==> ws[j] != ws[l]
      {
        var w := BuildEntry(registry, entries[i]);
        if w.Err? {
          FirstFailureDecides(registry, entries, i);
          return Err(w.error);
        }
        ws := ws + [w.value];
      }
      AllEntriesParse(registry, entries, Blueprints(ws));
      r := Ok(ws);
    }

    /** `Scheduler.__init__`: the workers first, then the schedule. Either the
        request is rejected with the error of its first failing check, or
        every entry has its own new worker, with no thread yet. */
    static method Create(meta: Json, registry: seq<WorkerType>, parseStamp: string -> Option<Stamp>)
      returns (r: Result<Scheduler, Exc>)
      ensures r.Ok? <==> ParseRequest(meta, registry, parseStamp).Ok?
      ensures r.Err? ==> r.error == ParseRequest(meta, registry, parseStamp).error
      ensures r.Ok? ==> fresh(r.value) && r.value.Valid() &&
                        r.value.Realises(ParseRequest(meta, registry, parseStamp).value)
      ensures r.Ok? ==> forall i :: 0 <= i < |r.value.workers| ==>
                          fresh(r.value.workers[i]) && r.value.workers[i].thread == NoThread
    {
      var field := WorkersField(meta);
      if field.Err? {
        return Err(field.error);
      }
      var ws := BuildWorkers(registry, field.value);
      if ws.Err? {
        return Err(ws.error);
      }
      var sched := ParseSchedule(Get(meta.fields, "schedule", Null), parseStamp);
      if sched.Err? {
        return Err(sched.error);
      }
      var s := new Scheduler(ws.value, sched.value.0, sched.value.1);
      r := Ok(s);
    }

    /** The first loop of `run`: the `setup` hook of every worker, in order. */
    method SetupAll() returns (setups: seq<Event>)
      ensures setups == SetupPhase(|workers|)
    {
      setups := [];
      for i := 0 to |workers|
        invariant setups == SetupPhase(i)
      {
        workers[i].Setup();
        SetupPhaseGrows(i);
        setups := setups + [Setup(i)];
      }
    }

    /** The second loop of `run`: `start()` on every worker, in order, until
        one raises. */
    method StartAll(spawns: nat -> bool) returns (starts: seq<Event>, r: Outcome)
      requires Valid()
      modifies workers
      ensures var k := LeadingStarts(old(Threads(workers)), spawns, 0);
              (r == Pass <==> k == |workers|) &&
              starts == StartPhase(if k < |workers| then k + 1 else k) &&
              (r != Pass ==> r == Fail(WorkerError(StartFailed)))
      ensures var k := LeadingStarts(old(Threads(workers)), spawns, 0);
              forall i :: 0 <= i < |workers| ==>
                workers[i].thread == if i < k then Started
                                     else if i == k then StartStep(old(workers[i].thread), spawns(i)).0
                                     else old(workers[i].thread)
    {
      ghost var hs := Threads(workers);
      ghost var k := LeadingStarts(hs, spawns, 0);
      starts := [];
      for i := 0 to |workers|
        invariant i <= k
        invariant starts == StartPhase(i)
        invariant forall j :: 0 <= j < i ==> workers[j].thread == Started
        invariant forall j :: i <= j < |workers| ==> workers[j].thread == hs[j]
      {
        StartPhaseGrows(i);
        starts := starts + [Start(i)];
        var started := workers[i].Start(spawns(i));
        if started.Fail? {
          return starts, started;
        }
      }
      r := Pass;
    }

    /** The third loop of `run`: join, then tear down, each worker in order.
        Once every thread is started no join can fail. */
    method DrainAll() returns (drains: seq<Event>)
      requires forall i :: 0 <= i < |workers| ==> workers[i].thread == Started
      ensures drains == DrainPhase(|workers|)
    {
      drains := [];
      for i := 0 to |workers|
        invariant drains == DrainPhase(i)
      {
        drains := drains + [Join(i)];
        var waited, joined := workers[i].Join();
        assert waited && joined == Pass;
        workers[i].Teardown();
        drains := drains + [Teardown(i)];
      }
    }

    /** `Scheduler.run`: set up every worker, wait as the mode says, start
        every worker, then join and tear down each in turn. `begin` and `now`
        are the clock readings before and after setup; `spawns(i)` says
        whether the runtime can start the thread of worker `i`. A failing
        start raises out of `run`, so nothing after it happens. */
    method Run(begin: real, now: real, spawns: nat -> bool) returns (log: seq<Event>, r: Outcome)
      requires Valid()
      modifies workers
      ensures var k := LeadingStarts(old(Threads(workers)), spawns, 0);
              log == Trace(|workers|, WaitPhase(mode, time, begin, now), k) && Ordered(log) &&
              (r == Pass <==> k == |workers|) &&
              (r != Pass ==> r == Fail(WorkerError(StartFailed)))
      ensures var k := LeadingStarts(old(Threads(workers)), spawns, 0);
              forall i :: 0 <= i < |workers| ==>
                workers[i].thread == if i < k then Started
                                     else if i == k then StartStep(old(workers[i].thread), spawns(i)).0
                                     else old(workers[i].thread)
    {
      ghost var k := LeadingStarts(Threads(workers), spawns, 0);
      RunLogOrdered(|workers|, mode, time, begin, now, k);
      var setups := SetupAll();
      var wait := WaitPhase(mode, time, begin, now);
      var starts;
      starts, r := StartAll(spawns);
      if r.Fail? {
        return setups + wait + starts, r;
      }
      var drains := DrainAll();
      log := setups + wait + starts + drains;
    }
  }
}
