/** Workers (src/worker/__init__.py): a worker holds its arguments and a
    handle on the thread that runs it. A worker class is described by its
    WORKER_ID and its `validate` check; PrintWorker is the one concrete class. */
module Workers {
  import opened Base
  import opened Json
  import opened Errors

  /** A registered worker class: its WORKER_ID and its `validate`, which
      inspects the worker's `args` and either returns or raises. */
  datatype WorkerType = WorkerType(id: string, validate: Json -> Outcome)

  /** The worker's `thread` field: `None`, a `threading.Thread` that has not
      been started, or one that has. */
  datatype Handle = NoThread | Created | Started

  /** The effect of `start()` on the handle, when the runtime can (`spawnOk`)
      or cannot start another thread. A handle is made only when none exists;
      a thread that was already started cannot be started again. */
  function StartStep(h: Handle, spawnOk: bool): (r: (Handle, Outcome))
    ensures r.1 == Pass <==> h != Started && spawnOk
    ensures r.1 != Pass ==> r.1 == Fail(WorkerError(StartFailed))
    ensures r.0 != NoThread
    ensures r.0 == Started <==> h == Started || spawnOk
  {
    var made := if h == NoThread then Created else h;
    if made == Started then (Started, Fail(WorkerError(StartFailed)))
    else if spawnOk then (Started, Pass)
    else (made, Fail(WorkerError(StartFailed)))
  }

  class Worker {
    /** Position of the worker's class in the registry it was built from. */
    const kind: nat
    const args: Json
    var thread: Handle

    /** `Worker.__init__`: keeps `args` as given, with no thread yet. */
    constructor (kind: nat, args: Json)
      ensures this.kind == kind && this.args == args && thread == NoThread
    {
      this.kind := kind;
      this.args := args;
      thread := NoThread;
    }

    /** The default `setup` hook does nothing. */
    method Setup()
      ensures unchanged(this)
    {
    }

    /** The default `teardown` hook does nothing. */
    method Teardown()
      ensures unchanged(this)
    {
    }

    /** `start()`: create a thread if there is none, then start it; a failure
        to start surfaces as WorkerError. */
    method Start(spawnOk: bool) returns (r: Outcome)
      modifies this
      ensures (thread, r) == StartStep(old(thread), spawnOk)
    {
      if thread == NoThread {
        thread := Created;
      }
      if thread == Started {
        r := Fail(WorkerError(StartFailed));
      } else if spawnOk {
        thread := Started;
        r := Pass;
      } else {
        r := Fail(WorkerError(StartFailed));
      }
    }

    /** `join()`: with no handle only a warning is logged; with a started
        handle the caller waits for the thread; joining a thread that was
        never started fails with WorkerError. The handle is left as it is. */
    method Join() returns (waited: bool, r: Outcome)
      ensures waited <==> thread == Started
      ensures r.Fail? <==> thread == Created
      ensures r.Fail? ==> r.exc == WorkerError(JoinFailed)
    {
      if thread == NoThread {
        waited, r := false, Pass;
      } else if thread == Created {
        waited, r := false, Fail(WorkerError(JoinFailed));
      } else {
        waited, r := true, Pass;
      }
    }
  }

  const PRINT_ID: string := "print"

  /** `PrintWorker.validate`: the arguments must contain "message". */
  function PrintValidate(args: Json): (r: Outcome)
    ensures args.Map? ==> (r == Pass <==> "message" in args.fields)
    ensures r.Fail? ==> r.exc in {WorkerError(MessageRequired), TypeError}
    ensures r == Fail(TypeError) <==> args.Null? || args.Bool? || args.Num?
  {
    match Membership("message", args)
    case None => Fail(TypeError)
    case Some(present) => if present then Pass else Fail(WorkerError(MessageRequired))
  }

  /** The PrintWorker class as the registry sees it. */
  const PrintWorker: WorkerType := WorkerType(PRINT_ID, PrintValidate)
}
