/** WorkerFactory (src/worker/factory.py): resolves a WORKER_ID against the
    registered worker classes, constructs and validates the worker, and calls
    the class-level setup/teardown hooks of every registered class.

    The registry is an explicit, ordered sequence of worker classes given as a
    parameter; it stands for `Worker.__subclasses__()`. */
module Factory {
  import opened Base
  import opened Json
  import opened Errors
  import opened Workers

  /** `subclass.WORKER_ID == id`: a Python `str` equals only a `str`. */
  predicate Matches(t: WorkerType, id: Json)
  {
    id == Str(t.id)
  }

  /** Position `k` holds a class with this id and no later class has it. */
  predicate IsLastMatch(registry: seq<WorkerType>, id: Json, k: nat)
  {
    k < |registry| && Matches(registry[k], id) &&
    forall j :: k < j < |registry| ==> !Matches(registry[j], id)
  }

  /** No registered class has this id. */
  predicate NoMatch(registry: seq<WorkerType>, id: Json)
  {
    forall j :: 0 <= j < |registry| ==> !Matches(registry[j], id)
  }

  /** The class `build` ends up instantiating: the scan has no `break`, so a
      later class with the same id replaces an earlier one. */
  function LastMatch(registry: seq<WorkerType>, id: Json): (r: Option<nat>)
    ensures r.Some? ==> IsLastMatch(registry, id, r.value)
    ensures r.None? ==> NoMatch(registry, id)
  {
    if registry == [] then None
    else if Matches(registry[|registry| - 1], id) then Some(|registry| - 1)
    else LastMatch(registry[..|registry| - 1], id)
  }

  /** The `except WorkerError` around `validate()`: a WorkerError becomes a
      FactoryError, any other exception passes through unchanged. */
  function WrapValidation(e: Exc): Exc
  {
    if e.WorkerError? then FactoryError(ValidationFailed(e.wf)) else e
  }

  /** What `build(id, args)` produces: the registry position of the class of
      the returned worker, or the exception it raises. */
  function BuildResult(registry: seq<WorkerType>, id: Json, args: Json): (r: Result<nat, Exc>)
    ensures r.Ok? ==> IsLastMatch(registry, id, r.value) && registry[r.value].validate(args) == Pass
    ensures NoMatch(registry, id) ==> r == Err(FactoryError(UnknownWorker(id)))
  {
    match LastMatch(registry, id)
    case None => Err(FactoryError(UnknownWorker(id)))
    case Some(k) =>
      match registry[k].validate(args)
      case Pass => Ok(k)
      case Fail(e) => Err(WrapValidation(e))
  }

  /** Once the class is found, its own validation decides: the worker is
      returned exactly when `validate()` passes, and otherwise the raised
      exception comes out, a WorkerError wrapped as a FactoryError. */
  lemma BuildDecidedByValidation(registry: seq<WorkerType>, id: Json, args: Json, k: nat)
    requires IsLastMatch(registry, id, k)
    ensures BuildResult(registry, id, args).Ok? <==> registry[k].validate(args) == Pass
    ensures BuildResult(registry, id, args).Ok? ==> BuildResult(registry, id, args).value == k
    ensures registry[k].validate(args).Fail? ==>
              BuildResult(registry, id, args) == Err(WrapValidation(registry[k].validate(args).exc))
  {
    var m := LastMatch(registry, id);
    assert m.Some?;
    assert m.value == k;
  }

  /** `WorkerFactory.build`. The application object, used only for logging,
      is not modelled: the call takes the factory's own `(id, args)`.
      It reads the registry and changes no existing object; the worker it
      returns is new and has no thread. */
  method Build(registry: seq<WorkerType>, id: Json, args: Json) returns (r: Result<Worker, Exc>)
    ensures r.Ok? <==> BuildResult(registry, id, args).Ok?
    ensures r.Ok? ==> fresh(r.value) && r.value.kind == BuildResult(registry, id, args).value &&
                      r.value.args == args && r.value.thread == NoThread
    ensures r.Err? ==> r.error == BuildResult(registry, id, args).error
  {
    var derived: Worker? := null;
    for i := 0 to |registry|
      invariant derived == null ==> LastMatch(registry[..i], id) == None
      invariant derived != null ==> LastMatch(registry[..i], id) == Some(derived.kind)
      invariant derived != null ==> fresh(derived) && derived.args == args && derived.thread == NoThread
    {
      assert registry[..i + 1][..i] == registry[..i];
      if Matches(registry[i], id) {
        derived := new Worker(i, args);
      }
    }
    assert registry[..|registry|] == registry;
    if derived == null {
      return Err(FactoryError(UnknownWorker(id)));
    }
    var outcome := registry[derived.kind].validate(args);
    if outcome.Fail? {
      return Err(WrapValidation(outcome.exc));
    }
    r := Ok(derived);
  }

  /** One call of a class-level hook, naming the class by registry position. */
  datatype HookCall = ClassSetup(kind: nat) | ClassTeardown(kind: nat)

  /** `WorkerFactory.setup`: calls `setup()` once on every registered class,
      in registry order. */
  method Setup(registry: seq<WorkerType>) returns (calls: seq<HookCall>)
    ensures |calls| == |registry|
    ensures forall k :: 0 <= k < |registry| ==> calls[k] == ClassSetup(k)
  {
    calls := [];
    for k := 0 to |registry|
      invariant |calls| == k
      invariant forall j :: 0 <= j < k ==> calls[j] == ClassSetup(j)
    {
      calls := calls + [ClassSetup(k)];
    }
  }

  /** `WorkerFactory.teardown`: calls `teardown()` once on every registered
      class, in registry order. */
  method Teardown(registry: seq<WorkerType>) returns (calls: seq<HookCall>)
    ensures |calls| == |registry|
    ensures forall k :: 0 <= k < |registry| ==> calls[k] == ClassTeardown(k)
  {
    calls := [];
    for k := 0 to |registry|
      invariant |calls| == k
      invariant forall j :: 0 <= j < k ==> calls[j] == ClassTeardown(j)
    {
      calls := calls + [ClassTeardown(k)];
    }
  }

  /** The registry of the program: PrintWorker is the only worker class
      whose definition is complete. */
  const DefaultRegistry: seq<WorkerType> := [PrintWorker]

  /** Building "print" with the default registry succeeds exactly when the
      arguments hold "message"; any other id is unknown. */
  lemma DefaultRegistryBuild(id: Json, fields: map<string, Json>)
    ensures id == Str(PRINT_ID) ==>
              (BuildResult(DefaultRegistry, id, Map(fields)) == Ok(0) <==> "message" in fields)
    ensures id == Str(PRINT_ID) && "message" !in fields ==>
              BuildResult(DefaultRegistry, id, Map(fields)) == Err(FactoryError(ValidationFailed(MessageRequired)))
    ensures id != Str(PRINT_ID) ==>
              BuildResult(DefaultRegistry, id, Map(fields)) == Err(FactoryError(UnknownWorker(id)))
  {
    assert DefaultRegistry[0] == PrintWorker;
    if id == Str(PRINT_ID) {
      assert IsLastMatch(DefaultRegistry, id, 0);
    }
  }
}
