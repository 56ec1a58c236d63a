/**
 * The two `SingletonLoggingService` classes as heap objects.
 *
 * A Java class with a static field is split in two here: `LoggingServiceHolder` is the static side
 * (the slot `loggingService` and the static `getInstance()`), and `LoggingService` is an instance
 * (what `new SingletonLoggingService()` allocates, with its `log` method). The variant flag of the
 * holder selects the guarded or the unguarded constructor. Each method is proved against the
 * matching step function of SingletonModel.
 */
module SingletonLoggingService {
  import opened Outcomes
  import M = SingletonModel

  /** An instance of the source class. Its serial number names it in SingletonModel. */
  class LoggingService {
    ghost const serial: nat

    constructor (ghost serial: nat)
      ensures this.serial == serial
    {
      this.serial := serial;
    }

    /** `log(message)`: the printed line is returned instead of written to the console. */
    method Log(message: string) returns (line: string)
      ensures line == M.LogLine(message)
    {
      line := M.LogLine(message);
    }
  }

  /** The static state of the source class: the slot `loggingService` and the constructions so far. */
  class LoggingServiceHolder {
    const variant: M.Variant
    var instance: Option<LoggingService>
    /** The number of constructor bodies that completed, i.e. of "Logging Service Initialized" lines printed. */
    ghost var inits: nat

    /** The abstract state of SingletonModel that this holder stands for. */
    ghost function Model(): M.State
      reads this
    {
      M.State(if instance.Some? then Some(instance.value.serial) else None, inits)
    }

    ghost predicate Valid()
      reads this
    {
      M.Valid(Model())
    }

    /** Class initialisation: the slot starts out null. */
    constructor (variant: M.Variant)
      ensures this.variant == variant && instance == None && Model() == M.Initial && Valid()
    {
      this.variant := variant;
      instance := None;
      inits := 0;
    }

    /** The serial-number view of a construction outcome. */
    static ghost function IdOf(r: Result<LoggingService, M.Error>): Result<M.InstanceId, M.Error>
    {
      match r
      case Success(s) => Success(s.serial)
      case Failure(e) => Failure(e)
    }

    /**
     * The private constructor, called from GetInstance or directly by a bypass. It never writes the
     * slot; in the guarded variant it refuses when the slot is populated.
     */
    method Construct() returns (r: Result<LoggingService, M.Error>)
      requires Valid()
      modifies this`inits
      ensures Valid() && instance == old(instance)
      ensures Model() == M.Construct(variant, old(Model())).state
      ensures IdOf(r) == M.Construct(variant, old(Model())).value
      ensures r.Success? ==> fresh(r.value)
    {
      if variant == M.Guarded && instance.Some? {
        return Failure(M.AlreadyInitialized);
      }
      var service := new LoggingService(inits);
      inits := inits + 1;
      r := Success(service);
    }

    /** `getInstance()`: construct and store an instance on first use, afterwards return the stored one. */
    method GetInstance() returns (service: LoggingService)
      requires Valid()
      modifies this
      ensures Valid() && instance == Some(service)
      ensures Model() == M.GetInstance(variant, old(Model())).state
      ensures service.serial == M.GetInstance(variant, old(Model())).value
      ensures old(instance).Some? ==> service == old(instance).value
      ensures old(instance).None? ==> fresh(service)
    {
      if instance.None? {
        var r := Construct();
        instance := Some(r.value);
      }
      service := instance.value;
    }
  }

  /** The exceptions the reflection demo can end with. */
  datatype JavaException =
    | RuntimeException(message: string)                // thrown by the constructor guard
    | InvocationTargetException(target: JavaException)  // how reflective `newInstance` reports a constructor's exception
    | WrappedRuntimeException(cause: JavaException)     // `new RuntimeException(e)` in the demo's catch block

  /** The Java exception that carries a refusal of the constructor guard. */
  function ExceptionOf(e: M.Error): JavaException
  {
    match e
    case AlreadyInitialized => RuntimeException(M.GuardMessage)
  }

  /**
   * `main` of the guarded variant's demo: take the singleton, then construct a second instance by
   * reflection. The guard fires, reflection wraps the exception, and `main` rethrows it; the
   * statements after the try block are never reached. One instance was constructed.
   */
  method ReflectionDemo() returns (thrown: JavaException, ghost initialized: nat)
    ensures thrown == WrappedRuntimeException(InvocationTargetException(RuntimeException(M.GuardMessage)))
    ensures initialized == 1
  {
    var holder := new LoggingServiceHolder(M.Guarded);
    var first := holder.GetInstance();
    var bypass := holder.Construct();
    thrown := WrappedRuntimeException(InvocationTargetException(ExceptionOf(bypass.error)));
    initialized := holder.inits;
  }

  /**
   * `main` of the unguarded variant's demo: two `getInstance()` calls with a log in between return
   * the same object, so the demo prints `true`; only one instance is constructed.
   */
  method SameInstanceDemo() returns (same: bool, ghost initialized: nat)
    ensures same && initialized == 1
  {
    var holder := new LoggingServiceHolder(M.Unguarded);
    var first := holder.GetInstance();
    var started := first.Log("Application Started");
    var second := holder.GetInstance();
    var again := second.Log("Logging from second instance");
    same := first == second;
    initialized := holder.inits;
  }

  /**
   * The gap the guard leaves open: in the guarded variant a bypass construction before the first
   * `getInstance()` succeeds, and `getInstance()` then constructs a second, distinct instance.
   */
  method BypassBeforeFirstUse() returns (bypassSucceeded: bool, distinct: bool)
    ensures bypassSucceeded && distinct
  {
    var holder := new LoggingServiceHolder(M.Guarded);
    var bypass := holder.Construct();
    bypassSucceeded := bypass.Success?;
    var stored := holder.GetInstance();
    distinct := bypass.Success? && bypass.value != stored;
  }

  /** The unguarded variant accepts a bypass construction even after `getInstance()`, giving a second object. */
  method UnguardedBypassAfterUse() returns (bypassSucceeded: bool, distinct: bool)
    ensures bypassSucceeded && distinct
  {
    var holder := new LoggingServiceHolder(M.Unguarded);
    var stored := holder.GetInstance();
    var bypass := holder.Construct();
    bypassSucceeded := bypass.Success?;
    distinct := bypass.Success? && bypass.value != stored;
  }
}
