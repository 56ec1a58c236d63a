/**
 * The lazily initialised logging singleton (`SingletonLoggingService`) as a state machine.
 *
 * The source has two copies of the class: one in package `creational.singleton`, whose private
 * constructor throws when the static slot is already populated, and one in package `creational`,
 * whose constructor has no such guard. Both share the same `getInstance()`.
 *
 * The state is the static field `loggingService` together with the number of constructor bodies
 * that ran to completion (each of which prints "Logging Service Initialized"). Instances are named
 * by their construction serial number: the k-th completed construction creates instance k, so two
 * instances are the same Java object exactly when their serials agree.
 */
module SingletonModel {
  import opened Outcomes

  /** Which of the two source classes is meant. */
  datatype Variant =
    | Guarded    // creational/singleton/SingletonLoggingService.java
    | Unguarded  // creational/SingletonLoggingService.java

  /** The guarded constructor's refusal; Java throws it as a RuntimeException carrying GuardMessage. */
  datatype Error = AlreadyInitialized

  const GuardMessage := "Use getInstance() method to get the single instance of this class."

  /** The text `log` prints in front of every message. */
  const LogPrefix := "[Log] : "

  type InstanceId = nat

  /** The static slot and the number of completed constructions. */
  datatype State = State(slot: Option<InstanceId>, inits: nat)

  /** The state after an operation together with what the operation returned. */
  datatype Step<+T> = Step(state: State, value: T)

  /** The stored instance, if any, is one that was actually constructed. */
  predicate Valid(s: State)
  {
    s.slot.Some? ==> s.slot.value < s.inits
  }

  /** Class initialisation: the slot is null and nothing has been constructed. */
  const Initial := State(None, 0)

  /**
   * The private constructor, reached from `getInstance()` or through a reflective bypass.
   * It throws only in the guarded variant and only when the slot is populated; it never writes the slot.
   */
  function Construct(v: Variant, s: State): (r: Step<Result<InstanceId, Error>>)
    ensures r.state.slot == s.slot
    ensures r.value.Failure? <==> v == Guarded && s.slot.Some?
    ensures r.value.Failure? ==> r.state == s && r.value.error == AlreadyInitialized
    ensures r.value.Success? ==> r.state.inits == s.inits + 1 && r.value.value == s.inits
    ensures Valid(s) && r.value.Success? && s.slot.Some? ==> r.value.value != s.slot.value
    ensures Valid(s) ==> Valid(r.state)
  {
    if v == Guarded && s.slot.Some? then Step(s, Failure(AlreadyInitialized))
    else Step(s.(inits := s.inits + 1), Success(s.inits))
  }

  /**
   * `getInstance()`: on an empty slot, construct one instance and store it; otherwise return
   * the stored instance and construct nothing.
   */
  function GetInstance(v: Variant, s: State): (r: Step<InstanceId>)
    ensures r.state.slot == Some(r.value)
    ensures s.slot.Some? ==> r == Step(s, s.slot.value)
    ensures s.slot.None? ==> r.state.inits == s.inits + 1 && r.value == s.inits
    ensures Valid(s) ==> Valid(r.state)
  {
    match s.slot
    case Some(id) => Step(s, id)
    case None =>
      var c := Construct(v, s);
      Step(c.state.(slot := Some(c.value.value)), c.value.value)
  }

  /** The line `log(message)` prints. */
  function LogLine(message: string): (line: string)
    ensures |line| == |LogPrefix| + |message|
    ensures line[..|LogPrefix|] == LogPrefix && line[|LogPrefix|..] == message
  {
    LogPrefix + message
  }

  /** A call a client can make: `getInstance()`, a construction that bypasses it, or `log`. */
  datatype Call = GetInstanceCall | ConstructCall | LogCall(message: string)

  /** What a call hands back to its caller: an instance, an exception, or a printed log line. */
  datatype Reply = Returned(id: InstanceId) | Threw(error: Error) | Logged(line: string)

  function Apply(v: Variant, s: State, c: Call): Step<Reply>
  {
    match c
    case GetInstanceCall =>
      var g := GetInstance(v, s);
      Step(g.state, Returned(g.value))
    case ConstructCall =>
      var k := Construct(v, s);
      Step(k.state, if k.value.Success? then Returned(k.value.value) else Threw(k.value.error))
    case LogCall(m) => Step(s, Logged(LogLine(m)))
  }

  /** Runs the calls in order from state `s`; the replies are in call order. */
  function Run(v: Variant, s: State, calls: seq<Call>): (r: Step<seq<Reply>>)
    ensures |r.value| == |calls|
    ensures Valid(s) ==> Valid(r.state)
    ensures r.state.inits >= s.inits
    decreases |calls|
  {
    if calls == [] then Step(s, [])
    else
      var first := Apply(v, s, calls[0]);
      var rest := Run(v, first.state, calls[1..]);
      Step(rest.state, [first.value] + rest.value)
  }

  /** The number of bypass constructions in a sequence of calls. */
  function Bypasses(calls: seq<Call>): nat
  {
    if calls == [] then 0 else (if calls[0].ConstructCall? then 1 else 0) + Bypasses(calls[1..])
  }

  /** Once populated, the slot keeps the same instance whatever is called afterwards: it is never reset. */
  lemma {:induction false} SlotNeverReset(v: Variant, s: State, calls: seq<Call>)
    requires s.slot.Some?
    ensures Run(v, s, calls).state.slot == s.slot
    decreases |calls|
  {
    if calls != [] {
      SlotNeverReset(v, Apply(v, s, calls[0]).state, calls[1..]);
    }
  }

  /**
   * Any number of `getInstance()` calls in a row all return one and the same instance, the one left
   * in the slot; at most one construction happens (exactly one when the slot started empty), and
   * on a populated slot nothing changes at all.
   */
  lemma {:induction false} GetInstanceReturnsOneInstance(v: Variant, s: State, calls: seq<Call>)
    requires forall i :: 0 <= i < |calls| ==> calls[i].GetInstanceCall?
    ensures var r := Run(v, s, calls);
      && (forall i :: 0 <= i < |calls| ==> r.state.slot.Some? && r.value[i] == Returned(r.state.slot.value))
      && r.state.inits == s.inits + (if s.slot.None? && calls != [] then 1 else 0)
      && (s.slot.Some? ==> r.state == s)
    decreases |calls|
  {
    if calls != [] {
      var first := Apply(v, s, calls[0]);
      assert first.state.slot.Some?;
      GetInstanceReturnsOneInstance(v, first.state, calls[1..]);
    }
  }

  /**
   * Guarded variant: once the slot is populated, every bypass construction throws
   * AlreadyInitialized and no further instance is ever constructed.
   */
  lemma {:induction false} GuardRejectsEveryLaterBypass(s: State, calls: seq<Call>)
    requires s.slot.Some?
    ensures var r := Run(Guarded, s, calls);
      && r.state == s
      && forall i :: 0 <= i < |calls| && calls[i].ConstructCall? ==> r.value[i] == Threw(AlreadyInitialized)
    decreases |calls|
  {
    if calls != [] {
      GuardRejectsEveryLaterBypass(s, calls[1..]);
    }
  }

  /**
   * Unguarded variant: after the slot is populated, every bypass construction still succeeds with
   * a brand-new instance (never the stored one), and each of them adds one construction.
   */
  lemma {:induction false} UnguardedBypassAlwaysSucceeds(s: State, calls: seq<Call>)
    requires Valid(s) && s.slot.Some?
    ensures var r := Run(Unguarded, s, calls);
      && r.state.slot == s.slot
      && r.state.inits == s.inits + Bypasses(calls)
      && forall i :: 0 <= i < |calls| && calls[i].ConstructCall? ==>
           r.value[i].Returned? && s.inits <= r.value[i].id && r.value[i] != Returned(s.slot.value)
    decreases |calls|
  {
    if calls != [] {
      var first := Apply(Unguarded, s, calls[0]);
      UnguardedBypassAlwaysSucceeds(first.state, calls[1..]);
    }
  }

  /**
   * The gap the guard leaves open: a bypass construction before the first `getInstance()` succeeds,
   * in either variant, without populating the slot, so the next `getInstance()` constructs a second,
   * distinct instance.
   */
  lemma BypassBeforeFirstUseMakesTwoInstances(v: Variant, s: State)
    requires s.slot.None?
    ensures var r := Run(v, s, [ConstructCall, GetInstanceCall]);
      && r.value[0].Returned? && r.value[1].Returned?
      && r.value[0] != r.value[1]
      && r.state.slot == Some(r.value[1].id)
      && r.state.inits == s.inits + 2
  {
  }

  /** `log` has no effect on the singleton: removing a log call from any trace leaves the final state the same. */
  lemma {:induction false} LogLeavesStateUnchanged(v: Variant, s: State, before: seq<Call>, m: string, after: seq<Call>)
    ensures Run(v, s, before + [LogCall(m)] + after).state == Run(v, s, before + after).state
    decreases |before|
  {
    if before == [] {
      assert before + [LogCall(m)] + after == [LogCall(m)] + after;
      assert ([LogCall(m)] + after)[1..] == after;
      assert before + after == after;
    } else {
      var first := Apply(v, s, before[0]);
      LogLeavesStateUnchanged(v, first.state, before[1..], m, after);
      assert (before + [LogCall(m)] + after)[1..] == before[1..] + [LogCall(m)] + after;
      assert (before + after)[1..] == before[1..] + after;
    }
  }
}
