/**
 * MutableOpResolver: the bounded, append-only set of operators an
 * interpreter is built with. Each builder call checks the count against the
 * capacity (panicking when it is reached), counts the operator and asks the
 * native resolver to register it; there is no deduplication.
 *
 * The native `MicroMutableOpResolver<128>` is modelled by the sequence of
 * registration requests it has received. A panic is a precondition of the
 * methods, and the outcome None of the specification function AddStep.
 */
module MicroOpResolver {
  import opened Wrappers
  import opened Operators

  /** The maximum number of registrations of the native resolver. */
  const TFLITE_REGISTRATIONS_MAX: nat := 128

  /**
   * The abstract state of a resolver: its capacity, its count and the
   * registration requests it has sent to the native resolver, in order.
   */
  datatype ResolverState = ResolverState(capacity: nat, len: nat, registered: seq<Operator>)

  /** The count never exceeds the capacity, and it counts exactly the requests. */
  predicate Consistent(s: ResolverState) {
    s.len <= s.capacity && |s.registered| == s.len
  }

  /** The state `empty()` builds. */
  function EmptyState(): ResolverState {
    ResolverState(TFLITE_REGISTRATIONS_MAX, 0, [])
  }

  /**
   * One builder call `add_<op>`: None when the capacity check panics,
   * otherwise the count goes up by one and registration of op is requested.
   */
  function AddStep(s: ResolverState, op: Operator): Option<ResolverState> {
    if s.len < s.capacity then Some(ResolverState(s.capacity, s.len + 1, s.registered + [op]))
    else None
  }

  /** A chain of builder calls, applied left to right; None once one of them panics. */
  function AddChain(s: ResolverState, ops: seq<Operator>): Option<ResolverState>
    decreases |ops|
  {
    if ops == [] then Some(s)
    else match AddStep(s, ops[0])
      case None => None
      case Some(s') => AddChain(s', ops[1..])
  }

  /** `empty()` starts with no operators, a capacity of 128, and consistent. */
  lemma EmptyStateIsEmpty()
    ensures Consistent(EmptyState())
    ensures EmptyState().len == 0 && EmptyState().registered == []
    ensures EmptyState().capacity == 128
  {
  }

  /**
   * A builder call keeps the count within the capacity, adds exactly one to
   * it, keeps the capacity and appends exactly its own operator.
   */
  lemma AddStepPreservesConsistent(s: ResolverState, op: Operator)
    requires Consistent(s)
    ensures AddStep(s, op).Some? <==> s.len < s.capacity
    ensures AddStep(s, op).Some? ==>
      var t := AddStep(s, op).value;
      Consistent(t) && t.len == s.len + 1 && t.capacity == s.capacity && t.registered == s.registered + [op]
  {
  }

  /**
   * A chain of builder calls from a consistent state succeeds exactly when
   * it fits in the remaining capacity, and then counts every operator named
   * and requests its registration, in order.
   */
  lemma {:induction false} AddChainOutcome(s: ResolverState, ops: seq<Operator>)
    requires Consistent(s)
    ensures AddChain(s, ops).Some? <==> s.len + |ops| <= s.capacity
    ensures AddChain(s, ops).Some? ==>
      AddChain(s, ops).value == ResolverState(s.capacity, s.len + |ops|, s.registered + ops)
    decreases |ops|
  {
    if ops != [] && s.len < s.capacity {
      var s' := AddStep(s, ops[0]).value;
      AddChainOutcome(s', ops[1..]);
      assert s.registered + [ops[0]] + ops[1..] == s.registered + ops;
    }
  }

  /**
   * From `empty()`, a chain of at most 128 builder calls never panics and
   * leaves `len()` equal to the number of calls, with exactly the operators
   * named requested; any longer chain panics.
   */
  lemma ChainFromEmpty(ops: seq<Operator>)
    ensures AddChain(EmptyState(), ops).Some? <==> |ops| <= TFLITE_REGISTRATIONS_MAX
    ensures |ops| <= TFLITE_REGISTRATIONS_MAX ==>
      AddChain(EmptyState(), ops) == Some(ResolverState(TFLITE_REGISTRATIONS_MAX, |ops|, ops))
  {
    AddChainOutcome(EmptyState(), ops);
    assert EmptyState().registered + ops == ops;
  }

  /** After 128 successful calls, the next one panics, whichever operator it names. */
  lemma {:induction false} OneOverCapacityPanics(ops: seq<Operator>, op: Operator)
    requires |ops| == TFLITE_REGISTRATIONS_MAX
    ensures AddChain(EmptyState(), ops).Some?
    ensures AddChain(EmptyState(), ops + [op]).None?
  {
    ChainFromEmpty(ops);
    ChainFromEmpty(ops + [op]);
  }

  /** Adding the same operator twice counts twice and requests its registration twice. */
  lemma NoDeduplication(s: ResolverState, op: Operator)
    requires Consistent(s) && s.len + 2 <= s.capacity
    ensures AddChain(s, [op, op]) == Some(ResolverState(s.capacity, s.len + 2, s.registered + [op, op]))
  {
    AddChainOutcome(s, [op, op]);
  }

  class MutableOpResolver {
    /** The native resolver, as the operators it was asked to register. */
    var inner: seq<Operator>
    var capacity: nat
    var len: nat

    function State(): ResolverState
      reads this
    {
      ResolverState(capacity, len, inner)
    }

    ghost predicate Valid()
      reads this
    {
      Consistent(State())
    }

    /** `empty()`: no operators, capacity 128. */
    constructor Empty()
      ensures Valid() && State() == EmptyState()
    {
      inner := [];
      capacity := TFLITE_REGISTRATIONS_MAX;
      len := 0;
    }

    /** `Default::default()` is `empty()`. */
    static method Default() returns (r: MutableOpResolver)
      ensures fresh(r) && r.Valid() && r.State() == EmptyState()
    {
      r := new MutableOpResolver.Empty();
    }

    /** `to_inner()`: hands the native resolver over, with every request it has received. */
    method ToInner() returns (ops: seq<Operator>)
      ensures Valid() ==> |ops| == len
      ensures ops == inner
    {
      ops := inner;
    }

    /**
     * `check_then_inc_len()`: panics unless the count is below the capacity,
     * then counts one more operator.
     */
    method CheckThenIncLen()
      requires len < capacity
      modifies this`len
      ensures len == old(len) + 1 && len <= capacity
    {
      len := len + 1;
    }

    /** `len()`: the number of operators whose registration was requested. */
    function Len(): (n: nat)
      reads this
      ensures Valid() ==> n == |inner| && n <= capacity
    {
      len
    }

    /** `is_empty()`: no registration has been requested. */
    function IsEmpty(): (b: bool)
      reads this
      ensures b <==> Len() == 0
      ensures Valid() ==> (b <==> inner == [])
    {
      len == 0
    }

    /**
     * `add_<op>()`, for every operator: the capacity check comes first (so a
     * call that panics requests nothing), then the count goes up by one and
     * the native resolver is asked to register op, and nothing else; the
     * same resolver is returned.
     */
    method AddOperator(op: Operator) returns (r: MutableOpResolver)
      requires Valid() && len < capacity
      modifies this
      ensures r == this && Valid()
      ensures Some(State()) == AddStep(old(State()), op)
      ensures len == old(len) + 1 && capacity == old(capacity) && inner == old(inner) + [op]
    {
      CheckThenIncLen();
      inner := inner + [op];
      r := this;
    }
  }

  /**
   * The resolver the keyword-spotting example builds:
   * `empty().add_depthwise_conv_2d().add_fully_connected().add_softmax().add_reshape()`.
   * Each call returns the same object, so the chain leaves `len() == 4`
   * with registration of exactly those operators requested, in that order.
   */
  method MicroSpeechResolver() returns (r: MutableOpResolver)
    ensures r.Valid() && r.Len() == 4 && !r.IsEmpty()
    ensures r.inner == [DepthwiseConv2D, FullyConnected, Softmax, Reshape]
    ensures Some(r.State()) == AddChain(EmptyState(), [DepthwiseConv2D, FullyConnected, Softmax, Reshape])
  {
    r := new MutableOpResolver.Empty();
    r := r.AddOperator(DepthwiseConv2D);
    r := r.AddOperator(FullyConnected);
    r := r.AddOperator(Softmax);
    r := r.AddOperator(Reshape);
    ChainFromEmpty([DepthwiseConv2D, FullyConnected, Softmax, Reshape]);
  }
}
