/**
 * MicroInterpreter: binds a model, a resolver and a tensor arena into one
 * native engine, then feeds inputs, runs the model and exposes outputs.
 *
 * The native engine is an abstract collaborator: a NativeEngine value says
 * what its calls report (the initialization and allocation statuses, and
 * the input and output tensors of the allocation plan), and `invoke` takes
 * the status the native Invoke returns as a parameter.
 */
module MicroInterpreter {
  import opened Wrappers
  import opened Errors
  import opened MicroOpResolver
  import opened Tensors
  import Interop

  const TWO_31: int := 0x8000_0000
  const TWO_32: int := 0x1_0000_0000

  /** Two's-complement truncation to 32 bits: what an overflowing i32 multiplication yields. */
  function WrapI32(x: int): i32 {
    (x + TWO_31) % TWO_32 - TWO_31
  }

  /** The true product of a list of integers. */
  function Product(s: seq<int>): int {
    if s == [] then 1 else Product(s[..|s| - 1]) * s[|s| - 1]
  }

  /**
   * `dims.iter().product::<i32>()`: a left fold of i32 multiplications,
   * which wrap on overflow (the release-build behaviour).
   */
  function DimsProduct(dims: seq<i32>): i32 {
    if dims == [] then 1 else WrapI32(DimsProduct(dims[..|dims| - 1]) * dims[|dims| - 1])
  }

  /** Adding a multiple of 2^32 does not change the 32-bit truncation. */
  lemma WrapShift(x: int, k: int)
    ensures WrapI32(x + TWO_32 * k) == WrapI32(x)
  {
    var y := x + TWO_31;
    assert y == TWO_32 * (y / TWO_32) + y % TWO_32;
    assert y + TWO_32 * k == TWO_32 * ((y + TWO_32 * k) / TWO_32) + (y + TWO_32 * k) % TWO_32;
  }

  /** Truncating a factor before multiplying gives the same 32-bit result. */
  lemma WrapMul(a: int, b: int)
    ensures WrapI32(WrapI32(a) * b) == WrapI32(a * b)
  {
    var q := (a + TWO_31) / TWO_32;
    assert WrapI32(a) == a - TWO_32 * q;
    assert WrapI32(a) * b == a * b + TWO_32 * (-(q * b)) by {
      assert (a - TWO_32 * q) * b == a * b - TWO_32 * (q * b);
    }
    WrapShift(a * b, -(q * b));
  }

  /** The element count the crate computes is the true product of the dims, truncated to 32 bits. */
  lemma {:induction false} DimsProductIsWrappedProduct(dims: seq<i32>)
    ensures DimsProduct(dims) == WrapI32(Product(dims))
  {
    if dims != [] {
      var init, last := dims[..|dims| - 1], dims[|dims| - 1];
      DimsProductIsWrappedProduct(init);
      WrapMul(Product(init), last);
    }
  }

  /** Whenever the tensor's true element count fits in an i32, the computed count is exact. */
  lemma DimsProductExact(dims: seq<i32>)
    requires -TWO_31 <= Product(dims) < TWO_31
    ensures DimsProduct(dims) == Product(dims)
  {
    DimsProductIsWrappedProduct(dims);
  }

  /** A serialized model, already validated; this layer only passes it on. */
  datatype Model = Model(buffer: seq<Interop.byte>)

  /**
   * What the native engine built over a model, a resolver and an arena
   * reports: its initialization status, the status AllocateTensors would
   * return, the input and output tensors of its allocation plan, and the
   * arena bytes that plan uses.
   */
  datatype NativeEngine = NativeEngine(
    initializationStatus: Status,
    allocateTensorsStatus: Status,
    inputs: seq<Tensor>,
    outputs: seq<Tensor>,
    arenaUsedBytes: nat)

  /**
   * The native block of `new`: both statuses start as kTfLiteError; the
   * initialization status is written first, and AllocateTensors runs only
   * when it is kTfLiteOk.
   */
  method NativeCreate(engine: NativeEngine) returns (initStatus: Status, allocateStatus: Status)
    ensures initStatus == engine.initializationStatus
    ensures initStatus == Ok ==> allocateStatus == engine.allocateTensorsStatus
    ensures initStatus != Ok ==> allocateStatus == Status.Error
  {
    initStatus, allocateStatus := Status.Error, Status.Error;
    initStatus := engine.initializationStatus;
    if initStatus != Ok {
      return;
    }
    allocateStatus := engine.allocateTensorsStatus;
  }

  class MicroInterpreter {
    const inputs: seq<Tensor>
    const outputs: seq<Tensor>
    const arenaUsedBytes: nat

    constructor FromEngine(engine: NativeEngine)
      ensures inputs == engine.inputs && outputs == engine.outputs
      ensures arenaUsedBytes == engine.arenaUsedBytes
    {
      inputs := engine.inputs;
      outputs := engine.outputs;
      arenaUsedBytes := engine.arenaUsedBytes;
    }

    /**
     * `new`: an initialization failure is reported as InterpreterInitError
     * whatever allocation would have done; only after a successful
     * initialization does an allocation failure give AllocateTensorsError;
     * an interpreter exists only when both succeeded. The native calls
     * place their structures in the arena, so its contents afterwards are
     * not specified.
     */
    static method New(model: Model, resolver: MutableOpResolver, tensorArena: array<Interop.byte>, engine: NativeEngine)
      returns (r: Result<MicroInterpreter, Error>)
      modifies tensorArena
      ensures r == Failure(InterpreterInitError) <==> engine.initializationStatus != Ok
      ensures r == Failure(AllocateTensorsError) <==>
        engine.initializationStatus == Ok && engine.allocateTensorsStatus != Ok
      ensures r.Success? <==> engine.initializationStatus == Ok && engine.allocateTensorsStatus == Ok
      ensures r.Success? ==> r.value.inputs == engine.inputs && r.value.outputs == engine.outputs
    {
      var ops := resolver.ToInner();
      var tensorArenaSize := tensorArena.Length;
      var initStatus, allocateStatus := NativeCreate(engine);
      if initStatus != Ok {
        return Failure(InterpreterInitError);
      }
      if allocateStatus != Ok {
        return Failure(AllocateTensorsError);
      }
      var interpreter := new MicroInterpreter.FromEngine(engine);
      return Success(interpreter);
    }

    /**
     * `input_info(n)`: panics when the engine has no n-th input (a null
     * pointer) or its element type is unrepresentable; otherwise the
     * description of that tensor.
     */
    method InputInfo(n: nat) returns (info: TensorInfo)
      requires n < |inputs|
      requires TensorInfoFrom(inputs[n].inner).Success?
      ensures TypeTag(info.elementType) == inputs[n].inner.type_
      ensures info.dims == inputs[n].inner.dims.data[..inputs[n].inner.dims.size]
    {
      var inputTensor := inputs[n];
      var converted := TensorInfoFrom(inputTensor.inner);
      info := converted.value;
    }

    /**
     * `input(n, data)`: an unrepresentable element type is an error before
     * anything else; a length that differs from the i32 product of the dims
     * is InputDataLenMismatch and leaves the tensor as it was; otherwise the
     * tensor's storage becomes a copy of data. Panics (preconditions): no
     * n-th input, a data length beyond i32, and storage whose length differs
     * from the data it is cloned from.
     */
    method Input(n: nat, data: seq<int>) returns (r: Result<(), Error>)
      requires n < |inputs|
      requires TensorInfoFrom(inputs[n].inner).Success? ==> |data| < TWO_31
      requires TensorInfoFrom(inputs[n].inner).Success? &&
               DimsProduct(TensorInfoFrom(inputs[n].inner).value.dims) == |data| ==>
               inputs[n].data.Length == |data|
      modifies inputs[n].data
      ensures TensorInfoFrom(inputs[n].inner).Failure? ==>
        r == Failure(ElementTypeUnimplemented) && unchanged(inputs[n].data)
      ensures TensorInfoFrom(inputs[n].inner).Success? ==>
        var info := TensorInfoFrom(inputs[n].inner).value;
        (DimsProduct(info.dims) != |data| ==> r == Failure(InputDataLenMismatch) && unchanged(inputs[n].data)) &&
        (DimsProduct(info.dims) == |data| ==> r == Success(()) && inputs[n].data[..] == data)
    {
      var inputTensor := inputs[n];
      var converted := TensorInfoFrom(inputTensor.inner);
      if converted.Failure? {
        return Failure(converted.error);
      }
      var tensorInfo := converted.value;
      var tensorLen := DimsProduct(tensorInfo.dims);
      if tensorLen != |data| {
        return Failure(InputDataLenMismatch);
      }
      var storage := inputTensor.data;
      forall i | 0 <= i < storage.Length {
        storage[i] := data[i];
      }
      return Success(());
    }

    /**
     * `invoke()`: Ok exactly when the engine reports kTfLiteOk, otherwise
     * that same status. The kernels work inside the whole arena, so the
     * storage of every input and output tensor may be overwritten; what it
     * holds afterwards is not specified.
     */
    method Invoke(nativeStatus: Status) returns (r: Result<(), Status>)
      modifies (set i | 0 <= i < |inputs| :: inputs[i].data) + (set i | 0 <= i < |outputs| :: outputs[i].data)
      ensures r.Success? <==> nativeStatus == Ok
      ensures r.Failure? ==> r.error == nativeStatus
    {
      if nativeStatus == Ok {
        r := Success(());
      } else {
        r := Failure(nativeStatus);
      }
    }

    /** `output(n)`: panics when the engine has no n-th output; otherwise that tensor. */
    method Output(n: nat) returns (t: Tensor)
      requires n < |outputs|
      ensures t == outputs[n]
    {
      t := outputs[n];
    }

    /** `arena_used_bytes()`: the figure the native engine reports. */
    function ArenaUsedBytes(): nat {
      arenaUsedBytes
    }
  }
}
