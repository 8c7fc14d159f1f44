# tfmicro core, modelled in Dafny

A model of the Rust layer of tfmicro, which runs TensorFlow Lite Micro
models on devices with one caller-supplied memory arena. The layer has four
parts, and each one is a module here:

- **MicroOpResolver** (`micro_op_resolver.dfy`, with the operator list in
  `operators.dfy`). `MutableOpResolver` is a bounded builder with capacity
  128. Every `add_<op>` method checks the count, panics when the capacity is
  reached, counts one more operator, asks the native resolver to register
  it and returns the same resolver. All 111 `add_<op>` methods share one body,
  so they are modelled by one method, `AddOperator(op)`. The datatype
  `Operator` has one constructor per builder method. The class is proved
  against the functional specification `AddStep`/`AddChain` over
  `ResolverState`. The lemmas about that specification give the capacity
  arithmetic.
- **MicroInterpreter** (`micro_interpreter.dfy`). This covers construction in
  two stages (initialization, then allocation only if initialization
  succeeded), `input_info`, `input`, `invoke` and `output`. The native
  engine is an abstract collaborator. The value `NativeEngine` gives the
  statuses and tensors its calls report, and `Invoke` receives the native
  status as a parameter. Input tensor storage is an `array` that `Input`
  overwrites in place.
- **Tensors** (`tensor.dfy`). This is the conversion of a native
  `TfLiteTensor` descriptor into `TensorInfo`: a fallible mapping from the
  type tag to the closed `ElementType` set, plus the dims view.
- **Interop** (`interop.dfy`). These are the C `strcmp` and `strncmp`
  bodies that the crate compiles into the native engine (section 7.24.4.2
  and section 7.24.4.4 of ISO/IEC 9899:2011). They are pointer-walking loops
  over NUL-terminated byte arrays. Under `-funsigned-char` their results are
  unsigned-byte differences. They are proved against an independent
  lexicographic order, `LexLess`.

`wrappers.dfy` holds Option and Result. `errors.dfy` holds the crate's
`Error` variants that the core raises and the engine's `TfLiteStatus`.

Rust panics are preconditions: `assert!`, a null tensor pointer, `unwrap`,
and `clone_from_slice` on slices of different lengths. The resolver's panic
is also the outcome `None` of `AddStep`, so the lemmas can state that the
129th add panics.

## Model

| member | source | states |
|---|---|---|
| Interop.Strlen | src/interop.rs:62 | the index strcmp's walk treats as the end of a string: a NUL, with no NUL before it |
| Interop.StrnLen | src/interop.rs:71-72 | the count of bytes strncmp treats as content: at most n, none from the first NUL on, and within the array whenever the array is readable for n bytes |
| Interop.LexAt | src/interop.rs:62-63 | two strings that agree up to position k and no further are equal only if both end at k; otherwise the earlier end, or the smaller unsigned byte at k, sorts first |
| Interop.LexLessIrreflexive | src/interop.rs:63 | the byte order that the results are stated against is irreflexive |
| Interop.LexLessAsymmetric | src/interop.rs:63 | two strings are never each below the other in that order |
| Interop.LexLessTotal | src/interop.rs:63 | that order is total: of two different strings one is below the other; with asymmetry and irreflexivity, exactly one of equal, below and above holds |
| Interop.CStringNOfLongBound | src/interop.rs:69-74 | for an n past the terminator, strncmp's bounded string is the whole C string, so strncmp then agrees with strcmp |
| Interop.Strcmp | src/interop.rs:60-64 | strcmp returns 0 exactly for equal C strings a negative value exactly when l sorts first and a positive value exactly when r sorts first, in unsigned-byte order; the result lies in -255..255; its loop invariant keeps the walk within both terminators |
| Interop.Strncmp | src/interop.rs:69-74 | strncmp returns 0 for n = 0 without reading; otherwise it returns 0 exactly when the strings agree on their first n bytes up to a NUL, a negative value exactly when l's bounded string sorts first and a positive value exactly when r's does; its loop invariant keeps every read below index n |
| MicroOpResolver.EmptyStateIsEmpty | src/micro_op_resolver.rs:61-79 | `empty()` has len 0, capacity 128, nothing registered, and satisfies the invariant |
| MicroOpResolver.AddStepPreservesConsistent | src/micro_op_resolver.rs:40-48 | one add succeeds exactly when len < capacity; it then keeps len <= capacity, adds exactly 1, keeps the capacity and appends only its own operator |
| MicroOpResolver.AddChainOutcome | src/operators.rs:8-17 | a chain of adds from a consistent state succeeds exactly when it fits the remaining capacity, and then counts and registers every operator named, in order |
| MicroOpResolver.ChainFromEmpty | src/micro_op_resolver.rs:90-179 | from `empty()`, n <= 128 chained adds never panic and give len() == n with exactly those operators registered; longer chains panic |
| MicroOpResolver.OneOverCapacityPanics | src/micro_op_resolver.rs:41-45 | after 128 successful adds, the 129th panics whichever operator it names |
| MicroOpResolver.NoDeduplication | src/operators.rs:9 | adding the same operator twice counts twice and sends two registration requests for it |
| MicroOpResolver.MutableOpResolver.Empty | src/micro_op_resolver.rs:61-79 | a new resolver in the state `EmptyState()`: len 0, capacity 128, nothing registered |
| MicroOpResolver.MutableOpResolver.Default | src/micro_op_resolver.rs:28-32 | `default()` yields a fresh resolver in exactly the state of `empty()` |
| MicroOpResolver.MutableOpResolver.ToInner | src/micro_op_resolver.rs:35-37 | hands over the native resolver unchanged, having received one registration request per counted operator |
| MicroOpResolver.MutableOpResolver.CheckThenIncLen | src/micro_op_resolver.rs:40-48 | requires len < capacity (otherwise it panics); increases len by exactly 1 and keeps len <= capacity; only len may change |
| MicroOpResolver.MutableOpResolver.Len | src/micro_op_resolver.rs:51-53 | for a valid resolver, len() is the number of registered operators and at most the capacity |
| MicroOpResolver.MutableOpResolver.IsEmpty | src/micro_op_resolver.rs:56-58 | is_empty() holds iff len() == 0, that is, iff nothing has been registered |
| MicroOpResolver.MutableOpResolver.AddOperator | src/operators.rs:8-17 | every `add_<op>`: the capacity check comes first; then len + 1, the same capacity and exactly op appended, as `AddStep` specifies; the same resolver is returned and stays valid |
| MicroOpResolver.MicroSpeechResolver | tests/micro_speech.rs:48-52 | the example's four-operator chain from `empty()` leaves len() == 4, is not empty, and matches `AddChain` |
| Tensors.FromTagOfTypeTag | src/tensor/info.rs:31-34 | every element type converts back from its own native tag |
| Tensors.TypeTagOfFromTag | src/tensor/info.rs:31-34 | a tag converts exactly when some element type has it, and the conversion then yields that type |
| Tensors.TensorInfoFrom | src/tensor/info.rs:29-43 | fails with ElementTypeUnimplemented iff the tag has no element type; on success the element type carries the tag, and the dims are exactly the first `dims.size` native entries, in order |
| MicroInterpreter.DimsProductIsWrappedProduct | src/micro_interpreter.rs:241-242 | the i32 product the crate computes is the true product of the dims, truncated to 32 bits |
| MicroInterpreter.DimsProductExact | src/micro_interpreter.rs:242-244 | when the true element count fits in an i32, the length check compares data.len() with that exact count |
| MicroInterpreter.NativeCreate | src/micro_interpreter.rs:123-154 | both statuses start as kTfLiteError; init_status is the engine's; AllocateTensors runs, and sets allocate_status, only when init succeeded |
| MicroInterpreter.MicroInterpreter.New | src/micro_interpreter.rs:113-169 | InterpreterInitError iff init failed, whatever the allocation; AllocateTensorsError iff init succeeded and allocation failed; an interpreter over the engine's tensors iff both succeeded; the arena may be written, with contents left unspecified |
| MicroInterpreter.MicroInterpreter.InputInfo | src/micro_interpreter.rs:178-199 | panics on a missing input or an unrepresentable type; otherwise the element type has the tensor's tag and the dims are the tensor's dims |
| MicroInterpreter.MicroInterpreter.Input | src/micro_interpreter.rs:215-250 | an unrepresentable type is ElementTypeUnimplemented before any check or write; a length other than the i32 dims product is InputDataLenMismatch with the buffer unchanged; otherwise the buffer equals data element for element; only that buffer may change |
| MicroInterpreter.MicroInterpreter.Invoke | src/micro_interpreter.rs:259-274 | Ok iff the engine status is kTfLiteOk; otherwise an error carrying that same status; the storage of the input and output tensors may be overwritten, with contents left unspecified |
| MicroInterpreter.MicroInterpreter.Output | src/micro_interpreter.rs:282-299 | panics on a missing output (null pointer); otherwise returns the engine's n-th output tensor |

## Left out

- The native engine is not modelled. This covers arena planning in `AllocateTensors`, kernel execution in `Invoke`, and the native resolver's own handling of its `AddX()` registrations. It also covers the RTTI stubs, `__cxa_*`, `__errno`, `__assert_func` and `operator delete` in `src/interop.rs`. These are foreign code or ABI plumbing. The engine appears only through the statuses and tensors it reports. The status `AddX()` returns is ignored by every builder method (src/operators.rs:12-14), and the native resolver may refuse a registration, for instance a duplicate; so `len` counts registration requests and may exceed the kernels actually registered.
- MicroInterpreter.MicroInterpreter.Invoke: the kernels may overwrite the storage of every input and output tensor. The model leaves those contents unspecified, and how an input reaches the outputs is not modelled. What the kernels compute is native code.
- MicroInterpreter.MicroInterpreter.ArenaUsedBytes: returns the figure the native engine reports, and nothing is proved about it. The figure comes from the native planner.
- MicroInterpreter.MicroInterpreter.Input: `iter().product::<i32>()` wraps on overflow, as in a release build. A debug build panics on that overflow instead, and that panic is not modelled.
- MicroInterpreter.MicroInterpreter.Input: element storage holds one `int` per element. The reinterpretation of arena bytes as the caller's `T` (`as_data_mut`) is not modelled, and neither are floating-point values. Whether `T` matches the tensor's element type is not modelled either, because the crate leaves that to the caller.
- MicroInterpreter.MicroInterpreter.New: the native constructor and `AllocateTensors` may write the tensor arena, and the model leaves its contents afterwards unspecified. Tensor storage is a separate array per tensor, so aliasing between tensors in the arena is not modelled.
- Lifetimes and `PhantomData` (src/micro_interpreter.rs:82-88, 113-117) are not modelled. Rust's type system enforces them; they are not runtime logic.
- `Model::from_buffer` (src/model.rs) is not part of this model. `Model` is an opaque validated buffer.
- src/tensor/mod.rs is not part of this model. It defines `ElementType`, `Tensor::info` and `as_data`. The model assumes that `ElementType` has the TfLiteType tags 0 to 10, from NoType to Float16. The conversion result and its iff-property hold for whichever closed set is used.
- Tensors.TensorInfoFrom: in the source the dims are borrowed, not copied, and the model returns them as a value. The descriptor is a value in the model, so the conversion cannot modify it.
- Tensors.TensorInfoFrom: the `Dims` type excludes a negative size and a size beyond the entries present. The source's `dims.size as usize` (src/tensor/info.rs:40) would turn a negative size into a huge slice length, which is undefined behaviour; the model relies on the native engine producing well-formed arrays.
- The conversion from `TfLiteStatus` to the crate's `Status` (src/lib.rs) is not part of this model. It is taken as the identity on variants.
- The `fmt::Debug` implementations are not modelled, because they only format output.
- The opaque byte layout of the inner resolver (src/micro_op_resolver.rs:10-14) is not modelled, because it is only ABI sizing.
- Interop.Strcmp and Interop.Strncmp: each string is read from index 0 of its own array. Null pointers and pointers into the middle of a buffer are not modelled.
- Interop.Strncmp: `Readable` asks slightly more than C does. It requires n bytes, or a NUL somewhere in each array, whereas C only needs each string readable up to where the comparison stops. For example l = [NUL], r = ['x'], n = 5 is fine in C, because the walk stops at index 0, but it is excluded here.
- build/ and the end-to-end tests are not modelled. They are build-time I/O, and the tests depend on model weights and native kernels.
