/**
 * The operators a resolver can be asked to register. There is one
 * constructor per builder method `add_<name>` of the resolver, named after
 * the native registration it calls (`add_abs` calls AddAbs and registers
 * Abs, `add_fully_connected` calls AddFullyConnected and registers
 * FullyConnected).
 */
module Operators {

  datatype Operator =
    | Abs
    | Add
    | AddN
    | ArgMax
    | ArgMin
    | AssignVariable
    | AveragePool2D
    | BatchMatMul
    | BatchToSpaceNd
    | BroadcastArgs
    | BroadcastTo
    | CallOnce
    | Cast
    | Ceil
    | CircularBuffer
    | Concatenation
    | Conv2D
    | Cos
    | CumSum
    | Delay
    | DepthToSpace
    | DepthwiseConv2D
    | Dequantize
    | DetectionPostprocess
    | Div
    | EmbeddingLookup
    | Energy
    | Elu
    | Equal
    | EthosU
    | Exp
    | ExpandDims
    | FftAutoScale
    | Fill
    | FilterBank
    | FilterBankLog
    | FilterBankSquareRoot
    | FilterBankSpectralSubtraction
    | Floor
    | FloorDiv
    | FloorMod
    | Framer
    | FullyConnected
    | Gather
    | GatherNd
    | Greater
    | GreaterEqual
    | HardSwish
    | If
    | Irfft
    | L2Normalization
    | L2Pool2D
    | LeakyRelu
    | Less
    | LessEqual
    | Log
    | LogicalAnd
    | LogicalNot
    | LogicalOr
    | Logistic
    | LogSoftmax
    | Maximum
    | MaxPool2D
    | MirrorPad
    | Mean
    | Minimum
    | Mul
    | Neg
    | NotEqual
    | OverlapAdd
    | Pack
    | PadV2
    | PCAN
    | Prelu
    | Quantize
    | ReadVariable
    | ReduceMax
    | Relu
    | Relu6
    | Reshape
    | ResizeBilinear
    | ResizeNearestNeighbor
    | Rfft
    | Round
    | Rsqrt
    | SelectV2
    | Shape
    | Sin
    | Slice
    | Softmax
    | SpaceToBatchNd
    | SpaceToDepth
    | Split
    | SplitV
    | Squeeze
    | Sqrt
    | Square
    | SquaredDifference
    | StridedSlice
    | Stacker
    | Sub
    | Sum
    | Svdf
    | Tanh
    | TransposeConv
    | Unpack
    | UnidirectionalSequenceLSTM
    | VarHandle
    | While
    | Window
    | ZerosLike
}
