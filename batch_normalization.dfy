/**
 * The WebNN batchNormalization conformance tests: a table of fixtures, each a
 * graph with named input tensors, one batchNormalization operator and the
 * expected output tensor, plus the precision tolerance the actual output is
 * compared under.  Tensor elements are kept as the exact decimal literals of
 * the table; they are only compared and rearranged, never computed with.
 */
module BatchNormalizationTests {
  import opened Wrappers

  /** Shape and element type of a tensor. */
  datatype OperandDescriptor = OperandDescriptor(shape: seq<nat>, dataType: string)

  /**
   * A tensor of the table: its elements in row-major order, its descriptor,
   * and whether the graph builds it as a constant (a missing flag is false).
   */
  datatype Operand = Operand(data: seq<real>, descriptor: OperandDescriptor, constant: bool)

  /**
   * The MLBatchNormalizationOptions a fixture passes; `scale` and `bias` name
   * graph inputs.  Members the fixture leaves out are None, and a fixture
   * without options has them all None.
   */
  datatype BatchNormOptions =
    BatchNormOptions(scale: Option<string>, bias: Option<string>, axis: Option<nat>, epsilon: Option<real>)

  const NoOptions: BatchNormOptions := BatchNormOptions(None, None, None, None)

  /** Defaults of the `axis` and `epsilon` members of MLBatchNormalizationOptions. */
  const DefaultAxis: nat := 1
  const DefaultEpsilon: real := 0.00001

  /** The one operator of a fixture: operand names for input, mean and variance, its options and the output name. */
  datatype Operator =
    Operator(name: string, input: string, mean: string, variance: string, options: BatchNormOptions, outputs: string)

  datatype Graph = Graph(inputs: map<string, Operand>, operators: seq<Operator>, expectedOutputs: map<string, Operand>)

  datatype BatchNormTest = BatchNormTest(name: string, graph: Graph)

  /** How far the actual output may be from the expected one; no value means no tolerance is defined. */
  datatype Tolerance = Tolerance(metricType: string, value: Option<nat>)

  /** Allowed distance, in units in the last place, per output data type. */
  const ToleranceValues: map<string, nat> := map["float32" := 6, "float16" := 6]

  /**
   * The tolerance for a graph whose single expected output has data type
   * `expectedDataType`: always measured in ULP, 6 of them for float32 and
   * float16, and undefined for any other data type.
   */
  function BatchNormPrecisionTolerance(expectedDataType: string): (t: Tolerance)
    ensures t.metricType == "ULP"
    ensures t.value.Some? <==> expectedDataType == "float32" || expectedDataType == "float16"
    ensures t.value.Some? ==> t.value.value == 6
  {
    Tolerance("ULP", if expectedDataType in ToleranceValues then Some(ToleranceValues[expectedDataType]) else None)
  }

  /** Number of elements of a tensor of the given shape. */
  function Product(shape: seq<nat>): nat
  {
    ProductFrom(shape, 0)
  }
  /** Product of the dimensions of `shape` from index `i` on. */
  function ProductFrom(shape: seq<nat>, i: nat): nat
    requires i <= |shape|
    decreases |shape| - i
  {
    if i == |shape| then 1 else shape[i] * ProductFrom(shape, i + 1)
  }

  /** The dimension of the input that holds the channels. */
  function Axis(options: BatchNormOptions): nat
  {
    options.axis.GetOr(DefaultAxis)
  }

  /** The epsilon added to the variance. */
  function Epsilon(options: BatchNormOptions): real
  {
    options.epsilon.GetOr(DefaultEpsilon)
  }

  /** The tensor holds exactly as many elements as its shape calls for. */
  predicate WellSized(o: Operand)
  {
    |o.data| == Product(o.descriptor.shape)
  }

  /** Names of the graph inputs the operator reads. */
  function OperandNames(op: Operator): set<string>
  {
    {op.input, op.mean, op.variance}
    + (if op.options.scale.Some? then {op.options.scale.value} else {})
    + (if op.options.bias.Some? then {op.options.bias.value} else {})
  }

  /**
   * `o` holds one value per channel of `input`, the channels lying along
   * dimension `axis`: it is one-dimensional, of that length, and of the
   * input's data type.
   */
  predicate PerChannel(o: Operand, input: Operand, axis: nat)
    requires axis < |input.descriptor.shape|
  {
    o.descriptor == OperandDescriptor([input.descriptor.shape[axis]], input.descriptor.dataType) &&
    |o.data| == input.descriptor.shape[axis]
  }

  /**
   * What a batchNormalization fixture must satisfy to be a meaningful test:
   * one batchNormalization operator whose operands are exactly the graph
   * inputs and whose output is exactly the expected output; the input holds
   * as many elements as its shape; the channel axis (1 unless the options say
   * otherwise) is a dimension of the input; mean, variance, scale and bias
   * hold one value per channel; and the expected output has the input's
   * shape and data type and as many elements as that shape.
   */
  predicate ValidBatchNormTest(t: BatchNormTest)
  {
    var g := t.graph;
    |g.operators| == 1 &&
    var op := g.operators[0];
    op.name == "batchNormalization" &&
    g.inputs.Keys == OperandNames(op) &&
    g.expectedOutputs.Keys == {op.outputs} &&
    var input := g.inputs[op.input];
    var axis := Axis(op.options);
    WellSized(input) &&
    axis < |input.descriptor.shape| &&
    PerChannel(g.inputs[op.mean], input, axis) &&
    PerChannel(g.inputs[op.variance], input, axis) &&
    (op.options.scale.Some? ==> PerChannel(g.inputs[op.options.scale.value], input, axis)) &&
    (op.options.bias.Some? ==> PerChannel(g.inputs[op.options.bias.value], input, axis)) &&
    var output := g.expectedOutputs[op.outputs];
    output.descriptor == input.descriptor &&
    WellSized(output)
  }

  const Test2DNonConstantStatistics: BatchNormTest := BatchNormTest(
    "batchNormalization float32 2D tensor (mean and variance are non-constant) default options",
    Graph(
      map[
        "bnInput" := Operand(Test2DNonConstantStatisticsInput, OperandDescriptor([4, 6], "float32"), false),
        "bnMean" := Operand(Test2DNonConstantStatisticsMean, OperandDescriptor([6], "float32"), false),
        "bnVariance" := Operand(Test2DNonConstantStatisticsVariance, OperandDescriptor([6], "float32"), false)],
      [Operator("batchNormalization", "bnInput", "bnMean", "bnVariance",
                NoOptions, "bnOutput")],
      map[
        "bnOutput" := Operand(Test2DNonConstantStatisticsOutput, OperandDescriptor([4, 6], "float32"), false)]))

  const Test2DNonConstantStatisticsInput: seq<real> := [
    -41.30733108520508, 64.08863830566406, -63.376670837402344, -46.790367126464844,
    83.02227020263672, -80.08049011230469, -62.144378662109375, -0.10012771934270859,
    -40.90216064453125, 56.96306228637695, 37.37249755859375, 57.046478271484375,
    82.05680084228516, -86.1164321899414, 76.8831787109375, 97.03362274169922,
    -21.35103988647461, -96.93824005126953, -9.359310150146484, 80.20824432373047,
    -85.36802673339844, 62.35185241699219, -68.4724349975586, -12.10716724395752]

  const Test2DNonConstantStatisticsMean: seq<real> := [
    -7.814267635345459, -95.64129638671875, 38.15440368652344, -55.95203399658203,
    -87.86500549316406, -41.63645553588867]

  const Test2DNonConstantStatisticsVariance: seq<real> := [
    60.31186294555664, 26.43260383605957, 53.275634765625, 40.146121978759766,
    59.41098403930664, 35.99981689453125]

  const Test2DNonConstantStatisticsOutput: seq<real> := [
    -4.312741756439209, 31.068212509155273, -13.910240173339844, 1.4459478855133057,
    22.170541763305664, -6.407354354858398, -6.995829105377197, 18.583200454711914,
    -10.831125259399414, 17.820920944213867, 16.2480411529541, 16.447195053100586,
    11.57226848602295, 1.8526301383972168, 5.306026458740234, 24.145092010498047,
    8.629376411437988, -9.216986656188965, -0.1989477425813675, 34.203548431396484,
    -16.923160552978516, 18.671411514282227, 2.5159497261047363, 4.921559810638428]

  const Test2DConstant: BatchNormTest := BatchNormTest(
    "batchNormalization float32 2D constant tensor default options",
    Graph(
      map[
        "bnInput" := Operand(Test2DConstantInput, OperandDescriptor([4, 6], "float32"), true),
        "bnMean" := Operand(Test2DConstantMean, OperandDescriptor([6], "float32"), true),
        "bnVariance" := Operand(Test2DConstantVariance, OperandDescriptor([6], "float32"), true)],
      [Operator("batchNormalization", "bnInput", "bnMean", "bnVariance",
                NoOptions, "bnOutput")],
      map[
        "bnOutput" := Operand(Test2DConstantOutput, OperandDescriptor([4, 6], "float32"), false)]))

  const Test2DConstantInput: seq<real> := [
    -41.30733108520508, 64.08863830566406, -63.376670837402344, -46.790367126464844,
    83.02227020263672, -80.08049011230469, -62.144378662109375, -0.10012771934270859,
    -40.90216064453125, 56.96306228637695, 37.37249755859375, 57.046478271484375,
    82.05680084228516, -86.1164321899414, 76.8831787109375, 97.03362274169922,
    -21.35103988647461, -96.93824005126953, -9.359310150146484, 80.20824432373047,
    -85.36802673339844, 62.35185241699219, -68.4724349975586, -12.10716724395752]

  const Test2DConstantMean: seq<real> := [
    -7.814267635345459, -95.64129638671875, 38.15440368652344, -55.95203399658203,
    -87.86500549316406, -41.63645553588867]

  const Test2DConstantVariance: seq<real> := [
    60.31186294555664, 26.43260383605957, 53.275634765625, 40.146121978759766,
    59.41098403930664, 35.99981689453125]

  const Test2DConstantOutput: seq<real> := [
    -4.312741756439209, 31.068212509155273, -13.910240173339844, 1.4459478855133057,
    22.170541763305664, -6.407354354858398, -6.995829105377197, 18.583200454711914,
    -10.831125259399414, 17.820920944213867, 16.2480411529541, 16.447195053100586,
    11.57226848602295, 1.8526301383972168, 5.306026458740234, 24.145092010498047,
    8.629376411437988, -9.216986656188965, -0.1989477425813675, 34.203548431396484,
    -16.923160552978516, 18.671411514282227, 2.5159497261047363, 4.921559810638428]

  const Test2D: BatchNormTest := BatchNormTest(
    "batchNormalization float32 2D tensor default options",
    Graph(
      map[
        "bnInput" := Operand(Test2DInput, OperandDescriptor([4, 6], "float32"), false),
        "bnMean" := Operand(Test2DMean, OperandDescriptor([6], "float32"), true),
        "bnVariance" := Operand(Test2DVariance, OperandDescriptor([6], "float32"), true)],
      [Operator("batchNormalization", "bnInput", "bnMean", "bnVariance",
                NoOptions, "bnOutput")],
      map[
        "bnOutput" := Operand(Test2DOutput, OperandDescriptor([4, 6], "float32"), false)]))

  const Test2DInput: seq<real> := [
    -41.30733108520508, 64.08863830566406, -63.376670837402344, -46.790367126464844,
    83.02227020263672, -80.08049011230469, -62.144378662109375, -0.10012771934270859,
    -40.90216064453125, 56.96306228637695, 37.37249755859375, 57.046478271484375,
    82.05680084228516, -86.1164321899414, 76.8831787109375, 97.03362274169922,
    -21.35103988647461, -96.93824005126953, -9.359310150146484, 80.20824432373047,
    -85.36802673339844, 62.35185241699219, -68.4724349975586, -12.10716724395752]

  const Test2DMean: seq<real> := [
    -7.814267635345459, -95.64129638671875, 38.15440368652344, -55.95203399658203,
    -87.86500549316406, -41.63645553588867]

  const Test2DVariance: seq<real> := [
    60.31186294555664, 26.43260383605957, 53.275634765625, 40.146121978759766,
    59.41098403930664, 35.99981689453125]

  const Test2DOutput: seq<real> := [
    -4.312741756439209, 31.068212509155273, -13.910240173339844, 1.4459478855133057,
    22.170541763305664, -6.407354354858398, -6.995829105377197, 18.583200454711914,
    -10.831125259399414, 17.820920944213867, 16.2480411529541, 16.447195053100586,
    11.57226848602295, 1.8526301383972168, 5.306026458740234, 24.145092010498047,
    8.629376411437988, -9.216986656188965, -0.1989477425813675, 34.203548431396484,
    -16.923160552978516, 18.671411514282227, 2.5159497261047363, 4.921559810638428]

  const Test3D: BatchNormTest := BatchNormTest(
    "batchNormalization float32 3D tensor default options",
    Graph(
      map[
        "bnInput" := Operand(Test3DInput, OperandDescriptor([2, 3, 4], "float32"), false),
        "bnMean" := Operand(Test3DMean, OperandDescriptor([3], "float32"), true),
        "bnVariance" := Operand(Test3DVariance, OperandDescriptor([3], "float32"), true)],
      [Operator("batchNormalization", "bnInput", "bnMean", "bnVariance",
                NoOptions, "bnOutput")],
      map[
        "bnOutput" := Operand(Test3DOutput, OperandDescriptor([2, 3, 4], "float32"), false)]))

  const Test3DInput: seq<real> := [
    -41.30733108520508, 64.08863830566406, -63.376670837402344, -46.790367126464844,
    83.02227020263672, -80.08049011230469, -62.144378662109375, -0.10012771934270859,
    -40.90216064453125, 56.96306228637695, 37.37249755859375, 57.046478271484375,
    82.05680084228516, -86.1164321899414, 76.8831787109375, 97.03362274169922,
    -21.35103988647461, -96.93824005126953, -9.359310150146484, 80.20824432373047,
    -85.36802673339844, 62.35185241699219, -68.4724349975586, -12.10716724395752]

  const Test3DMean: seq<real> := [
    12.810380935668945, 63.13715362548828, -61.62983322143555]

  const Test3DVariance: seq<real> := [
    18.358240127563477, 41.847232818603516, 16.12828254699707]

  const Test3DOutput: seq<real> := [
    -12.630594253540039, 11.967890739440918, -17.781383514404297, -13.910285949707031,
    3.0739352703094482, -22.139259338378906, -19.36661148071289, -9.775517463684082,
    5.161267280578613, 29.53006935119629, 24.651947021484375, 29.550840377807617,
    16.161500930786133, -23.088642120361328, 14.954023361206055, 19.656957626342773,
    -13.06058406829834, -24.745210647583008, -11.206846237182617, 2.638929843902588,
    -5.910898208618164, 30.871898651123047, -1.7038332223892212, 12.331327438354492]

  const Test4D: BatchNormTest := BatchNormTest(
    "batchNormalization float32 4D tensor default options",
    Graph(
      map[
        "bnInput" := Operand(Test4DInput, OperandDescriptor([2, 3, 2, 2], "float32"), false),
        "bnMean" := Operand(Test4DMean, OperandDescriptor([3], "float32"), true),
        "bnVariance" := Operand(Test4DVariance, OperandDescriptor([3], "float32"), true)],
      [Operator("batchNormalization", "bnInput", "bnMean", "bnVariance",
                NoOptions, "bnOutput")],
      map[
        "bnOutput" := Operand(Test4DOutput, OperandDescriptor([2, 3, 2, 2], "float32"), false)]))

  const Test4DInput: seq<real> := [
    -41.30733108520508, 64.08863830566406, -63.376670837402344, -46.790367126464844,
    83.02227020263672, -80.08049011230469, -62.144378662109375, -0.10012771934270859,
    -40.90216064453125, 56.96306228637695, 37.37249755859375, 57.046478271484375,
    82.05680084228516, -86.1164321899414, 76.8831787109375, 97.03362274169922,
    -21.35103988647461, -96.93824005126953, -9.359310150146484, 80.20824432373047,
    -85.36802673339844, 62.35185241699219, -68.4724349975586, -12.10716724395752]

  const Test4DMean: seq<real> := [
    51.629150390625, 99.36075592041016, -96.1473617553711]

  const Test4DVariance: seq<real> := [
    30.448015213012695, 86.36219024658203, 73.88455200195312]

  const Test4DOutput: seq<real> := [
    -16.842504501342773, 2.2579827308654785, -20.842041015625, -17.836172103881836,
    -1.7581257820129395, -19.30902862548828, -17.37898826599121, -10.702629089355469,
    6.4271392822265625, 17.812623977661133, 15.533489227294922, 17.822328567504883,
    5.514280319213867, -24.963077545166016, 4.576685905456543, 8.228469848632812,
    -12.989363670349121, -21.123029708862305, -11.698976516723633, -2.0609331130981445,
    1.2540507316589355, 18.43954849243164, 3.2196571826934814, 9.777103424072266]

  const Test5D: BatchNormTest := BatchNormTest(
    "batchNormalization float32 5D tensor default options",
    Graph(
      map[
        "bnInput" := Operand(Test5DInput, OperandDescriptor([6, 1, 1, 2, 2], "float32"), false),
        "bnMean" := Operand(Test5DMean, OperandDescriptor([1], "float32"), true),
        "bnVariance" := Operand(Test5DVariance, OperandDescriptor([1], "float32"), true)],
      [Operator("batchNormalization", "bnInput", "bnMean", "bnVariance",
                NoOptions, "bnOutput")],
      map[
        "bnOutput" := Operand(Test5DOutput, OperandDescriptor([6, 1, 1, 2, 2], "float32"), false)]))

  const Test5DInput: seq<real> := [
    -41.30733108520508, 64.08863830566406, -63.376670837402344, -46.790367126464844,
    83.02227020263672, -80.08049011230469, -62.144378662109375, -0.10012771934270859,
    -40.90216064453125, 56.96306228637695, 37.37249755859375, 57.046478271484375,
    82.05680084228516, -86.1164321899414, 76.8831787109375, 97.03362274169922,
    -21.35103988647461, -96.93824005126953, -9.359310150146484, 80.20824432373047,
    -85.36802673339844, 62.35185241699219, -68.4724349975586, -12.10716724395752]

  const Test5DMean: seq<real> := [
    35.4078254699707]

  const Test5DVariance: seq<real> := [
    40.93109893798828]

  const Test5DOutput: seq<real> := [
    -11.990972518920898, 4.4829583168029785, -15.440524101257324, -12.847999572753906,
    7.442382335662842, -18.051416397094727, -15.247910499572754, -5.550075531005859,
    -11.927642822265625, 3.369194269180298, 0.30708834528923035, 3.382232427597046,
    7.291474342346191, -18.99486541748047, 6.4828104972839355, 9.632428169250488,
    -8.871702194213867, -20.686368942260742, -6.99733304977417, 7.002535343170166,
    -18.877885818481445, 4.211489677429199, -16.237018585205078, -7.42683744430542]

  const Test4DNchwAxis1: BatchNormTest := BatchNormTest(
    "batchNormalization float32 4D NCHW tensor options.axis=1",
    Graph(
      map[
        "bnInput" := Operand(Test4DNchwAxis1Input, OperandDescriptor([2, 3, 2, 2], "float32"), false),
        "bnMean" := Operand(Test4DNchwAxis1Mean, OperandDescriptor([3], "float32"), true),
        "bnVariance" := Operand(Test4DNchwAxis1Variance, OperandDescriptor([3], "float32"), true)],
      [Operator("batchNormalization", "bnInput", "bnMean", "bnVariance",
                BatchNormOptions(None, None, Some(1), None), "bnOutput")],
      map[
        "bnOutput" := Operand(Test4DNchwAxis1Output, OperandDescriptor([2, 3, 2, 2], "float32"), false)]))

  const Test4DNchwAxis1Input: seq<real> := [
    -41.30733108520508, 64.08863830566406, -63.376670837402344, -46.790367126464844,
    83.02227020263672, -80.08049011230469, -62.144378662109375, -0.10012771934270859,
    -40.90216064453125, 56.96306228637695, 37.37249755859375, 57.046478271484375,
    82.05680084228516, -86.1164321899414, 76.8831787109375, 97.03362274169922,
    -21.35103988647461, -96.93824005126953, -9.359310150146484, 80.20824432373047,
    -85.36802673339844, 62.35185241699219, -68.4724349975586, -12.10716724395752]

  const Test4DNchwAxis1Mean: seq<real> := [
    51.629150390625, 99.36075592041016, -96.1473617553711]

  const Test4DNchwAxis1Variance: seq<real> := [
    30.448015213012695, 86.36219024658203, 73.88455200195312]

  const Test4DNchwAxis1Output: seq<real> := [
    -16.842504501342773, 2.2579827308654785, -20.842041015625, -17.836172103881836,
    -1.7581257820129395, -19.30902862548828, -17.37898826599121, -10.702629089355469,
    6.4271392822265625, 17.812623977661133, 15.533489227294922, 17.822328567504883,
    5.514280319213867, -24.963077545166016, 4.576685905456543, 8.228469848632812,
    -12.989363670349121, -21.123029708862305, -11.698976516723633, -2.0609331130981445,
    1.2540507316589355, 18.43954849243164, 3.2196571826934814, 9.777103424072266]

  const Test4DNhwcAxis3: BatchNormTest := BatchNormTest(
    "batchNormalization float32 4D NHWC tensor options.axis=3",
    Graph(
      map[
        "bnInput" := Operand(Test4DNhwcAxis3Input, OperandDescriptor([2, 2, 2, 3], "float32"), false),
        "bnMean" := Operand(Test4DNhwcAxis3Mean, OperandDescriptor([3], "float32"), true),
        "bnVariance" := Operand(Test4DNhwcAxis3Variance, OperandDescriptor([3], "float32"), true)],
      [Operator("batchNormalization", "bnInput", "bnMean", "bnVariance",
                BatchNormOptions(None, None, Some(3), None), "bnOutput")],
      map[
        "bnOutput" := Operand(Test4DNhwcAxis3Output, OperandDescriptor([2, 2, 2, 3], "float32"), false)]))

  const Test4DNhwcAxis3Input: seq<real> := [
    -41.30733108520508, 83.02227020263672, -40.90216064453125, 64.08863830566406,
    -80.08049011230469, 56.96306228637695, -63.376670837402344, -62.144378662109375,
    37.37249755859375, -46.790367126464844, -0.10012771934270859, 57.046478271484375,
    82.05680084228516, -21.35103988647461, -85.36802673339844, -86.1164321899414,
    -96.93824005126953, 62.35185241699219, 76.8831787109375, -9.359310150146484,
    -68.4724349975586, 97.03362274169922, 80.20824432373047, -12.10716724395752]

  const Test4DNhwcAxis3Mean: seq<real> := [
    51.629150390625, 99.36075592041016, -96.1473617553711]

  const Test4DNhwcAxis3Variance: seq<real> := [
    30.448015213012695, 86.36219024658203, 73.88455200195312]

  const Test4DNhwcAxis3Output: seq<real> := [
    -16.842504501342773, -1.7581257820129395, 6.4271392822265625, 2.2579827308654785,
    -19.30902862548828, 17.812623977661133, -20.842041015625, -17.37898826599121,
    15.533489227294922, -17.836172103881836, -10.702629089355469, 17.822328567504883,
    5.514280319213867, -12.989363670349121, 1.2540507316589355, -24.963077545166016,
    -21.123029708862305, 18.43954849243164, 4.576685905456543, -11.698976516723633,
    3.2196571826934814, 8.228469848632812, -2.0609331130981445, 9.777103424072266]

  const Test4DNchwScale: BatchNormTest := BatchNormTest(
    "batchNormalization float32 4D NCHW tensor options.scale",
    Graph(
      map[
        "bnInput" := Operand(Test4DNchwScaleInput, OperandDescriptor([2, 3, 2, 2], "float32"), false),
        "bnMean" := Operand(Test4DNchwScaleMean, OperandDescriptor([3], "float32"), true),
        "bnVariance" := Operand(Test4DNchwScaleVariance, OperandDescriptor([3], "float32"), true),
        "bnScale" := Operand(Test4DNchwScaleScale, OperandDescriptor([3], "float32"), true)],
      [Operator("batchNormalization", "bnInput", "bnMean", "bnVariance",
                BatchNormOptions(Some("bnScale"), None, None, None), "bnOutput")],
      map[
        "bnOutput" := Operand(Test4DNchwScaleOutput, OperandDescriptor([2, 3, 2, 2], "float32"), false)]))

  const Test4DNchwScaleInput: seq<real> := [
    -41.30733108520508, 64.08863830566406, -63.376670837402344, -46.790367126464844,
    83.02227020263672, -80.08049011230469, -62.144378662109375, -0.10012771934270859,
    -40.90216064453125, 56.96306228637695, 37.37249755859375, 57.046478271484375,
    82.05680084228516, -86.1164321899414, 76.8831787109375, 97.03362274169922,
    -21.35103988647461, -96.93824005126953, -9.359310150146484, 80.20824432373047,
    -85.36802673339844, 62.35185241699219, -68.4724349975586, -12.10716724395752]

  const Test4DNchwScaleMean: seq<real> := [
    51.629150390625, 99.36075592041016, -96.1473617553711]

  const Test4DNchwScaleVariance: seq<real> := [
    30.448015213012695, 86.36219024658203, 73.88455200195312]

  const Test4DNchwScaleScale: seq<real> := [
    65.50171661376953, -71.007568359375, -5.569730758666992]

  const Test4DNchwScaleOutput: seq<real> := [
    -1103.212890625, 147.90174865722656, -1365.189453125, -1168.2999267578125,
    124.84024047851562, 1371.087158203125, 1234.0396728515625, 759.9676513671875,
    -35.79743576049805, -99.2115249633789, -86.51734924316406, -99.26557159423828,
    361.19482421875, -1635.1243896484375, 299.78076171875, 538.9788818359375,
    922.3430786132812, 1499.89501953125, 830.7158813476562, 146.3418426513672,
    -6.984724998474121, -102.70331573486328, -17.9326229095459, -54.455833435058594]

  const Test4DNchwBias: BatchNormTest := BatchNormTest(
    "batchNormalization float32 4D NCHW tensor options.bias",
    Graph(
      map[
        "bnInput" := Operand(Test4DNchwBiasInput, OperandDescriptor([2, 3, 2, 2], "float32"), false),
        "bnMean" := Operand(Test4DNchwBiasMean, OperandDescriptor([3], "float32"), true),
        "bnVariance" := Operand(Test4DNchwBiasVariance, OperandDescriptor([3], "float32"), true),
        "bnBias" := Operand(Test4DNchwBiasBias, OperandDescriptor([3], "float32"), true)],
      [Operator("batchNormalization", "bnInput", "bnMean", "bnVariance",
                BatchNormOptions(None, Some("bnBias"), None, None), "bnOutput")],
      map[
        "bnOutput" := Operand(Test4DNchwBiasOutput, OperandDescriptor([2, 3, 2, 2], "float32"), false)]))

  const Test4DNchwBiasInput: seq<real> := [
    -41.30733108520508, 64.08863830566406, -63.376670837402344, -46.790367126464844,
    83.02227020263672, -80.08049011230469, -62.144378662109375, -0.10012771934270859,
    -40.90216064453125, 56.96306228637695, 37.37249755859375, 57.046478271484375,
    82.05680084228516, -86.1164321899414, 76.8831787109375, 97.03362274169922,
    -21.35103988647461, -96.93824005126953, -9.359310150146484, 80.20824432373047,
    -85.36802673339844, 62.35185241699219, -68.4724349975586, -12.10716724395752]

  const Test4DNchwBiasMean: seq<real> := [
    51.629150390625, 99.36075592041016, -96.1473617553711]

  const Test4DNchwBiasVariance: seq<real> := [
    30.448015213012695, 86.36219024658203, 73.88455200195312]

  const Test4DNchwBiasBias: seq<real> := [
    64.2044677734375, 75.28591918945312, -84.57243347167969]

  const Test4DNchwBiasOutput: seq<real> := [
    47.36196517944336, 66.46244812011719, 43.3624267578125, 46.36829376220703,
    73.52779388427734, 55.976890563964844, 57.90693283081055, 64.58329010009766,
    -78.14529418945312, -66.75981140136719, -69.03894805908203, -66.75010681152344,
    69.71875, 39.241390228271484, 68.7811508178711, 72.43293762207031,
    62.29655456542969, 54.16288757324219, 63.586944580078125, 73.22498321533203,
    -83.3183822631836, -66.13288879394531, -81.35277557373047, -74.79533386230469]

  const Test4DNchwEpsilon: BatchNormTest := BatchNormTest(
    "batchNormalization float32 4D NCHW tensor options.epsilon",
    Graph(
      map[
        "bnInput" := Operand(Test4DNchwEpsilonInput, OperandDescriptor([2, 3, 2, 2], "float32"), false),
        "bnMean" := Operand(Test4DNchwEpsilonMean, OperandDescriptor([3], "float32"), true),
        "bnVariance" := Operand(Test4DNchwEpsilonVariance, OperandDescriptor([3], "float32"), true)],
      [Operator("batchNormalization", "bnInput", "bnMean", "bnVariance",
                BatchNormOptions(None, None, None, Some(0.000001)), "bnOutput")],
      map[
        "bnOutput" := Operand(Test4DNchwEpsilonOutput, OperandDescriptor([2, 3, 2, 2], "float32"), false)]))

  const Test4DNchwEpsilonInput: seq<real> := [
    -41.30733108520508, 64.08863830566406, -63.376670837402344, -46.790367126464844,
    83.02227020263672, -80.08049011230469, -62.144378662109375, -0.10012771934270859,
    -40.90216064453125, 56.96306228637695, 37.37249755859375, 57.046478271484375,
    82.05680084228516, -86.1164321899414, 76.8831787109375, 97.03362274169922,
    -21.35103988647461, -96.93824005126953, -9.359310150146484, 80.20824432373047,
    -85.36802673339844, 62.35185241699219, -68.4724349975586, -12.10716724395752]

  const Test4DNchwEpsilonMean: seq<real> := [
    51.629150390625, 99.36075592041016, -96.1473617553711]

  const Test4DNchwEpsilonVariance: seq<real> := [
    30.448015213012695, 86.36219024658203, 73.88455200195312]

  const Test4DNchwEpsilonOutput: seq<real> := [
    -16.842506408691406, 2.2579832077026367, -20.842044830322266, -17.8361759185791,
    -1.758125901222229, -19.309030532836914, -17.37898826599121, -10.702629089355469,
    6.427139759063721, 17.812625885009766, 15.533490180969238, 17.822330474853516,
    5.514281272888184, -24.96308135986328, 4.576686382293701, 8.228470802307129,
    -12.989363670349121, -21.123031616210938, -11.698976516723633, -2.0609331130981445,
    1.254050850868225, 18.43954849243164, 3.2196574211120605, 9.777103424072266]

  const Test4DNhwcAllOptions: BatchNormTest := BatchNormTest(
    "batchNormalization float32 4D NHWC tensor all options",
    Graph(
      map[
        "bnInput" := Operand(Test4DNhwcAllOptionsInput, OperandDescriptor([2, 2, 2, 3], "float32"), false),
        "bnMean" := Operand(Test4DNhwcAllOptionsMean, OperandDescriptor([3], "float32"), true),
        "bnVariance" := Operand(Test4DNhwcAllOptionsVariance, OperandDescriptor([3], "float32"), true),
        "bnScale" := Operand(Test4DNhwcAllOptionsScale, OperandDescriptor([3], "float32"), true),
        "bnBias" := Operand(Test4DNhwcAllOptionsBias, OperandDescriptor([3], "float32"), true)],
      [Operator("batchNormalization", "bnInput", "bnMean", "bnVariance",
                BatchNormOptions(Some("bnScale"), Some("bnBias"), Some(3), Some(0.000001)), "bnOutput")],
      map[
        "bnOutput" := Operand(Test4DNhwcAllOptionsOutput, OperandDescriptor([2, 2, 2, 3], "float32"), false)]))

  const Test4DNhwcAllOptionsInput: seq<real> := [
    -41.30733108520508, 83.02227020263672, -40.90216064453125, 64.08863830566406,
    -80.08049011230469, 56.96306228637695, -63.376670837402344, -62.144378662109375,
    37.37249755859375, -46.790367126464844, -0.10012771934270859, 57.046478271484375,
    82.05680084228516, -21.35103988647461, -85.36802673339844, -86.1164321899414,
    -96.93824005126953, 62.35185241699219, 76.8831787109375, -9.359310150146484,
    -68.4724349975586, 97.03362274169922, 80.20824432373047, -12.10716724395752]

  const Test4DNhwcAllOptionsMean: seq<real> := [
    51.629150390625, 99.36075592041016, -96.1473617553711]

  const Test4DNhwcAllOptionsVariance: seq<real> := [
    30.448015213012695, 86.36219024658203, 73.88455200195312]

  const Test4DNhwcAllOptionsScale: seq<real> := [
    65.50171661376953, -71.007568359375, -5.569730758666992]

  const Test4DNhwcAllOptionsBias: seq<real> := [
    64.2044677734375, 75.28591918945312, -84.57243347167969]

  const Test4DNhwcAllOptionsOutput: seq<real> := [
    -1039.0085734071204, 200.12613597546277, -120.36987167541395, 212.10626540432202,
    1446.3732126569944, -183.78396479879416, -1300.9852072279227, 1309.3257094058545,
    -171.08979404258523, -1104.0956031373803, 835.2536189871761, -183.83801576309426,
    425.3993215144054, 997.6290832897452, -91.55716013805052, -1570.920072497096,
    1575.1810627320297, -187.2757593197739, 363.98524710447384, 906.0018322105,
    -102.5050592863526, 603.1834043179756, 221.6277675074517, -139.02827100419768]

  /** The fixtures of the table, in its order. */
  const BatchNormTests: seq<BatchNormTest> := [
    Test2DNonConstantStatistics, Test2DConstant, Test2D, Test3D, Test4D, Test5D,
    Test4DNchwAxis1, Test4DNhwcAxis3, Test4DNchwScale, Test4DNchwBias, Test4DNchwEpsilon,
    Test4DNhwcAllOptions]

  /** A fixture of the table: meaningful, with a float32 input. */
  predicate GoodFixture(t: BatchNormTest)
  {
    ValidBatchNormTest(t) && t.graph.inputs[t.graph.operators[0].input].descriptor.dataType == "float32"
  }

  // Each fixture is checked by a lemma of its own, which keeps each proof small.

  lemma Test2DNonConstantStatisticsIsGood() ensures GoodFixture(Test2DNonConstantStatistics) { }
  lemma Test2DConstantIsGood() ensures GoodFixture(Test2DConstant) { }
  lemma Test2DIsGood() ensures GoodFixture(Test2D) { }
  lemma Test3DIsGood() ensures GoodFixture(Test3D) { }
  lemma Test4DIsGood() ensures GoodFixture(Test4D) { }
  lemma Test5DIsGood() ensures GoodFixture(Test5D) { }
  lemma Test4DNchwAxis1IsGood() ensures GoodFixture(Test4DNchwAxis1) { }
  lemma Test4DNhwcAxis3IsGood() ensures GoodFixture(Test4DNhwcAxis3) { }
  lemma Test4DNchwScaleIsGood() ensures GoodFixture(Test4DNchwScale) { }
  lemma Test4DNchwBiasIsGood() ensures GoodFixture(Test4DNchwBias) { }
  lemma Test4DNchwEpsilonIsGood() ensures GoodFixture(Test4DNchwEpsilon) { }
  lemma Test4DNhwcAllOptionsIsGood() ensures GoodFixture(Test4DNhwcAllOptions) { }

  /** Every fixture of BatchNormTests is meaningful and has a float32 input. */
  lemma BatchNormTestsAreGood()
    ensures GoodFixture(Test2DNonConstantStatistics) && GoodFixture(Test2DConstant) && GoodFixture(Test2D)
    ensures GoodFixture(Test3D) && GoodFixture(Test4D) && GoodFixture(Test5D)
    ensures GoodFixture(Test4DNchwAxis1) && GoodFixture(Test4DNhwcAxis3)
    ensures GoodFixture(Test4DNchwScale) && GoodFixture(Test4DNchwBias) && GoodFixture(Test4DNchwEpsilon)
    ensures GoodFixture(Test4DNhwcAllOptions)
  {
    Test2DNonConstantStatisticsIsGood();
    Test2DConstantIsGood();
    Test2DIsGood();
    Test3DIsGood();
    Test4DIsGood();
    Test5DIsGood();
    Test4DNchwAxis1IsGood();
    Test4DNhwcAxis3IsGood();
    Test4DNchwScaleIsGood();
    Test4DNchwBiasIsGood();
    Test4DNchwEpsilonIsGood();
    Test4DNhwcAllOptionsIsGood();
  }

  /** In a meaningful fixture every tensor, input or expected output, holds as many elements as its shape calls for. */
  lemma ValidFixtureTensorsAreWellSized(t: BatchNormTest)
    requires ValidBatchNormTest(t)
    ensures forall name | name in t.graph.inputs :: WellSized(t.graph.inputs[name])
    ensures forall name | name in t.graph.expectedOutputs :: WellSized(t.graph.expectedOutputs[name])
  {
    var g := t.graph;
    var op := g.operators[0];
    forall name | name in g.inputs
      ensures WellSized(g.inputs[name])
    {
      if name != op.input {
        var channels := g.inputs[op.input].descriptor.shape[Axis(op.options)];
        assert g.inputs[name].descriptor.shape == [channels];
        assert Product([channels]) == channels * ProductFrom([channels], 1);
      }
    }
  }

  /**
   * A fixture with a float32 input has only float32 tensors, so its
   * expected output, whatever it is named, is compared within 6 ULP.
   */
  lemma GoodFixtureToleranceIsSixUlp(t: BatchNormTest)
    requires GoodFixture(t)
    ensures forall name | name in t.graph.inputs :: t.graph.inputs[name].descriptor.dataType == "float32"
    ensures forall name | name in t.graph.expectedOutputs ::
      t.graph.expectedOutputs[name].descriptor.dataType == "float32" &&
      BatchNormPrecisionTolerance(t.graph.expectedOutputs[name].descriptor.dataType) == Tolerance("ULP", Some(6))
  {
  }

  /**
   * The three 2D fixtures have the same elements and descriptors, the same
   * operator and the same expected output; they differ only in which inputs
   * are constants: none, all, or mean and variance.
   */
  lemma TwoDFixturesDifferOnlyInConstantFlags()
    ensures forall name | name in Test2DNonConstantStatistics.graph.inputs ::
      !Test2DNonConstantStatistics.graph.inputs[name].constant
    ensures var base := Test2DNonConstantStatistics.graph.inputs;
      Test2DConstant.graph.inputs == map[
        "bnInput" := base["bnInput"].(constant := true),
        "bnMean" := base["bnMean"].(constant := true),
        "bnVariance" := base["bnVariance"].(constant := true)]
    ensures var base := Test2DNonConstantStatistics.graph.inputs;
      Test2D.graph.inputs == base[
        "bnMean" := base["bnMean"].(constant := true)][
        "bnVariance" := base["bnVariance"].(constant := true)]
    ensures Test2DConstant.graph.operators == Test2D.graph.operators == Test2DNonConstantStatistics.graph.operators
    ensures Test2DConstant.graph.expectedOutputs == Test2D.graph.expectedOutputs
      == Test2DNonConstantStatistics.graph.expectedOutputs
  {
  }

  /** All fixtures laid out channels first have the same 24 input elements, whatever their shape. */
  lemma ChannelsFirstFixturesShareInputElements()
    ensures Test2DNonConstantStatisticsInput == Test2DConstantInput == Test2DInput == Test4DInput
    ensures Test3DInput == Test4DInput == Test5DInput
    ensures Test4DNchwAxis1Input == Test4DNchwScaleInput == Test4DNchwBiasInput == Test4DNchwEpsilonInput == Test4DInput
  {
  }

  /**
   * Passing axis 1 explicitly, as the NCHW axis fixture does, gives the 4D
   * default fixture's channel axis: the two fixtures have the same inputs and
   * expected output, and their operators differ only in the written-out axis.
   */
  lemma Axis1FixtureMatchesDefault()
    ensures Test4DNchwAxis1.graph.inputs == Test4D.graph.inputs
    ensures Test4DNchwAxis1.graph.expectedOutputs == Test4D.graph.expectedOutputs
    ensures Test4D.graph.operators[0].options == NoOptions
    ensures Test4DNchwAxis1.graph.operators == [Test4D.graph.operators[0].(options := NoOptions.(axis := Some(1)))]
    ensures Axis(Test4DNchwAxis1.graph.operators[0].options) == Axis(Test4D.graph.operators[0].options) == 1
  {
  }

  /**
   * The scale, bias and epsilon fixtures are the 4D default fixture with one
   * option set: the same input, mean and variance, plus the scale or bias
   * tensor the option names; the epsilon fixture's epsilon is below the default.
   */
  lemma NchwOptionFixturesExtendDefault()
    ensures Test4DNchwScale.graph.inputs - {"bnScale"} == Test4D.graph.inputs
    ensures Test4DNchwScale.graph.operators == [Test4D.graph.operators[0].(options := NoOptions.(scale := Some("bnScale")))]
    ensures Test4DNchwBias.graph.inputs - {"bnBias"} == Test4D.graph.inputs
    ensures Test4DNchwBias.graph.operators == [Test4D.graph.operators[0].(options := NoOptions.(bias := Some("bnBias")))]
    ensures Test4DNchwEpsilon.graph.inputs == Test4D.graph.inputs
    ensures Test4DNchwEpsilon.graph.operators == [Test4D.graph.operators[0].(options := NoOptions.(epsilon := Some(0.000001)))]
    ensures Epsilon(Test4DNchwEpsilon.graph.operators[0].options) < Epsilon(Test4D.graph.operators[0].options) == DefaultEpsilon
  {
  }

  /** Row-major position of element (i0, i1, i2, i3) of a 4D tensor whose last three dimensions are d1, d2 and d3. */
  function Flat4(i0: int, i1: int, i2: int, i3: int, d1: int, d2: int, d3: int): int
  {
    ((i0 * d1 + i1) * d2 + i2) * d3 + i3
  }

  /** One mixed-radix digit step: a digit b below B after a prefix a below A gives a position below A * B. */
  lemma MixedRadixInRange(a: int, b: int, A: int, B: int)
    requires 0 <= a < A && 0 <= b < B
    ensures 0 <= a * B + b < A * B
  {
    assert a * B <= (A - 1) * B;
  }

  /** A mixed-radix digit step is one-to-one. */
  lemma MixedRadixInjective(a: int, b: int, a': int, b': int, B: int)
    requires 0 <= b < B && 0 <= b' < B
    requires a * B + b == a' * B + b'
    ensures a == a' && b == b'
  {
    if a < a' {
      MulAtLeast(a' - a, B);
    } else if a' < a {
      MulAtLeast(a - a', B);
    }
  }

  lemma MulAtLeast(k: int, B: int)
    requires 1 <= k && 0 <= B
    ensures k * B >= B
  {
  }

  /** Every position below A * B is a prefix below A followed by a digit below B. */
  lemma MixedRadixSplit(p: int, A: int, B: int)
    requires 0 < B && 0 <= p < A * B
    ensures 0 <= p / B < A && 0 <= p % B < B && p == p / B * B + p % B
  {
  }

  /** The index tuple at position p of a 4D tensor: the inverse of Flat4. */
  function Unflat4(p: int, d0: int, d1: int, d2: int, d3: int): (r: (int, int, int, int))
    requires 0 < d1 && 0 < d2 && 0 < d3 && 0 <= p < d0 * d1 * d2 * d3
    ensures 0 <= r.0 < d0 && 0 <= r.1 < d1 && 0 <= r.2 < d2 && 0 <= r.3 < d3
    ensures Flat4(r.0, r.1, r.2, r.3, d1, d2, d3) == p
  {
    MixedRadixSplit(p, d0 * d1 * d2, d3);
    var q := p / d3;
    MixedRadixSplit(q, d0 * d1, d2);
    var q' := q / d2;
    MixedRadixSplit(q', d0, d1);
    (q' / d1, q' % d1, q % d2, p % d3)
  }

  /** The position of an in-range index tuple lies inside the tensor. */
  lemma Flat4InRange(i0: int, i1: int, i2: int, i3: int, d0: int, d1: int, d2: int, d3: int)
    requires 0 <= i0 < d0 && 0 <= i1 < d1 && 0 <= i2 < d2 && 0 <= i3 < d3
    ensures 0 <= Flat4(i0, i1, i2, i3, d1, d2, d3) < d0 * d1 * d2 * d3
  {
    MixedRadixInRange(i0, i1, d0, d1);
    MixedRadixInRange(i0 * d1 + i1, i2, d0 * d1, d2);
    MixedRadixInRange((i0 * d1 + i1) * d2 + i2, i3, d0 * d1 * d2, d3);
  }

  /** Distinct in-range index tuples have distinct positions. */
  lemma Flat4Injective(i0: int, i1: int, i2: int, i3: int, j0: int, j1: int, j2: int, j3: int, d1: int, d2: int, d3: int)
    requires 0 <= i1 < d1 && 0 <= i2 < d2 && 0 <= i3 < d3
    requires 0 <= j1 < d1 && 0 <= j2 < d2 && 0 <= j3 < d3
    requires Flat4(i0, i1, i2, i3, d1, d2, d3) == Flat4(j0, j1, j2, j3, d1, d2, d3)
    ensures i0 == j0 && i1 == j1 && i2 == j2 && i3 == j3
  {
    MixedRadixInjective((i0 * d1 + i1) * d2 + i2, i3, (j0 * d1 + j1) * d2 + j2, j3, d3);
    MixedRadixInjective(i0 * d1 + i1, i2, j0 * d1 + j1, j2, d2);
    MixedRadixInjective(i0, i1, j0, j1, d1);
  }

  /** A 4D shape holds the product of its four dimensions. */
  lemma Product4(shape: seq<nat>)
    requires |shape| == 4
    ensures Product(shape) == shape[0] * shape[1] * shape[2] * shape[3]
  {
    assert ProductFrom(shape, 3) == shape[3] * ProductFrom(shape, 4);
    assert ProductFrom(shape, 2) == shape[2] * ProductFrom(shape, 3);
    assert ProductFrom(shape, 1) == shape[1] * ProductFrom(shape, 2);
  }

  /** The channels-last shape [N, H, W, C] of a tensor of shape [N, C, H, W]. */
  function ChannelsLastShape(shape: seq<nat>): (r: seq<nat>)
    requires |shape| == 4
    ensures |r| == 4 && r[3] == shape[1]
    ensures Product(r) == Product(shape)
  {
    var r := [shape[0], shape[2], shape[3], shape[1]];
    Product4(r);
    Product4(shape);
    r
  }

  /**
   * `nhwc` is the tensor `nchw` of shape [N, C, H, W] laid out channels last:
   * the element at (n, c, h, w) of `nchw` is the element at (n, h, w, c) of `nhwc`.
   */
  predicate ChannelsLast(nhwc: seq<real>, nchw: seq<real>, shape: seq<nat>)
    requires |shape| == 4
  {
    |nhwc| == |nchw| == Product(shape) &&
    forall n, c, h, w | 0 <= n < shape[0] && 0 <= c < shape[1] && 0 <= h < shape[2] && 0 <= w < shape[3] ::
      0 <= Flat4(n, h, w, c, shape[2], shape[3], shape[1]) < |nhwc| &&
      0 <= Flat4(n, c, h, w, shape[1], shape[2], shape[3]) < |nchw| &&
      nhwc[Flat4(n, h, w, c, shape[2], shape[3], shape[1])] == nchw[Flat4(n, c, h, w, shape[1], shape[2], shape[3])]
  }

  /**
   * The channels-last layout is a rearrangement: two index tuples with the
   * same NHWC position are the same tuple, and every NHWC position is the
   * position of some index tuple, holding that tuple's NCHW element.
   */
  lemma ChannelsLastIsRearrangement(nhwc: seq<real>, nchw: seq<real>, shape: seq<nat>)
    requires |shape| == 4 && ChannelsLast(nhwc, nchw, shape)
    ensures forall n, c, h, w, n', c', h', w' |
        0 <= n < shape[0] && 0 <= c < shape[1] && 0 <= h < shape[2] && 0 <= w < shape[3] &&
        0 <= n' < shape[0] && 0 <= c' < shape[1] && 0 <= h' < shape[2] && 0 <= w' < shape[3] &&
        Flat4(n, h, w, c, shape[2], shape[3], shape[1]) == Flat4(n', h', w', c', shape[2], shape[3], shape[1]) ::
      n == n' && c == c' && h == h' && w == w'
    ensures forall p | 0 <= p < |nhwc| :: FromSomeTuple(p, nhwc, nchw, shape)
  {
    forall n, c, h, w, n', c', h', w' |
        0 <= n < shape[0] && 0 <= c < shape[1] && 0 <= h < shape[2] && 0 <= w < shape[3] &&
        0 <= n' < shape[0] && 0 <= c' < shape[1] && 0 <= h' < shape[2] && 0 <= w' < shape[3] &&
        Flat4(n, h, w, c, shape[2], shape[3], shape[1]) == Flat4(n', h', w', c', shape[2], shape[3], shape[1])
      ensures n == n' && c == c' && h == h' && w == w'
    {
      Flat4Injective(n, h, w, c, n', h', w', c', shape[2], shape[3], shape[1]);
    }
    forall p | 0 <= p < |nhwc|
      ensures FromSomeTuple(p, nhwc, nchw, shape)
    {
      var t := ChannelsLastIndex(p, nhwc, nchw, shape);
      assert nhwc[p] == nchw[Flat4(t.0, t.3, t.1, t.2, shape[1], shape[2], shape[3])];
    }
  }

  /** Position p of `nhwc` is the NHWC position of an index tuple and holds that tuple's element of `nchw`. */
  predicate FromSomeTuple(p: int, nhwc: seq<real>, nchw: seq<real>, shape: seq<nat>)
    requires |shape| == 4
  {
    0 <= p < |nhwc| &&
    exists n, c, h, w | 0 <= n < shape[0] && 0 <= c < shape[1] && 0 <= h < shape[2] && 0 <= w < shape[3] ::
      Flat4(n, h, w, c, shape[2], shape[3], shape[1]) == p &&
      0 <= Flat4(n, c, h, w, shape[1], shape[2], shape[3]) < |nchw| &&
      nhwc[p] == nchw[Flat4(n, c, h, w, shape[1], shape[2], shape[3])]
  }

  /** The (n, h, w, c) tuple at position p of a channels-last tensor. */
  lemma ChannelsLastIndex(p: int, nhwc: seq<real>, nchw: seq<real>, shape: seq<nat>) returns (t: (int, int, int, int))
    requires |shape| == 4 && ChannelsLast(nhwc, nchw, shape) && 0 <= p < |nhwc|
    ensures 0 <= t.0 < shape[0] && 0 <= t.1 < shape[2] && 0 <= t.2 < shape[3] && 0 <= t.3 < shape[1]
    ensures Flat4(t.0, t.1, t.2, t.3, shape[2], shape[3], shape[1]) == p
  {
    Product4(shape);
    var n, c, h, w := shape[0], shape[1], shape[2], shape[3];
    assert n * c * h * w == n * h * w * c;
    t := Unflat4(p, n, h, w, c);
  }

  /** The NCHW tensor fixes its channels-last layout: there is only one. */
  lemma ChannelsLastDetermined(x: seq<real>, y: seq<real>, nchw: seq<real>, shape: seq<nat>)
    requires |shape| == 4 && ChannelsLast(x, nchw, shape) && ChannelsLast(y, nchw, shape)
    ensures x == y
  {
    forall p | 0 <= p < |x|
      ensures x[p] == y[p]
    {
      var t := ChannelsLastIndex(p, x, nchw, shape);
      assert x[p] == nchw[Flat4(t.0, t.3, t.1, t.2, shape[1], shape[2], shape[3])];
    }
  }

  /** For the shape [2, 3, 2, 2], ChannelsLast spelled out with the positions of both layouts. */
  lemma ChannelsLast2x3x2x2(nhwc: seq<real>, nchw: seq<real>)
    requires |nhwc| == |nchw| == 24
    requires forall n, c, h, w | 0 <= n < 2 && 0 <= c < 3 && 0 <= h < 2 && 0 <= w < 2 ::
      nhwc[n * 12 + h * 6 + w * 3 + c] == nchw[n * 12 + c * 4 + h * 2 + w]
    ensures ChannelsLast(nhwc, nchw, [2, 3, 2, 2])
  {
    var shape: seq<nat> := [2, 3, 2, 2];
    assert Product(shape) == 24;
    forall n, c, h, w | 0 <= n < shape[0] && 0 <= c < shape[1] && 0 <= h < shape[2] && 0 <= w < shape[3]
      ensures 0 <= Flat4(n, h, w, c, shape[2], shape[3], shape[1]) < |nhwc|
      ensures 0 <= Flat4(n, c, h, w, shape[1], shape[2], shape[3]) < |nchw|
      ensures nhwc[Flat4(n, h, w, c, shape[2], shape[3], shape[1])] == nchw[Flat4(n, c, h, w, shape[1], shape[2], shape[3])]
    {
      assert Flat4(n, h, w, c, shape[2], shape[3], shape[1]) == n * 12 + h * 6 + w * 3 + c;
      assert Flat4(n, c, h, w, shape[1], shape[2], shape[3]) == n * 12 + c * 4 + h * 2 + w;
      assert nhwc[n * 12 + h * 6 + w * 3 + c] == nchw[n * 12 + c * 4 + h * 2 + w];
    }
  }

  lemma NhwcAxis3InputElements()
    ensures |Test4DNhwcAxis3Input| == |Test4DInput| == 24
    ensures forall n, c, h, w | 0 <= n < 2 && 0 <= c < 3 && 0 <= h < 2 && 0 <= w < 2 ::
      Test4DNhwcAxis3Input[n * 12 + h * 6 + w * 3 + c] == Test4DInput[n * 12 + c * 4 + h * 2 + w]
  {
  }

  lemma NhwcAxis3OutputElements()
    ensures |Test4DNhwcAxis3Output| == |Test4DOutput| == 24
    ensures forall n, c, h, w | 0 <= n < 2 && 0 <= c < 3 && 0 <= h < 2 && 0 <= w < 2 ::
      Test4DNhwcAxis3Output[n * 12 + h * 6 + w * 3 + c] == Test4DOutput[n * 12 + c * 4 + h * 2 + w]
  {
  }

  /**
   * The NHWC fixture with axis 3 is the 4D default fixture laid out channels
   * last: its input and expected output are the default fixture's, moved to
   * the channels-last shape, its statistics are the same, and its axis is
   * where that shape puts the channels.
   */
  lemma NhwcAxis3FixtureIsNchwChannelsLast()
    ensures Test4D.graph.inputs["bnInput"].descriptor.shape == [2, 3, 2, 2]
    ensures Test4DNhwcAxis3.graph.inputs["bnInput"].descriptor.shape == ChannelsLastShape([2, 3, 2, 2])
    ensures ChannelsLast(Test4DNhwcAxis3.graph.inputs["bnInput"].data, Test4D.graph.inputs["bnInput"].data, [2, 3, 2, 2])
    ensures ChannelsLast(Test4DNhwcAxis3.graph.expectedOutputs["bnOutput"].data,
                         Test4D.graph.expectedOutputs["bnOutput"].data, [2, 3, 2, 2])
    ensures Test4DNhwcAxis3.graph.inputs["bnMean"] == Test4D.graph.inputs["bnMean"]
    ensures Test4DNhwcAxis3.graph.inputs["bnVariance"] == Test4D.graph.inputs["bnVariance"]
    ensures Test4DNhwcAxis3.graph.operators == [Test4D.graph.operators[0].(options := NoOptions.(axis := Some(3)))]
  {
    NhwcAxis3InputElements();
    ChannelsLast2x3x2x2(Test4DNhwcAxis3Input, Test4DInput);
    NhwcAxis3OutputElements();
    ChannelsLast2x3x2x2(Test4DNhwcAxis3Output, Test4DOutput);
  }

  /**
   * The all-options fixture combines the others: the NHWC input and
   * statistics of the axis-3 fixture, the scale and bias tensors of the
   * scale and bias fixtures, and each option as those fixtures set it.
   */
  lemma AllOptionsFixtureCombinesOptionFixtures()
    ensures Test4DNhwcAllOptions.graph.inputs - {"bnScale", "bnBias"} == Test4DNhwcAxis3.graph.inputs
    ensures Test4DNhwcAllOptions.graph.inputs["bnScale"] == Test4DNchwScale.graph.inputs["bnScale"]
    ensures Test4DNhwcAllOptions.graph.inputs["bnBias"] == Test4DNchwBias.graph.inputs["bnBias"]
    ensures Test4DNhwcAllOptions.graph.operators[0].options == BatchNormOptions(
      Test4DNchwScale.graph.operators[0].options.scale, Test4DNchwBias.graph.operators[0].options.bias,
      Test4DNhwcAxis3.graph.operators[0].options.axis, Test4DNchwEpsilon.graph.operators[0].options.epsilon)
  {
  }
}
