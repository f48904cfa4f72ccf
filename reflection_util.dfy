// Conversions between SPIR-V reflection values and the engine's and Vulkan's
// enumerations, and the text renderings of type flags and component types.
// Enumerations that the switches read as raw integers (stage bits, descriptor
// type codes, type flags) are kept as numbers; the numeric values are those of
// the public SPIRV-Reflect and Vulkan headers.
module ReflectionUtil {
  import Decimal

  // SpvReflectShaderStageFlagBits
  const StageVertex: nat := 0x1
  const StageTessellationControl: nat := 0x2
  const StageTessellationEvaluation: nat := 0x4
  const StageGeometry: nat := 0x8
  const StageFragment: nat := 0x10
  const StageCompute: nat := 0x20
  const StageTask: nat := 0x40
  const StageMesh: nat := 0x80
  const StageRaygen: nat := 0x100
  const StageAnyHit: nat := 0x200
  const StageClosestHit: nat := 0x400
  const StageMiss: nat := 0x800
  const StageIntersection: nat := 0x1000
  const StageCallable: nat := 0x2000

  const KnownStages: set<nat> := {StageVertex, StageTessellationControl, StageTessellationEvaluation,
    StageGeometry, StageFragment, StageCompute, StageTask, StageMesh, StageRaygen, StageAnyHit,
    StageClosestHit, StageMiss, StageIntersection, StageCallable}

  /** The short stage name used in diagnostics; "???" for a value that is no stage. */
  function ShaderStageName(stage: nat): (r: string)
    ensures r == "???" <==> stage !in KnownStages
  {
    if stage == StageVertex then "VS"
    else if stage == StageTessellationControl then "HS"
    else if stage == StageTessellationEvaluation then "DS"
    else if stage == StageGeometry then "GS"
    else if stage == StageFragment then "PS"
    else if stage == StageCompute then "CS"
    else if stage == StageTask then "TASK"
    else if stage == StageMesh then "MESH"
    else if stage == StageRaygen then "RAYGEN"
    else if stage == StageAnyHit then "ANY_HIT"
    else if stage == StageClosestHit then "CLOSEST_HIT"
    else if stage == StageMiss then "MISS"
    else if stage == StageIntersection then "INTERSECTION"
    else if stage == StageCallable then "CALLABLE"
    else "???"
  }

  /** No two stages share a name. */
  lemma ShaderStageNamesDistinct(a: nat, b: nat)
    requires a in KnownStages && b in KnownStages
    requires ShaderStageName(a) == ShaderStageName(b)
    ensures a == b
  {
  }

  // The engine's shader types (vk_Shader.h).
  datatype ShaderType = UndefinedShader | VertexShader | FragmentShader | ComputeShader

  /** Only vertex, fragment and compute stages have an engine shader type. */
  function ToShaderType(stage: nat): (r: ShaderType)
    ensures r == VertexShader <==> stage == StageVertex
    ensures r == FragmentShader <==> stage == StageFragment
    ensures r == ComputeShader <==> stage == StageCompute
    ensures r == UndefinedShader <==> stage !in {StageVertex, StageFragment, StageCompute}
  {
    if stage == StageVertex then VertexShader
    else if stage == StageFragment then FragmentShader
    else if stage == StageCompute then ComputeShader
    else UndefinedShader
  }

  // VkShaderStageFlagBits
  const VkStageVertex: nat := 0x1
  const VkStageFragment: nat := 0x10
  const VkStageCompute: nat := 0x20
  const VkStageMaxEnum: nat := 0x7FFF_FFFF

  /** The Vulkan stage bit of an engine shader type; MAX_ENUM for an undefined one. */
  function ToShaderStageFlag(t: ShaderType): (r: nat)
    ensures t == UndefinedShader <==> r == VkStageMaxEnum
    ensures t == VertexShader <==> r == VkStageVertex
    ensures t == FragmentShader <==> r == VkStageFragment
    ensures t == ComputeShader <==> r == VkStageCompute
  {
    match t
    case UndefinedShader => VkStageMaxEnum
    case VertexShader => VkStageVertex
    case FragmentShader => VkStageFragment
    case ComputeShader => VkStageCompute
  }

  /** Going from a reflected stage to an engine type and on to a Vulkan stage bit
      gives back the same bit for the three supported stages, MAX_ENUM otherwise. */
  lemma StageFlagRoundTrip(stage: nat)
    ensures ToShaderStageFlag(ToShaderType(stage)) ==
      (if stage in {StageVertex, StageFragment, StageCompute} then stage else VkStageMaxEnum)
  {
  }

  // SpvReflectDescriptorType; Vulkan's VkDescriptorType uses the same codes.
  const DescriptorSampler: nat := 0
  const DescriptorCombinedImageSampler: nat := 1
  const DescriptorSampledImage: nat := 2
  const DescriptorStorageImage: nat := 3
  const DescriptorUniformTexelBuffer: nat := 4
  const DescriptorStorageTexelBuffer: nat := 5
  const DescriptorUniformBuffer: nat := 6
  const DescriptorStorageBuffer: nat := 7
  const DescriptorUniformBufferDynamic: nat := 8
  const DescriptorStorageBufferDynamic: nat := 9
  const DescriptorInputAttachment: nat := 10
  const DescriptorAccelerationStructure: nat := 1000150000
  const VkDescriptorMaxEnum: nat := 0x7FFF_FFFF

  const KnownDescriptorTypes: set<nat> := {DescriptorSampler, DescriptorCombinedImageSampler,
    DescriptorSampledImage, DescriptorStorageImage, DescriptorUniformTexelBuffer,
    DescriptorStorageTexelBuffer, DescriptorUniformBuffer, DescriptorStorageBuffer,
    DescriptorUniformBufferDynamic, DescriptorStorageBufferDynamic, DescriptorInputAttachment,
    DescriptorAccelerationStructure}

  /** Each reflected descriptor type keeps its code; any other value becomes MAX_ENUM. */
  function ToVkDescriptorType(t: nat): (r: nat)
    ensures t in KnownDescriptorTypes ==> r == t
    ensures t !in KnownDescriptorTypes ==> r == VkDescriptorMaxEnum
  {
    if t == DescriptorSampler then DescriptorSampler
    else if t == DescriptorCombinedImageSampler then DescriptorCombinedImageSampler
    else if t == DescriptorSampledImage then DescriptorSampledImage
    else if t == DescriptorStorageImage then DescriptorStorageImage
    else if t == DescriptorUniformTexelBuffer then DescriptorUniformTexelBuffer
    else if t == DescriptorStorageTexelBuffer then DescriptorStorageTexelBuffer
    else if t == DescriptorUniformBuffer then DescriptorUniformBuffer
    else if t == DescriptorStorageBuffer then DescriptorStorageBuffer
    else if t == DescriptorUniformBufferDynamic then DescriptorUniformBufferDynamic
    else if t == DescriptorStorageBufferDynamic then DescriptorStorageBufferDynamic
    else if t == DescriptorInputAttachment then DescriptorInputAttachment
    else if t == DescriptorAccelerationStructure then DescriptorAccelerationStructure
    else VkDescriptorMaxEnum
  }

  /** Converting twice is converting once: MAX_ENUM is no reflected type. */
  lemma ToVkDescriptorTypeIdempotent(t: nat)
    ensures ToVkDescriptorType(ToVkDescriptorType(t)) == ToVkDescriptorType(t)
  {
  }

  // The SPIR-V type opcode of a reflected type and the numeric traits the
  // conversion reads.
  datatype TypeOp =
    | OpTypeVoid | OpTypeBool | OpTypeInt | OpTypeFloat | OpTypeVector | OpTypeMatrix
    | OpTypeImage | OpTypeSampler | OpTypeSampledImage | OpTypeAccelerationStructure
    | OpTypeStruct | OpTypeArray | OtherOp(code: nat)

  datatype NumericTraits = NumericTraits(signedness: bool, width: nat, componentCount: nat, columnCount: nat)

  datatype TypeDescription = TypeDescription(op: TypeOp, numeric: NumericTraits)

  // The engine's shader member types (vk_Shader.h).
  datatype ShaderMemberType =
    | UndefinedMember | VoidMember | BoolMember | IntMember | UIntMember | FloatMember | DoubleMember
    | Vec2 | Vec3 | Vec4 | DVec2 | DVec3 | DVec4 | Matrix2 | Matrix3 | Matrix4
    | ImageMember | SamplerMember | SampledImageMember | AccelerationStructureMember
    | StructMember | ArrayMember

  predicate IsVector(m: ShaderMemberType) {
    m in {Vec2, Vec3, Vec4, DVec2, DVec3, DVec4}
  }

  predicate IsMatrix(m: ShaderMemberType) {
    m in {Matrix2, Matrix3, Matrix4}
  }

  /** The number of components of a vector member type. */
  function VectorLength(m: ShaderMemberType): nat
    requires IsVector(m)
  {
    if m in {Vec2, DVec2} then 2 else if m in {Vec3, DVec3} then 3 else 4
  }

  /** The number of columns of a matrix member type. */
  function MatrixColumns(m: ShaderMemberType): nat
    requires IsMatrix(m)
  {
    if m == Matrix2 then 2 else if m == Matrix3 then 3 else 4
  }

  /** The vector case of the conversion; a float type of another width than
      32 or 64 falls through into it. */
  function VectorMemberType(n: NumericTraits): ShaderMemberType {
    if n.width == 32 then
      (if n.componentCount == 2 then Vec2
       else if n.componentCount == 3 then Vec3
       else if n.componentCount == 4 then Vec4
       else UndefinedMember)
    else if n.width == 64 then
      (if n.componentCount == 2 then DVec2
       else if n.componentCount == 3 then DVec3
       else if n.componentCount == 4 then DVec4
       else UndefinedMember)
    else UndefinedMember
  }

  /** The engine member type of a reflected type. */
  function ToShaderMemberType(t: TypeDescription): (r: ShaderMemberType)
    ensures t.op == OpTypeInt ==> (r == IntMember <==> t.numeric.signedness)
    ensures t.op == OpTypeInt ==> (r == UIntMember <==> !t.numeric.signedness)
    ensures t.op == OpTypeFloat ==> (r == FloatMember <==> t.numeric.width == 32)
    ensures t.op == OpTypeFloat ==> (r == DoubleMember <==> t.numeric.width == 64)
  {
    match t.op
    case OpTypeVoid => VoidMember
    case OpTypeBool => BoolMember
    case OpTypeInt => if t.numeric.signedness then IntMember else UIntMember
    case OpTypeFloat =>
      if t.numeric.width == 32 then FloatMember
      else if t.numeric.width == 64 then DoubleMember
      else VectorMemberType(t.numeric)
    case OpTypeVector => VectorMemberType(t.numeric)
    case OpTypeMatrix =>
      if t.numeric.columnCount == 2 then Matrix2
      else if t.numeric.columnCount == 3 then Matrix3
      else if t.numeric.columnCount == 4 then Matrix4
      else UndefinedMember
    case OpTypeImage => ImageMember
    case OpTypeSampler => SamplerMember
    case OpTypeSampledImage => SampledImageMember
    case OpTypeAccelerationStructure => AccelerationStructureMember
    case OpTypeStruct => StructMember
    case OpTypeArray => ArrayMember
    case OtherOp(_) => UndefinedMember
  }

  /** A vector member type comes exactly from a vector of 32- or 64-bit
      components with 2, 3 or 4 of them, and gives back its length and width. */
  lemma VectorMemberTypeRecovers(t: TypeDescription)
    ensures IsVector(ToShaderMemberType(t)) <==>
      t.op == OpTypeVector && t.numeric.width in {32, 64} && t.numeric.componentCount in {2, 3, 4}
    ensures IsVector(ToShaderMemberType(t)) ==>
      VectorLength(ToShaderMemberType(t)) == t.numeric.componentCount &&
      (ToShaderMemberType(t) in {DVec2, DVec3, DVec4} <==> t.numeric.width == 64)
  {
  }

  /** A matrix member type comes exactly from a matrix with 2, 3 or 4 columns. */
  lemma MatrixMemberTypeRecovers(t: TypeDescription)
    ensures IsMatrix(ToShaderMemberType(t)) <==>
      t.op == OpTypeMatrix && t.numeric.columnCount in {2, 3, 4}
    ensures IsMatrix(ToShaderMemberType(t)) ==> MatrixColumns(ToShaderMemberType(t)) == t.numeric.columnCount
  {
  }

  /** The conversion fails exactly for an unknown opcode, a float or vector of
      another width, a vector of another length or a matrix of another column
      count; a float of odd width takes the vector path and fails there. */
  lemma MemberTypeUndefinedIff(t: TypeDescription)
    ensures ToShaderMemberType(t) == UndefinedMember <==>
      t.op.OtherOp? ||
      (t.op == OpTypeFloat && t.numeric.width !in {32, 64}) ||
      (t.op == OpTypeVector && (t.numeric.width !in {32, 64} || t.numeric.componentCount !in {2, 3, 4})) ||
      (t.op == OpTypeMatrix && t.numeric.columnCount !in {2, 3, 4})
  {
  }

  /** A 32-bit flag word, as the set of positions of the bits that are set:
      & is intersection, clearing set bits is difference, 0 is the empty set. */
  type Bits = set<nat>

  // SpvReflectTypeFlagBits, by bit position
  const TypeFlagVoid: Bits := {0}                     // 0x1
  const TypeFlagBool: Bits := {1}                     // 0x2
  const TypeFlagInt: Bits := {2}                      // 0x4
  const TypeFlagFloat: Bits := {3}                    // 0x8
  const TypeFlagVector: Bits := {8}                   // 0x100
  const TypeFlagMatrix: Bits := {9}                   // 0x200
  const TypeFlagExternalImage: Bits := {16}           // 0x1_0000
  const TypeFlagExternalSampler: Bits := {17}         // 0x2_0000
  const TypeFlagExternalSampledImage: Bits := {18}    // 0x4_0000
  const TypeFlagExternalBlock: Bits := {19}           // 0x8_0000
  const TypeFlagExternalMask: Bits := {16, 17, 18, 19, 20, 21, 22, 23}  // 0xFF_0000
  const TypeFlagStruct: Bits := {28}                  // 0x1000_0000
  const TypeFlagArray: Bits := {29}                   // 0x2000_0000

  /** The number of flags the printer tests, in the order it tests them. */
  const FlagSteps: nat := 13

  /** A step of the printer. */
  type Step = k: nat | k < FlagSteps

  /** The flag tested at step k. */
  function StepFlag(k: Step): Bits {
    [TypeFlagArray, TypeFlagStruct, TypeFlagExternalMask, TypeFlagExternalBlock,
     TypeFlagExternalSampledImage, TypeFlagExternalSampler, TypeFlagExternalImage,
     TypeFlagMatrix, TypeFlagVector, TypeFlagFloat, TypeFlagInt, TypeFlagBool, TypeFlagVoid][k]
  }

  /** The name printed for the flag of step k. */
  function StepName(k: Step): string {
    ["ARRAY", "STRUCT", "EXTERNAL_MASK", "EXTERNAL_BLOCK", "EXTERNAL_SAMPLED_IMAGE",
     "EXTERNAL_SAMPLER", "EXTERNAL_IMAGE", "MATRIX", "VECTOR", "FLOAT", "INT", "BOOL", "VOID"][k]
  }

  /** Whether all bits of step k's flag are still set. */
  predicate Hit(flags: Bits, k: Step) {
    flags * StepFlag(k) == StepFlag(k)
  }

  /** The flags left after step k: the flag's bits are toggled off when all were set. */
  function Clear(flags: Bits, k: Step): Bits {
    if Hit(flags, k) then flags - StepFlag(k) else flags
  }

  /** The flags before step k, starting from f. */
  function Before(f: Bits, k: nat): Bits
    requires k <= FlagSteps
  {
    if k == 0 then f else Clear(Before(f, k - 1), k - 1)
  }

  /** The steps among the first k whose name is printed, in order. */
  function Printed(f: Bits, k: nat): seq<Step>
    requires k <= FlagSteps
  {
    if k == 0 then [] else Printed(f, k - 1) + (if Hit(Before(f, k - 1), k - 1) then [k - 1] else [])
  }

  /** The names of the given steps, each followed by a space. */
  function Words(ks: seq<Step>): string {
    if |ks| == 0 then "" else Words(ks[..|ks| - 1]) + StepName(ks[|ks| - 1]) + " "
  }

  /** The text of the type flags: "UNDEFINED" for none, otherwise the names of
      the flags present, then "???" if bits no name accounts for remain. */
  function TypeFlagsString(f: Bits): string {
    if f == {} then "UNDEFINED"
    else Words(Printed(f, FlagSteps)) + (if Before(f, FlagSteps) != {} then "???" else "")
  }

  /** The printer's text and remaining flags before step k, starting from f. */
  predicate AtStep(f: Bits, text: string, flags: Bits, k: nat)
    requires k <= FlagSteps
  {
    flags == Before(f, k) && text == Words(Printed(f, k))
  }

  /** One expansion of the printer's test-print-and-clear step. */
  method PrintAndClearTypeFlag(ghost f: Bits, text: string, flags: Bits, k: Step)
    returns (text': string, flags': Bits)
    requires AtStep(f, text, flags, k)
    ensures AtStep(f, text', flags', k + 1)
  {
    text' := text;
    flags' := flags;
    if flags' * StepFlag(k) == StepFlag(k) {
      text' := text' + StepName(k) + " ";
      flags' := flags' - StepFlag(k);
      ghost var p := Printed(f, k + 1);
      assert p == Printed(f, k) + [k];
      assert p[..|p| - 1] == Printed(f, k);
    } else {
      assert Printed(f, k + 1) == Printed(f, k);
    }
  }

  /** The printer: tests the flags in a fixed order and clears each one it prints. */
  method TypeFlagsToString(typeFlags: Bits) returns (s: string)
    ensures s == TypeFlagsString(typeFlags)
  {
    if typeFlags == {} {
      return "UNDEFINED";
    }
    var flags := typeFlags;
    s := "";
    s, flags := PrintAndClearTypeFlag(typeFlags, s, flags, 0);
    s, flags := PrintAndClearTypeFlag(typeFlags, s, flags, 1);
    s, flags := PrintAndClearTypeFlag(typeFlags, s, flags, 2);
    s, flags := PrintAndClearTypeFlag(typeFlags, s, flags, 3);
    s, flags := PrintAndClearTypeFlag(typeFlags, s, flags, 4);
    s, flags := PrintAndClearTypeFlag(typeFlags, s, flags, 5);
    s, flags := PrintAndClearTypeFlag(typeFlags, s, flags, 6);
    s, flags := PrintAndClearTypeFlag(typeFlags, s, flags, 7);
    s, flags := PrintAndClearTypeFlag(typeFlags, s, flags, 8);
    s, flags := PrintAndClearTypeFlag(typeFlags, s, flags, 9);
    s, flags := PrintAndClearTypeFlag(typeFlags, s, flags, 10);
    s, flags := PrintAndClearTypeFlag(typeFlags, s, flags, 11);
    s, flags := PrintAndClearTypeFlag(typeFlags, s, flags, 12);
    assert AtStep(typeFlags, s, flags, FlagSteps);
    if flags != {} {
      s := s + "???";
    }
  }

  /** Names are printed in the fixed test order, each at most once, and a name
      is printed exactly when all of its bits are still set at its step. */
  lemma {:induction false} PrintedInOrder(f: Bits, k: nat)
    requires k <= FlagSteps
    ensures forall i, j :: 0 <= i < j < |Printed(f, k)| ==> Printed(f, k)[i] < Printed(f, k)[j]
    ensures forall m: Step :: m in Printed(f, k) <==> m < k && Hit(Before(f, m), m)
  {
    if k > 0 {
      PrintedInOrder(f, k - 1);
      var p := Printed(f, k - 1);
      forall i | 0 <= i < |p|
        ensures p[i] < k - 1
      {
        assert p[i] in p;
      }
    }
  }

  /** With nothing printed, no bit has been cleared. */
  lemma {:induction false} NothingPrintedNothingCleared(f: Bits, k: nat)
    requires k <= FlagSteps
    requires Printed(f, k) == []
    ensures Before(f, k) == f
  {
    if k > 0 {
      assert Printed(f, k - 1) == [] by {
        assert |Printed(f, k)| >= |Printed(f, k - 1)|;
      }
      NothingPrintedNothingCleared(f, k - 1);
    }
  }

  lemma WordsEndInSpace(ks: seq<Step>)
    requires |ks| > 0
    ensures |Words(ks)| >= 3 && Words(ks)[|Words(ks)| - 1] == ' '
  {
  }

  /** "UNDEFINED" is printed exactly for the empty flag set: any other text
      ends with a space or with "???". */
  lemma TypeFlagsUndefinedIff(f: Bits)
    ensures TypeFlagsString(f) == "UNDEFINED" <==> f == {}
  {
    if f != {} {
      var s := TypeFlagsString(f);
      var p := Printed(f, FlagSteps);
      if Before(f, FlagSteps) != {} {
        assert s[|s| - 1] == '?';
      } else {
        if p == [] {
          NothingPrintedNothingCleared(f, FlagSteps);
        }
        WordsEndInSpace(p);
        assert s == Words(p);
        assert s[|s| - 1] == ' ';
      }
    }
  }

  /** The bits that every run clears when present. */
  const AlwaysCleared: Bits := {0, 1, 2, 3, 8, 9, 16, 17, 18, 19, 28, 29}

  /** The bits left at the end: the four named external bits, the matrix,
      vector and scalar bits, struct and array are always cleared; the rest of
      the external range only when that whole range was set. */
  lemma Remaining(f: Bits)
    ensures Before(f, FlagSteps) ==
      if TypeFlagExternalMask <= f then f - (AlwaysCleared + TypeFlagExternalMask) else f - AlwaysCleared
  {
    CompositeSteps(f);
    ExternalSteps(f);
    NumericSteps(f);
  }

  /** Steps 0 to 2: array, struct and the whole external range. */
  lemma CompositeSteps(f: Bits)
    ensures Before(f, 3) ==
      if TypeFlagExternalMask <= f then f - ({28, 29} + TypeFlagExternalMask) else f - {28, 29}
  {
    ClearOneBit(f, 0, 29);
    ClearOneBit(Before(f, 1), 1, 28);
    assert Before(f, 1) == f - {29};
    assert Before(f, 2) == f - {28, 29};
  }

  /** Steps 3 to 6: the four named external bits. */
  lemma ExternalSteps(f: Bits)
    ensures Before(f, 7) == Before(f, 3) - {16, 17, 18, 19}
  {
    ClearOneBit(Before(f, 3), 3, 19);
    ClearOneBit(Before(f, 4), 4, 18);
    ClearOneBit(Before(f, 5), 5, 17);
    ClearOneBit(Before(f, 6), 6, 16);
  }

  /** Steps 7 to 12: matrix, vector and the scalar kinds. */
  lemma NumericSteps(f: Bits)
    ensures Before(f, FlagSteps) == Before(f, 7) - {0, 1, 2, 3, 8, 9}
  {
    ClearOneBit(Before(f, 7), 7, 9);
    ClearOneBit(Before(f, 8), 8, 8);
    ClearOneBit(Before(f, 9), 9, 3);
    ClearOneBit(Before(f, 10), 10, 2);
    ClearOneBit(Before(f, 11), 11, 1);
    ClearOneBit(Before(f, 12), 12, 0);
  }

  /** A flag of a single bit is cleared whenever that bit is set. */
  lemma ClearOneBit(x: Bits, k: Step, b: nat)
    requires StepFlag(k) == {b}
    ensures Clear(x, k) == x - {b}
  {
    if b in x {
      assert x * {b} == {b};
    } else {
      assert x * {b} == {};
      assert x - {b} == x;
    }
  }

  /** "???" is appended exactly when bits outside every printed name remain:
      bits no flag names, or external bits when not the whole external range is set. */
  lemma UnknownMarkIff(f: Bits)
    requires f != {}
    ensures |TypeFlagsString(f)| >= 3
    ensures TypeFlagsString(f)[|TypeFlagsString(f)| - 3..] == "???" <==>
      if TypeFlagExternalMask <= f then !(f <= AlwaysCleared + TypeFlagExternalMask) else !(f <= AlwaysCleared)
  {
    Remaining(f);
    var p := Printed(f, FlagSteps);
    var s := TypeFlagsString(f);
    if Before(f, FlagSteps) == {} {
      if p == [] {
        NothingPrintedNothingCleared(f, FlagSteps);
      }
      WordsEndInSpace(p);
      assert s[|s| - 1] == ' ';
    }
  }

  // SpvReflectDecorationFlagBits read by the component printer, by bit position.
  const DecorationRowMajor: Bits := {2}     // 0x4
  const DecorationColumnMajor: Bits := {3}  // 0x8

  /** The low four type bits (the mask 0xF): the scalar kind. */
  const ScalarBits: Bits := {0, 1, 2, 3}

  /** The rendered component type, and whether the unsupported-component
      assertion was reached. */
  datatype ComponentText = ComponentText(text: string, unsupported: bool)

  /** The scalar name of the low type bits; empty for an unsupported combination. */
  function ScalarName(masked: Bits, signedness: bool): string {
    if masked == TypeFlagBool then "bool"
    else if masked == TypeFlagInt then (if signedness then "int" else "uint")
    else if masked == TypeFlagFloat then "float"
    else ""
  }

  /** The majorness prefix of a matrix; column-major wins when both are set. */
  function MajorPrefix(decorationFlags: Bits): string {
    if decorationFlags * DecorationColumnMajor != {} then "column_major "
    else if decorationFlags * DecorationRowMajor != {} then "row_major "
    else ""
  }

  /** The component type text of a reflected member. */
  function ComponentTypeString(typeFlags: Bits, signedness: bool, rowCount: nat, columnCount: nat,
                               componentCount: nat, decorationFlags: Bits): (r: ComponentText)
    ensures typeFlags * ScalarBits == {} ==> r == ComponentText("", false)
    ensures r.unsupported <==> typeFlags * ScalarBits !in {{}, TypeFlagBool, TypeFlagInt, TypeFlagFloat}
  {
    var masked := typeFlags * ScalarBits;
    if masked == {} then ComponentText("", false)
    else
      var isMatrix := typeFlags * TypeFlagMatrix != {};
      var prefix := if isMatrix then MajorPrefix(decorationFlags) else "";
      var suffix :=
        if isMatrix then Decimal.NatToString(rowCount) + "x" + Decimal.NatToString(columnCount)
        else if typeFlags * TypeFlagVector != {} then Decimal.NatToString(componentCount)
        else "";
      ComponentText(prefix + ScalarName(masked, signedness) + suffix,
                    masked != TypeFlagBool && masked != TypeFlagInt && masked != TypeFlagFloat)
  }

  /** The component count of a vector can be read back after the scalar name. */
  lemma VectorComponentCountReadable(typeFlags: Bits, signedness: bool, rowCount: nat, columnCount: nat,
                                     componentCount: nat, decorationFlags: Bits)
    requires typeFlags * ScalarBits != {}
    requires typeFlags * TypeFlagMatrix == {} && typeFlags * TypeFlagVector != {}
    ensures var r := ComponentTypeString(typeFlags, signedness, rowCount, columnCount, componentCount, decorationFlags);
            var n := |ScalarName(typeFlags * ScalarBits, signedness)|;
            n <= |r.text| &&
            r.text[..n] == ScalarName(typeFlags * ScalarBits, signedness) &&
            Decimal.AllDigits(r.text[n..]) &&
            Decimal.ParseDecimal(r.text[n..]) == componentCount
  {
    var r := ComponentTypeString(typeFlags, signedness, rowCount, columnCount, componentCount, decorationFlags);
    var name := ScalarName(typeFlags * ScalarBits, signedness);
    var count := Decimal.NatToString(componentCount);
    assert r.text == name + count;
    assert r.text[..|name|] == name && r.text[|name|..] == count;
    Decimal.ParseNatToString(componentCount);
  }

  /** Rows and columns written as digits around an "x" after a head can be read back. */
  predicate DimensionsReadable(head: string, text: string, rowCount: nat, columnCount: nat) {
    exists n :: |head| < n < |text| && text[..|head|] == head && text[n] == 'x' &&
      Decimal.AllDigits(text[|head|..n]) && Decimal.AllDigits(text[n + 1..]) &&
      Decimal.ParseDecimal(text[|head|..n]) == rowCount &&
      Decimal.ParseDecimal(text[n + 1..]) == columnCount
  }

  lemma SliceConcat(t: string, head: string, rows: string, cols: string)
    requires t == head + rows + "x" + cols
    ensures t[..|head|] == head && t[|head|..|head| + |rows|] == rows
    ensures t[|head| + |rows|] == 'x' && t[|head| + |rows| + 1..] == cols
  {
    assert t == head + (rows + ("x" + cols));
  }

  lemma SplitDimensions(head: string, rowCount: nat, columnCount: nat)
    ensures DimensionsReadable(head, head + Decimal.NatToString(rowCount) + "x" + Decimal.NatToString(columnCount),
                               rowCount, columnCount)
  {
    Decimal.ParseNatToString(rowCount);
    Decimal.ParseNatToString(columnCount);
    DigitsReadable(head, Decimal.NatToString(rowCount), Decimal.NatToString(columnCount), rowCount, columnCount);
  }

  /** Two digit strings around an "x" after a head can be read back. */
  lemma DigitsReadable(head: string, rows: string, cols: string, rowCount: nat, columnCount: nat)
    requires |rows| > 0 && Decimal.AllDigits(rows) && Decimal.AllDigits(cols)
    requires Decimal.ParseDecimal(rows) == rowCount && Decimal.ParseDecimal(cols) == columnCount
    ensures DimensionsReadable(head, head + rows + "x" + cols, rowCount, columnCount)
  {
    var t := head + rows + "x" + cols;
    var n := |head| + |rows|;
    SliceConcat(t, head, rows, cols);
    assert t[|head|..n] == rows && t[n + 1..] == cols;
  }

  /** A matrix text is the majorness prefix and the scalar name, then the row
      count, "x" and the column count, and both dimensions can be read back. */
  lemma MatrixDimensionsReadable(typeFlags: Bits, signedness: bool, rowCount: nat, columnCount: nat,
                                 componentCount: nat, decorationFlags: Bits)
    requires typeFlags * ScalarBits != {}
    requires typeFlags * TypeFlagMatrix != {}
    ensures DimensionsReadable(MajorPrefix(decorationFlags) + ScalarName(typeFlags * ScalarBits, signedness),
                               ComponentTypeString(typeFlags, signedness, rowCount, columnCount, componentCount, decorationFlags).text,
                               rowCount, columnCount)
  {
    var head := MajorPrefix(decorationFlags) + ScalarName(typeFlags * ScalarBits, signedness);
    assert ComponentTypeString(typeFlags, signedness, rowCount, columnCount, componentCount, decorationFlags).text ==
      head + Decimal.NatToString(rowCount) + "x" + Decimal.NatToString(columnCount);
    SplitDimensions(head, rowCount, columnCount);
  }
}
