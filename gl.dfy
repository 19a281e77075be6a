/** The graphics driver as seen by the crate: the enum values it uses, the calls it
    issues, and a fake driver that records every call in a log. */
module Gl {

  // Buffer targets and usage hints.
  const ARRAY_BUFFER: nat := 0x8892
  const ELEMENT_ARRAY_BUFFER: nat := 0x8893
  const UNIFORM_BUFFER: nat := 0x8A11
  const STATIC_DRAW: nat := 0x88E4

  // GLboolean values.
  const FALSE: int := 0
  const TRUE: int := 1

  // Scalar type enums (vertex attribute component types).
  const BYTE: nat := 0x1400
  const UNSIGNED_BYTE: nat := 0x1401
  const SHORT: nat := 0x1402
  const UNSIGNED_SHORT: nat := 0x1403
  const INT: nat := 0x1404
  const UNSIGNED_INT: nat := 0x1405
  const FLOAT: nat := 0x1406
  const DOUBLE: nat := 0x140A
  const HALF_FLOAT: nat := 0x140B
  const UNSIGNED_INT_2_10_10_10_REV: nat := 0x8368
  const INT_2_10_10_10_REV: nat := 0x8D9F

  const U32_LIMIT: nat := 0x1_0000_0000

  /** A value of the driver's 32-bit signed integer type. */
  type I32 = x: int | -0x8000_0000 <= x < 0x8000_0000

  // Shader variable type enums reported by uniform and attribute reflection
  // (FLOAT, INT and UNSIGNED_INT are above).
  const FLOAT_VEC2: nat := 0x8B50
  const FLOAT_VEC3: nat := 0x8B51
  const FLOAT_VEC4: nat := 0x8B52
  const INT_VEC2: nat := 0x8B53
  const INT_VEC3: nat := 0x8B54
  const INT_VEC4: nat := 0x8B55
  const UNSIGNED_INT_VEC2: nat := 0x8DC6
  const UNSIGNED_INT_VEC3: nat := 0x8DC7
  const UNSIGNED_INT_VEC4: nat := 0x8DC8
  const BOOL: nat := 0x8B56
  const BOOL_VEC2: nat := 0x8B57
  const BOOL_VEC3: nat := 0x8B58
  const BOOL_VEC4: nat := 0x8B59
  const FLOAT_MAT2: nat := 0x8B5A
  const FLOAT_MAT3: nat := 0x8B5B
  const FLOAT_MAT4: nat := 0x8B5C
  const FLOAT_MAT2x3: nat := 0x8B65
  const FLOAT_MAT2x4: nat := 0x8B66
  const FLOAT_MAT3x2: nat := 0x8B67
  const FLOAT_MAT3x4: nat := 0x8B68
  const FLOAT_MAT4x2: nat := 0x8B69
  const FLOAT_MAT4x3: nat := 0x8B6A
  const SAMPLER_1D: nat := 0x8B5D
  const SAMPLER_2D: nat := 0x8B5E
  const SAMPLER_3D: nat := 0x8B5F
  const SAMPLER_CUBE: nat := 0x8B60
  const SAMPLER_1D_SHADOW: nat := 0x8B61
  const SAMPLER_2D_SHADOW: nat := 0x8B62
  const SAMPLER_2D_RECT: nat := 0x8B63
  const SAMPLER_2D_RECT_SHADOW: nat := 0x8B64
  const SAMPLER_1D_ARRAY: nat := 0x8DC0
  const SAMPLER_2D_ARRAY: nat := 0x8DC1
  const SAMPLER_BUFFER: nat := 0x8DC2
  const SAMPLER_1D_ARRAY_SHADOW: nat := 0x8DC3
  const SAMPLER_2D_ARRAY_SHADOW: nat := 0x8DC4
  const SAMPLER_CUBE_SHADOW: nat := 0x8DC5
  const INT_SAMPLER_1D: nat := 0x8DC9
  const INT_SAMPLER_2D: nat := 0x8DCA
  const INT_SAMPLER_3D: nat := 0x8DCB
  const INT_SAMPLER_CUBE: nat := 0x8DCC
  const INT_SAMPLER_2D_RECT: nat := 0x8DCD
  const INT_SAMPLER_1D_ARRAY: nat := 0x8DCE
  const INT_SAMPLER_2D_ARRAY: nat := 0x8DCF
  const INT_SAMPLER_BUFFER: nat := 0x8DD0
  const UNSIGNED_INT_SAMPLER_1D: nat := 0x8DD1
  const UNSIGNED_INT_SAMPLER_2D: nat := 0x8DD2
  const UNSIGNED_INT_SAMPLER_3D: nat := 0x8DD3
  const UNSIGNED_INT_SAMPLER_CUBE: nat := 0x8DD4
  const UNSIGNED_INT_SAMPLER_2D_RECT: nat := 0x8DD5
  const UNSIGNED_INT_SAMPLER_1D_ARRAY: nat := 0x8DD6
  const UNSIGNED_INT_SAMPLER_2D_ARRAY: nat := 0x8DD7
  const UNSIGNED_INT_SAMPLER_BUFFER: nat := 0x8DD8
  const SAMPLER_2D_MULTISAMPLE: nat := 0x9108
  const INT_SAMPLER_2D_MULTISAMPLE: nat := 0x9109
  const UNSIGNED_INT_SAMPLER_2D_MULTISAMPLE: nat := 0x910A
  const SAMPLER_2D_MULTISAMPLE_ARRAY: nat := 0x910B
  const INT_SAMPLER_2D_MULTISAMPLE_ARRAY: nat := 0x910C
  const UNSIGNED_INT_SAMPLER_2D_MULTISAMPLE_ARRAY: nat := 0x910D

  /** `x as u32` for a value in the i32 range: two's complement reinterpretation. */
  function AsU32(x: int): (r: nat)
    requires -0x8000_0000 <= x < 0x8000_0000
    ensures r < U32_LIMIT
    ensures x >= 0 ==> r == x
    ensures x < 0 ==> r == x + U32_LIMIT
  {
    if x >= 0 then x else x + U32_LIMIT
  }

  /** `n as i32` for an unsigned size: keep the low 32 bits, read them as signed. */
  function AsI32(n: nat): (r: int)
    ensures -0x8000_0000 <= r < 0x8000_0000
    ensures (r - n) % U32_LIMIT == 0
    ensures n < 0x8000_0000 ==> r == n
  {
    var low := n % U32_LIMIT;
    if low < 0x8000_0000 then low else low - U32_LIMIT
  }

  /** Scalar kind of a `glUniform*v` entry point. */
  datatype ScalarKind = FloatScalar | IntScalar | UnsignedScalar

  /** One driver call, with the arguments the crate passes.  Data pointers are not
      recorded: uploads carry their byte sizes only. */
  datatype Call =
    | GenBuffers(name: nat)
    | BindBuffer(target: nat, name: nat)
    | BufferData(target: nat, size: nat, usage: nat)
    | BufferSubData(target: nat, offset: nat, size: nat)
    | DeleteBuffers(name: nat)
    | GenVertexArrays(name: nat)
    | BindVertexArray(name: nat)
    | DeleteVertexArrays(name: nat)
    | EnableVertexAttribArray(index: nat)
    | VertexAttribPointer(index: nat, components: nat, glType: nat, normalized: bool, stride: nat, offset: nat)
    | CreateProgram(name: nat)
    | AttachShader(program: nat, shader: nat)
    | LinkProgram(program: nat)
    | UseProgram(program: nat)
    | DeleteProgram(program: nat)
    | UniformVector(kind: ScalarKind, components: nat, location: int, count: int)
    | UniformMatrix(columns: nat, rows: nat, location: int, count: int, transpose: int)

  /** The fake driver: it hands out object names and records calls in order. */
  class Driver {
    var log: seq<Call>
    var nextName: nat

    constructor ()
      ensures log == [] && nextName == 1
    {
      log := [];
      nextName := 1;
    }

    /** Issue one call. */
    method Issue(c: Call)
      modifies this`log
      ensures log == old(log) + [c]
    {
      log := log + [c];
    }

    /** The name written by a `glGen*` / `glCreate*` call. */
    method NewName() returns (name: nat)
      modifies this`nextName
      ensures name == old(nextName) && nextName == name + 1
    {
      name := nextName;
      nextName := nextName + 1;
    }
  }
}
