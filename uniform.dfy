/** Uniform reflection and upload: the value-slice validator and its element-count
    tables, the validate-then-dispatch setters, the driver type-tag table, and the
    partition of reflected uniforms into globals and interface-block members. */
module Uniforms {
  import opened Wrappers
  import opened Gl
  import opened Lookups

  datatype SimpleUniformTypeFloat = Uniform1f | Uniform2f | Uniform3f | Uniform4f
  datatype SimpleUniformTypeInt = Uniform1i | Uniform2i | Uniform3i | Uniform4i
  datatype SimpleUniformTypeUint = Uniform1u | Uniform2u | Uniform3u | Uniform4u
  datatype SimpleUniformTypeMatrix =
    | Matrix2f | Matrix3f | Matrix4f | Matrix2x3f | Matrix3x2f | Matrix2x4f | Matrix4x2f | Matrix3x4f | Matrix4x3f

  // ---------------------------------------------------------------------------
  // The validator and its tables

  /** `validate_uniform`: `count` entries of `elementCount` values each must fit
      in a slice of `len` values; otherwise the call aborts. */
  function ValidateUniform(count: nat, elementCount: nat, len: nat): (r: Outcome)
    ensures r.Pass? <==> count * elementCount <= len
    ensures r.Fail? ==> r.panic == TooSmallUniformSlice(count, count * elementCount, len)
  {
    var expectedLen := count * elementCount;
    if expectedLen > len then Fail(TooSmallUniformSlice(count, expectedLen, len)) else Pass
  }

  /** A passing validation means every value the driver reads for entry `k`,
      component `j`, lies inside the slice. */
  lemma PassedSliceHoldsEveryValue(count: nat, elementCount: nat, len: nat, k: nat, j: nat)
    requires ValidateUniform(count, elementCount, len).Pass?
    requires k < count && j < elementCount
    ensures k * elementCount + j < len
  {
    calc {
      k * elementCount + j;
    <  k * elementCount + elementCount;
    == (k + 1) * elementCount;
    <= { MulMonotone(k + 1, count, elementCount); } count * elementCount;
    <= len;
    }
  }

  lemma MulMonotone(a: nat, b: nat, c: nat)
    requires a <= b
    ensures a * c <= b * c
  {
  }

  /** `validate_uniform_f32`. */
  function FloatElementCount(t: SimpleUniformTypeFloat): (r: nat)
    ensures 1 <= r <= 4
  {
    match t
    case Uniform1f => 1
    case Uniform2f => 2
    case Uniform3f => 3
    case Uniform4f => 4
  }

  /** `validate_uniform_i32`. */
  function IntElementCount(t: SimpleUniformTypeInt): (r: nat)
    ensures 1 <= r <= 4
  {
    match t
    case Uniform1i => 1
    case Uniform2i => 2
    case Uniform3i => 3
    case Uniform4i => 4
  }

  /** `validate_uniform_u32`. */
  function UintElementCount(t: SimpleUniformTypeUint): (r: nat)
    ensures 1 <= r <= 4
  {
    match t
    case Uniform1u => 1
    case Uniform2u => 2
    case Uniform3u => 3
    case Uniform4u => 4
  }

  /** `validate_uniform_matrix`: columns times rows. */
  function MatrixElementCount(t: SimpleUniformTypeMatrix): (r: nat)
    ensures r in {4, 6, 8, 9, 12, 16}
  {
    match t
    case Matrix2f => 2 * 2
    case Matrix3f => 3 * 3
    case Matrix4f => 4 * 4
    case Matrix2x3f => 2 * 3
    case Matrix3x2f => 3 * 2
    case Matrix2x4f => 2 * 4
    case Matrix4x2f => 4 * 2
    case Matrix3x4f => 3 * 4
    case Matrix4x3f => 4 * 3
  }

  // ---------------------------------------------------------------------------
  // The entry point each setter dispatches to

  function FloatDispatch(t: SimpleUniformTypeFloat, location: int, count: int): Call
  {
    match t
    case Uniform1f => UniformVector(FloatScalar, 1, location, count)
    case Uniform2f => UniformVector(FloatScalar, 2, location, count)
    case Uniform3f => UniformVector(FloatScalar, 3, location, count)
    case Uniform4f => UniformVector(FloatScalar, 4, location, count)
  }

  function IntDispatch(t: SimpleUniformTypeInt, location: int, count: int): Call
  {
    match t
    case Uniform1i => UniformVector(IntScalar, 1, location, count)
    case Uniform2i => UniformVector(IntScalar, 2, location, count)
    case Uniform3i => UniformVector(IntScalar, 3, location, count)
    case Uniform4i => UniformVector(IntScalar, 4, location, count)
  }

  function UintDispatch(t: SimpleUniformTypeUint, location: int, count: int): Call
  {
    match t
    case Uniform1u => UniformVector(UnsignedScalar, 1, location, count)
    case Uniform2u => UniformVector(UnsignedScalar, 2, location, count)
    case Uniform3u => UniformVector(UnsignedScalar, 3, location, count)
    case Uniform4u => UniformVector(UnsignedScalar, 4, location, count)
  }

  /** `glUniformMatrix{C}x{R}fv` with `C` columns and `R` rows. */
  function MatrixDispatch(t: SimpleUniformTypeMatrix, location: int, count: int, transpose: int): Call
  {
    match t
    case Matrix2f => UniformMatrix(2, 2, location, count, transpose)
    case Matrix3f => UniformMatrix(3, 3, location, count, transpose)
    case Matrix4f => UniformMatrix(4, 4, location, count, transpose)
    case Matrix2x3f => UniformMatrix(2, 3, location, count, transpose)
    case Matrix3x2f => UniformMatrix(3, 2, location, count, transpose)
    case Matrix2x4f => UniformMatrix(2, 4, location, count, transpose)
    case Matrix4x2f => UniformMatrix(4, 2, location, count, transpose)
    case Matrix3x4f => UniformMatrix(3, 4, location, count, transpose)
    case Matrix4x3f => UniformMatrix(4, 3, location, count, transpose)
  }

  /** The validation tables count exactly the values per entry that the
      dispatched entry point reads: its component count, or columns times rows. */
  lemma TablesMatchEntryPoints(f: SimpleUniformTypeFloat, i: SimpleUniformTypeInt, u: SimpleUniformTypeUint,
                               m: SimpleUniformTypeMatrix, location: int, count: int, transpose: int)
    ensures FloatDispatch(f, location, count) == UniformVector(FloatScalar, FloatElementCount(f), location, count)
    ensures IntDispatch(i, location, count) == UniformVector(IntScalar, IntElementCount(i), location, count)
    ensures UintDispatch(u, location, count) == UniformVector(UnsignedScalar, UintElementCount(u), location, count)
    ensures var c := MatrixDispatch(m, location, count, transpose);
            c.UniformMatrix? && c.location == location && c.count == count && c.transpose == transpose &&
            c.columns * c.rows == MatrixElementCount(m)
  {
  }

  // ---------------------------------------------------------------------------
  // The setters: validate, then issue exactly one call

  /** `uniform_f32`. */
  method UniformF32<T>(gl: Driver, location: I32, count: nat, uniformType: SimpleUniformTypeFloat, values: seq<T>)
    returns (r: Outcome)
    modifies gl`log
    ensures r == ValidateUniform(count, FloatElementCount(uniformType), |values|)
    ensures gl.log == old(gl.log) + if r.Pass? then [FloatDispatch(uniformType, location, AsI32(count))] else []
  {
    r := ValidateUniform(count, FloatElementCount(uniformType), |values|);
    if r.Fail? {
      return;
    }
    gl.Issue(FloatDispatch(uniformType, location, AsI32(count)));
  }

  /** `uniform_matrix`: the flag is sent as the driver's TRUE or FALSE. */
  method UniformMatrixF32<T>(gl: Driver, location: I32, count: nat, uniformType: SimpleUniformTypeMatrix,
                             transpose: bool, values: seq<T>)
    returns (r: Outcome)
    modifies gl`log
    ensures r == ValidateUniform(count, MatrixElementCount(uniformType), |values|)
    ensures gl.log == old(gl.log) +
              if r.Pass? then [MatrixDispatch(uniformType, location, AsI32(count), if transpose then TRUE else FALSE)]
              else []
  {
    r := ValidateUniform(count, MatrixElementCount(uniformType), |values|);
    if r.Fail? {
      return;
    }
    var flag := if transpose then TRUE else FALSE;
    gl.Issue(MatrixDispatch(uniformType, location, AsI32(count), flag));
  }

  /** `uniform_u32`. */
  method UniformU32<T>(gl: Driver, location: I32, count: nat, uniformType: SimpleUniformTypeUint, values: seq<T>)
    returns (r: Outcome)
    modifies gl`log
    ensures r == ValidateUniform(count, UintElementCount(uniformType), |values|)
    ensures gl.log == old(gl.log) + if r.Pass? then [UintDispatch(uniformType, location, AsI32(count))] else []
  {
    r := ValidateUniform(count, UintElementCount(uniformType), |values|);
    if r.Fail? {
      return;
    }
    gl.Issue(UintDispatch(uniformType, location, AsI32(count)));
  }

  /** `uniform_i32`. */
  method UniformI32<T>(gl: Driver, location: I32, count: nat, uniformType: SimpleUniformTypeInt, values: seq<T>)
    returns (r: Outcome)
    modifies gl`log
    ensures r == ValidateUniform(count, IntElementCount(uniformType), |values|)
    ensures gl.log == old(gl.log) + if r.Pass? then [IntDispatch(uniformType, location, AsI32(count))] else []
  {
    r := ValidateUniform(count, IntElementCount(uniformType), |values|);
    if r.Fail? {
      return;
    }
    gl.Issue(IntDispatch(uniformType, location, AsI32(count)));
  }

  // ---------------------------------------------------------------------------
  // Driver type tags

  datatype UniformType =
    | Float
    | FloatVec2
    | FloatVec3
    | FloatVec4
    | Int
    | IntVec2
    | IntVec3
    | IntVec4
    | UnsignedInt
    | UnsignedIntVec2
    | UnsignedIntVec3
    | UnsignedIntVec4
    | Bool
    | BoolVec2
    | BoolVec3
    | BoolVec4
    | FloatMat2
    | FloatMat3
    | FloatMat4
    | FloatMat2x3
    | FloatMat2x4
    | FloatMat3x2
    | FloatMat3x4
    | FloatMat4x2
    | FloatMat4x3
    | Sampler1d
    | Sampler2d
    | Sampler3d
    | SamplerCube
    | Sampler1dShadow
    | Sampler2dShadow
    | Sampler1dArray
    | Sampler2dArray
    | Sampler1dArrayShadow
    | Sampler2dArrayShadow
    | Sampler2dMultisample
    | Sampler2dMultisampleArray
    | SamplerCubeShadow
    | SamplerBuffer
    | Sampler2dRect
    | Sampler2dRectShadow
    | IntSampler1d
    | IntSampler2d
    | IntSampler3d
    | IntSamplerCube
    | IntSampler1dArray
    | IntSampler2dArray
    | IntSampler2dMultisample
    | IntSampler2dMultisampleArray
    | IntSamplerBuffer
    | IntSampler2dRect
    | UnsignedIntSampler1d
    | UnsignedIntSampler2d
    | UnsignedIntSampler3d
    | UnsignedIntSamplerCube
    | UnsignedIntSampler1dArray
    | UnsignedIntSampler2dArray
    | UnsignedIntSampler2dMultisample
    | UnsignedIntSampler2dMultisampleArray
    | UnsignedIntSamplerBuffer
    | UnsignedIntSampler2dRect

  /** The driver enum naming each uniform type. */
  function UniformTypeTag(t: UniformType): nat
  {
    match t
    case Float => FLOAT
    case FloatVec2 => FLOAT_VEC2
    case FloatVec3 => FLOAT_VEC3
    case FloatVec4 => FLOAT_VEC4
    case Int => INT
    case IntVec2 => INT_VEC2
    case IntVec3 => INT_VEC3
    case IntVec4 => INT_VEC4
    case UnsignedInt => UNSIGNED_INT
    case UnsignedIntVec2 => UNSIGNED_INT_VEC2
    case UnsignedIntVec3 => UNSIGNED_INT_VEC3
    case UnsignedIntVec4 => UNSIGNED_INT_VEC4
    case Bool => BOOL
    case BoolVec2 => BOOL_VEC2
    case BoolVec3 => BOOL_VEC3
    case BoolVec4 => BOOL_VEC4
    case FloatMat2 => FLOAT_MAT2
    case FloatMat3 => FLOAT_MAT3
    case FloatMat4 => FLOAT_MAT4
    case FloatMat2x3 => FLOAT_MAT2x3
    case FloatMat2x4 => FLOAT_MAT2x4
    case FloatMat3x2 => FLOAT_MAT3x2
    case FloatMat3x4 => FLOAT_MAT3x4
    case FloatMat4x2 => FLOAT_MAT4x2
    case FloatMat4x3 => FLOAT_MAT4x3
    case Sampler1d => SAMPLER_1D
    case Sampler2d => SAMPLER_2D
    case Sampler3d => SAMPLER_3D
    case SamplerCube => SAMPLER_CUBE
    case Sampler1dShadow => SAMPLER_1D_SHADOW
    case Sampler2dShadow => SAMPLER_2D_SHADOW
    case Sampler1dArray => SAMPLER_1D_ARRAY
    case Sampler2dArray => SAMPLER_2D_ARRAY
    case Sampler1dArrayShadow => SAMPLER_1D_ARRAY_SHADOW
    case Sampler2dArrayShadow => SAMPLER_2D_ARRAY_SHADOW
    case Sampler2dMultisample => SAMPLER_2D_MULTISAMPLE
    case Sampler2dMultisampleArray => SAMPLER_2D_MULTISAMPLE_ARRAY
    case SamplerCubeShadow => SAMPLER_CUBE_SHADOW
    case SamplerBuffer => SAMPLER_BUFFER
    case Sampler2dRect => SAMPLER_2D_RECT
    case Sampler2dRectShadow => SAMPLER_2D_RECT_SHADOW
    case IntSampler1d => INT_SAMPLER_1D
    case IntSampler2d => INT_SAMPLER_2D
    case IntSampler3d => INT_SAMPLER_3D
    case IntSamplerCube => INT_SAMPLER_CUBE
    case IntSampler1dArray => INT_SAMPLER_1D_ARRAY
    case IntSampler2dArray => INT_SAMPLER_2D_ARRAY
    case IntSampler2dMultisample => INT_SAMPLER_2D_MULTISAMPLE
    case IntSampler2dMultisampleArray => INT_SAMPLER_2D_MULTISAMPLE_ARRAY
    case IntSamplerBuffer => INT_SAMPLER_BUFFER
    case IntSampler2dRect => INT_SAMPLER_2D_RECT
    case UnsignedIntSampler1d => UNSIGNED_INT_SAMPLER_1D
    case UnsignedIntSampler2d => UNSIGNED_INT_SAMPLER_2D
    case UnsignedIntSampler3d => UNSIGNED_INT_SAMPLER_3D
    case UnsignedIntSamplerCube => UNSIGNED_INT_SAMPLER_CUBE
    case UnsignedIntSampler1dArray => UNSIGNED_INT_SAMPLER_1D_ARRAY
    case UnsignedIntSampler2dArray => UNSIGNED_INT_SAMPLER_2D_ARRAY
    case UnsignedIntSampler2dMultisample => UNSIGNED_INT_SAMPLER_2D_MULTISAMPLE
    case UnsignedIntSampler2dMultisampleArray => UNSIGNED_INT_SAMPLER_2D_MULTISAMPLE_ARRAY
    case UnsignedIntSamplerBuffer => UNSIGNED_INT_SAMPLER_BUFFER
    case UnsignedIntSampler2dRect => UNSIGNED_INT_SAMPLER_2D_RECT
  }

  /** `uniform_type_from_u32`. */
  function UniformTypeFromU32(tag: nat): Option<UniformType>
  {
    if tag == FLOAT then Some(Float)
    else if tag == FLOAT_VEC2 then Some(FloatVec2)
    else if tag == FLOAT_VEC3 then Some(FloatVec3)
    else if tag == FLOAT_VEC4 then Some(FloatVec4)
    else if tag == INT then Some(Int)
    else if tag == INT_VEC2 then Some(IntVec2)
    else if tag == INT_VEC3 then Some(IntVec3)
    else if tag == INT_VEC4 then Some(IntVec4)
    else if tag == UNSIGNED_INT then Some(UnsignedInt)
    else if tag == UNSIGNED_INT_VEC2 then Some(UnsignedIntVec2)
    else if tag == UNSIGNED_INT_VEC3 then Some(UnsignedIntVec3)
    else if tag == UNSIGNED_INT_VEC4 then Some(UnsignedIntVec4)
    else if tag == BOOL then Some(Bool)
    else if tag == BOOL_VEC2 then Some(BoolVec2)
    else if tag == BOOL_VEC3 then Some(BoolVec3)
    else if tag == BOOL_VEC4 then Some(BoolVec4)
    else if tag == FLOAT_MAT2 then Some(FloatMat2)
    else if tag == FLOAT_MAT3 then Some(FloatMat3)
    else if tag == FLOAT_MAT4 then Some(FloatMat4)
    else if tag == FLOAT_MAT2x3 then Some(FloatMat2x3)
    else if tag == FLOAT_MAT2x4 then Some(FloatMat2x4)
    else if tag == FLOAT_MAT3x2 then Some(FloatMat3x2)
    else if tag == FLOAT_MAT3x4 then Some(FloatMat3x4)
    else if tag == FLOAT_MAT4x2 then Some(FloatMat4x2)
    else if tag == FLOAT_MAT4x3 then Some(FloatMat4x3)
    else if tag == SAMPLER_1D then Some(Sampler1d)
    else if tag == SAMPLER_2D then Some(Sampler2d)
    else if tag == SAMPLER_3D then Some(Sampler3d)
    else if tag == SAMPLER_CUBE then Some(SamplerCube)
    else if tag == SAMPLER_1D_SHADOW then Some(Sampler1dShadow)
    else if tag == SAMPLER_2D_SHADOW then Some(Sampler2dShadow)
    else if tag == SAMPLER_1D_ARRAY then Some(Sampler1dArray)
    else if tag == SAMPLER_2D_ARRAY then Some(Sampler2dArray)
    else if tag == SAMPLER_1D_ARRAY_SHADOW then Some(Sampler1dArrayShadow)
    else if tag == SAMPLER_2D_ARRAY_SHADOW then Some(Sampler2dArrayShadow)
    else if tag == SAMPLER_2D_MULTISAMPLE then Some(Sampler2dMultisample)
    else if tag == SAMPLER_2D_MULTISAMPLE_ARRAY then Some(Sampler2dMultisampleArray)
    else if tag == SAMPLER_CUBE_SHADOW then Some(SamplerCubeShadow)
    else if tag == SAMPLER_BUFFER then Some(SamplerBuffer)
    else if tag == SAMPLER_2D_RECT then Some(Sampler2dRect)
    else if tag == SAMPLER_2D_RECT_SHADOW then Some(Sampler2dRectShadow)
    else if tag == INT_SAMPLER_1D then Some(IntSampler1d)
    else if tag == INT_SAMPLER_2D then Some(IntSampler2d)
    else if tag == INT_SAMPLER_3D then Some(IntSampler3d)
    else if tag == INT_SAMPLER_CUBE then Some(IntSamplerCube)
    else if tag == INT_SAMPLER_1D_ARRAY then Some(IntSampler1dArray)
    else if tag == INT_SAMPLER_2D_ARRAY then Some(IntSampler2dArray)
    else if tag == INT_SAMPLER_2D_MULTISAMPLE then Some(IntSampler2dMultisample)
    else if tag == INT_SAMPLER_2D_MULTISAMPLE_ARRAY then Some(IntSampler2dMultisampleArray)
    else if tag == INT_SAMPLER_BUFFER then Some(IntSamplerBuffer)
    else if tag == INT_SAMPLER_2D_RECT then Some(IntSampler2dRect)
    else if tag == UNSIGNED_INT_SAMPLER_1D then Some(UnsignedIntSampler1d)
    else if tag == UNSIGNED_INT_SAMPLER_2D then Some(UnsignedIntSampler2d)
    else if tag == UNSIGNED_INT_SAMPLER_3D then Some(UnsignedIntSampler3d)
    else if tag == UNSIGNED_INT_SAMPLER_CUBE then Some(UnsignedIntSamplerCube)
    else if tag == UNSIGNED_INT_SAMPLER_1D_ARRAY then Some(UnsignedIntSampler1dArray)
    else if tag == UNSIGNED_INT_SAMPLER_2D_ARRAY then Some(UnsignedIntSampler2dArray)
    else if tag == UNSIGNED_INT_SAMPLER_2D_MULTISAMPLE then Some(UnsignedIntSampler2dMultisample)
    else if tag == UNSIGNED_INT_SAMPLER_2D_MULTISAMPLE_ARRAY then Some(UnsignedIntSampler2dMultisampleArray)
    else if tag == UNSIGNED_INT_SAMPLER_BUFFER then Some(UnsignedIntSamplerBuffer)
    else if tag == UNSIGNED_INT_SAMPLER_2D_RECT then Some(UnsignedIntSampler2dRect)
    else None
  }

  /** Every uniform type's tag maps back to it. */
  lemma UniformTagRoundTrip(t: UniformType)
    ensures UniformTypeFromU32(UniformTypeTag(t)) == Some(t)
  {
    match t
    case Float => FloatTagDecodes();
    case FloatVec2 => FloatVec2TagDecodes();
    case FloatVec3 => FloatVec3TagDecodes();
    case FloatVec4 => FloatVec4TagDecodes();
    case Int => IntTagDecodes();
    case IntVec2 => IntVec2TagDecodes();
    case IntVec3 => IntVec3TagDecodes();
    case IntVec4 => IntVec4TagDecodes();
    case UnsignedInt => UnsignedIntTagDecodes();
    case UnsignedIntVec2 => UnsignedIntVec2TagDecodes();
    case UnsignedIntVec3 => UnsignedIntVec3TagDecodes();
    case UnsignedIntVec4 => UnsignedIntVec4TagDecodes();
    case Bool => BoolTagDecodes();
    case BoolVec2 => BoolVec2TagDecodes();
    case BoolVec3 => BoolVec3TagDecodes();
    case BoolVec4 => BoolVec4TagDecodes();
    case FloatMat2 => FloatMat2TagDecodes();
    case FloatMat3 => FloatMat3TagDecodes();
    case FloatMat4 => FloatMat4TagDecodes();
    case FloatMat2x3 => FloatMat2x3TagDecodes();
    case FloatMat2x4 => FloatMat2x4TagDecodes();
    case FloatMat3x2 => FloatMat3x2TagDecodes();
    case FloatMat3x4 => FloatMat3x4TagDecodes();
    case FloatMat4x2 => FloatMat4x2TagDecodes();
    case FloatMat4x3 => FloatMat4x3TagDecodes();
    case Sampler1d => Sampler1dTagDecodes();
    case Sampler2d => Sampler2dTagDecodes();
    case Sampler3d => Sampler3dTagDecodes();
    case SamplerCube => SamplerCubeTagDecodes();
    case Sampler1dShadow => Sampler1dShadowTagDecodes();
    case Sampler2dShadow => Sampler2dShadowTagDecodes();
    case Sampler1dArray => Sampler1dArrayTagDecodes();
    case Sampler2dArray => Sampler2dArrayTagDecodes();
    case Sampler1dArrayShadow => Sampler1dArrayShadowTagDecodes();
    case Sampler2dArrayShadow => Sampler2dArrayShadowTagDecodes();
    case Sampler2dMultisample => Sampler2dMultisampleTagDecodes();
    case Sampler2dMultisampleArray => Sampler2dMultisampleArrayTagDecodes();
    case SamplerCubeShadow => SamplerCubeShadowTagDecodes();
    case SamplerBuffer => SamplerBufferTagDecodes();
    case Sampler2dRect => Sampler2dRectTagDecodes();
    case Sampler2dRectShadow => Sampler2dRectShadowTagDecodes();
    case IntSampler1d => IntSampler1dTagDecodes();
    case IntSampler2d => IntSampler2dTagDecodes();
    case IntSampler3d => IntSampler3dTagDecodes();
    case IntSamplerCube => IntSamplerCubeTagDecodes();
    case IntSampler1dArray => IntSampler1dArrayTagDecodes();
    case IntSampler2dArray => IntSampler2dArrayTagDecodes();
    case IntSampler2dMultisample => IntSampler2dMultisampleTagDecodes();
    case IntSampler2dMultisampleArray => IntSampler2dMultisampleArrayTagDecodes();
    case IntSamplerBuffer => IntSamplerBufferTagDecodes();
    case IntSampler2dRect => IntSampler2dRectTagDecodes();
    case UnsignedIntSampler1d => UnsignedIntSampler1dTagDecodes();
    case UnsignedIntSampler2d => UnsignedIntSampler2dTagDecodes();
    case UnsignedIntSampler3d => UnsignedIntSampler3dTagDecodes();
    case UnsignedIntSamplerCube => UnsignedIntSamplerCubeTagDecodes();
    case UnsignedIntSampler1dArray => UnsignedIntSampler1dArrayTagDecodes();
    case UnsignedIntSampler2dArray => UnsignedIntSampler2dArrayTagDecodes();
    case UnsignedIntSampler2dMultisample => UnsignedIntSampler2dMultisampleTagDecodes();
    case UnsignedIntSampler2dMultisampleArray => UnsignedIntSampler2dMultisampleArrayTagDecodes();
    case UnsignedIntSamplerBuffer => UnsignedIntSamplerBufferTagDecodes();
    case UnsignedIntSampler2dRect => UnsignedIntSampler2dRectTagDecodes();
  }

  // One lemma per tag: each decodes one constant on its own, which keeps every
  // proof obligation small.

  lemma FloatTagDecodes()
    ensures UniformTypeFromU32(FLOAT) == Some(Float)
  {
  }

  lemma FloatVec2TagDecodes()
    ensures UniformTypeFromU32(FLOAT_VEC2) == Some(FloatVec2)
  {
  }

  lemma FloatVec3TagDecodes()
    ensures UniformTypeFromU32(FLOAT_VEC3) == Some(FloatVec3)
  {
  }

  lemma FloatVec4TagDecodes()
    ensures UniformTypeFromU32(FLOAT_VEC4) == Some(FloatVec4)
  {
  }

  lemma IntTagDecodes()
    ensures UniformTypeFromU32(INT) == Some(Int)
  {
  }

  lemma IntVec2TagDecodes()
    ensures UniformTypeFromU32(INT_VEC2) == Some(IntVec2)
  {
  }

  lemma IntVec3TagDecodes()
    ensures UniformTypeFromU32(INT_VEC3) == Some(IntVec3)
  {
  }

  lemma IntVec4TagDecodes()
    ensures UniformTypeFromU32(INT_VEC4) == Some(IntVec4)
  {
  }

  lemma UnsignedIntTagDecodes()
    ensures UniformTypeFromU32(UNSIGNED_INT) == Some(UnsignedInt)
  {
  }

  lemma UnsignedIntVec2TagDecodes()
    ensures UniformTypeFromU32(UNSIGNED_INT_VEC2) == Some(UnsignedIntVec2)
  {
  }

  lemma UnsignedIntVec3TagDecodes()
    ensures UniformTypeFromU32(UNSIGNED_INT_VEC3) == Some(UnsignedIntVec3)
  {
  }

  lemma UnsignedIntVec4TagDecodes()
    ensures UniformTypeFromU32(UNSIGNED_INT_VEC4) == Some(UnsignedIntVec4)
  {
  }

  lemma BoolTagDecodes()
    ensures UniformTypeFromU32(BOOL) == Some(Bool)
  {
  }

  lemma BoolVec2TagDecodes()
    ensures UniformTypeFromU32(BOOL_VEC2) == Some(BoolVec2)
  {
  }

  lemma BoolVec3TagDecodes()
    ensures UniformTypeFromU32(BOOL_VEC3) == Some(BoolVec3)
  {
  }

  lemma BoolVec4TagDecodes()
    ensures UniformTypeFromU32(BOOL_VEC4) == Some(BoolVec4)
  {
  }

  lemma FloatMat2TagDecodes()
    ensures UniformTypeFromU32(FLOAT_MAT2) == Some(FloatMat2)
  {
  }

  lemma FloatMat3TagDecodes()
    ensures UniformTypeFromU32(FLOAT_MAT3) == Some(FloatMat3)
  {
  }

  lemma FloatMat4TagDecodes()
    ensures UniformTypeFromU32(FLOAT_MAT4) == Some(FloatMat4)
  {
  }

  lemma FloatMat2x3TagDecodes()
    ensures UniformTypeFromU32(FLOAT_MAT2x3) == Some(FloatMat2x3)
  {
  }

  lemma FloatMat2x4TagDecodes()
    ensures UniformTypeFromU32(FLOAT_MAT2x4) == Some(FloatMat2x4)
  {
  }

  lemma FloatMat3x2TagDecodes()
    ensures UniformTypeFromU32(FLOAT_MAT3x2) == Some(FloatMat3x2)
  {
  }

  lemma FloatMat3x4TagDecodes()
    ensures UniformTypeFromU32(FLOAT_MAT3x4) == Some(FloatMat3x4)
  {
  }

  lemma FloatMat4x2TagDecodes()
    ensures UniformTypeFromU32(FLOAT_MAT4x2) == Some(FloatMat4x2)
  {
  }

  lemma FloatMat4x3TagDecodes()
    ensures UniformTypeFromU32(FLOAT_MAT4x3) == Some(FloatMat4x3)
  {
  }

  lemma Sampler1dTagDecodes()
    ensures UniformTypeFromU32(SAMPLER_1D) == Some(Sampler1d)
  {
  }

  lemma Sampler2dTagDecodes()
    ensures UniformTypeFromU32(SAMPLER_2D) == Some(Sampler2d)
  {
  }

  lemma Sampler3dTagDecodes()
    ensures UniformTypeFromU32(SAMPLER_3D) == Some(Sampler3d)
  {
  }

  lemma SamplerCubeTagDecodes()
    ensures UniformTypeFromU32(SAMPLER_CUBE) == Some(SamplerCube)
  {
  }

  lemma Sampler1dShadowTagDecodes()
    ensures UniformTypeFromU32(SAMPLER_1D_SHADOW) == Some(Sampler1dShadow)
  {
  }

  lemma Sampler2dShadowTagDecodes()
    ensures UniformTypeFromU32(SAMPLER_2D_SHADOW) == Some(Sampler2dShadow)
  {
  }

  lemma Sampler1dArrayTagDecodes()
    ensures UniformTypeFromU32(SAMPLER_1D_ARRAY) == Some(Sampler1dArray)
  {
  }

  lemma Sampler2dArrayTagDecodes()
    ensures UniformTypeFromU32(SAMPLER_2D_ARRAY) == Some(Sampler2dArray)
  {
  }

  lemma Sampler1dArrayShadowTagDecodes()
    ensures UniformTypeFromU32(SAMPLER_1D_ARRAY_SHADOW) == Some(Sampler1dArrayShadow)
  {
  }

  lemma Sampler2dArrayShadowTagDecodes()
    ensures UniformTypeFromU32(SAMPLER_2D_ARRAY_SHADOW) == Some(Sampler2dArrayShadow)
  {
  }

  lemma Sampler2dMultisampleTagDecodes()
    ensures UniformTypeFromU32(SAMPLER_2D_MULTISAMPLE) == Some(Sampler2dMultisample)
  {
  }

  lemma Sampler2dMultisampleArrayTagDecodes()
    ensures UniformTypeFromU32(SAMPLER_2D_MULTISAMPLE_ARRAY) == Some(Sampler2dMultisampleArray)
  {
  }

  lemma SamplerCubeShadowTagDecodes()
    ensures UniformTypeFromU32(SAMPLER_CUBE_SHADOW) == Some(SamplerCubeShadow)
  {
  }

  lemma SamplerBufferTagDecodes()
    ensures UniformTypeFromU32(SAMPLER_BUFFER) == Some(SamplerBuffer)
  {
  }

  lemma Sampler2dRectTagDecodes()
    ensures UniformTypeFromU32(SAMPLER_2D_RECT) == Some(Sampler2dRect)
  {
  }

  lemma Sampler2dRectShadowTagDecodes()
    ensures UniformTypeFromU32(SAMPLER_2D_RECT_SHADOW) == Some(Sampler2dRectShadow)
  {
  }

  lemma IntSampler1dTagDecodes()
    ensures UniformTypeFromU32(INT_SAMPLER_1D) == Some(IntSampler1d)
  {
  }

  lemma IntSampler2dTagDecodes()
    ensures UniformTypeFromU32(INT_SAMPLER_2D) == Some(IntSampler2d)
  {
  }

  lemma IntSampler3dTagDecodes()
    ensures UniformTypeFromU32(INT_SAMPLER_3D) == Some(IntSampler3d)
  {
  }

  lemma IntSamplerCubeTagDecodes()
    ensures UniformTypeFromU32(INT_SAMPLER_CUBE) == Some(IntSamplerCube)
  {
  }

  lemma IntSampler1dArrayTagDecodes()
    ensures UniformTypeFromU32(INT_SAMPLER_1D_ARRAY) == Some(IntSampler1dArray)
  {
  }

  lemma IntSampler2dArrayTagDecodes()
    ensures UniformTypeFromU32(INT_SAMPLER_2D_ARRAY) == Some(IntSampler2dArray)
  {
  }

  lemma IntSampler2dMultisampleTagDecodes()
    ensures UniformTypeFromU32(INT_SAMPLER_2D_MULTISAMPLE) == Some(IntSampler2dMultisample)
  {
  }

  lemma IntSampler2dMultisampleArrayTagDecodes()
    ensures UniformTypeFromU32(INT_SAMPLER_2D_MULTISAMPLE_ARRAY) == Some(IntSampler2dMultisampleArray)
  {
  }

  lemma IntSamplerBufferTagDecodes()
    ensures UniformTypeFromU32(INT_SAMPLER_BUFFER) == Some(IntSamplerBuffer)
  {
  }

  lemma IntSampler2dRectTagDecodes()
    ensures UniformTypeFromU32(INT_SAMPLER_2D_RECT) == Some(IntSampler2dRect)
  {
  }

  lemma UnsignedIntSampler1dTagDecodes()
    ensures UniformTypeFromU32(UNSIGNED_INT_SAMPLER_1D) == Some(UnsignedIntSampler1d)
  {
  }

  lemma UnsignedIntSampler2dTagDecodes()
    ensures UniformTypeFromU32(UNSIGNED_INT_SAMPLER_2D) == Some(UnsignedIntSampler2d)
  {
  }

  lemma UnsignedIntSampler3dTagDecodes()
    ensures UniformTypeFromU32(UNSIGNED_INT_SAMPLER_3D) == Some(UnsignedIntSampler3d)
  {
  }

  lemma UnsignedIntSamplerCubeTagDecodes()
    ensures UniformTypeFromU32(UNSIGNED_INT_SAMPLER_CUBE) == Some(UnsignedIntSamplerCube)
  {
  }

  lemma UnsignedIntSampler1dArrayTagDecodes()
    ensures UniformTypeFromU32(UNSIGNED_INT_SAMPLER_1D_ARRAY) == Some(UnsignedIntSampler1dArray)
  {
  }

  lemma UnsignedIntSampler2dArrayTagDecodes()
    ensures UniformTypeFromU32(UNSIGNED_INT_SAMPLER_2D_ARRAY) == Some(UnsignedIntSampler2dArray)
  {
  }

  lemma UnsignedIntSampler2dMultisampleTagDecodes()
    ensures UniformTypeFromU32(UNSIGNED_INT_SAMPLER_2D_MULTISAMPLE) == Some(UnsignedIntSampler2dMultisample)
  {
  }

  lemma UnsignedIntSampler2dMultisampleArrayTagDecodes()
    ensures UniformTypeFromU32(UNSIGNED_INT_SAMPLER_2D_MULTISAMPLE_ARRAY) == Some(UnsignedIntSampler2dMultisampleArray)
  {
  }

  lemma UnsignedIntSamplerBufferTagDecodes()
    ensures UniformTypeFromU32(UNSIGNED_INT_SAMPLER_BUFFER) == Some(UnsignedIntSamplerBuffer)
  {
  }

  lemma UnsignedIntSampler2dRectTagDecodes()
    ensures UniformTypeFromU32(UNSIGNED_INT_SAMPLER_2D_RECT) == Some(UnsignedIntSampler2dRect)
  {
  }

  /** A tag decodes to `None` exactly when it is no uniform type's tag. */
  lemma UniformTagUnknown(tag: nat)
    ensures UniformTypeFromU32(tag).None? <==> forall t :: UniformTypeTag(t) != tag
  {
    if UniformTypeFromU32(tag).None? {
      forall t ensures UniformTypeTag(t) != tag {
        UniformTagRoundTrip(t);
      }
    } else if forall t :: UniformTypeTag(t) != tag {
      NotListedTags1(tag);
      NotListedTags2(tag);
      NotListedTags3(tag);
      NotListedTags4(tag);
      NotListedTags5(tag);
      NotListedTags6(tag);
      NotListedTags7(tag);
      UnlistedTagIsNone(tag);
    }
  }

  /** No type's tag is one of FLOAT .. BOOL_VEC4. */
  lemma NotListedTags1(tag: nat)
    requires forall t :: UniformTypeTag(t) != tag
    ensures tag != FLOAT && tag != FLOAT_VEC2 && tag != FLOAT_VEC3 &&
            tag != FLOAT_VEC4 && tag != INT && tag != INT_VEC2 &&
            tag != INT_VEC3 && tag != INT_VEC4 && tag != UNSIGNED_INT &&
            tag != UNSIGNED_INT_VEC2 && tag != UNSIGNED_INT_VEC3 && tag != UNSIGNED_INT_VEC4 &&
            tag != BOOL && tag != BOOL_VEC2 && tag != BOOL_VEC3 &&
            tag != BOOL_VEC4
  {
    assert tag != FLOAT by {
      assert UniformTypeTag(Float) != tag;
    }
    assert tag != FLOAT_VEC2 by {
      assert UniformTypeTag(FloatVec2) != tag;
    }
    assert tag != FLOAT_VEC3 by {
      assert UniformTypeTag(FloatVec3) != tag;
    }
    assert tag != FLOAT_VEC4 by {
      assert UniformTypeTag(FloatVec4) != tag;
    }
    assert tag != INT by {
      assert UniformTypeTag(Int) != tag;
    }
    assert tag != INT_VEC2 by {
      assert UniformTypeTag(IntVec2) != tag;
    }
    assert tag != INT_VEC3 by {
      assert UniformTypeTag(IntVec3) != tag;
    }
    assert tag != INT_VEC4 by {
      assert UniformTypeTag(IntVec4) != tag;
    }
    assert tag != UNSIGNED_INT by {
      assert UniformTypeTag(UnsignedInt) != tag;
    }
    assert tag != UNSIGNED_INT_VEC2 by {
      assert UniformTypeTag(UnsignedIntVec2) != tag;
    }
    assert tag != UNSIGNED_INT_VEC3 by {
      assert UniformTypeTag(UnsignedIntVec3) != tag;
    }
    assert tag != UNSIGNED_INT_VEC4 by {
      assert UniformTypeTag(UnsignedIntVec4) != tag;
    }
    assert tag != BOOL by {
      assert UniformTypeTag(Bool) != tag;
    }
    assert tag != BOOL_VEC2 by {
      assert UniformTypeTag(BoolVec2) != tag;
    }
    assert tag != BOOL_VEC3 by {
      assert UniformTypeTag(BoolVec3) != tag;
    }
    assert tag != BOOL_VEC4 by {
      assert UniformTypeTag(BoolVec4) != tag;
    }
  }

  /** No type's tag is one of FLOAT_MAT2 .. SAMPLER_3D. */
  lemma NotListedTags2(tag: nat)
    requires forall t :: UniformTypeTag(t) != tag
    ensures tag != FLOAT_MAT2 && tag != FLOAT_MAT3 && tag != FLOAT_MAT4 &&
            tag != FLOAT_MAT2x3 && tag != FLOAT_MAT2x4 && tag != FLOAT_MAT3x2 &&
            tag != FLOAT_MAT3x4 && tag != FLOAT_MAT4x2 && tag != FLOAT_MAT4x3 &&
            tag != SAMPLER_1D && tag != SAMPLER_2D && tag != SAMPLER_3D
  {
    assert tag != FLOAT_MAT2 by {
      assert UniformTypeTag(FloatMat2) != tag;
    }
    assert tag != FLOAT_MAT3 by {
      assert UniformTypeTag(FloatMat3) != tag;
    }
    assert tag != FLOAT_MAT4 by {
      assert UniformTypeTag(FloatMat4) != tag;
    }
    assert tag != FLOAT_MAT2x3 by {
      assert UniformTypeTag(FloatMat2x3) != tag;
    }
    assert tag != FLOAT_MAT2x4 by {
      assert UniformTypeTag(FloatMat2x4) != tag;
    }
    assert tag != FLOAT_MAT3x2 by {
      assert UniformTypeTag(FloatMat3x2) != tag;
    }
    assert tag != FLOAT_MAT3x4 by {
      assert UniformTypeTag(FloatMat3x4) != tag;
    }
    assert tag != FLOAT_MAT4x2 by {
      assert UniformTypeTag(FloatMat4x2) != tag;
    }
    assert tag != FLOAT_MAT4x3 by {
      assert UniformTypeTag(FloatMat4x3) != tag;
    }
    assert tag != SAMPLER_1D by {
      assert UniformTypeTag(Sampler1d) != tag;
    }
    assert tag != SAMPLER_2D by {
      assert UniformTypeTag(Sampler2d) != tag;
    }
    assert tag != SAMPLER_3D by {
      assert UniformTypeTag(Sampler3d) != tag;
    }
  }

  /** No type's tag is one of SAMPLER_CUBE .. SAMPLER_CUBE_SHADOW. */
  lemma NotListedTags3(tag: nat)
    requires forall t :: UniformTypeTag(t) != tag
    ensures tag != SAMPLER_CUBE && tag != SAMPLER_1D_SHADOW && tag != SAMPLER_2D_SHADOW &&
            tag != SAMPLER_1D_ARRAY && tag != SAMPLER_2D_ARRAY && tag != SAMPLER_1D_ARRAY_SHADOW &&
            tag != SAMPLER_2D_ARRAY_SHADOW && tag != SAMPLER_2D_MULTISAMPLE && tag != SAMPLER_2D_MULTISAMPLE_ARRAY &&
            tag != SAMPLER_CUBE_SHADOW
  {
    assert tag != SAMPLER_CUBE by {
      assert UniformTypeTag(SamplerCube) != tag;
    }
    assert tag != SAMPLER_1D_SHADOW by {
      assert UniformTypeTag(Sampler1dShadow) != tag;
    }
    assert tag != SAMPLER_2D_SHADOW by {
      assert UniformTypeTag(Sampler2dShadow) != tag;
    }
    assert tag != SAMPLER_1D_ARRAY by {
      assert UniformTypeTag(Sampler1dArray) != tag;
    }
    assert tag != SAMPLER_2D_ARRAY by {
      assert UniformTypeTag(Sampler2dArray) != tag;
    }
    assert tag != SAMPLER_1D_ARRAY_SHADOW by {
      assert UniformTypeTag(Sampler1dArrayShadow) != tag;
    }
    assert tag != SAMPLER_2D_ARRAY_SHADOW by {
      assert UniformTypeTag(Sampler2dArrayShadow) != tag;
    }
    assert tag != SAMPLER_2D_MULTISAMPLE by {
      assert UniformTypeTag(Sampler2dMultisample) != tag;
    }
    assert tag != SAMPLER_2D_MULTISAMPLE_ARRAY by {
      assert UniformTypeTag(Sampler2dMultisampleArray) != tag;
    }
    assert tag != SAMPLER_CUBE_SHADOW by {
      assert UniformTypeTag(SamplerCubeShadow) != tag;
    }
  }

  /** No type's tag is one of SAMPLER_BUFFER .. INT_SAMPLER_1D_ARRAY. */
  lemma NotListedTags4(tag: nat)
    requires forall t :: UniformTypeTag(t) != tag
    ensures tag != SAMPLER_BUFFER && tag != SAMPLER_2D_RECT && tag != SAMPLER_2D_RECT_SHADOW &&
            tag != INT_SAMPLER_1D && tag != INT_SAMPLER_2D && tag != INT_SAMPLER_3D &&
            tag != INT_SAMPLER_CUBE && tag != INT_SAMPLER_1D_ARRAY
  {
    assert tag != SAMPLER_BUFFER by {
      assert UniformTypeTag(SamplerBuffer) != tag;
    }
    assert tag != SAMPLER_2D_RECT by {
      assert UniformTypeTag(Sampler2dRect) != tag;
    }
    assert tag != SAMPLER_2D_RECT_SHADOW by {
      assert UniformTypeTag(Sampler2dRectShadow) != tag;
    }
    assert tag != INT_SAMPLER_1D by {
      assert UniformTypeTag(IntSampler1d) != tag;
    }
    assert tag != INT_SAMPLER_2D by {
      assert UniformTypeTag(IntSampler2d) != tag;
    }
    assert tag != INT_SAMPLER_3D by {
      assert UniformTypeTag(IntSampler3d) != tag;
    }
    assert tag != INT_SAMPLER_CUBE by {
      assert UniformTypeTag(IntSamplerCube) != tag;
    }
    assert tag != INT_SAMPLER_1D_ARRAY by {
      assert UniformTypeTag(IntSampler1dArray) != tag;
    }
  }

  /** No type's tag is one of INT_SAMPLER_2D_ARRAY .. UNSIGNED_INT_SAMPLER_2D. */
  lemma NotListedTags5(tag: nat)
    requires forall t :: UniformTypeTag(t) != tag
    ensures tag != INT_SAMPLER_2D_ARRAY && tag != INT_SAMPLER_2D_MULTISAMPLE && tag != INT_SAMPLER_2D_MULTISAMPLE_ARRAY &&
            tag != INT_SAMPLER_BUFFER && tag != INT_SAMPLER_2D_RECT && tag != UNSIGNED_INT_SAMPLER_1D &&
            tag != UNSIGNED_INT_SAMPLER_2D
  {
    assert tag != INT_SAMPLER_2D_ARRAY by {
      assert UniformTypeTag(IntSampler2dArray) != tag;
    }
    assert tag != INT_SAMPLER_2D_MULTISAMPLE by {
      assert UniformTypeTag(IntSampler2dMultisample) != tag;
    }
    assert tag != INT_SAMPLER_2D_MULTISAMPLE_ARRAY by {
      assert UniformTypeTag(IntSampler2dMultisampleArray) != tag;
    }
    assert tag != INT_SAMPLER_BUFFER by {
      assert UniformTypeTag(IntSamplerBuffer) != tag;
    }
    assert tag != INT_SAMPLER_2D_RECT by {
      assert UniformTypeTag(IntSampler2dRect) != tag;
    }
    assert tag != UNSIGNED_INT_SAMPLER_1D by {
      assert UniformTypeTag(UnsignedIntSampler1d) != tag;
    }
    assert tag != UNSIGNED_INT_SAMPLER_2D by {
      assert UniformTypeTag(UnsignedIntSampler2d) != tag;
    }
  }

  /** No type's tag is one of UNSIGNED_INT_SAMPLER_3D .. UNSIGNED_INT_SAMPLER_2D_ARRAY. */
  lemma NotListedTags6(tag: nat)
    requires forall t :: UniformTypeTag(t) != tag
    ensures tag != UNSIGNED_INT_SAMPLER_3D && tag != UNSIGNED_INT_SAMPLER_CUBE && tag != UNSIGNED_INT_SAMPLER_1D_ARRAY &&
            tag != UNSIGNED_INT_SAMPLER_2D_ARRAY
  {
    assert tag != UNSIGNED_INT_SAMPLER_3D by {
      assert UniformTypeTag(UnsignedIntSampler3d) != tag;
    }
    assert tag != UNSIGNED_INT_SAMPLER_CUBE by {
      assert UniformTypeTag(UnsignedIntSamplerCube) != tag;
    }
    assert tag != UNSIGNED_INT_SAMPLER_1D_ARRAY by {
      assert UniformTypeTag(UnsignedIntSampler1dArray) != tag;
    }
    assert tag != UNSIGNED_INT_SAMPLER_2D_ARRAY by {
      assert UniformTypeTag(UnsignedIntSampler2dArray) != tag;
    }
  }

  /** No type's tag is one of UNSIGNED_INT_SAMPLER_2D_MULTISAMPLE .. UNSIGNED_INT_SAMPLER_2D_RECT. */
  lemma NotListedTags7(tag: nat)
    requires forall t :: UniformTypeTag(t) != tag
    ensures tag != UNSIGNED_INT_SAMPLER_2D_MULTISAMPLE && tag != UNSIGNED_INT_SAMPLER_2D_MULTISAMPLE_ARRAY && tag != UNSIGNED_INT_SAMPLER_BUFFER &&
            tag != UNSIGNED_INT_SAMPLER_2D_RECT
  {
    assert tag != UNSIGNED_INT_SAMPLER_2D_MULTISAMPLE by {
      assert UniformTypeTag(UnsignedIntSampler2dMultisample) != tag;
    }
    assert tag != UNSIGNED_INT_SAMPLER_2D_MULTISAMPLE_ARRAY by {
      assert UniformTypeTag(UnsignedIntSampler2dMultisampleArray) != tag;
    }
    assert tag != UNSIGNED_INT_SAMPLER_BUFFER by {
      assert UniformTypeTag(UnsignedIntSamplerBuffer) != tag;
    }
    assert tag != UNSIGNED_INT_SAMPLER_2D_RECT by {
      assert UniformTypeTag(UnsignedIntSampler2dRect) != tag;
    }
  }

  lemma UnlistedTagIsNone(tag: nat)
    requires tag != FLOAT && tag != FLOAT_VEC2 && tag != FLOAT_VEC3 &&
             tag != FLOAT_VEC4 && tag != INT && tag != INT_VEC2 &&
             tag != INT_VEC3 && tag != INT_VEC4 && tag != UNSIGNED_INT &&
             tag != UNSIGNED_INT_VEC2 && tag != UNSIGNED_INT_VEC3 && tag != UNSIGNED_INT_VEC4 &&
             tag != BOOL && tag != BOOL_VEC2 && tag != BOOL_VEC3 &&
             tag != BOOL_VEC4 && tag != FLOAT_MAT2 && tag != FLOAT_MAT3 &&
             tag != FLOAT_MAT4 && tag != FLOAT_MAT2x3 && tag != FLOAT_MAT2x4 &&
             tag != FLOAT_MAT3x2 && tag != FLOAT_MAT3x4 && tag != FLOAT_MAT4x2 &&
             tag != FLOAT_MAT4x3 && tag != SAMPLER_1D && tag != SAMPLER_2D &&
             tag != SAMPLER_3D && tag != SAMPLER_CUBE && tag != SAMPLER_1D_SHADOW &&
             tag != SAMPLER_2D_SHADOW && tag != SAMPLER_1D_ARRAY && tag != SAMPLER_2D_ARRAY &&
             tag != SAMPLER_1D_ARRAY_SHADOW && tag != SAMPLER_2D_ARRAY_SHADOW && tag != SAMPLER_2D_MULTISAMPLE &&
             tag != SAMPLER_2D_MULTISAMPLE_ARRAY && tag != SAMPLER_CUBE_SHADOW && tag != SAMPLER_BUFFER &&
             tag != SAMPLER_2D_RECT && tag != SAMPLER_2D_RECT_SHADOW && tag != INT_SAMPLER_1D &&
             tag != INT_SAMPLER_2D && tag != INT_SAMPLER_3D && tag != INT_SAMPLER_CUBE &&
             tag != INT_SAMPLER_1D_ARRAY && tag != INT_SAMPLER_2D_ARRAY && tag != INT_SAMPLER_2D_MULTISAMPLE &&
             tag != INT_SAMPLER_2D_MULTISAMPLE_ARRAY && tag != INT_SAMPLER_BUFFER && tag != INT_SAMPLER_2D_RECT &&
             tag != UNSIGNED_INT_SAMPLER_1D && tag != UNSIGNED_INT_SAMPLER_2D && tag != UNSIGNED_INT_SAMPLER_3D &&
             tag != UNSIGNED_INT_SAMPLER_CUBE && tag != UNSIGNED_INT_SAMPLER_1D_ARRAY && tag != UNSIGNED_INT_SAMPLER_2D_ARRAY &&
             tag != UNSIGNED_INT_SAMPLER_2D_MULTISAMPLE && tag != UNSIGNED_INT_SAMPLER_2D_MULTISAMPLE_ARRAY && tag != UNSIGNED_INT_SAMPLER_BUFFER &&
             tag != UNSIGNED_INT_SAMPLER_2D_RECT
    ensures UniformTypeFromU32(tag).None?
  {
  }

  /** A tag that decodes is the tag of the type it decodes to. */
  lemma UniformTagDecodes(tag: nat)
    requires UniformTypeFromU32(tag).Some?
    ensures UniformTypeTag(UniformTypeFromU32(tag).value) == tag
  {
    UniformTagUnknown(tag);
    var t :| UniformTypeTag(t) == tag;
    UniformTagRoundTrip(t);
  }

  // ---------------------------------------------------------------------------
  // Names read back from the driver

  /** `uniform_name` / `block_name`: the buffer the driver filled, with its final
      (NUL) byte removed; an empty buffer stays empty. */
  function NameFromBuffer(buffer: string): (name: string)
    ensures buffer != [] ==> buffer == name + [buffer[|buffer| - 1]]
    ensures buffer == [] ==> name == []
  {
    if buffer == [] then [] else buffer[..|buffer| - 1]
  }

  /** A name followed by its terminator reads back as the name. */
  lemma NameRoundTrip(name: string)
    ensures NameFromBuffer(name + ['\0']) == name
  {
    var buffer := name + ['\0'];
    assert buffer[..|buffer| - 1] == name;
  }

  // ---------------------------------------------------------------------------
  // Reflection records

  /** `GlUniform`: what the driver reports about one active uniform. */
  datatype GlUniform = GlUniform(
    name: string, uniformType: I32, size: I32, blockIndex: I32, offset: I32, arrayStride: I32, matrixStride: I32)

  /** A uniform outside any block. */
  datatype Uniform = Uniform(name: string, location: I32, uniformType: Option<UniformType>, size: I32)

  /** A uniform inside an interface block. */
  datatype BlockUniform = BlockUniform(
    name: string, uniformType: Option<UniformType>, size: I32, offset: I32, arrayStride: I32, matrixStride: I32)

  datatype InterfaceBlock = InterfaceBlock(name: string, index: nat, dataSize: I32, uniforms: seq<BlockUniform>)
  {
    /** `InterfaceBlock::get_uniform`. */
    method GetUniform(name: string) returns (r: Option<BlockUniform>)
      ensures r == Pick(uniforms, FirstNamed(NamesOf(uniforms, BlockUniformName), name))
    {
      var i := 0;
      while i < |uniforms|
        invariant i <= |uniforms|
        invariant name !in NamesOf(uniforms, BlockUniformName)[..i]
      {
        if uniforms[i].name == name {
          FirstNamedChar(NamesOf(uniforms, BlockUniformName), name, i);
          return Some(uniforms[i]);
        }
        assert NamesOf(uniforms, BlockUniformName)[..i + 1] == NamesOf(uniforms, BlockUniformName)[..i] + [uniforms[i].name];
        i := i + 1;
      }
      assert NamesOf(uniforms, BlockUniformName)[..i] == NamesOf(uniforms, BlockUniformName);
      r := None;
    }
  }

  /** `UniformInfo`: the result of uniform introspection. */
  datatype UniformInfo = UniformInfo(globals: seq<Uniform>, blocks: seq<InterfaceBlock>)
  {
    /** `UniformInfo::get_global_uniform`. */
    method GetGlobalUniform(name: string) returns (r: Option<Uniform>)
      ensures r == Pick(globals, FirstNamed(NamesOf(globals, UniformName), name))
    {
      var i := 0;
      while i < |globals|
        invariant i <= |globals|
        invariant name !in NamesOf(globals, UniformName)[..i]
      {
        if globals[i].name == name {
          FirstNamedChar(NamesOf(globals, UniformName), name, i);
          return Some(globals[i]);
        }
        assert NamesOf(globals, UniformName)[..i + 1] == NamesOf(globals, UniformName)[..i] + [globals[i].name];
        i := i + 1;
      }
      assert NamesOf(globals, UniformName)[..i] == NamesOf(globals, UniformName);
      r := None;
    }

    /** `UniformInfo::get_block`. */
    method GetBlock(name: string) returns (r: Option<InterfaceBlock>)
      ensures r == Pick(blocks, FirstNamed(NamesOf(blocks, BlockName), name))
    {
      var i := 0;
      while i < |blocks|
        invariant i <= |blocks|
        invariant name !in NamesOf(blocks, BlockName)[..i]
      {
        if blocks[i].name == name {
          FirstNamedChar(NamesOf(blocks, BlockName), name, i);
          return Some(blocks[i]);
        }
        assert NamesOf(blocks, BlockName)[..i + 1] == NamesOf(blocks, BlockName)[..i] + [blocks[i].name];
        i := i + 1;
      }
      assert NamesOf(blocks, BlockName)[..i] == NamesOf(blocks, BlockName);
      r := None;
    }

    /** `UniformInfo::get_block_uniform`: `None` without a block of that name,
        otherwise that block's own lookup. */
    method GetBlockUniform(blockName: string, uniformName: string) returns (r: Option<BlockUniform>)
      ensures FirstNamed(NamesOf(blocks, BlockName), blockName).None? ==> r.None?
      ensures FirstNamed(NamesOf(blocks, BlockName), blockName).Some? ==>
                var b := blocks[FirstNamed(NamesOf(blocks, BlockName), blockName).value];
                r == Pick(b.uniforms, FirstNamed(NamesOf(b.uniforms, BlockUniformName), uniformName))
    {
      var block := GetBlock(blockName);
      if block.Some? {
        r := block.value.GetUniform(uniformName);
        return;
      }
      r := None;
    }
  }

  function UniformName(u: Uniform): string
  {
    u.name
  }

  function BlockName(b: InterfaceBlock): string
  {
    b.name
  }

  function BlockUniformName(u: BlockUniform): string
  {
    u.name
  }

  // ---------------------------------------------------------------------------
  // Building the records from reflected data

  /** `Uniform::new`: the location is given by the caller, the type tag is
      reinterpreted as unsigned and decoded. */
  function NewUniform(g: GlUniform, location: I32): (u: Uniform)
    ensures u.name == g.name && u.location == location && u.size == g.size
    ensures u.uniformType == UniformTypeFromU32(AsU32(g.uniformType))
  {
    Uniform(g.name, location, UniformTypeFromU32(AsU32(g.uniformType)), g.size)
  }

  /** `BlockUniform::new`: copies size, offset and both strides unchanged. */
  function NewBlockUniform(g: GlUniform): (u: BlockUniform)
    ensures u.name == g.name && u.size == g.size && u.offset == g.offset
    ensures u.arrayStride == g.arrayStride && u.matrixStride == g.matrixStride
    ensures u.uniformType == UniformTypeFromU32(AsU32(g.uniformType))
  {
    BlockUniform(g.name, UniformTypeFromU32(AsU32(g.uniformType)), g.size, g.offset, g.arrayStride, g.matrixStride)
  }

  /** The globals of a reflected list: every uniform with a negative block
      index, in input order, located by its own name. */
  function Globals(gs: seq<GlUniform>, locationOf: string -> I32): seq<Uniform>
    decreases |gs|
  {
    if gs == [] then []
    else
      var g := gs[|gs| - 1];
      Globals(gs[..|gs| - 1], locationOf) + if g.blockIndex < 0 then [NewUniform(g, locationOf(g.name))] else []
  }

  /** The members of block `b`: every uniform whose block index is `b`, in
      input order. */
  function Members(gs: seq<GlUniform>, b: nat): seq<BlockUniform>
    decreases |gs|
  {
    if gs == [] then []
    else
      var g := gs[|gs| - 1];
      Members(gs[..|gs| - 1], b) + if g.blockIndex == b then [NewBlockUniform(g)] else []
  }

  /** Every non-negative block index names one of `n` blocks. */
  ghost predicate BlockIndicesInRange(gs: seq<GlUniform>, n: nat)
  {
    forall i :: 0 <= i < |gs| ==> gs[i].blockIndex < n
  }

  /** Uniform `i` is the first whose block index is out of range. */
  ghost predicate FirstOutOfRange(gs: seq<GlUniform>, n: nat, i: int)
  {
    0 <= i < |gs| && gs[i].blockIndex >= n && BlockIndicesInRange(gs[..i], n)
  }

  /** `info` is the partition of `gs` over the blocks `blocks0`. */
  ghost predicate IsPartition(gs: seq<GlUniform>, blocks0: seq<InterfaceBlock>, locationOf: string -> I32, info: UniformInfo)
  {
    info.globals == Globals(gs, locationOf) &&
    |info.blocks| == |blocks0| &&
    forall b :: 0 <= b < |blocks0| ==>
      info.blocks[b] == blocks0[b].(uniforms := blocks0[b].uniforms + Members(gs, b))
  }

  /** The loop of `make_uniform_info`: a uniform with a negative block index
      becomes a global, any other is appended to its block; a block index past
      the end aborts, as the indexing does. */
  method PartitionUniforms(gs: seq<GlUniform>, blocks0: seq<InterfaceBlock>, locationOf: string -> I32)
    returns (r: Result<UniformInfo>)
    ensures r.Ok? <==> BlockIndicesInRange(gs, |blocks0|)
    ensures r.Ok? ==> IsPartition(gs, blocks0, locationOf, r.value)
    ensures r.Err? ==> exists i :: FirstOutOfRange(gs, |blocks0|, i) &&
                                   r.panic == IndexOutOfBounds(gs[i].blockIndex, |blocks0|)
  {
    var globals: seq<Uniform> := [];
    var blocks := blocks0;
    var i := 0;
    while i < |gs|
      invariant i <= |gs|
      invariant BlockIndicesInRange(gs[..i], |blocks0|)
      invariant globals == Globals(gs[..i], locationOf)
      invariant BlocksHoldMembers(blocks, blocks0, gs[..i])
    {
      var g := gs[i];
      PartitionStep(gs, i, locationOf);
      if g.blockIndex < 0 {
        globals := globals + [NewUniform(g, locationOf(g.name))];
        InRangeStep(gs, i, |blocks0|);
      } else {
        var index := g.blockIndex;
        if index >= |blocks| {
          assert FirstOutOfRange(gs, |blocks0|, i);
          assert !BlockIndicesInRange(gs, |blocks0|) by {
            assert gs[i].blockIndex >= |blocks0|;
          }
          return Err(IndexOutOfBounds(index, |blocks|));
        }
        AppendMember(blocks, blocks0, gs, i);
        blocks := blocks[index := blocks[index].(uniforms := blocks[index].uniforms + [NewBlockUniform(g)])];
        InRangeStep(gs, i, |blocks0|);
      }
      i := i + 1;
    }
    assert gs[..i] == gs;
    r := Ok(UniformInfo(globals, blocks));
  }

  /** Extending the prefix by uniform `i` extends exactly one of the lists. */
  lemma PartitionStep(gs: seq<GlUniform>, i: nat, locationOf: string -> I32)
    requires i < |gs|
    ensures gs[..i + 1][..i] == gs[..i]
    ensures Globals(gs[..i + 1], locationOf) ==
            Globals(gs[..i], locationOf) + if gs[i].blockIndex < 0 then [NewUniform(gs[i], locationOf(gs[i].name))] else []
    ensures forall b: nat :: Members(gs[..i + 1], b) ==
              (Members(gs[..i], b) + if gs[i].blockIndex == b then [NewBlockUniform(gs[i])] else [])
  {
    assert gs[..i + 1][..i] == gs[..i];
  }

  /** The blocks so far: block `b` holds its original members followed by the
      members of `b` among `seen`. */
  ghost predicate BlocksHoldMembers(blocks: seq<InterfaceBlock>, blocks0: seq<InterfaceBlock>, seen: seq<GlUniform>)
  {
    |blocks| == |blocks0| &&
    forall b :: 0 <= b < |blocks0| ==>
      blocks[b] == blocks0[b].(uniforms := blocks0[b].uniforms + Members(seen, b))
  }

  lemma AppendMember(blocks: seq<InterfaceBlock>, blocks0: seq<InterfaceBlock>, gs: seq<GlUniform>, i: nat)
    requires i < |gs| && 0 <= gs[i].blockIndex < |blocks|
    requires BlocksHoldMembers(blocks, blocks0, gs[..i])
    ensures var index := gs[i].blockIndex;
            BlocksHoldMembers(blocks[index := blocks[index].(uniforms := blocks[index].uniforms + [NewBlockUniform(gs[i])])],
                              blocks0, gs[..i + 1])
  {
    PartitionStep(gs, i, s => 0);
  }

  lemma InRangeStep(gs: seq<GlUniform>, i: nat, n: nat)
    requires i < |gs| && gs[i].blockIndex < n
    requires BlockIndicesInRange(gs[..i], n)
    ensures BlockIndicesInRange(gs[..i + 1], n)
  {
    var extended := gs[..i + 1];
    forall j | 0 <= j < |extended| ensures extended[j].blockIndex < n {
      if j < i {
        assert extended[j] == gs[..i][j];
      }
    }
  }

  /** Member counts summed over the first `n` blocks. */
  function MemberCount(gs: seq<GlUniform>, n: nat): nat
  {
    if n == 0 then 0 else MemberCount(gs, n - 1) + |Members(gs, n - 1)|
  }

  lemma {:induction false} MemberCountStep(gs: seq<GlUniform>, g: GlUniform, n: nat)
    ensures MemberCount(gs + [g], n) == MemberCount(gs, n) + if 0 <= g.blockIndex < n then 1 else 0
  {
    var gs' := gs + [g];
    assert gs'[..|gs'| - 1] == gs;
    if n > 0 {
      MemberCountStep(gs, g, n - 1);
    }
  }

  /** When every block index is in range, no uniform is lost or duplicated:
      the globals and the members of all blocks together number exactly the
      reflected uniforms. */
  lemma {:induction false} NoUniformLost(gs: seq<GlUniform>, n: nat, locationOf: string -> I32)
    requires BlockIndicesInRange(gs, n)
    ensures |Globals(gs, locationOf)| + MemberCount(gs, n) == |gs|
    decreases |gs|
  {
    if gs == [] {
      MemberCountEmpty(n);
    } else {
      var pre := gs[..|gs| - 1];
      var g := gs[|gs| - 1];
      assert gs == pre + [g];
      assert BlockIndicesInRange(pre, n) by {
        forall i | 0 <= i < |pre| ensures pre[i].blockIndex < n {
          assert pre[i] == gs[i];
        }
      }
      NoUniformLost(pre, n, locationOf);
      MemberCountStep(pre, g, n);
    }
  }

  lemma {:induction false} MemberCountEmpty(n: nat)
    ensures MemberCount([], n) == 0
  {
    if n > 0 {
      MemberCountEmpty(n - 1);
    }
  }

  /** Uniform `i` of `gs` has a negative block index and `u` is the global
      built from it, located by its own name. */
  ghost predicate GlobalFrom(gs: seq<GlUniform>, locationOf: string -> I32, u: Uniform, i: int)
  {
    0 <= i < |gs| && gs[i].blockIndex < 0 && u == NewUniform(gs[i], locationOf(gs[i].name))
  }

  /** A global is exactly a reflected uniform with a negative block index,
      keeping its name, size and decoded type tag and located by its own
      name; every such uniform is one. */
  lemma GlobalsAreTheUnblockedUniforms(gs: seq<GlUniform>, locationOf: string -> I32, u: Uniform)
    ensures u in Globals(gs, locationOf) <==> exists i :: GlobalFrom(gs, locationOf, u, i)
    ensures u in Globals(gs, locationOf) ==> u.location == locationOf(u.name)
  {
    if u in Globals(gs, locationOf) {
      GlobalHasSource(gs, locationOf, u);
    }
    if exists i :: GlobalFrom(gs, locationOf, u, i) {
      var i :| GlobalFrom(gs, locationOf, u, i);
      SourceIsGlobal(gs, locationOf, u, i);
    }
  }

  lemma {:induction false} GlobalHasSource(gs: seq<GlUniform>, locationOf: string -> I32, u: Uniform)
    requires u in Globals(gs, locationOf)
    ensures exists i :: GlobalFrom(gs, locationOf, u, i)
    decreases |gs|
  {
    var pre, g := gs[..|gs| - 1], gs[|gs| - 1];
    var last := if g.blockIndex < 0 then [NewUniform(g, locationOf(g.name))] else [];
    assert Globals(gs, locationOf) == Globals(pre, locationOf) + last;
    if u in Globals(pre, locationOf) {
      GlobalHasSource(pre, locationOf, u);
      var i :| GlobalFrom(pre, locationOf, u, i);
      assert gs[i] == pre[i];
      assert GlobalFrom(gs, locationOf, u, i);
    } else {
      assert GlobalFrom(gs, locationOf, u, |pre|);
    }
  }

  lemma {:induction false} SourceIsGlobal(gs: seq<GlUniform>, locationOf: string -> I32, u: Uniform, i: int)
    requires GlobalFrom(gs, locationOf, u, i)
    ensures u in Globals(gs, locationOf)
    decreases |gs|
  {
    var pre := gs[..|gs| - 1];
    if i < |pre| {
      assert pre[i] == gs[i];
      SourceIsGlobal(pre, locationOf, u, i);
    }
  }

  /** Uniform `i` of `gs` belongs to block `b` and `u` is the member built
      from it. */
  ghost predicate MemberFrom(gs: seq<GlUniform>, b: nat, u: BlockUniform, i: int)
  {
    0 <= i < |gs| && gs[i].blockIndex == b && u == NewBlockUniform(gs[i])
  }

  /** A member of block `b` is exactly a reflected uniform whose block index
      is `b`, with its name, size, offset and both strides; every such uniform
      is one. */
  lemma MembersAreTheBlocksUniforms(gs: seq<GlUniform>, b: nat, u: BlockUniform)
    ensures u in Members(gs, b) <==> exists i :: MemberFrom(gs, b, u, i)
    ensures u in Members(gs, b) ==>
              exists i :: 0 <= i < |gs| && gs[i].blockIndex == b && u.name == gs[i].name &&
                          u.size == gs[i].size && u.offset == gs[i].offset &&
                          u.arrayStride == gs[i].arrayStride && u.matrixStride == gs[i].matrixStride
  {
    if u in Members(gs, b) {
      MemberHasSource(gs, b, u);
      var i :| MemberFrom(gs, b, u, i);
      assert gs[i].blockIndex == b && u.name == gs[i].name;
    }
    if exists i :: MemberFrom(gs, b, u, i) {
      var i :| MemberFrom(gs, b, u, i);
      SourceIsMember(gs, b, u, i);
    }
  }

  lemma {:induction false} MemberHasSource(gs: seq<GlUniform>, b: nat, u: BlockUniform)
    requires u in Members(gs, b)
    ensures exists i :: MemberFrom(gs, b, u, i)
    decreases |gs|
  {
    var pre, g := gs[..|gs| - 1], gs[|gs| - 1];
    var last := if g.blockIndex == b then [NewBlockUniform(g)] else [];
    assert Members(gs, b) == Members(pre, b) + last;
    if u in Members(pre, b) {
      MemberHasSource(pre, b, u);
      var i :| MemberFrom(pre, b, u, i);
      assert gs[i] == pre[i];
      assert MemberFrom(gs, b, u, i);
    } else {
      assert MemberFrom(gs, b, u, |pre|);
    }
  }

  lemma {:induction false} SourceIsMember(gs: seq<GlUniform>, b: nat, u: BlockUniform, i: int)
    requires MemberFrom(gs, b, u, i)
    ensures u in Members(gs, b)
    decreases |gs|
  {
    var pre := gs[..|gs| - 1];
    if i < |pre| {
      assert pre[i] == gs[i];
      SourceIsMember(pre, b, u, i);
    }
  }

  /** Two globals and two blocks: `[a: -1, b: 0, c: 1, d: -1, e: 0]` gives
      globals `a, d`, block 0 `b, e` and block 1 `c`. */
  lemma PartitionExample(locationOf: string -> I32)
    ensures var gs := [ExampleUniform("a", -1), ExampleUniform("b", 0), ExampleUniform("c", 1),
                       ExampleUniform("d", -1), ExampleUniform("e", 0)];
            NamesOf(Globals(gs, locationOf), UniformName) == ["a", "d"] &&
            NamesOf(Members(gs, 0), BlockUniformName) == ["b", "e"] &&
            NamesOf(Members(gs, 1), BlockUniformName) == ["c"]
  {
    var a, b, c, d, e := ExampleUniform("a", -1), ExampleUniform("b", 0), ExampleUniform("c", 1),
                         ExampleUniform("d", -1), ExampleUniform("e", 0);
    var gs := [a, b, c, d, e];
    assert gs[..4] == [a, b, c, d] && [a, b, c, d][..3] == [a, b, c];
    assert [a, b, c][..2] == [a, b] && [a, b][..1] == [a] && [a][..0] == [];
    assert Globals([a], locationOf) == [NewUniform(a, locationOf("a"))];
    assert Globals([a, b, c], locationOf) == [NewUniform(a, locationOf("a"))];
    assert Globals(gs, locationOf) == [NewUniform(a, locationOf("a")), NewUniform(d, locationOf("d"))];
    assert Members([a], 0) == [];
    assert Members([a], 1) == [];
    assert Members([a, b], 0) == [NewBlockUniform(b)];
    assert Members([a, b, c, d], 0) == [NewBlockUniform(b)];
    assert Members(gs, 0) == [NewBlockUniform(b), NewBlockUniform(e)];
    assert Members([a, b], 1) == [];
    assert Members([a, b, c, d], 1) == [NewBlockUniform(c)];
  }

  function ExampleUniform(name: string, blockIndex: I32): GlUniform
  {
    GlUniform(name, FLOAT, 1, blockIndex, 0, 0, 0)
  }

  // ---------------------------------------------------------------------------
  // Reading the reflection data from the driver

  /** What the driver reports for one active uniform: the name buffer as the
      driver leaves it, and the six integer properties. */
  datatype ActiveUniformReport = ActiveUniformReport(
    nameBuffer: string, size: I32, uniformType: I32, offset: I32, blockIndex: I32, arrayStride: I32, matrixStride: I32)

  /** The properties queried by `fill_info`, in the order it queries them. */
  datatype UniformProperty =
    | SizeProperty | TypeProperty | OffsetProperty | BlockIndexProperty | ArrayStrideProperty | MatrixStrideProperty

  function Reported(r: ActiveUniformReport, p: UniformProperty): I32
  {
    match p
    case SizeProperty => r.size
    case TypeProperty => r.uniformType
    case OffsetProperty => r.offset
    case BlockIndexProperty => r.blockIndex
    case ArrayStrideProperty => r.arrayStride
    case MatrixStrideProperty => r.matrixStride
  }

  function PropertyOf(g: GlUniform, p: UniformProperty): I32
  {
    match p
    case SizeProperty => g.size
    case TypeProperty => g.uniformType
    case OffsetProperty => g.offset
    case BlockIndexProperty => g.blockIndex
    case ArrayStrideProperty => g.arrayStride
    case MatrixStrideProperty => g.matrixStride
  }

  /** The `info_fn` closures: store one property and leave the rest alone. */
  function SetProperty(g: GlUniform, p: UniformProperty, v: I32): (g': GlUniform)
    ensures g'.name == g.name && PropertyOf(g', p) == v
    ensures forall q :: q != p ==> PropertyOf(g', q) == PropertyOf(g, q)
  {
    match p
    case SizeProperty => g.(size := v)
    case TypeProperty => g.(uniformType := v)
    case OffsetProperty => g.(offset := v)
    case BlockIndexProperty => g.(blockIndex := v)
    case ArrayStrideProperty => g.(arrayStride := v)
    case MatrixStrideProperty => g.(matrixStride := v)
  }

  /** The record a uniform's report describes: its trimmed name and every
      property as reported. */
  function FromReport(r: ActiveUniformReport): (g: GlUniform)
    ensures g.name == NameFromBuffer(r.nameBuffer)
    ensures forall p :: PropertyOf(g, p) == Reported(r, p)
  {
    GlUniform(NameFromBuffer(r.nameBuffer), r.uniformType, r.size, r.blockIndex, r.offset, r.arrayStride, r.matrixStride)
  }

  /** One `fill_info` pass: query one property for every index, then store
      value `i` into record `i`. */
  method FillInfo(infos: seq<GlUniform>, property: UniformProperty, report: nat -> ActiveUniformReport)
    returns (filled: seq<GlUniform>)
    ensures |filled| == |infos|
    ensures forall i :: 0 <= i < |infos| ==> filled[i] == SetProperty(infos[i], property, Reported(report(i), property))
  {
    var intvalues := seq<I32>(|infos|, i requires 0 <= i => Reported(report(i), property));
    filled := infos;
    var i := 0;
    while i < |filled|
      invariant i <= |filled| == |infos|
      invariant forall k :: 0 <= k < |infos| ==>
                  filled[k] == if k < i then SetProperty(infos[k], property, intvalues[k]) else infos[k]
    {
      filled := filled[i := SetProperty(filled[i], property, intvalues[i])];
      i := i + 1;
    }
  }

  /** `make_gl_uniform_info_vec`: none when there is no active uniform;
      otherwise one record per active index, named from its buffer, with the
      six properties filled in one pass each. */
  method MakeGlUniformInfoVec(count: nat, report: nat -> ActiveUniformReport) returns (infos: seq<GlUniform>)
    ensures |infos| == count
    ensures forall i :: 0 <= i < count ==> infos[i] == FromReport(report(i))
  {
    if count == 0 {
      return [];
    }
    infos := seq(count, i requires 0 <= i => GlUniform(NameFromBuffer(report(i).nameBuffer), 0, 0, 0, 0, 0, 0));
    infos := FillInfo(infos, SizeProperty, report);
    infos := FillInfo(infos, TypeProperty, report);
    infos := FillInfo(infos, OffsetProperty, report);
    infos := FillInfo(infos, BlockIndexProperty, report);
    infos := FillInfo(infos, ArrayStrideProperty, report);
    infos := FillInfo(infos, MatrixStrideProperty, report);
  }

  /** What the driver reports for one active uniform block. */
  datatype ActiveBlockReport = ActiveBlockReport(nameBuffer: string, dataSize: I32)

  /** The block a report describes, with no members yet; its index is the
      driver's index for its own name. */
  function BlockFromReport(r: ActiveBlockReport, blockIndexOf: string -> nat): (b: InterfaceBlock)
    ensures b.name == NameFromBuffer(r.nameBuffer) && b.index == blockIndexOf(b.name)
    ensures b.dataSize == r.dataSize && b.uniforms == []
  {
    var name := NameFromBuffer(r.nameBuffer);
    InterfaceBlock(name, blockIndexOf(name), r.dataSize, [])
  }

  /** A block whose name the driver wrote with its terminator comes back
      under that name, with the driver's index for it, its data size and no
      members. */
  lemma BlockNameRoundTrip(name: string, dataSize: I32, blockIndexOf: string -> nat)
    ensures var b := BlockFromReport(ActiveBlockReport(name + ['\0'], dataSize), blockIndexOf);
            b.name == name && b.index == blockIndexOf(name) && b.dataSize == dataSize && b.uniforms == []
  {
    NameRoundTrip(name);
  }

  /** `make_uniform_block_info_vec`: none when there is no active block;
      otherwise one block per active index, in index order. */
  method MakeUniformBlockInfoVec(count: nat, report: nat -> ActiveBlockReport, blockIndexOf: string -> nat)
    returns (blocks: seq<InterfaceBlock>)
    ensures |blocks| == count
    ensures forall i :: 0 <= i < count ==> blocks[i] == BlockFromReport(report(i), blockIndexOf)
  {
    if count == 0 {
      return [];
    }
    blocks := [];
    var index := 0;
    while index < count
      invariant index <= count && |blocks| == index
      invariant forall i :: 0 <= i < index ==> blocks[i] == BlockFromReport(report(i), blockIndexOf)
    {
      var r := report(index);
      var name := NameFromBuffer(r.nameBuffer);
      blocks := blocks + [InterfaceBlock(name, blockIndexOf(name), r.dataSize, [])];
      index := index + 1;
    }
  }

  /** Everything uniform introspection asks the driver, as data: the active
      uniform and block counts, the per-index reports, and the by-name
      location and block-index lookups. */
  datatype UniformReflection = UniformReflection(
    activeUniforms: nat,
    uniformReport: nat -> ActiveUniformReport,
    activeBlocks: nat,
    blockReport: nat -> ActiveBlockReport,
    uniformLocation: string -> I32,
    uniformBlockIndex: string -> nat)

  function ReflectedUniforms(refl: UniformReflection): seq<GlUniform>
  {
    seq(refl.activeUniforms, i requires 0 <= i => FromReport(refl.uniformReport(i)))
  }

  function ReflectedBlocks(refl: UniformReflection): seq<InterfaceBlock>
  {
    seq(refl.activeBlocks, i requires 0 <= i => BlockFromReport(refl.blockReport(i), refl.uniformBlockIndex))
  }

  /** `make_uniform_info`: read the uniforms and the blocks, then partition. */
  method MakeUniformInfo(refl: UniformReflection) returns (r: Result<UniformInfo>)
    ensures var gs := ReflectedUniforms(refl);
            (r.Ok? <==> BlockIndicesInRange(gs, refl.activeBlocks)) &&
            (r.Ok? ==> IsPartition(gs, ReflectedBlocks(refl), refl.uniformLocation, r.value)) &&
            (r.Err? ==> exists i :: FirstOutOfRange(gs, refl.activeBlocks, i) &&
                                    r.panic == IndexOutOfBounds(gs[i].blockIndex, refl.activeBlocks))
  {
    var glUniforms := MakeGlUniformInfoVec(refl.activeUniforms, refl.uniformReport);
    var blocks := MakeUniformBlockInfoVec(refl.activeBlocks, refl.blockReport, refl.uniformBlockIndex);
    assert glUniforms == ReflectedUniforms(refl);
    assert blocks == ReflectedBlocks(refl);
    r := PartitionUniforms(glUniforms, blocks, refl.uniformLocation);
  }
}
