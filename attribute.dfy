/** Attribute reflection: the driver type-tag table, the by-name lookup, and
    reading the active attributes through one reused name buffer. */
module Attributes {
  import opened Wrappers
  import opened Gl
  import opened Lookups

  datatype ShaderAttributeType =
    | Float
    | FloatVec2
    | FloatVec3
    | FloatVec4
    | FloatMat2
    | FloatMat3
    | FloatMat4
    | FloatMat2x3
    | FloatMat2x4
    | FloatMat3x2
    | FloatMat3x4
    | FloatMat4x2
    | FloatMat4x3
    | Int
    | IntVec2
    | IntVec3
    | IntVec4
    | UnsignedInt
    | UnsignedIntVec2
    | UnsignedIntVec3
    | UnsignedIntVec4

  /** The driver enum naming each attribute type. */
  function AttributeTypeTag(t: ShaderAttributeType): nat
  {
    match t
    case Float => FLOAT
    case FloatVec2 => FLOAT_VEC2
    case FloatVec3 => FLOAT_VEC3
    case FloatVec4 => FLOAT_VEC4
    case FloatMat2 => FLOAT_MAT2
    case FloatMat3 => FLOAT_MAT3
    case FloatMat4 => FLOAT_MAT4
    case FloatMat2x3 => FLOAT_MAT2x3
    case FloatMat2x4 => FLOAT_MAT2x4
    case FloatMat3x2 => FLOAT_MAT3x2
    case FloatMat3x4 => FLOAT_MAT3x4
    case FloatMat4x2 => FLOAT_MAT4x2
    case FloatMat4x3 => FLOAT_MAT4x3
    case Int => INT
    case IntVec2 => INT_VEC2
    case IntVec3 => INT_VEC3
    case IntVec4 => INT_VEC4
    case UnsignedInt => UNSIGNED_INT
    case UnsignedIntVec2 => UNSIGNED_INT_VEC2
    case UnsignedIntVec3 => UNSIGNED_INT_VEC3
    case UnsignedIntVec4 => UNSIGNED_INT_VEC4
  }

  /** `attribute_type_from_u32`. */
  function AttributeTypeFromU32(tag: nat): Option<ShaderAttributeType>
  {
    if tag == FLOAT then Some(Float)
    else if tag == FLOAT_VEC2 then Some(FloatVec2)
    else if tag == FLOAT_VEC3 then Some(FloatVec3)
    else if tag == FLOAT_VEC4 then Some(FloatVec4)
    else if tag == FLOAT_MAT2 then Some(FloatMat2)
    else if tag == FLOAT_MAT3 then Some(FloatMat3)
    else if tag == FLOAT_MAT4 then Some(FloatMat4)
    else if tag == FLOAT_MAT2x3 then Some(FloatMat2x3)
    else if tag == FLOAT_MAT2x4 then Some(FloatMat2x4)
    else if tag == FLOAT_MAT3x2 then Some(FloatMat3x2)
    else if tag == FLOAT_MAT3x4 then Some(FloatMat3x4)
    else if tag == FLOAT_MAT4x2 then Some(FloatMat4x2)
    else if tag == FLOAT_MAT4x3 then Some(FloatMat4x3)
    else if tag == INT then Some(Int)
    else if tag == INT_VEC2 then Some(IntVec2)
    else if tag == INT_VEC3 then Some(IntVec3)
    else if tag == INT_VEC4 then Some(IntVec4)
    else if tag == UNSIGNED_INT then Some(UnsignedInt)
    else if tag == UNSIGNED_INT_VEC2 then Some(UnsignedIntVec2)
    else if tag == UNSIGNED_INT_VEC3 then Some(UnsignedIntVec3)
    else if tag == UNSIGNED_INT_VEC4 then Some(UnsignedIntVec4)
    else None
  }

  /** Every attribute type's tag maps back to it, so the 21 listed tags map to
      21 distinct variants. */
  lemma AttributeTagRoundTrip(t: ShaderAttributeType)
    ensures AttributeTypeFromU32(AttributeTypeTag(t)) == Some(t)
  {
  }

  /** A tag decodes to `None` exactly when it is no attribute type's tag. */
  lemma AttributeTagUnknown(tag: nat)
    ensures AttributeTypeFromU32(tag).None? <==> forall t :: AttributeTypeTag(t) != tag
  {
    if AttributeTypeFromU32(tag).None? {
      forall t ensures AttributeTypeTag(t) != tag {
        AttributeTagRoundTrip(t);
      }
    } else if forall t :: AttributeTypeTag(t) != tag {
      NotListedTags1(tag);
      NotListedTags2(tag);
      UnlistedTagIsNone(tag);
    }
  }

  /** No type's tag is one of FLOAT .. FLOAT_MAT3x4. */
  lemma NotListedTags1(tag: nat)
    requires forall t :: AttributeTypeTag(t) != tag
    ensures tag != FLOAT && tag != FLOAT_VEC2 && tag != FLOAT_VEC3 &&
            tag != FLOAT_VEC4 && tag != FLOAT_MAT2 && tag != FLOAT_MAT3 &&
            tag != FLOAT_MAT4 && tag != FLOAT_MAT2x3 && tag != FLOAT_MAT2x4 &&
            tag != FLOAT_MAT3x2 && tag != FLOAT_MAT3x4
  {
    assert tag != FLOAT by {
      assert AttributeTypeTag(Float) != tag;
    }
    assert tag != FLOAT_VEC2 by {
      assert AttributeTypeTag(FloatVec2) != tag;
    }
    assert tag != FLOAT_VEC3 by {
      assert AttributeTypeTag(FloatVec3) != tag;
    }
    assert tag != FLOAT_VEC4 by {
      assert AttributeTypeTag(FloatVec4) != tag;
    }
    assert tag != FLOAT_MAT2 by {
      assert AttributeTypeTag(FloatMat2) != tag;
    }
    assert tag != FLOAT_MAT3 by {
      assert AttributeTypeTag(FloatMat3) != tag;
    }
    assert tag != FLOAT_MAT4 by {
      assert AttributeTypeTag(FloatMat4) != tag;
    }
    assert tag != FLOAT_MAT2x3 by {
      assert AttributeTypeTag(FloatMat2x3) != tag;
    }
    assert tag != FLOAT_MAT2x4 by {
      assert AttributeTypeTag(FloatMat2x4) != tag;
    }
    assert tag != FLOAT_MAT3x2 by {
      assert AttributeTypeTag(FloatMat3x2) != tag;
    }
    assert tag != FLOAT_MAT3x4 by {
      assert AttributeTypeTag(FloatMat3x4) != tag;
    }
  }

  /** No type's tag is one of FLOAT_MAT4x2 .. UNSIGNED_INT_VEC4. */
  lemma NotListedTags2(tag: nat)
    requires forall t :: AttributeTypeTag(t) != tag
    ensures tag != FLOAT_MAT4x2 && tag != FLOAT_MAT4x3 && tag != INT &&
            tag != INT_VEC2 && tag != INT_VEC3 && tag != INT_VEC4 &&
            tag != UNSIGNED_INT && tag != UNSIGNED_INT_VEC2 && tag != UNSIGNED_INT_VEC3 &&
            tag != UNSIGNED_INT_VEC4
  {
    assert tag != FLOAT_MAT4x2 by {
      assert AttributeTypeTag(FloatMat4x2) != tag;
    }
    assert tag != FLOAT_MAT4x3 by {
      assert AttributeTypeTag(FloatMat4x3) != tag;
    }
    assert tag != INT by {
      assert AttributeTypeTag(Int) != tag;
    }
    assert tag != INT_VEC2 by {
      assert AttributeTypeTag(IntVec2) != tag;
    }
    assert tag != INT_VEC3 by {
      assert AttributeTypeTag(IntVec3) != tag;
    }
    assert tag != INT_VEC4 by {
      assert AttributeTypeTag(IntVec4) != tag;
    }
    assert tag != UNSIGNED_INT by {
      assert AttributeTypeTag(UnsignedInt) != tag;
    }
    assert tag != UNSIGNED_INT_VEC2 by {
      assert AttributeTypeTag(UnsignedIntVec2) != tag;
    }
    assert tag != UNSIGNED_INT_VEC3 by {
      assert AttributeTypeTag(UnsignedIntVec3) != tag;
    }
    assert tag != UNSIGNED_INT_VEC4 by {
      assert AttributeTypeTag(UnsignedIntVec4) != tag;
    }
  }

  lemma UnlistedTagIsNone(tag: nat)
    requires tag != FLOAT && tag != FLOAT_VEC2 && tag != FLOAT_VEC3 &&
             tag != FLOAT_VEC4 && tag != FLOAT_MAT2 && tag != FLOAT_MAT3 &&
             tag != FLOAT_MAT4 && tag != FLOAT_MAT2x3 && tag != FLOAT_MAT2x4 &&
             tag != FLOAT_MAT3x2 && tag != FLOAT_MAT3x4 && tag != FLOAT_MAT4x2 &&
             tag != FLOAT_MAT4x3 && tag != INT && tag != INT_VEC2 &&
             tag != INT_VEC3 && tag != INT_VEC4 && tag != UNSIGNED_INT &&
             tag != UNSIGNED_INT_VEC2 && tag != UNSIGNED_INT_VEC3 && tag != UNSIGNED_INT_VEC4
    ensures AttributeTypeFromU32(tag).None?
  {
  }

  /** A tag that decodes is the tag of the type it decodes to. */
  lemma AttributeTagDecodes(tag: nat)
    requires AttributeTypeFromU32(tag).Some?
    ensures AttributeTypeTag(AttributeTypeFromU32(tag).value) == tag
  {
    AttributeTagUnknown(tag);
    var t :| AttributeTypeTag(t) == tag;
    AttributeTagRoundTrip(t);
  }

  datatype ShaderAttribute = ShaderAttribute(
    name: string, location: I32, attributeType: Option<ShaderAttributeType>, size: I32)

  function AttributeName(a: ShaderAttribute): string
  {
    a.name
  }

  datatype ShaderAttributeInfo = ShaderAttributeInfo(attributes: seq<ShaderAttribute>)
  {
    /** `ShaderAttributeInfo::get_attribute`: the first attribute with that
        name, or `None`. */
    method GetAttribute(name: string) returns (r: Option<ShaderAttribute>)
      ensures r == Pick(attributes, FirstNamed(NamesOf(attributes, AttributeName), name))
    {
      var i := 0;
      while i < |attributes|
        invariant i <= |attributes|
        invariant name !in NamesOf(attributes, AttributeName)[..i]
      {
        if attributes[i].name == name {
          FirstNamedChar(NamesOf(attributes, AttributeName), name, i);
          return Some(attributes[i]);
        }
        assert NamesOf(attributes, AttributeName)[..i + 1] == NamesOf(attributes, AttributeName)[..i] + [attributes[i].name];
        i := i + 1;
      }
      assert NamesOf(attributes, AttributeName)[..i] == NamesOf(attributes, AttributeName);
      r := None;
    }
  }

  // ---------------------------------------------------------------------------
  // Reading the active attributes

  /** What one `glGetActiveAttrib` call reports: the bytes it writes at the
      start of the name buffer, the length it claims, the size and the type. */
  datatype ActiveAttribReport = ActiveAttribReport(written: string, actualLength: I32, size: I32, glType: nat)

  /** Everything attribute introspection asks the driver, as data. */
  datatype AttributeReflection = AttributeReflection(
    activeAttributes: nat,
    maxLength: nat,
    report: nat -> ActiveAttribReport,
    attribLocation: string -> I32)

  /** The name buffer after the driver writes `written` into it: the written
      bytes replace the start, the rest keeps what an earlier call left. */
  function Overwrite(buffer: string, written: string): (b: string)
    ensures |b| == |buffer|
    ensures forall k :: 0 <= k < |buffer| ==> b[k] == if k < |written| then written[k] else buffer[k]
  {
    if |written| >= |buffer| then written[..|buffer|] else written + buffer[|written|..]
  }

  /** The shared name buffer after the first `k` calls. */
  function BufferAfter(refl: AttributeReflection, k: nat): (b: string)
    ensures |b| == refl.maxLength
  {
    if k == 0 then seq(refl.maxLength, _ => '\0')
    else Overwrite(BufferAfter(refl, k - 1), refl.report(k - 1).written)
  }

  /** The length reported for attribute `i` lies within the buffer. */
  ghost predicate NameFits(refl: AttributeReflection, i: nat)
  {
    0 <= refl.report(i).actualLength <= refl.maxLength
  }

  /** The attribute record for index `i`. */
  function AttributeAt(refl: AttributeReflection, i: nat): ShaderAttribute
    requires NameFits(refl, i)
  {
    var name := BufferAfter(refl, i + 1)[..refl.report(i).actualLength];
    ShaderAttribute(name, refl.attribLocation(name), AttributeTypeFromU32(refl.report(i).glType), refl.report(i).size)
  }

  /** When the driver wrote at least the length it reports, the name is a
      prefix of what it wrote in this call: nothing left in the shared buffer by
      an earlier attribute leaks into it. */
  lemma NameComesFromThisCall(refl: AttributeReflection, i: nat)
    requires NameFits(refl, i) && refl.report(i).actualLength <= |refl.report(i).written|
    ensures AttributeAt(refl, i).name == refl.report(i).written[..refl.report(i).actualLength]
  {
    var buffer := BufferAfter(refl, i + 1);
    var n := refl.report(i).actualLength;
    assert buffer[..n] == refl.report(i).written[..n];
  }

  /** `make_attribute_info_vec`: entry `i` describes active attribute `i`, with
      the first `actual_length` bytes of the reused buffer as its name; a
      length beyond the buffer aborts. */
  method MakeAttributeInfoVec(refl: AttributeReflection) returns (r: Result<ShaderAttributeInfo>)
    ensures r.Ok? <==> forall i :: 0 <= i < refl.activeAttributes ==> NameFits(refl, i)
    ensures r.Ok? ==> |r.value.attributes| == refl.activeAttributes &&
                      forall i :: 0 <= i < refl.activeAttributes ==> r.value.attributes[i] == AttributeAt(refl, i)
    ensures r.Err? ==> exists i :: 0 <= i < refl.activeAttributes && !NameFits(refl, i) &&
                                   (forall j :: 0 <= j < i ==> NameFits(refl, j)) &&
                                   r.panic == SliceOutOfBounds(refl.report(i).actualLength, refl.maxLength)
  {
    var nameVec := seq(refl.maxLength, _ => '\0');
    var attributes: seq<ShaderAttribute> := [];
    var i := 0;
    while i < refl.activeAttributes
      invariant i <= refl.activeAttributes && |attributes| == i
      invariant nameVec == BufferAfter(refl, i)
      invariant forall j :: 0 <= j < i ==> NameFits(refl, j) && attributes[j] == AttributeAt(refl, j)
    {
      var call := refl.report(i);
      nameVec := Overwrite(nameVec, call.written);
      if !(0 <= call.actualLength <= |nameVec|) {
        assert !NameFits(refl, i);
        return Err(SliceOutOfBounds(call.actualLength, |nameVec|));
      }
      var name := nameVec[..call.actualLength];
      var attributeType := AttributeTypeFromU32(call.glType);
      var location := refl.attribLocation(name);
      attributes := attributes + [ShaderAttribute(name, location, attributeType, call.size)];
      i := i + 1;
    }
    r := Ok(ShaderAttributeInfo(attributes));
  }
}
