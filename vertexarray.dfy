/** Vertex arrays: the interleaved single-buffer layout builder, the scalar
    size table, and the bind/set-up order of vertex array creation. */
module VertexArrays {
  import opened Wrappers
  import opened Gl
  import opened Trackers
  import opened Contexts
  import opened Buffers

  datatype AttributeType =
    | AttributeByte | AttributeUnsignedByte | AttributeShort | AttributeUnsignedShort | AttributeInt | AttributeUnsignedInt
    | AttributeHalfFloat | AttributeFloat | AttributeDouble | AttributeInt2101010Rev | AttributeUnsignedInt2101010Rev

  /** `attribute_to_gl_type`. */
  function AttributeToGlType(t: AttributeType): nat
  {
    match t
    case AttributeByte => BYTE
    case AttributeUnsignedByte => UNSIGNED_BYTE
    case AttributeShort => SHORT
    case AttributeUnsignedShort => UNSIGNED_SHORT
    case AttributeInt => INT
    case AttributeUnsignedInt => UNSIGNED_INT
    case AttributeHalfFloat => HALF_FLOAT
    case AttributeFloat => FLOAT
    case AttributeDouble => DOUBLE
    case AttributeInt2101010Rev => INT_2_10_10_10_REV
    case AttributeUnsignedInt2101010Rev => UNSIGNED_INT_2_10_10_10_REV
  }

  /** `attribute_to_size`: bytes taken by one component of the type. */
  function AttributeToSize(t: AttributeType): (r: nat)
    ensures r == 1 || r == 2 || r == 4 || r == 8
  {
    match t
    case AttributeByte => 1
    case AttributeUnsignedByte => 1
    case AttributeShort => 2
    case AttributeUnsignedShort => 2
    case AttributeInt => 4
    case AttributeUnsignedInt => 4
    case AttributeHalfFloat => 2
    case AttributeFloat => 4
    case AttributeDouble => 8
    case AttributeInt2101010Rev => 4
    case AttributeUnsignedInt2101010Rev => 4
  }

  /** Bytes per component of a driver scalar type, keyed by the driver's enum. */
  function GlTypeBytes(glType: nat): nat
  {
    if glType == BYTE || glType == UNSIGNED_BYTE then 1
    else if glType == SHORT || glType == UNSIGNED_SHORT || glType == HALF_FLOAT then 2
    else if glType == DOUBLE then 8
    else if glType in {INT, UNSIGNED_INT, FLOAT, INT_2_10_10_10_REV, UNSIGNED_INT_2_10_10_10_REV} then 4
    else 0
  }

  /** The size table agrees with the driver type each attribute type is sent as,
      and distinct attribute types are sent as distinct driver types. */
  lemma SizeTableMatchesGlTypes(t: AttributeType, u: AttributeType)
    ensures AttributeToSize(t) == GlTypeBytes(AttributeToGlType(t))
    ensures AttributeToGlType(t) == AttributeToGlType(u) ==> t == u
  {
  }

  /** One `(component_count, type, normalized)` triple of `new_single_vbo`. */
  datatype Field = Field(size: nat, attributeType: AttributeType, normalized: bool)

  datatype VertexAttribute = VertexAttribute(
    index: nat,
    size: nat,
    attributeType: AttributeType,
    normalized: bool,
    stride: nat,
    offset: nat,
    vertexBuffer: BufferObject)

  /** Bytes one field takes in an interleaved record. */
  function FieldBytes(f: Field): nat
  {
    AttributeToSize(f.attributeType) * f.size
  }

  /** Bytes taken by a run of fields: the sum of their sizes. */
  function RecordSize(fields: seq<Field>): nat
    decreases |fields|
  {
    if fields == [] then 0
    else RecordSize(fields[..|fields| - 1]) + FieldBytes(fields[|fields| - 1])
  }

  /** The offset of field i is the size of the fields before it. */
  function OffsetOf(fields: seq<Field>, i: nat): nat
    requires i <= |fields|
  {
    RecordSize(fields[..i])
  }

  lemma PrefixOfPrefix(fields: seq<Field>, i: nat)
    requires i < |fields|
    ensures fields[..i + 1][..i] == fields[..i]
    ensures RecordSize(fields[..i + 1]) == RecordSize(fields[..i]) + FieldBytes(fields[i])
  {
    assert fields[..i + 1][..i] == fields[..i];
  }

  /** Offsets never decrease along the record. */
  lemma {:induction false} OffsetsNondecreasing(fields: seq<Field>, i: nat, j: nat)
    requires i <= j <= |fields|
    ensures OffsetOf(fields, i) <= OffsetOf(fields, j)
    decreases j - i
  {
    if i < j {
      OffsetsNondecreasing(fields, i, j - 1);
      PrefixOfPrefix(fields, j - 1);
    }
  }

  /** Every field lies inside the record: it ends at or before the stride. */
  lemma FieldFitsInRecord(fields: seq<Field>, i: nat)
    requires i < |fields|
    ensures OffsetOf(fields, i) + FieldBytes(fields[i]) == OffsetOf(fields, i + 1)
    ensures OffsetOf(fields, i) + FieldBytes(fields[i]) <= RecordSize(fields)
  {
    PrefixOfPrefix(fields, i);
    OffsetsNondecreasing(fields, i + 1, |fields|);
    assert fields[..|fields|] == fields;
  }

  /** Fields are laid out back to back and do not overlap. */
  lemma FieldsDoNotOverlap(fields: seq<Field>, i: nat, j: nat)
    requires i < j < |fields|
    ensures OffsetOf(fields, i) + FieldBytes(fields[i]) <= OffsetOf(fields, j)
  {
    FieldFitsInRecord(fields, i);
    OffsetsNondecreasing(fields, i + 1, j);
  }

  /** The attributes `new_single_vbo` describes. */
  ghost predicate IsSingleVboLayout(fields: seq<Field>, vertexBuffer: BufferObject, attrs: seq<VertexAttribute>)
  {
    |attrs| == |fields| &&
    forall i :: 0 <= i < |fields| ==>
      attrs[i] == VertexAttribute(i, fields[i].size, fields[i].attributeType, fields[i].normalized,
                                  RecordSize(fields), OffsetOf(fields, i), vertexBuffer)
  }

  /** The layout loop of `new_single_vbo`: index each triple in order, give it
      the running byte total as offset, then give all of them the final total
      as stride. */
  method SingleVboLayout(fields: seq<Field>, vertexBuffer: BufferObject) returns (attrs: seq<VertexAttribute>)
    ensures |attrs| == |fields|
    ensures forall i :: 0 <= i < |fields| ==>
              attrs[i] == VertexAttribute(i, fields[i].size, fields[i].attributeType, fields[i].normalized,
                                          RecordSize(fields), OffsetOf(fields, i), vertexBuffer)
  {
    var full: seq<VertexAttribute> := [];
    var counter: nat := 0;
    var offset: nat := 0;
    while counter < |fields|
      invariant counter <= |fields| && |full| == counter
      invariant offset == RecordSize(fields[..counter])
      invariant forall k :: 0 <= k < counter ==>
                  full[k] == VertexAttribute(k, fields[k].size, fields[k].attributeType, fields[k].normalized,
                                             0, OffsetOf(fields, k), vertexBuffer)
    {
      var f := fields[counter];
      full := full + [VertexAttribute(counter, f.size, f.attributeType, f.normalized, 0, offset, vertexBuffer)];
      PrefixOfPrefix(fields, counter);
      offset := offset + AttributeToSize(f.attributeType) * f.size;
      counter := counter + 1;
    }
    assert fields[..|fields|] == fields;
    var stride := offset;
    var k := 0;
    while k < |full|
      invariant k <= |full| == |fields|
      invariant forall m :: 0 <= m < |fields| ==>
                  full[m] == VertexAttribute(m, fields[m].size, fields[m].attributeType, fields[m].normalized,
                                             if m < k then stride else 0, OffsetOf(fields, m), vertexBuffer)
    {
      full := full[k := full[k].(stride := stride)];
      k := k + 1;
    }
    attrs := full;
  }

  /** A single field sits at offset 0 and the stride is its own size. */
  lemma SingleFieldLayout(f: Field)
    ensures OffsetOf([f], 0) == 0 && RecordSize([f]) == FieldBytes(f)
  {
    assert [f][..0] == [];
    assert [f][..|[f]| - 1] == [];
  }

  /** `[(3, AttributeFloat, false), (4, AttributeUnsignedByte, true)]`: offsets 0 and 12, stride
      16; `[(2, AttributeShort, false)]`: offset 0, stride 4. */
  lemma LayoutExamples()
    ensures var fs := [Field(3, AttributeFloat, false), Field(4, AttributeUnsignedByte, true)];
            OffsetOf(fs, 0) == 0 && OffsetOf(fs, 1) == 12 && RecordSize(fs) == 16
    ensures RecordSize([Field(2, AttributeShort, false)]) == 4
  {
    var fs := [Field(3, AttributeFloat, false), Field(4, AttributeUnsignedByte, true)];
    assert fs[..0] == [];
    assert fs[..1] == [fs[0]] && fs[..1][..0] == [];
    assert fs[..|fs| - 1] == [fs[0]];
    SingleFieldLayout(Field(2, AttributeShort, false));
  }

  /** The `glVertexAttribPointer` call describing one attribute. */
  function AttribPointerCall(a: VertexAttribute): Call
  {
    VertexAttribPointer(a.index, a.size, AttributeToGlType(a.attributeType), a.normalized, a.stride, a.offset)
  }

  /** The describe calls for a run of attributes, in list order. */
  function DescribeCalls(attrs: seq<VertexAttribute>): seq<Call>
    decreases |attrs|
  {
    if attrs == [] then []
    else DescribeCalls(attrs[..|attrs| - 1]) +
         [EnableVertexAttribArray(attrs[|attrs| - 1].index), AttribPointerCall(attrs[|attrs| - 1])]
  }

  /** `set_vertex_attribute` for each attribute in order, against the vertex
      buffer tracker in state `s`. */
  function SetupAttributes(s: RenderState, attrs: seq<VertexAttribute>): Effect
    decreases |attrs|
  {
    if attrs == [] then Effect(s, [])
    else
      var p := SetupAttributes(s, attrs[..|attrs| - 1]);
      var a := attrs[|attrs| - 1];
      var e := Apply(p.state, Edit(a.vertexBuffer.bindable.View()));
      Effect(e.state, p.calls + e.calls + [EnableVertexAttribArray(a.index), AttribPointerCall(a)])
  }

  /** When every attribute reads one vertex buffer (as `new_single_vbo`
      arranges), setting them up binds that buffer at most once, first, and
      then describes each attribute in order. */
  lemma {:induction false} SingleBufferSetupBindsOnce(s: RenderState, attrs: seq<VertexAttribute>, vb: BufferObject)
    requires forall i :: 0 <= i < |attrs| ==> attrs[i].vertexBuffer == vb
    ensures var e := SetupAttributes(s, attrs);
            e.calls == (if attrs != [] && s.current != vb.bindable.trackerId then [vb.bindable.bindCall] else []) +
                       DescribeCalls(attrs) &&
            e.state == (if attrs == [] then s else RenderState(vb.bindable.trackerId, s.forRendering))
    decreases |attrs|
  {
    if attrs != [] {
      var pre := attrs[..|attrs| - 1];
      SingleBufferSetupBindsOnce(s, pre, vb);
    }
  }

  class VertexArray {
    const name: nat
    const attributes: seq<VertexAttribute>
    const indexBuffer: Option<BufferObject>
    const contextShared: SharedContextState
    const bindable: Bindable

    /** In this version `Bind::get_id` is the driver name, and `Bind::bind`
        binds it as the current vertex array. */
    ghost predicate Valid()
    {
      bindable.trackerId == TrackerId(name) && bindable.bindCall == BindVertexArray(name)
    }

    /** `VertexArray::new`: generate a name, bind it for editing, set up every
        attribute in list order, then bind the index buffer if there is one. */
    constructor (ctx: Context, attributes: seq<VertexAttribute>, indexBuffer: Option<BufferObject>,
                 contextShared: SharedContextState, gl: Driver)
      requires ctx.Valid()
      requires indexBuffer.Some? ==> indexBuffer.value.Valid()
      modifies gl`log, gl`nextName, ctx.vaoTracker.simpleTracker, ctx.vboTracker.simpleTracker
      ensures Valid() && fresh(bindable) && bindable.alive
      ensures this.attributes == attributes && this.indexBuffer == indexBuffer && this.contextShared == contextShared
      ensures name == old(gl.nextName)
      ensures var vao := Apply(old(ctx.vaoTracker.State()), Edit(bindable.View()));
              var setup := SetupAttributes(old(ctx.vboTracker.State()), attributes);
              ctx.vaoTracker.State() == vao.state &&
              ctx.vboTracker.State() == setup.state &&
              gl.log == old(gl.log) + [GenVertexArrays(name)] + vao.calls + setup.calls +
                        (if indexBuffer.Some? then [indexBuffer.value.bindable.bindCall] else [])
    {
      var id := gl.NewName();
      gl.Issue(GenVertexArrays(id));
      this.name := id;
      this.attributes := attributes;
      this.indexBuffer := indexBuffer;
      this.contextShared := contextShared;
      this.bindable := new Bindable(TrackerId(id), BindVertexArray(id));
      new;
      ctx.BindVaoForEditing(gl, bindable);
      SetupAll(ctx, gl, attributes);
      if indexBuffer.Some? {
        indexBuffer.value.Bind(gl);
      }
    }

    /** `Drop`: the vertex array is deleted only while the context is alive. */
    method Drop(gl: Driver)
      modifies gl`log, bindable
      ensures !bindable.alive
      ensures gl.log == old(gl.log) + (if contextShared.contextAlive then [DeleteVertexArrays(name)] else [])
    {
      bindable.alive := false;
      if !contextShared.contextAlive {
        return;
      }
      gl.Issue(DeleteVertexArrays(name));
    }
  }

  /** The attribute loop of `VertexArray::new`. */
  method SetupAll(ctx: Context, gl: Driver, attributes: seq<VertexAttribute>)
    requires ctx.Valid()
    modifies ctx.vboTracker.simpleTracker, gl`log
    ensures var e := SetupAttributes(old(ctx.vboTracker.State()), attributes);
            ctx.vboTracker.State() == e.state && gl.log == old(gl.log) + e.calls
  {
    var i := 0;
    while i < |attributes|
      invariant i <= |attributes|
      invariant var e := SetupAttributes(old(ctx.vboTracker.State()), attributes[..i]);
                ctx.vboTracker.State() == e.state && gl.log == old(gl.log) + e.calls
    {
      assert attributes[..i + 1][..i] == attributes[..i];
      SetVertexAttribute(ctx, gl, attributes[i]);
      i := i + 1;
    }
    assert attributes[..|attributes|] == attributes;
  }

  /** `set_vertex_attribute`: bind the attribute's vertex buffer for editing,
      enable the attribute and describe it. */
  method SetVertexAttribute(ctx: Context, gl: Driver, a: VertexAttribute)
    requires ctx.Valid()
    modifies ctx.vboTracker.simpleTracker, gl`log
    ensures var e := Apply(old(ctx.vboTracker.State()), Edit(a.vertexBuffer.bindable.View()));
            ctx.vboTracker.State() == e.state &&
            gl.log == old(gl.log) + e.calls + [EnableVertexAttribArray(a.index), AttribPointerCall(a)]
  {
    ctx.BindVboForEditing(gl, a.vertexBuffer.bindable);
    gl.Issue(EnableVertexAttribArray(a.index));
    gl.Issue(VertexAttribPointer(a.index, a.size, AttributeToGlType(a.attributeType), a.normalized, a.stride, a.offset));
  }

  /** The setup calls of a single-buffer layout, after whatever `before`
      was issued: at most one bind of the buffer, then every attribute
      described in order. */
  lemma SingleVboSetup(s: RenderState, fields: seq<Field>, vertexBuffer: BufferObject, attrs: seq<VertexAttribute>,
                       before: seq<Call>)
    requires IsSingleVboLayout(fields, vertexBuffer, attrs)
    ensures before + SetupAttributes(s, attrs).calls ==
              before + (if fields != [] && s.current != vertexBuffer.bindable.trackerId then [vertexBuffer.bindable.bindCall] else []) +
              DescribeCalls(attrs)
  {
    assert forall i :: 0 <= i < |attrs| ==> attrs[i].vertexBuffer == vertexBuffer;
    SingleBufferSetupBindsOnce(s, attrs, vertexBuffer);
  }

  /** `new_single_vbo`: lay the triples out in one interleaved buffer, then
      create the vertex array from that layout. */
  method NewSingleVbo(ctx: Context, fields: seq<Field>, vertexBuffer: BufferObject,
                      indexBuffer: Option<BufferObject>, contextShared: SharedContextState, gl: Driver)
    returns (va: VertexArray)
    requires ctx.Valid()
    requires indexBuffer.Some? ==> indexBuffer.value.Valid()
    modifies gl`log, gl`nextName, ctx.vaoTracker.simpleTracker, ctx.vboTracker.simpleTracker
    ensures fresh(va) && va.Valid() && va.indexBuffer == indexBuffer
    ensures IsSingleVboLayout(fields, vertexBuffer, va.attributes)
    ensures var vao := Apply(old(ctx.vaoTracker.State()), Edit(va.bindable.View()));
            var vboBind := if fields != [] && old(ctx.vboTracker.State()).current != vertexBuffer.bindable.trackerId
                           then [vertexBuffer.bindable.bindCall] else [];
            gl.log == old(gl.log) + [GenVertexArrays(va.name)] + vao.calls + vboBind + DescribeCalls(va.attributes) +
                      (if indexBuffer.Some? then [indexBuffer.value.bindable.bindCall] else [])
  {
    var attrs := SingleVboLayout(fields, vertexBuffer);
    va := new VertexArray(ctx, attrs, indexBuffer, contextShared, gl);
    SingleVboSetup(old(ctx.vboTracker.State()), fields, vertexBuffer, attrs,
                   old(gl.log) + [GenVertexArrays(va.name)] + Apply(old(ctx.vaoTracker.State()), Edit(va.bindable.View())).calls);
  }
}
