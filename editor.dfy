/** Buffer editors: handed out only after the context has bound their target
    for editing, and forwarding uploads to the buffer they edit. The same
    editors appear in the index-buffer module and in the older editor
    module; their behaviour is identical and is modelled once. Partial
    uploads go through the corrected `sub_data`, whose call as written swaps
    its size and offset arguments (see `Buffers.SubDataAsWritten`). */
module Editors {
  import opened Wrappers
  import opened Gl
  import opened Trackers
  import opened Contexts
  import opened Buffers
  import opened VertexArrays

  /** `VertexBufferEditor`: uploads go to the edited vertex buffer. */
  class VertexBufferEditor {
    const context: Context
    const vertexBuffer: BufferObject

    constructor (context: Context, vertexBuffer: BufferObject)
      ensures this.context == context && this.vertexBuffer == vertexBuffer
    {
      this.context := context;
      this.vertexBuffer := vertexBuffer;
    }

    method Data<D>(gl: Driver, elementSize: nat, data: seq<D>)
      modifies gl`log
      ensures gl.log == old(gl.log) + [BufferData(vertexBuffer.target, elementSize * |data|, STATIC_DRAW)]
    {
      vertexBuffer.Data(gl, elementSize, data);
    }

    /** `sub_data`, through the corrected buffer upload. */
    method SubData<D>(gl: Driver, elementSize: nat, data: seq<D>, byteOffset: nat)
      modifies gl`log
      ensures gl.log == old(gl.log) + [SubDataCall(vertexBuffer.target, elementSize * |data|, byteOffset)]
    {
      vertexBuffer.SubData(gl, elementSize, data, byteOffset);
    }
  }

  /** `new_vertex_buffer_editor`: bind the buffer for editing first. */
  method NewVertexBufferEditor(context: Context, vertexBuffer: BufferObject, gl: Driver)
    returns (editor: VertexBufferEditor)
    requires context.Valid()
    modifies context.vboTracker.simpleTracker, gl`log
    ensures fresh(editor) && editor.context == context && editor.vertexBuffer == vertexBuffer
    ensures var e := Apply(old(context.vboTracker.State()), Edit(vertexBuffer.bindable.View()));
            context.vboTracker.State() == e.state && gl.log == old(gl.log) + e.calls
  {
    context.BindVboForEditing(gl, vertexBuffer.bindable);
    editor := new VertexBufferEditor(context, vertexBuffer);
  }

  /** The calls an index-buffer edit issues: `call` on the vertex array's
      index buffer if it has one, nothing otherwise. */
  function IndexEdit(indexBuffer: Option<BufferObject>, call: BufferObject -> Call): (calls: seq<Call>)
    ensures indexBuffer.None? <==> calls == []
    ensures indexBuffer.Some? ==> calls == [call(indexBuffer.value)]
  {
    match indexBuffer
    case None => []
    case Some(b) => [call(b)]
  }

  /** `IndexBufferEditor`: uploads go to the index buffer of the edited
      vertex array, and do nothing when it has none. */
  class IndexBufferEditor {
    const context: Context
    const vertexArray: VertexArray

    constructor (context: Context, vertexArray: VertexArray)
      ensures this.context == context && this.vertexArray == vertexArray
    {
      this.context := context;
      this.vertexArray := vertexArray;
    }

    method Data<D>(gl: Driver, elementSize: nat, data: seq<D>)
      modifies gl`log
      ensures gl.log == old(gl.log) +
                IndexEdit(vertexArray.indexBuffer, (b: BufferObject) => BufferData(b.target, elementSize * |data|, STATIC_DRAW))
    {
      if vertexArray.indexBuffer.Some? {
        vertexArray.indexBuffer.value.Data(gl, elementSize, data);
      }
    }

    /** `sub_data`, through the corrected buffer upload. */
    method SubData<D>(gl: Driver, elementSize: nat, data: seq<D>, byteOffset: nat)
      modifies gl`log
      ensures gl.log == old(gl.log) +
                IndexEdit(vertexArray.indexBuffer, (b: BufferObject) => SubDataCall(b.target, elementSize * |data|, byteOffset))
    {
      if vertexArray.indexBuffer.Some? {
        vertexArray.indexBuffer.value.SubData(gl, elementSize, data, byteOffset);
      }
    }

    method DataU8(gl: Driver, data: seq<bv8>)
      modifies gl`log
      ensures gl.log == old(gl.log) + IndexEdit(vertexArray.indexBuffer, (b: BufferObject) => BufferData(b.target, |data|, STATIC_DRAW))
    {
      Data(gl, 1, data);
    }

    method DataU16(gl: Driver, data: seq<bv16>)
      modifies gl`log
      ensures gl.log == old(gl.log) + IndexEdit(vertexArray.indexBuffer, (b: BufferObject) => BufferData(b.target, 2 * |data|, STATIC_DRAW))
    {
      Data(gl, 2, data);
    }

    method DataU32(gl: Driver, data: seq<bv32>)
      modifies gl`log
      ensures gl.log == old(gl.log) + IndexEdit(vertexArray.indexBuffer, (b: BufferObject) => BufferData(b.target, 4 * |data|, STATIC_DRAW))
    {
      Data(gl, 4, data);
    }

    method SubDataU8(gl: Driver, data: seq<bv8>, byteOffset: nat)
      modifies gl`log
      ensures gl.log == old(gl.log) + IndexEdit(vertexArray.indexBuffer, (b: BufferObject) => SubDataCall(b.target, |data|, byteOffset))
    {
      SubData(gl, 1, data, byteOffset);
    }

    method SubDataU16(gl: Driver, data: seq<bv16>, byteOffset: nat)
      modifies gl`log
      ensures gl.log == old(gl.log) + IndexEdit(vertexArray.indexBuffer, (b: BufferObject) => SubDataCall(b.target, 2 * |data|, byteOffset))
    {
      SubData(gl, 2, data, byteOffset);
    }

    method SubDataU32(gl: Driver, data: seq<bv32>, byteOffset: nat)
      modifies gl`log
      ensures gl.log == old(gl.log) + IndexEdit(vertexArray.indexBuffer, (b: BufferObject) => SubDataCall(b.target, 4 * |data|, byteOffset))
    {
      SubData(gl, 4, data, byteOffset);
    }
  }

  /** `new_index_buffer_editor`: bind the vertex array for editing first. */
  method NewIndexBufferEditor(context: Context, vertexArray: VertexArray, gl: Driver)
    returns (editor: IndexBufferEditor)
    requires context.Valid()
    modifies context.vaoTracker.simpleTracker, gl`log
    ensures fresh(editor) && editor.context == context && editor.vertexArray == vertexArray
    ensures var e := Apply(old(context.vaoTracker.State()), Edit(vertexArray.bindable.View()));
            context.vaoTracker.State() == e.state && gl.log == old(gl.log) + e.calls
  {
    context.BindVaoForEditing(gl, vertexArray.bindable);
    editor := new IndexBufferEditor(context, vertexArray);
  }

  /** An index-buffer upload through a vertex array with an index buffer
      reaches exactly that buffer's element-array target, a partial upload
      replacing exactly the requested byte range there, and one without an
      index buffer issues nothing. */
  lemma IndexUploadReachesTheIndexBuffer(indexBuffer: Option<BufferObject>, size: nat, byteOffset: nat)
    requires indexBuffer.Some? ==> indexBuffer.value.target == ELEMENT_ARRAY_BUFFER
    ensures var calls := IndexEdit(indexBuffer, (b: BufferObject) => BufferData(b.target, size, STATIC_DRAW));
            (indexBuffer.None? ==> calls == []) &&
            (indexBuffer.Some? ==> calls == [BufferData(ELEMENT_ARRAY_BUFFER, size, STATIC_DRAW)])
    ensures var calls := IndexEdit(indexBuffer, (b: BufferObject) => SubDataCall(b.target, size, byteOffset));
            (indexBuffer.None? ==> calls == []) &&
            (indexBuffer.Some? ==> |calls| == 1 && calls[0].BufferSubData? && calls[0].target == ELEMENT_ARRAY_BUFFER &&
                                   ReplacedRange(calls[0]) == (byteOffset, byteOffset + size))
  {
  }
}
