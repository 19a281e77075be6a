/** Buffer objects: a driver name, a tracker id, a registration handle and a
    target; uploads, liveness-gated deletion, equality and `Bind`. */
module Buffers {
  import opened Gl
  import opened Trackers
  import opened Contexts

  /** The byte range `[start, end)` that a `glBufferSubData` call replaces. */
  function ReplacedRange(c: Call): (r: (nat, nat))
    requires c.BufferSubData?
    ensures r.0 <= r.1 && r.1 - r.0 == c.size
  {
    (c.offset, c.offset + c.size)
  }

  /** The call `sub_data` issues as written: the byte size is passed where the
      driver expects the offset, and the offset where it expects the size. */
  function SubDataCallAsWritten(target: nat, dataSize: nat, byteOffset: nat): Call
  {
    BufferSubData(target, dataSize, byteOffset)
  }

  /** The call `sub_data` evidently means to issue. */
  function SubDataCall(target: nat, dataSize: nat, byteOffset: nat): Call
  {
    BufferSubData(target, byteOffset, dataSize)
  }

  /** Uploading 12 bytes (three floats) at offset 0 with the call as written
      replaces the empty range at byte 12, not bytes 0..12. */
  lemma SubDataAsWrittenMissesTheRange()
    ensures ReplacedRange(SubDataCallAsWritten(ARRAY_BUFFER, 12, 0)) == (12, 12)
    ensures ReplacedRange(SubDataCall(ARRAY_BUFFER, 12, 0)) == (0, 12)
  {
  }

  /** The corrected call replaces exactly `data_size` bytes starting at `byte_offset`. */
  lemma SubDataReplacesRequestedRange(target: nat, dataSize: nat, byteOffset: nat)
    ensures var c := SubDataCall(target, dataSize, byteOffset);
            c.target == target && ReplacedRange(c) == (byteOffset, byteOffset + dataSize)
  {
  }

  /** The call as written is the intended call with its size and offset
      exchanged: an upload of `dataSize` bytes at `byteOffset` through the
      call as written asks the driver for `byteOffset` bytes at `dataSize`. */
  lemma AsWrittenSwapsSizeAndOffset(target: nat, dataSize: nat, byteOffset: nat)
    ensures SubDataCallAsWritten(target, dataSize, byteOffset) == SubDataCall(target, byteOffset, dataSize)
    ensures ReplacedRange(SubDataCallAsWritten(target, dataSize, byteOffset)) == (dataSize, dataSize + byteOffset)
  {
  }

  class BufferObject {
    const name: nat                           // `id`, the driver's name
    const trackerId: TrackerId
    const registration: RegistrationHandle
    const target: nat
    const bindable: Bindable

    /** `Bind::get_id` is the tracker id and `Bind::bind` binds this buffer's
        own name to its own target. */
    ghost predicate Valid()
    {
      bindable.trackerId == trackerId && bindable.bindCall == BindBuffer(target, name)
    }

    /** `BufferObject::new`: generate a driver name and keep the given fields. */
    constructor (trackerId: TrackerId, target: nat, registration: RegistrationHandle, gl: Driver)
      modifies gl
      ensures Valid() && fresh(bindable) && bindable.alive
      ensures this.trackerId == trackerId && this.target == target && this.registration == registration
      ensures name == old(gl.nextName) && gl.nextName == name + 1
      ensures gl.log == old(gl.log) + [GenBuffers(name)]
    {
      var id := gl.NewName();
      gl.Issue(GenBuffers(id));
      this.name := id;
      this.trackerId := trackerId;
      this.registration := registration;
      this.target := target;
      this.bindable := new Bindable(trackerId, BindBuffer(target, id));
    }

    /** `data`: replace the contents with `size_of::<D>() * data.len()` bytes. */
    method Data<D>(gl: Driver, elementSize: nat, data: seq<D>)
      modifies gl`log
      ensures gl.log == old(gl.log) + [BufferData(target, elementSize * |data|, STATIC_DRAW)]
    {
      gl.Issue(BufferData(target, elementSize * |data|, STATIC_DRAW));
    }

    /** `sub_data` as written, with the size and offset arguments swapped. */
    method SubDataAsWritten<D>(gl: Driver, elementSize: nat, data: seq<D>, byteOffset: nat)
      modifies gl`log
      ensures gl.log == old(gl.log) + [SubDataCallAsWritten(target, elementSize * |data|, byteOffset)]
    {
      var dataSize := elementSize * |data|;
      gl.Issue(BufferSubData(target, dataSize, byteOffset));
    }

    /** `sub_data`: replace `size_of::<D>() * data.len()` bytes at `byte_offset`. */
    method SubData<D>(gl: Driver, elementSize: nat, data: seq<D>, byteOffset: nat)
      modifies gl`log
      ensures gl.log == old(gl.log) + [SubDataCall(target, elementSize * |data|, byteOffset)]
      ensures var c := gl.log[|gl.log| - 1];
              c.target == target && ReplacedRange(c) == (byteOffset, byteOffset + elementSize * |data|)
    {
      var dataSize := elementSize * |data|;
      gl.Issue(BufferSubData(target, byteOffset, dataSize));
    }

    /** `Drop`: the last strong reference goes away; the driver name is deleted
        only while the context is alive. */
    method Drop(gl: Driver)
      modifies gl`log, bindable
      ensures !bindable.alive
      ensures gl.log == old(gl.log) + (if registration.ContextAlive() then [DeleteBuffers(name)] else [])
    {
      bindable.alive := false;
      if registration.ContextAlive() {
        gl.Issue(DeleteBuffers(name));
      }
    }

    /** `PartialEq`: buffers are equal when their driver names are. */
    predicate Equals(other: BufferObject)
    {
      name == other.name
    }

    /** `Bind::get_id`: the id the trackers see. */
    function GetId(): (r: TrackerId)
      ensures Valid() ==> bindable.View() == Binder(r, BindBuffer(target, name))
    {
      trackerId
    }

    /** `Bind::bind`. */
    method Bind(gl: Driver)
      requires Valid()
      modifies gl`log
      ensures gl.log == old(gl.log) + [BindBuffer(target, name)] && gl.log == old(gl.log) + [bindable.bindCall]
    {
      gl.Issue(BindBuffer(target, name));
    }
  }

  /** What trackers see of a buffer is its tracker id, not its driver name: two
      buffers always differ for a tracker when their tracker ids do, even if
      the driver reused a name. */
  lemma TrackersSeeTrackerIds(a: BufferObject, b: BufferObject)
    requires a.Valid() && b.Valid()
    ensures a.bindable.View().id == a.GetId() && b.bindable.View().id == b.GetId()
    ensures a.GetId() != b.GetId() ==> a.bindable.View() != b.bindable.View()
  {
  }

  /** `PartialEq` compares driver names, while the trackers compare tracker
      ids. Equal buffers on one target bind the same driver object; but
      whether a tracker that has just bound `a` skips binding `b` is decided
      by the tracker ids alone, so an equal buffer with another tracker id is
      bound again, and an unequal one with the same tracker id is skipped. */
  lemma EqualityIsNotTrackerIdentity(a: BufferObject, b: BufferObject)
    requires a.Valid() && b.Valid()
    ensures a.Equals(b) && a.target == b.target ==> a.bindable.bindCall == b.bindable.bindCall
    ensures SimpleBind(a.GetId(), b.bindable.View()).calls == [] <==> a.GetId() == b.GetId()
    ensures a.Equals(b) && a.GetId() != b.GetId() ==>
              SimpleBind(a.GetId(), b.bindable.View()).calls == [BindBuffer(b.target, a.name)]
    ensures !a.Equals(b) && a.GetId() == b.GetId() ==>
              SimpleBind(a.GetId(), b.bindable.View()).calls == [] && b.bindable.bindCall != a.bindable.bindCall
  {
  }

  /** `new_vertex_buffer`. */
  method NewVertexBuffer(trackerId: TrackerId, registration: RegistrationHandle, gl: Driver)
    returns (b: BufferObject)
    modifies gl
    ensures b.Valid() && fresh(b) && fresh(b.bindable) && b.bindable.alive
    ensures b.target == ARRAY_BUFFER && b.trackerId == trackerId && b.registration == registration
    ensures b.name == old(gl.nextName) && gl.log == old(gl.log) + [GenBuffers(b.name)]
  {
    b := new BufferObject(trackerId, ARRAY_BUFFER, registration, gl);
  }

  /** `new_index_buffer`. */
  method NewIndexBuffer(trackerId: TrackerId, registration: RegistrationHandle, gl: Driver)
    returns (b: BufferObject)
    modifies gl
    ensures b.Valid() && fresh(b) && fresh(b.bindable) && b.bindable.alive
    ensures b.target == ELEMENT_ARRAY_BUFFER && b.trackerId == trackerId && b.registration == registration
    ensures b.name == old(gl.nextName) && gl.log == old(gl.log) + [GenBuffers(b.name)]
  {
    b := new BufferObject(trackerId, ELEMENT_ARRAY_BUFFER, registration, gl);
  }
}
