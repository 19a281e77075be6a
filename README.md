# htgl core, modelled in Dafny

htgl is a thin Rust wrapper over OpenGL. Its core is a set of client-side
binding trackers. They remember which buffer, vertex array or program is
currently bound, so that a redundant driver bind can be skipped. Around them
sit:

- the resources (buffers, vertex arrays, programs), whose destructors delete
  the driver object only while the owning context is alive;
- the editors, which are handed out only after the context has bound their
  target for editing;
- a vertex layout builder that computes offsets and strides;
- program introspection: uniform setters guarded by a slice-length validator,
  reflected uniforms partitioned into globals and interface-block members,
  name lookups, and GL type tags decoded into enums.

The driver is modelled as a fake: class `Gl.Driver` keeps the log of every
call issued (`seq<Call>`) and hands out fresh object names. Each property of
a state-changing operation is stated as the exact calls it appends to that
log. What the driver reports (counts, names, type tags, block indices, link
status, locations) is passed in as data, either plain values or functions
from an index or a name to the reported value. A panic in the source
(`fail!`, an out-of-range index, `slice_to_or_fail`, an overflowing `u32`
counter) becomes a `Result` or `Outcome` with a `Panic` reason.

Module layout, one file each:

- `Wrappers`: `Option`, `Result`, `Outcome`, `Panic`.
- `Gl`: GL constants, `u32`/`i32` casts, the call log, the fake driver.
- `Lookups`: first-match name search, shared by all lookups.
- `Trackers`: binders, the pure tracker state machine (`Apply`/`Run`), the
  tracker classes and the id generator.
- `Contexts`: the shared liveness cell, registration handles, and a
  `Context` holding one render tracker per resource kind.
- `Buffers`: `BufferObject`, the vertex and index buffer constructors.
- `VertexArrays`: attribute types, layout arithmetic, vertex arrays.
- `Uniforms`: validators, setters, uniform type tags, reflection, partition.
- `Attributes`: attribute type tags, attribute reflection and lookup.
- `Programs`: attach-then-link programs, link status, the program editor.
- `Editors`: the vertex-buffer and index-buffer editors.
- `LegacyPrograms`: the older program module (`src/program.rs`): fatal link
  status and the active-uniform listing.

The older copies of the validators and setters, in `src/program.rs` and
`src/editor.rs`, do the same as those in `src/program/uniform.rs`. They are
modelled once, and the table below cites each copy against the same member.
The editors in `src/editor.rs` and `src/buffer/indexbuffer.rs` are modelled
once in the same way. Their partial uploads go through the corrected
`sub_data` (see "## Findings"), so they issue `BufferSubData` with offset and
size in their documented places, where the source's editors reach the
as-written call with the two exchanged; "## Left out" names each of them.
Name projections over the reflected records share one `Lookups.NamesOf`.

The source behaves differently from a plain reading of its design in a few
places. Apart from the swapped `sub_data` arguments, which the model records
as a finding and then corrects, the model follows the code:

- In `src/vertexarray.rs` (an older snapshot), `Bind::get_id` returns the
  driver name, not a tracker id. The model uses `TrackerId(name)` there.
- In `src/vertexarray.rs`, the destructor reads an `is_alive` flag of a
  shared-state type that is not among the files. The model reads the same
  cell as the registration handles.
- The older `get_link_status` accepts every value other than FALSE. The newer
  one accepts only TRUE.
- A failing link in the older `Program::new` panics inside the constructor.
  Unwinding then drops the half-built program, and its destructor deletes the
  program while the context is alive. `NewLegacyProgram` states that trace.

## Model

| member | source | states |
|---|---|---|
| Gl.AsU32 | src/program.rs:52 | `x as u32` on an `i32`: the value itself when non-negative, otherwise the value plus 2^32, always below 2^32 |
| Gl.AsI32 | src/program/uniform.rs:358 | `n as i32` on an unsigned size: the unique value in the `i32` range congruent to n modulo 2^32, equal to n below 2^31 |
| Trackers.SimpleBindingTracker.constructor | src/tracker.rs:14-16 | a fresh tracker has `currently_bound` = id 0 |
| Trackers.SimpleBindingTracker.Bind | src/tracker.rs:18-24 | the resource's bind call is issued exactly when its id differs from `currently_bound`; afterwards `currently_bound` is its id |
| Trackers.BindTwiceIssuesOnce | src/tracker.rs:18-24 | two consecutive binds of one resource issue one driver bind, or none if it was already bound |
| Trackers.SwitchingBackRebinds | src/tracker.rs:18-24 | with distinct ids, bind(A); bind(B); bind(A) issues B's and A's binds again, ending with A bound |
| Trackers.RenderBindingTracker.constructor | src/tracker.rs:33-35 | a fresh render tracker has nothing bound and no rendering target |
| Trackers.RenderBindingTracker.BindForEditing | src/tracker.rs:37-39 | binds like the simple tracker and leaves the rendering target untouched |
| Trackers.EditKeepsRenderTarget | src/tracker.rs:37-39 | an edit's effect is exactly the simple bind, with the rendering target unchanged |
| Trackers.RenderBindingTracker.BindForRendering | src/tracker.rs:41-44 | binds like the simple tracker and remembers the resource as the rendering target |
| Trackers.RenderBindingTracker.RestoreRenderingState | src/tracker.rs:46-55 | no target: no effect; dead target: forgotten without a bind; live target: bound again through the simple tracker |
| Trackers.RestoreCases | src/tracker.rs:46-55 | the three restore cases, and a live target's bind is issued only if it is not already current |
| Trackers.RestoreUndoesEditing | src/tracker.rs:37-55 | render(A); edit(B); restore binds B, then A once, and leaves A current and remembered |
| Trackers.RestoreOfDeadTargetForgetsIt | src/tracker.rs:46-55 | restoring a dead target issues nothing and clears the target |
| Trackers.RunKeepsDriverInSync | src/tracker.rs:18-55 | over any run of a render tracker, the tracker's calls are empty iff nothing is bound, and otherwise the last call is the bind of a resource with the current id |
| Trackers.DriverBindsTheTrackedResource | src/tracker.rs:18-55 | any resource of the run that carries the current id was the last one the tracker bound on the driver |
| Trackers.Bindable.Bind | src/tracker.rs:4-7 | `Bind::bind` issues exactly the resource's own bind call |
| Trackers.TrackerIdGenerator.constructor | src/tracker.rs:73-75 | the counter starts at 0 and no id has been issued |
| Trackers.TrackerIdGenerator.NewId | src/tracker.rs:77-80 | returns counter + 1 and stores it; at the `u32` limit it fails with an overflow and changes nothing |
| Trackers.IssuedIdsAreDistinct | src/tracker.rs:58-80 | issued ids are strictly increasing and never 0, so distinct resources get distinct ids |
| Contexts.SharedContextState.constructor | src/context.rs:10-14 | a new cell says the context is alive |
| Contexts.RegistrationHandle.constructor | src/context.rs:22-24 | the handle holds the given cell itself |
| Contexts.HandlesOfOneCellAgree | src/context.rs:18-28 | two handles on the same cell report the same liveness |
| Contexts.RegistrationHandle.ContextAlive | src/context.rs:26-28 | reads the liveness flag of the shared cell; its properties are the two lemma rows around it |
| Contexts.Context.Destroy | src/context.rs:26-28 | once the cell is cleared, every handle on it reports the context dead |
| Contexts.Context.BindVboForEditing | src/tracker.rs:37-39 | the vertex-buffer tracker's bind for editing |
| Contexts.Context.BindVaoForEditing | src/tracker.rs:37-39 | the vertex-array tracker's bind for editing |
| Contexts.Context.BindProgramForEditing | src/tracker.rs:37-39 | the program tracker's bind for editing |
| Buffers.BufferObject.constructor | src/buffer/mod.rs:25-32 | stores the given tracker id, target and registration, and the name from one `GenBuffers` |
| Buffers.BufferObject.Data | src/buffer/mod.rs:34-40 | one `BufferData` of element size × length bytes on the buffer's own target, `STATIC_DRAW` |
| Buffers.BufferObject.SubDataAsWritten | src/buffer/mod.rs:42-48 | the call as written: size passed as the offset and the offset as the size |
| Buffers.SubDataAsWrittenMissesTheRange | src/buffer/mod.rs:42-48 | writing 12 bytes at offset 0 as written replaces bytes 12 to 12 instead of 0 to 12 |
| Buffers.BufferObject.SubData | src/buffer/mod.rs:42-48 | one `BufferSubData` of element size × length bytes at the given offset, on the buffer's own target |
| Buffers.SubDataReplacesRequestedRange | src/buffer/mod.rs:42-48 | the corrected call replaces exactly [offset, offset + size) |
| Buffers.AsWrittenSwapsSizeAndOffset | src/buffer/mod.rs:42-48 | the as-written call is the corrected call with size and offset exchanged, so it replaces [size, size + offset) |
| Buffers.BufferObject.Drop | src/buffer/mod.rs:53-60 | `DeleteBuffers` is issued iff the registration reports the context alive, and nothing otherwise |
| Buffers.EqualityIsNotTrackerIdentity | src/buffer/mod.rs:63-67 | `==` compares driver names while trackers compare tracker ids: equal buffers on one target bind alike, a second buffer is bound again iff its tracker id differs from the first's, and an equal buffer with another tracker id is still rebound, while a different buffer with the same tracker id is skipped although its bind call differs |
| Buffers.BufferObject.Equals | src/buffer/mod.rs:63-67 | equal iff the driver names are equal; its relation to the trackers is the lemma above |
| Buffers.BufferObject.GetId | src/buffer/mod.rs:74-76 | for a well-formed buffer, the trackers see exactly this id paired with the bind of this buffer's own target and name |
| Buffers.BufferObject.Bind | src/buffer/mod.rs:70-72 | binds the buffer's own target with its own name |
| Buffers.TrackersSeeTrackerIds | src/buffer/mod.rs:74-76 | trackers see a buffer by its tracker id, not its driver name |
| Buffers.NewVertexBuffer | src/buffer/vertexbuffer.rs:12-14 | a buffer on `ARRAY_BUFFER` with the given tracker id and registration |
| Buffers.NewIndexBuffer | src/buffer/indexbuffer.rs:13-15 | a buffer on `ELEMENT_ARRAY_BUFFER` with the given tracker id and registration |
| VertexArrays.AttributeToSize | src/vertexarray.rs:167-181 | every attribute type is 1, 2, 4 or 8 bytes |
| VertexArrays.AttributeToGlType | src/vertexarray.rs:151-165 | the GL type constant of each attribute type; its properties are `SizeTableMatchesGlTypes` |
| VertexArrays.SizeTableMatchesGlTypes | src/vertexarray.rs:151-181 | each type's byte size is the size of the GL type it maps to, and distinct types map to distinct GL types |
| VertexArrays.SingleVboLayout | src/vertexarray.rs:77-97 | one attribute per field in order, index i, the field's size, type and flag, offset = sum of the earlier fields' bytes, stride = the whole record, the shared buffer |
| VertexArrays.OffsetsNondecreasing | src/vertexarray.rs:79-93 | offsets never decrease along the field list |
| VertexArrays.FieldFitsInRecord | src/vertexarray.rs:79-97 | each field ends where the next begins and within the stride |
| VertexArrays.FieldsDoNotOverlap | src/vertexarray.rs:79-97 | an earlier field ends at or before any later field's offset |
| VertexArrays.SingleFieldLayout | src/vertexarray.rs:79-97 | a single field has offset 0 and a stride equal to its own size |
| VertexArrays.LayoutExamples | src/vertexarray.rs:79-97 | [(3, float), (4, unsigned byte)] gives offsets 0 and 12 and stride 16; [(2, short)] gives stride 4 |
| VertexArrays.SetVertexAttribute | src/vertexarray.rs:101-118 | binds the attribute's buffer for editing, then enables the index and describes the attribute with its GL type |
| VertexArrays.SetupAll | src/vertexarray.rs:62-64 | the attributes are set up one after another in list order |
| VertexArrays.SingleBufferSetupBindsOnce | src/vertexarray.rs:62-64 | when all attributes share one buffer, setting them up binds it at most once |
| VertexArrays.VertexArray.constructor | src/vertexarray.rs:46-70 | GenVertexArrays, the array's bind for editing, each attribute's setup in order, then the index buffer's bind only if present |
| VertexArrays.NewSingleVbo | src/vertexarray.rs:72-99 | builds a vertex array whose attributes are the single-buffer layout of the fields |
| VertexArrays.VertexArray.Drop | src/vertexarray.rs:126-139 | `DeleteVertexArrays` only while the context is alive |
| Uniforms.ValidateUniform | src/program/uniform.rs:463-469 | passes iff count × element count ≤ slice length; otherwise panics carrying the three numbers (the source's message also prints the uniform type, which the `Panic` reason leaves out); the older copies at src/program.rs:270-276 and src/editor.rs:246-252 are the same |
| Uniforms.PassedSliceHoldsEveryValue | src/program/uniform.rs:463-469 | after a pass, value j of element k lies inside the slice |
| Uniforms.FloatElementCount | src/program/uniform.rs:418-426 | 1 to 4 components |
| Uniforms.IntElementCount | src/program/uniform.rs:453-461 | 1 to 4 components |
| Uniforms.UintElementCount | src/program/uniform.rs:443-451 | 1 to 4 components |
| Uniforms.MatrixElementCount | src/program/uniform.rs:428-441 | rows × columns, one of 4, 6, 8, 9, 12, 16; the older tables at src/program.rs:225-268 and src/editor.rs:201-244 are the same |
| Uniforms.TablesMatchEntryPoints | src/program/uniform.rs:356-461 | each setter's entry point takes as many components as the validator's table counts |
| Uniforms.UniformF32 | src/program/uniform.rs:356-368 | validation first; on failure no driver call; on success exactly one vector call with the count as `i32`; the older setters at src/program.rs:162-222 and src/editor.rs:138-198 do the same |
| Uniforms.UniformMatrixF32 | src/program/uniform.rs:370-388 | validation first; on success one matrix call with TRUE/FALSE for transpose |
| Uniforms.UniformU32 | src/program/uniform.rs:390-402 | validation first; on failure no driver call |
| Uniforms.UniformI32 | src/program/uniform.rs:404-416 | validation first; on failure no driver call |
| Uniforms.UniformTagRoundTrip | src/program/uniform.rs:471-535 | every uniform type decodes from its own tag |
| Uniforms.UniformTypeFromU32 | src/program/uniform.rs:471-535 | decodes the 61 listed tags and gives `None` for every other value; its properties are the four tag lemmas |
| Uniforms.UniformTagUnknown | src/program/uniform.rs:471-535 | a tag decodes to `None` iff no type has that tag |
| Uniforms.UnlistedTagIsNone | src/program/uniform.rs:471-535 | a tag different from all 61 listed constants gives `None` |
| Uniforms.UniformTagDecodes | src/program/uniform.rs:471-535 | a tag that decodes is the decoded type's tag |
| Uniforms.NameFromBuffer | src/program/uniform.rs:325-345 | the name is the buffer without its final byte |
| Uniforms.NameRoundTrip | src/program/uniform.rs:325-345 | a name followed by NUL comes back unchanged |
| Uniforms.InterfaceBlock.GetUniform | src/program/uniform.rs:203-210 | the first member with that name, or `None` |
| Uniforms.UniformInfo.GetGlobalUniform | src/program/uniform.rs:147-154 | the first global with that name, or `None` |
| Uniforms.UniformInfo.GetBlock | src/program/uniform.rs:156-163 | the first block with that name, or `None` |
| Uniforms.UniformInfo.GetBlockUniform | src/program/uniform.rs:165-170 | `None` without such a block, otherwise that block's lookup |
| Uniforms.PartitionUniforms | src/program/uniform.rs:240-249 | negative block index goes to globals located by name, else appended to that block in order; fails at the first index past the blocks |
| Uniforms.GlobalsAreTheUnblockedUniforms | src/program/uniform.rs:240-244 | a uniform is among the globals iff it is built from an input uniform with a negative block index, and then it is located by its own name |
| Uniforms.MembersAreTheBlocksUniforms | src/program/uniform.rs:245-248 | a uniform is a member of block b iff it is built from an input uniform whose block index is b, and it keeps that uniform's name, size, offset and strides |
| Uniforms.NoUniformLost | src/program/uniform.rs:240-249 | globals plus block members together number all the uniforms |
| Uniforms.PartitionExample | src/program/uniform.rs:240-249 | five uniforms over two blocks: globals a and d, block 0 gets b then e, block 1 gets c |
| Uniforms.SetProperty | src/program/uniform.rs:272-283 | a fill pass sets one property and leaves the others unchanged |
| Uniforms.FromReport | src/program/uniform.rs:256-285 | a reflected uniform carries its trimmed name and every reported property |
| Uniforms.FillInfo | src/program/uniform.rs:272-277 | one pass writes one property into every uniform, pairwise by index |
| Uniforms.MakeGlUniformInfoVec | src/program/uniform.rs:256-286 | one uniform per active index, entry i built from index i's report; none for count 0 |
| Uniforms.MakeUniformBlockInfoVec | src/program/uniform.rs:288-307 | one block per active block index, in order; none for count 0 |
| Uniforms.BlockNameRoundTrip | src/program/uniform.rs:293-304 | a block reported with a NUL-terminated name gets back exactly that name, the index looked up by it, its data size and no members yet |
| Uniforms.MakeUniformInfo | src/program/uniform.rs:236-254 | the partition of the reflected uniforms over the reflected blocks |
| Attributes.AttributeTagRoundTrip | src/program/attribute.rs:80-105 | every attribute type decodes from its own tag |
| Attributes.AttributeTypeFromU32 | src/program/attribute.rs:80-105 | decodes the 21 listed tags and gives `None` for every other value; its properties are the four tag lemmas |
| Attributes.AttributeTagUnknown | src/program/attribute.rs:80-105 | a tag decodes to `None` iff no type has that tag |
| Attributes.UnlistedTagIsNone | src/program/attribute.rs:80-105 | a tag different from the 21 listed constants gives `None` |
| Attributes.AttributeTagDecodes | src/program/attribute.rs:80-105 | a tag that decodes is the decoded type's tag |
| Attributes.ShaderAttributeInfo.GetAttribute | src/program/attribute.rs:38-45 | the first attribute with that name, or `None` |
| Attributes.Overwrite | src/program/attribute.rs:59-66 | the driver's write changes the buffer's first bytes and keeps its length |
| Attributes.NameComesFromThisCall | src/program/attribute.rs:59-68 | the name read for index i is a prefix of what the driver wrote for index i, even though the buffer is reused |
| Attributes.MakeAttributeInfoVec | src/program/attribute.rs:56-78 | one attribute per active index, entry i from index i's report and located by its own name; fails at the first length past the buffer |
| Programs.Program.constructor | src/program/mod.rs:27-38 | CreateProgram, then the stored copy of the shader list linked |
| Programs.Program.Link | src/program/mod.rs:76-87 | attaches every stored shader in list order, then one link |
| Programs.AttachCallsInOrder | src/program/mod.rs:77-82 | attach call i attaches shader i, one per shader |
| Programs.LinkTraceShape | src/program/mod.rs:76-87 | only attaches of this program precede the single final link |
| Programs.Program.Drop | src/program/mod.rs:120-128 | `DeleteProgram` only while the context is alive; the older destructor at src/program.rs:124-130 is the same |
| Programs.Program.Bind | src/program/mod.rs:133-136 | makes this program current |
| Programs.TrackersSeeProgramIds | src/program/mod.rs:138-140 | trackers see a program by its stored tracker id |
| Programs.Program.GetId | src/program/mod.rs:138-140 | for a well-formed program, the trackers see exactly this id paired with the `UseProgram` of this program's name |
| Programs.ProgramEditor.UniformF32 | src/program/mod.rs:193-195 | forwards unchanged to the float setter |
| Programs.ProgramEditor.UniformMatrix | src/program/mod.rs:197-199 | forwards unchanged to the matrix setter |
| Programs.ProgramEditor.UniformU32 | src/program/mod.rs:201-203 | forwards unchanged to the unsigned setter |
| Programs.ProgramEditor.UniformI32 | src/program/mod.rs:205-207 | forwards unchanged to the signed setter |
| Programs.NewProgramEditor | src/program/mod.rs:214-217 | binds the program for editing before the editor exists; the older entry points at src/program.rs:278-281 and src/editor.rs:254-257 do the same |
| LegacyPrograms.LinkStatusVersionsCompared | src/program.rs:103-111 | the older check accepts whatever the newer one (src/program/mod.rs:103-106) accepts and fails only on FALSE; on FALSE and TRUE the two agree exactly; status 2 is accepted by the older and rejected by the newer |
| LegacyPrograms.NewLegacyProgram | src/program.rs:23-34 | create, attach, link, check; a failed link aborts and the unwound program is deleted while the context is alive |
| LegacyPrograms.GetActiveUniforms | src/program.rs:50-77 | the count read as `u32`; zero gives an empty list; one (location, name) pair per index whose length is not 0 |
| LegacyPrograms.ListedNameIsWhatTheDriverWrote | src/program.rs:57-70 | a listed name is what the driver wrote padded with NULs, cut to the reported length clamped to the buffer; a length inside the buffer and the written text gives exactly the written prefix |
| LegacyPrograms.ListedAndUnnamedCoverAll | src/program.rs:57-75 | listed entries plus skipped indices number the count |
| LegacyPrograms.NothingSkippedWhenAllNamed | src/program.rs:57-75 | with no zero lengths, entry i is index i's |
| LegacyPrograms.EverythingSkippedWhenUnnamed | src/program.rs:67-69 | with only zero lengths, nothing is listed |
| LegacyPrograms.ListedEntriesAreNamed | src/program.rs:57-75 | each entry comes from an index with a nonzero length and carries the location of its own name |
| Editors.VertexBufferEditor.Data | src/buffer/vertexbuffer.rs:28-30 | forwards the slice unchanged to the vertex buffer |
| Editors.VertexBufferEditor.SubData | src/editor.rs:18-24 | forwards slice and offset to the corrected buffer upload |
| Editors.NewVertexBufferEditor | src/editor.rs:27-30 | binds the vertex buffer for editing before the editor exists |
| Editors.IndexBufferEditor.Data | src/buffer/indexbuffer.rs:53-57 | a no-op when the vertex array has no index buffer, otherwise the same slice to it; the older editor at src/editor.rs:64-68 is the same |
| Editors.IndexBufferEditor.SubData | src/buffer/indexbuffer.rs:59-63 | a no-op without an index buffer, otherwise the slice and offset to the corrected buffer upload; the older editor at src/editor.rs:70-74 is the same |
| Editors.IndexBufferEditor.DataU8 | src/buffer/indexbuffer.rs:29-31 | 1 byte per index |
| Editors.IndexBufferEditor.DataU16 | src/buffer/indexbuffer.rs:33-35 | 2 bytes per index |
| Editors.IndexBufferEditor.DataU32 | src/buffer/indexbuffer.rs:37-39 | 4 bytes per index |
| Editors.IndexBufferEditor.SubDataU8 | src/buffer/indexbuffer.rs:41-43 | 1 byte per index at the given offset, through the corrected buffer upload |
| Editors.IndexBufferEditor.SubDataU16 | src/buffer/indexbuffer.rs:45-47 | 2 bytes per index at the given offset, through the corrected buffer upload |
| Editors.IndexBufferEditor.SubDataU32 | src/buffer/indexbuffer.rs:49-51 | 4 bytes per index at the given offset, through the corrected buffer upload |
| Editors.NewIndexBufferEditor | src/buffer/indexbuffer.rs:17-20 | binds the vertex array for editing before the editor exists; the older entry point at src/editor.rs:77-80 is the same |
| Editors.IndexUploadReachesTheIndexBuffer | src/buffer/indexbuffer.rs:13-63 | a full or partial upload through a vertex array with an index buffer is one call on `ELEMENT_ARRAY_BUFFER`, a partial one replacing exactly [offset, offset + size); without an index buffer no call is made |

## Left out

- Driver semantics: buffer contents, compilation, linking and drawing are not modelled. Each driver call is an entry in the log, and each driver answer is an input.
- `gl::GetError` checks (`check_error!`) are not modelled; the model assumes every call succeeds.
- Payloads are not modelled, only byte sizes. `size_of::<D>()` is the `elementSize` parameter.
- UTF-8 and `CString` conversion and their `unwrap`s are left out. Names are `string`, and a name buffer is a sequence of characters.
- Uniforms.MakeGlUniformInfoVec: the name buffer's length (`UNIFORM_NAME_LENGTH`) is not linked to the report. Each report carries its final buffer.
- Uniforms.MakeUniformBlockInfoVec: the same holds for `UNIFORM_BLOCK_NAME_LENGTH`.
- Uniforms.MakeGlUniformInfoVec: counts read as `i32` and cast to `usize` are taken as `nat`. A negative count, which would request a huge allocation, is not modelled.
- Uniforms.MakeUniformBlockInfoVec: the same holds for `ACTIVE_UNIFORM_BLOCKS`, read as `i32` and cast to `usize` and `u32`.
- Attributes.MakeAttributeInfoVec: the same holds for `ACTIVE_ATTRIBUTES` and `ACTIVE_ATTRIBUTE_MAX_LENGTH`.
- LegacyPrograms.GetActiveUniforms: the maximum length is a `nat`. A location is looked up on the truncated name, whereas the driver reads the C string behind the pointer.
- Uniforms.ValidateUniform: the `usize` product `count * element_count` is unbounded here, so an overflowing product is not modelled.
- VertexArrays.SingleVboLayout: offsets and strides are unbounded. The `u32` running sum and the `u8` component count are not wrapped.
- Trackers.TrackerIdGenerator.NewId: overflow is modelled as an abort, as in a debug build. A release build would wrap to 0, which is not modelled.
- VertexArrays.VertexArray.Drop: `unregister_vertex_array` belongs to a shared-state type that is not part of this model, so it is omitted.
- The `index_buffer()` accessor is not in the files. The model reads the vertex array's index buffer field directly.
- `Context`'s own definition and destructor are not part of this model. `Contexts.Context` holds one tracker per resource kind, and `Destroy` clears the liveness cell.
- `src/shader.rs` is left out beyond the shader's driver name. Its gated destructor follows the pattern of `BufferObject::drop`.
- `get_uniform_location`, `get_uniform_block_index`, `get_attribute_location`, `get_frag_data_location` and `get_frag_data_index` are single driver queries. They appear only as input functions.
- `ProgramInfoAccessor` is left out: it forwards to queries, to `make_uniform_info` and to `make_attribute_info_vec`, which are modelled.
- `get_info_log` and its printing on a failed link are left out (I/O).
- `src/renderer.rs`, `src/draw.rs`, `src/options.rs`, `src/info.rs`, `src/util.rs`, `src/handle.rs`, `src/lib.rs` and `src/bin/app.rs` are left out. They are dispatch, queries, module wiring or the window loop.
- `src/buffer.rs` is left out: it is a superseded snapshot.
- Editors.VertexBufferEditor.SubData: issues the corrected `SubDataCall`. The source's editor reaches the as-written call, which by `Buffers.AsWrittenSwapsSizeAndOffset` has size and offset exchanged.
- Editors.IndexBufferEditor.SubData: issues the corrected `SubDataCall`. The source's editor reaches the as-written call, with size and offset exchanged.
- Editors.IndexBufferEditor.SubDataU8: the same, for 1-byte indices.
- Editors.IndexBufferEditor.SubDataU16: the same, for 2-byte indices.
- Editors.IndexBufferEditor.SubDataU32: the same, for 4-byte indices.
- Rust's borrow-checker exclusivity of editors is left out: it is a compile-time guarantee.
- Strong and weak `Rc` references are modelled by object references plus an `alive` flag on each resource's `Bindable`.

## Findings

| source | as written | input that shows it | evidently intended | confidence | as-written member | corrected member |
|---|---|---|---|---|---|---|
| src/buffer/mod.rs:45 | `gl::BufferSubData(target, data_size, byte_offset, ptr)` passes the size where the offset goes and the offset where the size goes | 12 bytes at offset 0: the driver is asked to replace 0 bytes at offset 12 | `BufferSubData(target, byte_offset, data_size, ptr)`, which replaces [offset, offset + size) | not executed | Buffers.SubDataAsWrittenMissesTheRange | Buffers.SubDataReplacesRequestedRange |
