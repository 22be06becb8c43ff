# Blender GPU uniform buffers, modelled in Dafny

This project models `source/blender/gpu/intern/gpu_uniformbuffer.cc`, which
holds the uniform buffer objects (UBOs) of Blender's GPU module. It has two
parts.

* **The dynamic UBO packer.** `gpu_uniformbuffer_inputs_sort` turns a
  material's list of typed shader inputs (float, vec2, vec3, vec4, mat4) into
  std140 order. It sorts by descending type and builds a lookup table of the
  first link of each type. It then walks the vec3 run. While floats last, it
  moves the next float right after every vec3 that is not already followed by
  one. Strictly, it moves whatever link follows the last float moved. A vec3
  that has a successor, and that successor is not a float, takes the room of
  a vec4
  (`get_padded_gpu_type`).
  `GPU_uniformbuffer_dynamic_create` adds up the padded widths, rounds the
  total up to whole vec4s and copies each input's components into one block
  at running offsets.
* **The buffer lifecycle.** A `GPUUniformBuffer` holds a size, a device
  buffer name (`bindcode`, 0 until allocated), the binding point it was last
  bound to, and an optional block that is uploaded at the next bind. The
  operations are create, lazy init, update, bind, unbind, unbind-all and free.

Files:

* `ubo_layout.dfy`, module `UboLayout`:
  - the input record and the numeric type values;
  - `inputs_cmp` and the sort contract;
  - the result of the padding pass in closed form (`PadWith`, `Padded`);
  - padded widths, offsets and the rounded buffer size.
* `ubo_layout_proofs.dfy`, module `UboLayoutProofs`: the properties of that
  layout, each proved for all inputs:
  - the result is a permutation of the input;
  - only floats move, and they keep their order;
  - the number of vec3s followed by a float;
  - the written regions are disjoint and fit in the buffer;
  - every entry is at its std140 alignment.
* `ubo_packer.dfy`, module `UboPacker`: the imperative code.
  - The `ListBase` is an `InputList` object whose item sequence `BLI_remlink`
    and `BLI_insertlinkafter` rewrite.
  - The lookup-table loop and the padding `while` loop are methods. Their
    invariants tie each step to the closed form.
  - The two loops of `GPU_uniformbuffer_dynamic_create` are proved: the size
    sum, and the copy into an `array` of 32-bit words.
* `ubo_lifecycle.dfy`, module `UboLifecycle`: a `Device` class and a
  `UniformBuffer` class.
  - `Device` stands for the graphics library. It has a buffer-name allocator
    that fails with 0 once `handleLimit` is passed, a map from live buffer
    names to their contents, and a table of `maxUboBinds` binding points.
    `GPU_max_ubo_size()` and `GPU_max_ubo_binds()` are its constants
    `maxUboSize` and `maxUboBinds`.
  - `UniformBuffer` has the four fields of the struct.

The code rather than the library's intentions decides the behaviour
modelled:

* `GPU_uniformbuffer_update` never clears the pending block; only
  `GPU_uniformbuffer_bind` does.
* `GPU_uniformbuffer_unbind` sets the binding point to 0, not to the -1 of a
  fresh buffer.
* Entries of type mat3 or above mat4 only lose their lookup-table slot. They
  stay in the list, keep their sorted place and still count toward the size.
* Which of the sorted orders `BLI_listbase_sort` leaves equal types in is
  left open. `InputList.Sort` promises only a rearrangement with
  non-increasing types. `InputsSort` and `DynamicCreate` name the sorted list
  they started from as a ghost result, and their contracts hold for every
  such list. `SortedLayoutAgree` proves that every sorted order gives the
  same type at every position, the same offsets and the same buffer size.

Float components are opaque 32-bit words (`bv32`), because the code only
copies them.

## Model

| member | source | states |
|---|---|---|
| UboLayout.InputsCmp | source/blender/gpu/intern/gpu_uniformbuffer.cc:102-108 | the comparison returns only 1 (first after second) or 0 |
| UboLayout.SortByKind | source/blender/gpu/intern/gpu_uniformbuffer.cc:120-121 | one reference sorted order: a permutation of the input (same multiset, same length) in which no entry must come after a later one, so types are non-increasing |
| UboLayout.PaddedWidth | source/blender/gpu/intern/gpu_uniformbuffer.cc:86-96 | a vec3 that has a successor, and that successor is not a float, takes a vec4's room; every other entry, a final vec3 or a vec3 followed by a float included, takes its own type value |
| UboLayout.Padded | source/blender/gpu/intern/gpu_uniformbuffer.cc:153-172 | no contract of its own: the closed form of the list the padding pass leaves, which UboPacker.PadVec3Run and UboPacker.InputsSort are proved to reach and which PadWithPermutes, PadMovesOnlyFloats, PadPairsVec3WithFloats and PaddedAligned are about |
| UboLayout.Offset | source/blender/gpu/intern/gpu_uniformbuffer.cc:203-207 | no contract of its own: the running float offset of the copy loop, the padded widths of the entries before; OffsetsDisjoint, LayoutFits, OffsetZero and ArrangedAligned are proved about it, and UboPacker.Serialize copies each entry to it |
| UboLayout.BufferSize | source/blender/gpu/intern/gpu_uniformbuffer.cc:191-199 | the buffer size is a multiple of 16 that is at least 4 × the sum of the padded widths and less than 16 more: the smallest such multiple |
| UboLayoutProofs.OffsetsDisjoint | source/blender/gpu/intern/gpu_uniformbuffer.cc:200-208 | for i < j, entry i's components end at or before the offset of entry j, so the regions written are pairwise disjoint |
| UboLayoutProofs.LayoutFits | source/blender/gpu/intern/gpu_uniformbuffer.cc:191-208 | every entry's region, from its offset over its type-many floats, lies within the buffer size |
| UboLayoutProofs.OffsetZero | source/blender/gpu/intern/gpu_uniformbuffer.cc:191-199 | the running offset of entry n is 0 exactly when every entry before it has a zero type value |
| UboLayoutProofs.BufferSizePositive | source/blender/gpu/intern/gpu_uniformbuffer.cc:185-199 | the buffer size is positive exactly when some entry has a non-zero type; together with BufferSize, a list of real inputs gets a positive multiple of 16 |
| UboLayoutProofs.PadWithPermutes | source/blender/gpu/intern/gpu_uniformbuffer.cc:163-169 | after any number of moves of the padding pass, the list is a permutation of the sorted list |
| UboLayoutProofs.InputsSortPermutes | source/blender/gpu/intern/gpu_uniformbuffer.cc:114-174 | for every input list and every sorted rearrangement of it the sort may leave, the padded list is a permutation of the input |
| UboLayoutProofs.SortedShape | source/blender/gpu/intern/gpu_uniformbuffer.cc:120-121 | a sorted list is the types above vec3, then the vec3s, then the vec2s, then the floats and lower types |
| UboLayoutProofs.PadMovesOnlyFloats | source/blender/gpu/intern/gpu_uniformbuffer.cc:153-172 | with types float and above only, the padding pass leaves the subsequence of non-floats unchanged and also the subsequence of floats, so only floats move and none moves past another |
| UboLayoutProofs.PadWithAt | source/blender/gpu/intern/gpu_uniformbuffer.cc:163-168 | after m moves entry by entry: the k-th vec3 is directly followed by the k-th entry of the tail for k < m, and everything else is shifted but in its old order |
| UboLayoutProofs.PadPairsVec3WithFloats | source/blender/gpu/intern/gpu_uniformbuffer.cc:153-172 | with types float and above only, exactly min(#vec3, #float) vec3 entries are directly followed by a float after the padding pass |
| UboLayoutProofs.ArrangedOffsets | source/blender/gpu/intern/gpu_uniformbuffer.cc:82-96 | in a list laid out as the pass leaves it, every entry of base alignment 4 starts at a multiple of 4 floats and every entry of base alignment 2 at a multiple of 2 |
| UboLayoutProofs.ArrangedAligned | source/blender/gpu/intern/gpu_uniformbuffer.cc:82-96 | in such a list every entry's offset is a multiple of its std140 base alignment |
| UboLayoutProofs.PadWithArranged | source/blender/gpu/intern/gpu_uniformbuffer.cc:153-172 | every intermediate state of the padding pass over a sorted list of supported types is laid out that way |
| UboLayoutProofs.PaddedAligned | source/blender/gpu/intern/gpu_uniformbuffer.cc:110-112 | after the padding pass over a sorted list of float, vec2, vec3, vec4 and mat4 entries, every mat4, vec4 and vec3 starts at a multiple of 4 floats, every vec2 at a multiple of 2 |
| UboLayoutProofs.InputsSortLayout | source/blender/gpu/intern/gpu_uniformbuffer.cc:110-174 | for supported types and every sorted order the sort may leave, the result of inputs_sort is a permutation of its input, every entry is at its base alignment, and min(#vec3, #float) vec3s are followed by a float |
| UboLayoutProofs.CountPermutes | source/blender/gpu/intern/gpu_uniformbuffer.cc:114-174 | rearranging a list keeps the number of entries of each type |
| UboLayoutProofs.PadMovesTypeless | source/blender/gpu/intern/gpu_uniformbuffer.cc:163-168 | the float slot steps to the next link whatever its type: [vec3, vec3, vec3, float, t0] with t0 of type 0 is padded into [vec3, float, vec3, t0, vec3], so the non-floats [vec3, vec3, vec3, t0] come out as [vec3, vec3, t0, vec3] and their order changes |
| UboLayoutProofs.SortedTypesAgree | source/blender/gpu/intern/gpu_uniformbuffer.cc:120-121 | two sorted rearrangements of the same entries hold the same type at every position |
| UboLayoutProofs.PaddedSame | source/blender/gpu/intern/gpu_uniformbuffer.cc:148-172 | the padding pass depends only on the types: lists with the same types at every position are padded into lists with the same types at every position |
| UboLayoutProofs.OffsetSame | source/blender/gpu/intern/gpu_uniformbuffer.cc:191-207 | lists with the same types at every position give every entry the same offset |
| UboLayoutProofs.SortedLayoutAgree | source/blender/gpu/intern/gpu_uniformbuffer.cc:114-199 | every sorted order BLI_listbase_sort may leave gives the same padded types, the same offsets and the same buffer size |
| UboLayoutProofs.SameWellFormed | source/blender/gpu/intern/gpu_uniformbuffer.cc:200-207 | rearranging a list whose entries each hold type-many components keeps that so |
| UboPacker.InputList.Sort | source/blender/gpu/intern/gpu_uniformbuffer.cc:121 | BLI_listbase_sort leaves some permutation of the list with non-increasing types, with no promise about the order of equal types |
| UboPacker.InputList.Remove | source/blender/gpu/intern/gpu_uniformbuffer.cc:167 | unlinking returns the node and leaves the list without it, the rest in order |
| UboPacker.InputList.InsertAfter | source/blender/gpu/intern/gpu_uniformbuffer.cc:168 | relinking puts the node right after the given link, the rest in order |
| UboPacker.BuildLookup | source/blender/gpu/intern/gpu_uniformbuffer.cc:123-146 | every filled slot names an entry of its type; a slot for a type up to mat4 other than mat3 is empty exactly when the list has no entry of that type; mat3's slot stays empty; in a sorted list a slot names the first entry of its type |
| UboPacker.MoveFloat | source/blender/gpu/intern/gpu_uniformbuffer.cc:155-168 | one move: the float the table names is unlinked and relinked right after the vec3, the table's float slot steps to that float's old successor, and the saved link_next still names the vec3's old successor |
| UboPacker.Visit | source/blender/gpu/intern/gpu_uniformbuffer.cc:154-171 | one loop round: if the vec3 is followed by nothing or by a float the loop stops at the final layout; otherwise the walk invariant holds one vec3 further on |
| UboPacker.PadVec3Run | source/blender/gpu/intern/gpu_uniformbuffer.cc:153-172 | the while loop over the vec3 run leaves the list in the closed-form padded layout |
| UboPacker.PadStart | source/blender/gpu/intern/gpu_uniformbuffer.cc:148-153 | in a sorted list the vec3 slot names the start of the vec3 run, the float slot the first float; with no vec3 the padded layout is the sorted list |
| UboPacker.InputsSort | source/blender/gpu/intern/gpu_uniformbuffer.cc:114-174 | gpu_uniformbuffer_inputs_sort leaves exactly the closed-form padded layout of the sorted rearrangement of the input that the sort produced |
| UboPacker.PackedSize | source/blender/gpu/intern/gpu_uniformbuffer.cc:189-199 | the size loop and the rounding produce the buffer size of the list |
| UboPacker.CopyComponents | source/blender/gpu/intern/gpu_uniformbuffer.cc:205-206 | memcpy writes the components at the offset and leaves every other word of the block alone |
| UboPacker.Serialize | source/blender/gpu/intern/gpu_uniformbuffer.cc:200-208 | the block is the buffer size long and holds each entry's components at that entry's offset |
| UboLifecycle.Device.Alloc | source/blender/gpu/intern/gpu_uniformbuffer.cc:220 | GPU_buf_alloc returns a new unused name with empty storage, or 0 with no change once names run out |
| UboLifecycle.Device.Reserve | source/blender/gpu/intern/gpu_uniformbuffer.cc:228-229 | glBufferData gives the bound buffer storage of the requested size |
| UboLifecycle.Device.Write | source/blender/gpu/intern/gpu_uniformbuffer.cc:238-239 | glBufferSubData at offset 0 overwrites the leading words of the buffer when they fit, and nothing otherwise |
| UboLifecycle.Device.BindBase | source/blender/gpu/intern/gpu_uniformbuffer.cc:259 | glBindBufferBase sets one binding point and no other |
| UboLifecycle.Device.Release | source/blender/gpu/intern/gpu_uniformbuffer.cc:78 | GPU_buf_free removes the buffer and its storage |
| UboLifecycle.UniformBuffer.constructor | source/blender/gpu/intern/gpu_uniformbuffer.cc:61-65 | a new buffer has the size, bindcode 0, bindpoint -1 and no pending data |
| UboLifecycle.UniformBuffer.Init | source/blender/gpu/intern/gpu_uniformbuffer.cc:217-230 | on a buffer with bindcode 0: on success bindcode is the new name with storage of size bytes and the next name is one higher; on a failed allocation bindcode stays 0 and the device is unchanged; the other fields are unchanged |
| UboLifecycle.UniformBuffer.Update | source/blender/gpu/intern/gpu_uniformbuffer.cc:232-241 | allocates only when bindcode is 0, and only then takes the next name; then all size bytes of the device buffer become the first size bytes of the data; a failed allocation leaves bindcode 0 and the device unchanged; the pending data and the binding point never change |
| UboLifecycle.UniformBuffer.Bind | source/blender/gpu/intern/gpu_uniformbuffer.cc:243-261 | a number at or past the device's binding points changes nothing; otherwise the buffer is allocated if needed (taking the next name only then), pending data is uploaded as its whole contents and dropped, the binding point holds bindcode and no other changes, and bindpoint is the number |
| UboLifecycle.UniformBuffer.Unbind | source/blender/gpu/intern/gpu_uniformbuffer.cc:263-269 | bindpoint becomes 0 and nothing else changes |
| UboLifecycle.UniformBuffer.Free | source/blender/gpu/intern/gpu_uniformbuffer.cc:75-80 | the pending data is dropped and exactly the buffer's device storage is released |
| UboLifecycle.Create | source/blender/gpu/intern/gpu_uniformbuffer.cc:49-73 | a size over the device maximum gives no buffer, the error text and no device change; otherwise a new buffer of that size with bindpoint -1 and no pending data; without data bindcode is 0 and the device untouched; with data one update has run (a new buffer holding the data under the next name, or bindcode 0 and no change when allocation fails) |
| UboLifecycle.UnbindAll | source/blender/gpu/intern/gpu_uniformbuffer.cc:271-276 | every binding point in [0, maxUboBinds) is emptied |
| UboLifecycle.DynamicCreate | source/blender/gpu/intern/gpu_uniformbuffer.cc:182-215 | an empty list gives no buffer and no change; otherwise the list is left as the padded layout of the sorted order the sort produced, the new buffer has its buffer size (the same for every sorted order), no device buffer yet, bindpoint -1, and a pending block that packs every input at its offset |

## Left out

- The OpenGL calls and `GPU_buf_alloc` / `GPU_buf_free` are foreign code. They are modelled by `Device`'s abstract state. GL binding targets, usage hints and the `glBindBuffer(GL_UNIFORM_BUFFER, 0)` resets are not modelled.
- `MEM_mallocN` / `MEM_freeN` / `MEM_SAFE_FREE` are host allocation. Ownership of the pending block is the `data` field's `Option`. Freeing the struct itself in `GPU_uniformbuffer_free` is not modelled (Dafny objects are not deallocated).
- `err_out` copying, `fprintf` and `BLI_assert` are diagnostics. `Create` returns the error text as a value. The assert that the size is a multiple of 16 is a precondition of `Create`.
- UboLifecycle.UniformBuffer.Init: a failed allocation continues as a release build does: bindcode stays 0, and there is no debug abort.
- UboLifecycle.UniformBuffer.Unbind: the debug-only `glBindBufferBase(..., bindpoint, 0)` is left out. It can run with bindpoint -1.
- UboLifecycle.UniformBuffer.Bind: a negative number is recorded as the binding point but changes no device binding point. In GL it is an invalid index.
- UboLifecycle.Device.Reserve: storage that `glBufferData` leaves undefined is modelled as zeros.
- UboLifecycle.Device.Alloc: buffer names are never reused after `GPU_buf_free`, and deferred deletion is not modelled. A failed allocation is permanent. So when `gpu_uniformbuffer_init` fails in `GPU_uniformbuffer_bind`, the second `GPU_buf_alloc` made through `GPU_uniformbuffer_update` fails too.
- UboLifecycle.DynamicCreate: requires the buffer size to be within the device maximum. For an oversized buffer the source dereferences the NULL that `GPU_uniformbuffer_create` returns and leaks the block; that path is not modelled.
- UboLifecycle.DynamicCreate: requires every input to hold type-many components, which `memcpy` of `type * sizeof(float)` bytes from `input->vec` assumes.
- UboLifecycle.UniformBuffer.Update: requires the data to hold at least size bytes, which `glBufferSubData` reads.
- Integer widths: `int size`, `size_t buffer_size` and the running float offset are unbounded integers. Their overflow and negative sizes are not modelled.
- The `eGPUType` definition is not part of this model. The values FLOAT=1, VEC2=2, VEC3=3, VEC4=4, MAT3=9 and MAT4=16 are assumed, because the code uses each value as its float count.
- UboLayoutProofs.PadMovesOnlyFloats excludes entries of type 0 (GPU_NONE) because its claim fails for them. Line 165 steps the float slot to the next link whatever its type, so with more vec3s than floats the pass moves a typeless entry and the non-floats change order (UboLayoutProofs.PadMovesTypeless).
- UboLayoutProofs.PadPairsVec3WithFloats is stated only for types float and above, the types the packer supports. The pair count is not shown to fail with type-0 entries; the proof simply does not cover them. The alignment results are stated for the five laid-out types. The asserts at lines 130-138 reject mat3 and types above mat4. Other types are still sorted, counted and copied.
- BLI_listbase_sort's algorithm is not shown. The exact block `DynamicCreate` packs depends on the order it leaves equal types in. The model leaves that order open, as the ghost result `sorted`. Idempotence of packing needs a stable sort, so it is not claimed.
- Concurrency and graphics-context ownership: the file has none.
