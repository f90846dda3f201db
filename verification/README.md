# egui wgpu backend: the `RenderPass` resource lifecycle

This project models the `RenderPass` of the egui wgpu backend in Dafny. The
backend draws the GUI toolkit's paint jobs (triangle batches plus one font
atlas texture) with wgpu. The model is a state machine over an immutable
record. The record holds:

- the render pipeline's vertex-input description;
- the opaque common bind group;
- the optional texture bind group, with the atlas extent and copy layout;
- the index-buffer list, each buffer holding the little-endian bytes of a
  batch's `u32` indices and its byte size;
- the vertex-buffer list, each buffer holding the converted `Vertex` records
  and its byte size.

`New`, `UploadTexture` and `UploadBuffers` are pure transitions. `Encode`
returns the colour attachment's load/store operations and the trace of
recorded commands: `SetPipeline`, then for each batch `SetIndexBuffer(i)`,
`SetVertexBuffer(0, i)`, `SetBindGroup(0, common)`, `SetBindGroup(1, texture)`
and `DrawIndexed(0..n, 0, 0..1)`. Rust panics become `Failure` values.

Modules, one per concern of `src/lib.rs`:

- `Base`: `u32` and `byte` newtypes, `Wrap32` for `as u32`, `Option`, `Result`.
- `Egui`: the toolkit values the backend consumes (paint jobs, vertices, the atlas).
- `Layout`: the `#[repr(C)]` `Vertex`, its byte layout, vertex-attribute
  formats, and the colour conversion.
- `IndexData`: `bytemuck::cast_slice` of `u32` indices and the GPU's reading of them.
- `Renderer`: the state record and the four operations.
- `Frames`: sequences of operations, the count invariant, and whole-frame properties.

Modelling choices:

- `f32` values are `real`. Positions and uvs are copied, so copying is exact.
  The colour conversion is the exact quotient `c / 255`.
- The clear colour (`wgpu::Color`, four `f64` channels) uses the same
  four-channel `Rgba` record as a vertex colour.
- Rust's `as u32` casts (atlas width and height, the draw count) keep the low
  32 bits and are written out with `Wrap32`. Buffer sizes (`usize`) are
  unbounded `nat`s.
- `cast_slice` reinterprets the indices in native byte order. The model fixes
  little-endian order.
- The `unwrap` of the texture bind group sits inside the per-batch loop, so
  `encode` with zero batches succeeds before any atlas upload
  (`Frames.EncodeWithoutBatches`, `Frames.EncodeFresh`).
- The loop indexes `vertex_buffer[i]` before it unwraps the texture. `Encode`
  reports the first panic the loop reaches. `Frames.ValidEncodeFailsOnlyWithoutTexture`
  shows that the out-of-range panic is unreachable under the count invariant.

## Model

| member | source | states |
|---|---|---|
| `Base.Wrap32` | src/lib.rs:198-202 | An `as u32` cast keeps any value below 2^32 unchanged; otherwise the result is the unique `u32` congruent to the input modulo 2^32. |
| `Layout.VertexSize` | src/lib.rs:9-15 | Two, two and four packed `f32` fields make `size_of::<Vertex>()` 32 bytes, a multiple of the 4-byte alignment, so there is no padding. |
| `Layout.DeclaredAttributesMisreadColor` | src/lib.rs:136-140 | The declared attribute array `Float2, Float2, Uint` does not describe `Vertex`. Attribute 2 reads 4 of the 16 colour bytes, as an integer. The attributes end 12 bytes short of the 32-byte stride. |
| `Layout.VertexAttributesDescribeVertex` | src/lib.rs:9-15 | The attribute array `Float2, Float2, Float4` reads every `Vertex` field at its own offset and width, as floats. It ends exactly at the stride. |
| `Layout.ChannelToUnit` | src/lib.rs:264-269 | A converted colour channel lies in [0, 1]. It is 0.0 exactly for byte 0 and 1.0 exactly for byte 255. |
| `Layout.ChannelRoundTrip` | src/lib.rs:264-269 | Scaling a converted channel back by 255 gives back the original byte, so the conversion loses nothing. |
| `Layout.ChannelToUnitStrictlyMonotonic` | src/lib.rs:264-269 | A larger byte gives a larger converted intensity. |
| `Layout.ToVertex` | src/lib.rs:261-270 | The converted vertex keeps position and uv. Each colour channel lands in its own place, in the order red, green, blue, alpha, and the original colour bytes can be read back from it. |
| `IndexData.LeRoundTrip` | src/lib.rs:251 | An index's four little-endian bytes reassemble to the same index. |
| `IndexData.CastSlice` | src/lib.rs:251 | The byte view of `n` `u32` indices is `4 * n` bytes long. |
| `IndexData.ReadIndices` | src/lib.rs:135 | A 32-bit index buffer of `b` bytes presents `b / 4` indices to a draw. |
| `IndexData.ReadCastSlice` | src/lib.rs:251-256 | Reading the cast bytes under the 32-bit index format gives back exactly the batch's indices, in order. |
| `IndexData.CastSliceInjective` | src/lib.rs:251 | Different index lists give different index-buffer contents. |
| `Renderer.New` | src/lib.rs:115-157 | A new renderer has empty index and vertex buffer lists and no texture bind group. Its pipeline uses the caller's surface format, 32-bit indices and a stride of `size_of::<Vertex>()`. It carries the declared attribute list `Float2, Float2, Uint`, which does not describe `Vertex`. |
| `Renderer.UploadTexture` | src/lib.rs:198-237 | Afterwards a texture bind group is always present. Its texture is `R8Unorm` with extent (width `as u32`, height `as u32`, 1), which is exactly (width, height, 1) when both are below 2^32. The copy layout has offset 0, `bytes_per_row` equal to the width and `rows_per_image` equal to the height. Buffers and pipeline are unchanged. |
| `Renderer.IndexBufferFor` | src/lib.rs:251-256 | A batch's index buffer has byte size `4 * (number of indices)`. Its contents read back as exactly the batch's indices. |
| `Renderer.VertexBufferFor` | src/lib.rs:258-278 | A batch's vertex buffer holds one converted `Vertex` per toolkit vertex, in order. Its byte size is `32 * (number of vertices)`. |
| `Renderer.PushJobs` | src/lib.rs:250-288 | The upload loop keeps the buffers already pushed. It appends exactly one index and one vertex buffer per job, and the buffers at offset `i` come from job `i`. |
| `Renderer.UploadBuffers` | src/lib.rs:247-288 | Afterwards both lists have exactly one entry per paint job. Entry `i` of each list is built from job `i`. The texture bind group and pipeline are unchanged. |
| `Renderer.DrawCount` | src/lib.rs:186-188 | The draw length is the buffer's byte size divided by 4. It is kept exactly when below 2^32; otherwise it is the value congruent to it modulo 2^32. |
| `Renderer.DrawBatchBindsPair` | src/lib.rs:182-188 | One loop iteration records five commands. It binds index buffer `i` and vertex buffer `i` at slot 0, the common bind group at slot 0 and the texture bind group at slot 1. It then draws from index 0 over the buffer's index count, with base vertex 0 and one instance. |
| `Renderer.EncodeBatches` | src/lib.rs:181-189 | After `k` loop iterations, the trace holds `5 * k` commands, batch `i`'s five commands at position `i`. Otherwise the result is the first panic reached: vertex buffer out of range at index `len(vertex_buffer)`, or the texture unwrap. |
| `Renderer.Encode` | src/lib.rs:166-189 | The load op is `Clear(c)` for `Some(c)` and `Load` for `None`, and store is true. `SetPipeline` comes first, then the batches in upload order. `Encode` fails only when there is a batch and the vertex list is too short or no texture exists. |
| `Frames.NewValid` | src/lib.rs:147-157 | The initial state meets the count invariant. |
| `Frames.StepPreservesValid` | src/lib.rs:192-288 | Each upload preserves the count invariant and leaves the pipeline alone. |
| `Frames.RunPreservesValid` | src/lib.rs:192-288 | Any sequence of uploads preserves the count invariant. |
| `Frames.ReachableValid` | src/lib.rs:181-183 | In every reachable state the index-buffer and vertex-buffer lists have equal length, so `vertex_buffer[i]` is in range. |
| `Frames.ValidEncodeFailsOnlyWithoutTexture` | src/lib.rs:181-185 | Under the count invariant, `Encode` fails iff there is at least one batch and no texture. The failure is the texture unwrap. |
| `Frames.EncodeWithoutBatches` | src/lib.rs:180-181 | With zero batches `Encode` succeeds even without a texture. It records only `SetPipeline` and no draw. |
| `Frames.EncodeFresh` | src/lib.rs:147-189 | Encoding a freshly built renderer succeeds and draws nothing. |
| `Frames.RunSnoc` | src/lib.rs:192-288 | Running one more upload after a run is the same as running the extended sequence. |
| `Frames.ReachableShape` | src/lib.rs:147-288 | A reachable state's batch count is the job count of the last buffer upload, or 0 if there was none. It holds a texture iff some texture upload happened. |
| `Frames.ReachableEncodeFailsIff` | src/lib.rs:181-185 | Over any upload history, `Encode` fails iff the last buffer upload had at least one job and no texture was ever uploaded. |
| `Frames.UploadBuffersReplaces` | src/lib.rs:247-248 | Uploading jobs `J1` then `J2` gives the same state as uploading `J2` alone. Nothing accumulates across frames. |
| `Frames.UploadTextureReplaces` | src/lib.rs:228-237 | Uploading atlas `T1` then `T2` gives the same state as uploading `T2` alone. |
| `Frames.UploadsCommute` | src/lib.rs:192-288 | The texture upload and the buffer upload touch disjoint state, so their order does not matter. |
| `Frames.DrawCountRecoversIndices` | src/lib.rs:186-188 | For a batch with fewer than 2^32 indices, the draw length `size / 4` (as `u32`) is exactly the number of indices, and the buffer reads back as those indices. |
| `Frames.DrawBatchOfJob` | src/lib.rs:182-188 | The loop body for a buffer pair built from job `i` records job `i`'s expected batch: its draw length is the job's index count cast `as u32`. |
| `Frames.ExpectedBatchesDrawIndexCounts` | src/lib.rs:186-188 | In batches drawn as expected, every job with fewer than 2^32 indices is drawn over exactly `0..(its index count)`, base vertex 0, one instance. |
| `Frames.EncodeDrawsExpectedBatches` | src/lib.rs:180-189 | With one buffer pair per job, pair `i` built from job `i`, and a texture, `Encode` succeeds with `1 + 5 * jobs` commands and batch `i` is job `i`'s expected batch. |
| `Frames.FrameDrawsEveryJobInOrder` | src/lib.rs:180-189 | For every list of jobs, after a texture upload and a buffer upload, `Encode` succeeds with `1 + 5 * jobs` commands. Batch `i` binds index and vertex buffer `i`, the common and texture bind groups, and draws job `i`'s index count cast `as u32` with one instance. When job `i` has fewer than 2^32 indices the draw covers exactly `0..(its index count)`. |
| `Frames.NoDrawsCountZero` | src/lib.rs:180-189 | A trace with no indexed draw has a draw count of 0. |
| `Frames.DrawBatchDrawsOnce` | src/lib.rs:182-188 | Each loop iteration records exactly one indexed draw. |
| `Frames.CountDrawsAppend` | src/lib.rs:180-189 | The number of draws in two concatenated traces is the sum of their draw counts. |
| `Frames.EncodeBatchesStepDraws` | src/lib.rs:181-188 | Each further successful loop iteration records exactly one more indexed draw. |
| `Frames.EncodeBatchesDrawCount` | src/lib.rs:181-189 | `k` successful loop iterations record exactly `k` indexed draws. |
| `Frames.EncodeDrawsOncePerBatch` | src/lib.rs:180-189 | A successful `Encode` issues exactly one indexed draw per batch. |

## Left out

- `build.rs`: build-time shader compilation and file writes. This is tooling with no runtime behaviour.
- The wgpu descriptors in `new`: bind-group layouts, sampler settings, uniform buffer creation, shader modules, rasterisation and blend state. These are opaque configuration handed to wgpu. The `Pipeline` record keeps only the colour format, index format, vertex stride and attribute list.
- The uniform write of the screen size through `bincode`. It is a foreign serialiser plus a GPU queue write of `f32` values. `UploadBuffers` therefore takes no screen-size parameter.
- The texel copy of the atlas pixels into the texture. This is GPU I/O. Only its extent and row layout are modelled.
- Logging of the draw count, GPU-side synchronisation, and wgpu's deferred destruction of replaced buffers and textures.
- Resource-creation failures inside wgpu (out of memory, validation errors). The model's operations on the GPU cannot fail, except for the two panics of `encode`.
- The clip rectangle of a paint job. It is carried but never read.
- Layout.ChannelToUnit: states the exact real quotient `c / 255`, not `f32` rounding. The boundary values 0.0 and 1.0 are exact in both.
- Frames.DrawCountRecoversIndices: assumes fewer than 2^32 indices per batch. Above that, `as u32` wraps the draw length, as `Base.Wrap32` models.

## Findings

| source | as written | input that shows it | evidently intended | confidence | as-written member | corrected member |
|---|---|---|---|---|---|---|
| src/lib.rs:139 | vertex attribute 2 is declared `Uint` (4 bytes, integer) | any vertex: `color` is `[f32; 4]`, 16 bytes at offset 16 of the 32-byte stride, but attribute 2 reads only bytes 16-20, as an integer | attribute 2 declared `Float4`, matching `Vertex.color` | medium, not executed | `Layout.DeclaredAttributesMisreadColor` | `Layout.VertexAttributesDescribeVertex` |

The shader sources are not part of this model, so whether the vertex stage
declares its colour input as an integer cannot be confirmed here. `Renderer.New`
builds the pipeline with the attribute list as written. The corrected list
stands alone as the definition the pipeline would need.
