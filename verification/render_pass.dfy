/** The `RenderPass` of the egui wgpu backend as an immutable state record.
    GPU objects the renderer only creates and hands back to wgpu (bind-group
    layouts, the sampler, shader modules, the uniform buffer) are opaque; the
    state keeps what its own rules depend on: the per-batch index and vertex
    buffers, the optional texture bind group, and the pipeline's
    vertex-input description. Each public operation is a pure transition;
    `Encode` returns the trace of recorded render-pass commands. */
module Renderer {
  import opened Base
  import opened Egui
  import opened Layout
  import opened IndexData

  /** A texture format: the atlas's own single-channel format, or whatever
      the surface the caller renders to uses. */
  datatype TextureFormat = R8Unorm | SurfaceFormat(id: nat)

  /** The index format of the pipeline: the renderer only ever uses 32-bit
      indices, which `ReadIndices` reads. */
  datatype IndexFormat = Uint32

  /** What the render pipeline fixes about its inputs. */
  datatype Pipeline = Pipeline(
    colorFormat: TextureFormat,
    indexFormat: IndexFormat,
    vertexStride: nat,
    attributes: seq<VertexFormat>)

  /** The bind group of the uniform buffer and the sampler, built once. */
  datatype CommonBindGroup = CommonBindGroup

  datatype Extent3d = Extent3d(width: u32, height: u32, depth: u32)

  datatype TextureDataLayout = TextureDataLayout(offset: nat, bytesPerRow: u32, rowsPerImage: u32)

  /** The bind group of the atlas texture: the texture's format and size, and
      the layout of the copy that filled it. */
  datatype TextureBindGroup = TextureBindGroup(format: TextureFormat, size: Extent3d, layout: TextureDataLayout)

  /** What a GPU buffer was filled with. */
  datatype Allocation = IndexBytes(bytes: seq<byte>) | VertexRecords(vertices: seq<Vertex>)

  /** The backend's `Buffer`: an allocation and its size in bytes. */
  datatype Buffer = Buffer(allocation: Allocation, size: nat)

  datatype RenderPass = RenderPass(
    pipeline: Pipeline,
    common: CommonBindGroup,
    textureBindGroup: Option<TextureBindGroup>,
    indexBuffer: seq<Buffer>,
    vertexBuffer: seq<Buffer>)

  /** The renderer right after construction: a pipeline for the caller's
      surface format, no buffers, no texture yet. The pipeline carries the
      attribute list as declared, which does not describe `Vertex`. */
  function New(format: TextureFormat): (r: RenderPass)
    ensures r.indexBuffer == [] && r.vertexBuffer == []
    ensures r.textureBindGroup == None
    ensures r.pipeline.colorFormat == format
    ensures r.pipeline.indexFormat == Uint32
    ensures r.pipeline.vertexStride == VertexSize()
    ensures r.pipeline.attributes == DECLARED_ATTRIBUTES
    ensures !DescribesVertex(r.pipeline.attributes)
  {
    DeclaredAttributesMisreadColor();
    RenderPass(Pipeline(format, Uint32, VertexSize(), DECLARED_ATTRIBUTES), CommonBindGroup, None, [], [])
  }

  /** Replace the atlas texture. Width and height go through `as u32`; the
      copy's row stride is the width, since every texel is one byte. */
  function UploadTexture(s: RenderPass, texture: Texture): (r: RenderPass)
    ensures r.textureBindGroup.Some?
    ensures r.textureBindGroup.value.format == R8Unorm
    ensures r.textureBindGroup.value.size == Extent3d(Wrap32(texture.width), Wrap32(texture.height), 1)
    ensures r.textureBindGroup.value.size.depth == 1
    ensures texture.width < U32_LIMIT ==> r.textureBindGroup.value.size.width as int == texture.width
    ensures texture.height < U32_LIMIT ==> r.textureBindGroup.value.size.height as int == texture.height
    ensures r.textureBindGroup.value.layout.offset == 0
    ensures r.textureBindGroup.value.layout.bytesPerRow == r.textureBindGroup.value.size.width
    ensures r.textureBindGroup.value.layout.rowsPerImage == r.textureBindGroup.value.size.height
    ensures r.indexBuffer == s.indexBuffer && r.vertexBuffer == s.vertexBuffer
    ensures r.pipeline == s.pipeline && r.common == s.common
  {
    var size := Extent3d(Wrap32(texture.width), Wrap32(texture.height), 1);
    var layout := TextureDataLayout(0, size.width, size.height);
    s.(textureBindGroup := Some(TextureBindGroup(R8Unorm, size, layout)))
  }

  /** The index buffer made for one batch. */
  function IndexBufferFor(t: Triangles): (b: Buffer)
    ensures b.allocation.IndexBytes?
    ensures b.size == |b.allocation.bytes| == U32_BYTES * |t.indices|
    ensures ReadIndices(b.allocation.bytes) == t.indices
  {
    var data := CastSlice(t.indices);
    ReadCastSlice(t.indices);
    Buffer(IndexBytes(data), |data|)
  }

  /** The vertex buffer made for one batch: one `Vertex` per toolkit vertex. */
  function VertexBufferFor(t: Triangles): (b: Buffer)
    ensures b.allocation.VertexRecords?
    ensures |b.allocation.vertices| == |t.vertices|
    ensures forall k | 0 <= k < |t.vertices| :: b.allocation.vertices[k] == ToVertex(t.vertices[k])
    ensures b.size == VertexSize() * |t.vertices|
  {
    var vertices := seq(|t.vertices|, k requires 0 <= k < |t.vertices| => ToVertex(t.vertices[k]));
    Buffer(VertexRecords(vertices), VertexSize() * |vertices|)
  }

  /** The upload loop: one index buffer and one vertex buffer pushed per
      paint job, in the jobs' order, after those already held. */
  function PushJobs(ib: seq<Buffer>, vb: seq<Buffer>, jobs: seq<PaintJob>): (r: (seq<Buffer>, seq<Buffer>))
    ensures |r.0| == |ib| + |jobs| && |r.1| == |vb| + |jobs|
    ensures r.0[..|ib|] == ib && r.1[..|vb|] == vb
    ensures forall i | 0 <= i < |jobs| ::
              r.0[|ib| + i] == IndexBufferFor(jobs[i].triangles) && r.1[|vb| + i] == VertexBufferFor(jobs[i].triangles)
    decreases |jobs|
  {
    if jobs == [] then (ib, vb)
    else PushJobs(ib + [IndexBufferFor(jobs[0].triangles)], vb + [VertexBufferFor(jobs[0].triangles)], jobs[1..])
  }

  /** Discard the previous frame's buffers and build one index/vertex buffer
      pair per paint job, pair `i` from job `i`. */
  function UploadBuffers(s: RenderPass, jobs: seq<PaintJob>): (r: RenderPass)
    ensures |r.indexBuffer| == |jobs| && |r.vertexBuffer| == |jobs|
    ensures forall i | 0 <= i < |jobs| ::
              r.indexBuffer[i] == IndexBufferFor(jobs[i].triangles) && r.vertexBuffer[i] == VertexBufferFor(jobs[i].triangles)
    ensures r.textureBindGroup == s.textureBindGroup
    ensures r.pipeline == s.pipeline && r.common == s.common
  {
    var (ib, vb) := PushJobs([], [], jobs);
    s.(indexBuffer := ib, vertexBuffer := vb)
  }

  /** A clear colour is four channels, like a vertex colour. */
  datatype LoadOp = Clear(color: Rgba) | Load

  datatype Operations = Operations(load: LoadOp, store: bool)

  datatype BindGroupRef = Common(common: CommonBindGroup) | Textured(texture: TextureBindGroup)

  /** A half-open range `start..end`. */
  datatype Range = Range(start: nat, end: nat)

  /** A command recorded into the render pass; buffers are named by their
      position in the renderer's buffer lists. */
  datatype Command =
    | SetPipeline(pipeline: Pipeline)
    | SetIndexBuffer(indexBuffer: nat)
    | SetVertexBuffer(slot: nat, vertexBuffer: nat)
    | SetBindGroup(index: nat, group: BindGroupRef)
    | DrawIndexed(indices: Range, baseVertex: int, instances: Range)

  /** The colour attachment's operations and the commands recorded. */
  datatype Encoded = Encoded(ops: Operations, commands: seq<Command>)

  /** The panics `encode` can reach: indexing past the vertex-buffer list,
      and unwrapping the texture bind group before any texture upload. */
  datatype EncodeError = VertexBufferOutOfRange(index: nat) | TextureNotUploaded

  /** `index_buffer[i].size / size_of::<u32>()`, then `as u32`. */
  function DrawCount(size: nat): (r: u32)
    ensures size / U32_BYTES < U32_LIMIT ==> r as int == size / U32_BYTES
    ensures (r as int - size / U32_BYTES) % U32_LIMIT == 0
  {
    Wrap32(size / U32_BYTES)
  }

  /** The five commands the loop body records for batch `i`. */
  function DrawBatch(s: RenderPass, i: nat, texture: TextureBindGroup): seq<Command>
    requires i < |s.indexBuffer|
  {
    [ SetIndexBuffer(i),
      SetVertexBuffer(0, i),
      SetBindGroup(0, Common(s.common)),
      SetBindGroup(1, Textured(texture)),
      DrawIndexed(Range(0, DrawCount(s.indexBuffer[i].size) as nat), 0, Range(0, 1)) ]
  }

  /** Batch `i` binds index buffer `i` together with vertex buffer `i` at
      slot 0, the common group at slot 0 and the texture group at slot 1,
      then draws one instance from index 0 over the buffer's index count,
      which is the whole byte size divided by 4 whenever that fits a `u32`. */
  lemma DrawBatchBindsPair(s: RenderPass, i: nat, texture: TextureBindGroup)
    requires i < |s.indexBuffer|
    ensures |DrawBatch(s, i, texture)| == 5
    ensures DrawBatch(s, i, texture)[0] == SetIndexBuffer(i)
    ensures DrawBatch(s, i, texture)[1] == SetVertexBuffer(0, i)
    ensures DrawBatch(s, i, texture)[2] == SetBindGroup(0, Common(s.common))
    ensures DrawBatch(s, i, texture)[3] == SetBindGroup(1, Textured(texture))
    ensures DrawBatch(s, i, texture)[4].DrawIndexed?
    ensures DrawBatch(s, i, texture)[4].indices.start == 0
    ensures DrawBatch(s, i, texture)[4].baseVertex == 0
    ensures DrawBatch(s, i, texture)[4].instances == Range(0, 1)
    ensures s.indexBuffer[i].size / U32_BYTES < U32_LIMIT ==>
              DrawBatch(s, i, texture)[4].indices.end == s.indexBuffer[i].size / U32_BYTES
  {
  }

  /** The commands of batch `i` within a sequence of whole batches. */
  function BatchAt(commands: seq<Command>, i: nat): seq<Command>
    requires 5 * i + 5 <= |commands|
  {
    commands[5 * i .. 5 * i + 5]
  }

  /** The first `k` iterations of the draw loop: each checks its vertex
      buffer, then the texture, then records its five commands. */
  function EncodeBatches(s: RenderPass, k: nat): (r: Result<seq<Command>, EncodeError>)
    requires k <= |s.indexBuffer|
    ensures r.Success? <==> k == 0 || (k <= |s.vertexBuffer| && s.textureBindGroup.Some?)
    ensures r.Failure? ==>
              r.error == (if s.textureBindGroup.None? && 0 < |s.vertexBuffer|
                          then TextureNotUploaded else VertexBufferOutOfRange(|s.vertexBuffer|))
    ensures r.Success? ==> |r.value| == 5 * k
    ensures r.Success? ==> forall i | 0 <= i < k :: BatchAt(r.value, i) == DrawBatch(s, i, s.textureBindGroup.value)
  {
    if k == 0 then Success([])
    else match EncodeBatches(s, k - 1)
      case Failure(e) => Failure(e)
      case Success(done) =>
        if k - 1 >= |s.vertexBuffer| then Failure(VertexBufferOutOfRange(k - 1))
        else if s.textureBindGroup.None? then Failure(TextureNotUploaded)
        else
          var r := done + DrawBatch(s, k - 1, s.textureBindGroup.value);
          assert forall i | 0 <= i < k - 1 :: BatchAt(r, i) == BatchAt(done, i);
          Success(r)
  }

  /** Begin the pass (clear to the given colour, or keep what is there, and
      always store), bind the pipeline, then draw every batch in upload
      order. */
  function Encode(s: RenderPass, clearColor: Option<Rgba>): (r: Result<Encoded, EncodeError>)
    ensures r.Success? <==> |s.indexBuffer| == 0 || (|s.indexBuffer| <= |s.vertexBuffer| && s.textureBindGroup.Some?)
    ensures r.Failure? ==>
              r.error == (if s.textureBindGroup.None? && 0 < |s.vertexBuffer|
                          then TextureNotUploaded else VertexBufferOutOfRange(|s.vertexBuffer|))
    ensures r.Success? ==> r.value.ops.store
    ensures r.Success? ==> (clearColor.Some? ==> r.value.ops.load == Clear(clearColor.value))
    ensures r.Success? ==> (clearColor.None? ==> r.value.ops.load == Load)
    ensures r.Success? ==> |r.value.commands| == 1 + 5 * |s.indexBuffer|
    ensures r.Success? ==> r.value.commands[0] == SetPipeline(s.pipeline)
    ensures r.Success? ==> forall i | 0 <= i < |s.indexBuffer| ::
              BatchAt(r.value.commands[1..], i) == DrawBatch(s, i, s.textureBindGroup.value)
  {
    var load := match clearColor
      case Some(color) => Clear(color)
      case None => Load;
    match EncodeBatches(s, |s.indexBuffer|)
    case Failure(e) => Failure(e)
    case Success(batches) =>
      var commands := [SetPipeline(s.pipeline)] + batches;
      assert commands[1..] == batches;
      Success(Encoded(Operations(load, true), commands))
  }
}
