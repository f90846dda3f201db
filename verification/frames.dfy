/** Sequences of renderer operations from construction onward: the count
    invariant every reachable state keeps, the replacement behaviour of both
    uploads, and what a frame's `Encode` draws. */
module Frames {
  import opened Base
  import opened Egui
  import opened Layout
  import opened IndexData
  import opened Renderer

  /** A mutating call on the renderer. */
  datatype Op = UploadTextureOp(texture: Texture) | UploadBuffersOp(jobs: seq<PaintJob>)

  function Step(s: RenderPass, op: Op): RenderPass
  {
    match op
    case UploadTextureOp(t) => UploadTexture(s, t)
    case UploadBuffersOp(jobs) => UploadBuffers(s, jobs)
  }

  /** The state after applying `ops` in order. */
  function Run(s: RenderPass, ops: seq<Op>): RenderPass
    decreases |ops|
  {
    if ops == [] then s else Run(Step(s, ops[0]), ops[1..])
  }

  /** One buffer of each kind per batch, each holding what its size says. */
  predicate Valid(s: RenderPass)
  {
    && |s.indexBuffer| == |s.vertexBuffer|
    && (forall i | 0 <= i < |s.indexBuffer| ::
          s.indexBuffer[i].allocation.IndexBytes?
          && s.indexBuffer[i].size == |s.indexBuffer[i].allocation.bytes|
          && s.indexBuffer[i].size % U32_BYTES == 0)
    && (forall i | 0 <= i < |s.vertexBuffer| ::
          s.vertexBuffer[i].allocation.VertexRecords?
          && s.vertexBuffer[i].size == s.pipeline.vertexStride * |s.vertexBuffer[i].allocation.vertices|)
  }

  /** A freshly built renderer that has been uploaded to `ops` times. */
  function Reachable(format: TextureFormat, ops: seq<Op>): RenderPass
  {
    Run(New(format), ops)
  }

  lemma NewValid(format: TextureFormat)
    ensures Valid(New(format))
  {
  }

  lemma StepPreservesValid(s: RenderPass, op: Op)
    requires Valid(s)
    requires s.pipeline.vertexStride == VertexSize()
    ensures Valid(Step(s, op))
    ensures Step(s, op).pipeline == s.pipeline
  {
  }

  /** Neither upload touches the pipeline, so the state keeps the
      construction-time vertex stride along any run. */
  lemma {:induction false} RunPreservesValid(s: RenderPass, ops: seq<Op>)
    requires Valid(s)
    requires s.pipeline.vertexStride == VertexSize()
    ensures Valid(Run(s, ops))
    ensures Run(s, ops).pipeline == s.pipeline
    decreases |ops|
  {
    if ops != [] {
      StepPreservesValid(s, ops[0]);
      RunPreservesValid(Step(s, ops[0]), ops[1..]);
    }
  }

  /** Count invariant: in every reachable state the index-buffer and
      vertex-buffer lists have the same length. */
  lemma ReachableValid(format: TextureFormat, ops: seq<Op>)
    ensures Valid(Reachable(format, ops))
    ensures |Reachable(format, ops).indexBuffer| == |Reachable(format, ops).vertexBuffer|
  {
    NewValid(format);
    RunPreservesValid(New(format), ops);
  }

  /** Under the count invariant `vertex_buffer[i]` is always in range, so
      the only panic left is the texture unwrap, reached iff there is a
      batch and no texture. */
  lemma ValidEncodeFailsOnlyWithoutTexture(s: RenderPass, clearColor: Option<Rgba>)
    requires Valid(s)
    ensures Encode(s, clearColor).Failure? <==> 0 < |s.indexBuffer| && s.textureBindGroup.None?
    ensures Encode(s, clearColor).Failure? ==> Encode(s, clearColor).error == TextureNotUploaded
  {
  }

  /** With no batches `Encode` succeeds, texture or not, and records only the
      pipeline binding: no draw. */
  lemma EncodeWithoutBatches(s: RenderPass, clearColor: Option<Rgba>)
    requires |s.indexBuffer| == 0
    ensures Encode(s, clearColor).Success?
    ensures Encode(s, clearColor).value.commands == [SetPipeline(s.pipeline)]
  {
  }

  /** Encoding a freshly built renderer succeeds: it clears if asked and draws
      nothing. */
  lemma EncodeFresh(format: TextureFormat, clearColor: Option<Rgba>)
    ensures Encode(New(format), clearColor).Success?
    ensures Encode(New(format), clearColor).value.commands == [SetPipeline(New(format).pipeline)]
  {
    EncodeWithoutBatches(New(format), clearColor);
  }

  /** Whether some operation of `ops` uploads a texture. */
  predicate UploadsTexture(ops: seq<Op>)
  {
    exists k | 0 <= k < |ops| :: ops[k].UploadTextureOp?
  }

  /** The number of paint jobs of the last buffer upload in `ops`, or zero. */
  function LastJobCount(ops: seq<Op>): nat
    decreases |ops|
  {
    if ops == [] then 0
    else if ops[|ops| - 1].UploadBuffersOp? then |ops[|ops| - 1].jobs|
    else LastJobCount(ops[..|ops| - 1])
  }

  lemma {:induction false} RunSnoc(s: RenderPass, ops: seq<Op>, op: Op)
    ensures Run(s, ops + [op]) == Step(Run(s, ops), op)
    decreases |ops|
  {
    if ops == [] {
      assert [op][1..] == [];
    } else {
      assert (ops + [op])[1..] == ops[1..] + [op];
      RunSnoc(Step(s, ops[0]), ops[1..], op);
    }
  }

  /** The batch count and the texture presence of a reachable state,
      described from the operations alone. */
  lemma {:induction false} ReachableShape(format: TextureFormat, ops: seq<Op>)
    ensures |Reachable(format, ops).indexBuffer| == LastJobCount(ops)
    ensures Reachable(format, ops).textureBindGroup.Some? <==> UploadsTexture(ops)
    decreases |ops|
  {
    if ops != [] {
      var init := ops[..|ops| - 1];
      var last := ops[|ops| - 1];
      assert ops == init + [last];
      RunSnoc(New(format), init, last);
      ReachableShape(format, init);
      if UploadsTexture(init) {
        var k :| 0 <= k < |init| && init[k].UploadTextureOp?;
        assert ops[k] == init[k];
      }
      if UploadsTexture(ops) && !last.UploadTextureOp? {
        var k :| 0 <= k < |ops| && ops[k].UploadTextureOp?;
        assert k < |init| && init[k] == ops[k];
      }
    }
  }

  /** Over any history of uploads, `Encode` fails exactly when the last
      buffer upload had at least one job and no texture was ever uploaded;
      the failure is then the texture unwrap. */
  lemma ReachableEncodeFailsIff(format: TextureFormat, ops: seq<Op>, clearColor: Option<Rgba>)
    ensures Encode(Reachable(format, ops), clearColor).Failure?
            <==> 0 < LastJobCount(ops) && !UploadsTexture(ops)
    ensures Encode(Reachable(format, ops), clearColor).Failure?
            ==> Encode(Reachable(format, ops), clearColor).error == TextureNotUploaded
  {
    ReachableValid(format, ops);
    ReachableShape(format, ops);
    ValidEncodeFailsOnlyWithoutTexture(Reachable(format, ops), clearColor);
  }

  /** A buffer upload replaces: the first upload's buffers leave no trace. */
  lemma UploadBuffersReplaces(s: RenderPass, jobs1: seq<PaintJob>, jobs2: seq<PaintJob>)
    ensures UploadBuffers(UploadBuffers(s, jobs1), jobs2) == UploadBuffers(s, jobs2)
  {
  }

  /** A texture upload replaces: only the last atlas is held. */
  lemma UploadTextureReplaces(s: RenderPass, t1: Texture, t2: Texture)
    ensures UploadTexture(UploadTexture(s, t1), t2) == UploadTexture(s, t2)
  {
  }

  /** The two uploads touch disjoint parts of the state. */
  lemma UploadsCommute(s: RenderPass, t: Texture, jobs: seq<PaintJob>)
    ensures UploadTexture(UploadBuffers(s, jobs), t) == UploadBuffers(UploadTexture(s, t), jobs)
  {
  }

  /** The draw length of a batch's index buffer gives back the number of
      indices the job had (when it fits the `u32` draw range), and the buffer
      gives back the indices themselves. */
  lemma DrawCountRecoversIndices(t: Triangles)
    requires |t.indices| < U32_LIMIT
    ensures DrawCount(IndexBufferFor(t).size) as int == |t.indices|
    ensures ReadIndices(IndexBufferFor(t).allocation.bytes) == t.indices
  {
  }

  /** The batch draw `Encode` records for paint job `i` of a frame: the
      job's index count, cast `as u32` for the draw range. */
  function ExpectedBatch(s: RenderPass, i: nat, t: TextureBindGroup, jobs: seq<PaintJob>): seq<Command>
    requires i < |jobs|
  {
    [ SetIndexBuffer(i),
      SetVertexBuffer(0, i),
      SetBindGroup(0, Common(s.common)),
      SetBindGroup(1, Textured(t)),
      DrawIndexed(Range(0, Wrap32(|jobs[i].triangles.indices|) as nat), 0, Range(0, 1)) ]
  }

  /** A batch pair built from job `i` is drawn as that job's expected batch. */
  lemma DrawBatchOfJob(s: RenderPass, f: RenderPass, i: nat, t: TextureBindGroup, jobs: seq<PaintJob>)
    requires i < |jobs| && i < |f.indexBuffer|
    requires f.common == s.common
    requires f.indexBuffer[i] == IndexBufferFor(jobs[i].triangles)
    ensures DrawBatch(f, i, t) == ExpectedBatch(s, i, t, jobs)
  {
    DrawBatchBindsPair(f, i, t);
    assert f.indexBuffer[i].size / U32_BYTES == |jobs[i].triangles.indices|;
  }

  /** Batches drawn as expected draw every job with fewer than 2^32
      indices over exactly its index count. */
  lemma ExpectedBatchesDrawIndexCounts(s: RenderPass, batches: seq<Command>, t: TextureBindGroup, jobs: seq<PaintJob>)
    requires 5 * |jobs| <= |batches|
    requires forall i | 0 <= i < |jobs| :: BatchAt(batches, i) == ExpectedBatch(s, i, t, jobs)
    ensures forall i | 0 <= i < |jobs| ::
              |jobs[i].triangles.indices| < U32_LIMIT ==>
                BatchAt(batches, i)[4] == DrawIndexed(Range(0, |jobs[i].triangles.indices|), 0, Range(0, 1))
  {
  }

  /** `Encode` of a state holding one buffer pair per job, pair `i` built
      from job `i`, and a texture, draws the jobs' expected batches. */
  lemma EncodeDrawsExpectedBatches(s: RenderPass, f: RenderPass, jobs: seq<PaintJob>, clearColor: Option<Rgba>)
    requires f.textureBindGroup.Some? && f.common == s.common
    requires |f.indexBuffer| == |f.vertexBuffer| == |jobs|
    requires forall i | 0 <= i < |jobs| :: f.indexBuffer[i] == IndexBufferFor(jobs[i].triangles)
    ensures Encode(f, clearColor).Success?
    ensures |Encode(f, clearColor).value.commands| == 1 + 5 * |jobs|
    ensures forall i | 0 <= i < |jobs| ::
              BatchAt(Encode(f, clearColor).value.commands[1..], i)
              == ExpectedBatch(s, i, f.textureBindGroup.value, jobs)
  {
    var batches := Encode(f, clearColor).value.commands[1..];
    forall i | 0 <= i < |jobs|
      ensures BatchAt(batches, i) == ExpectedBatch(s, i, f.textureBindGroup.value, jobs)
    {
      DrawBatchOfJob(s, f, i, f.textureBindGroup.value, jobs);
    }
  }

  /** A frame: after a texture upload and a buffer upload, `Encode`
      succeeds, whatever the jobs, and draws each job once, in job order,
      from buffer pair `i` over job `i`'s index count cast `as u32`; a job
      with fewer than 2^32 indices is drawn over exactly its index count. */
  lemma FrameDrawsEveryJobInOrder(s: RenderPass, t: Texture, jobs: seq<PaintJob>, clearColor: Option<Rgba>)
    ensures var f := UploadBuffers(UploadTexture(s, t), jobs);
            && Encode(f, clearColor).Success?
            && |Encode(f, clearColor).value.commands| == 1 + 5 * |jobs|
            && (forall i | 0 <= i < |jobs| ::
                  BatchAt(Encode(f, clearColor).value.commands[1..], i)
                  == ExpectedBatch(s, i, f.textureBindGroup.value, jobs))
            && (forall i | 0 <= i < |jobs| ::
                  |jobs[i].triangles.indices| < U32_LIMIT ==>
                    BatchAt(Encode(f, clearColor).value.commands[1..], i)[4]
                    == DrawIndexed(Range(0, |jobs[i].triangles.indices|), 0, Range(0, 1)))
  {
    var f := UploadBuffers(UploadTexture(s, t), jobs);
    EncodeDrawsExpectedBatches(s, f, jobs, clearColor);
    ExpectedBatchesDrawIndexCounts(s, Encode(f, clearColor).value.commands[1..], f.textureBindGroup.value, jobs);
  }

  /** The number of indexed draws in a command trace. */
  function CountDraws(commands: seq<Command>): nat
    decreases |commands|
  {
    if commands == [] then 0
    else (if commands[0].DrawIndexed? then 1 else 0) + CountDraws(commands[1..])
  }

  lemma {:induction false} CountDrawsAppend(a: seq<Command>, b: seq<Command>)
    ensures CountDraws(a + b) == CountDraws(a) + CountDraws(b)
    decreases |a|
  {
    if a == [] {
      assert a + b == b;
    } else {
      assert (a + b)[1..] == a[1..] + b;
      CountDrawsAppend(a[1..], b);
    }
  }

  lemma {:induction false} NoDrawsCountZero(commands: seq<Command>)
    requires forall k | 0 <= k < |commands| :: !commands[k].DrawIndexed?
    ensures CountDraws(commands) == 0
    decreases |commands|
  {
    if commands != [] {
      NoDrawsCountZero(commands[1..]);
    }
  }

  lemma DrawBatchDrawsOnce(s: RenderPass, i: nat, t: TextureBindGroup)
    requires i < |s.indexBuffer|
    ensures CountDraws(DrawBatch(s, i, t)) == 1
  {
    var batch := DrawBatch(s, i, t);
    assert batch == batch[..4] + [batch[4]];
    CountDrawsAppend(batch[..4], [batch[4]]);
    NoDrawsCountZero(batch[..4]);
  }

  /** One more successful loop iteration records one more indexed draw. */
  lemma EncodeBatchesStepDraws(s: RenderPass, k: nat)
    requires 0 < k <= |s.indexBuffer|
    requires EncodeBatches(s, k).Success?
    ensures EncodeBatches(s, k - 1).Success?
    ensures CountDraws(EncodeBatches(s, k).value) == CountDraws(EncodeBatches(s, k - 1).value) + 1
  {
    var done := EncodeBatches(s, k - 1).value;
    var batch := DrawBatch(s, k - 1, s.textureBindGroup.value);
    assert EncodeBatches(s, k).value == done + batch;
    DrawBatchDrawsOnce(s, k - 1, s.textureBindGroup.value);
    CountDrawsAppend(done, batch);
  }

  lemma {:induction false} EncodeBatchesDrawCount(s: RenderPass, k: nat)
    requires k <= |s.indexBuffer|
    requires EncodeBatches(s, k).Success?
    ensures CountDraws(EncodeBatches(s, k).value) == k
  {
    if k == 0 {
      assert EncodeBatches(s, k).value == [];
    } else {
      EncodeBatchesStepDraws(s, k);
      EncodeBatchesDrawCount(s, k - 1);
    }
  }

  /** A successful `Encode` issues exactly one indexed draw per batch. */
  lemma EncodeDrawsOncePerBatch(s: RenderPass, clearColor: Option<Rgba>)
    requires Encode(s, clearColor).Success?
    ensures CountDraws(Encode(s, clearColor).value.commands) == |s.indexBuffer|
  {
    var batches := EncodeBatches(s, |s.indexBuffer|).value;
    EncodeBatchesDrawCount(s, |s.indexBuffer|);
    CountDrawsAppend([SetPipeline(s.pipeline)], batches);
    assert [SetPipeline(s.pipeline)][..0] == [];
  }
}
