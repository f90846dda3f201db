/** The values the GUI toolkit hands to the renderer each frame. They are
    consumed, never produced, by the renderer; only the parts the renderer
    reads are kept (a clip rectangle is carried but never looked at). */
module Egui {
  import opened Base

  /** A point in logical pixels, or a texture coordinate; `f32` pairs. */
  datatype Pos2 = Pos2(x: real, y: real)

  /** An 8-bit-per-channel colour read through its `r()`, `g()`, `b()`,
      `a()` accessors. */
  datatype Srgba = Srgba(r: byte, g: byte, b: byte, a: byte)

  datatype PaintVertex = PaintVertex(pos: Pos2, uv: Pos2, color: Srgba)

  /** One batch of triangle lists drawn with the same texture and bind
      groups: 32-bit indices into its own vertex list. */
  datatype Triangles = Triangles(indices: seq<u32>, vertices: seq<PaintVertex>)

  datatype Rect = Rect(min: Pos2, max: Pos2)

  /** One entry of the toolkit's paint-job list: a clip rectangle and the
      triangles to draw inside it. */
  datatype PaintJob = PaintJob(clip: Rect, triangles: Triangles)

  /** The single-channel font/icon atlas. */
  datatype Texture = Texture(width: nat, height: nat, pixels: seq<byte>)
}
