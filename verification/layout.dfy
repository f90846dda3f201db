/** The renderer's own `#[repr(C)]` vertex record, its byte layout, the
    vertex-attribute formats a pipeline may declare for it, and the
    conversion from a toolkit vertex. `f32` values are modelled as `real`. */
module Layout {
  import opened Base
  import opened Egui

  /** `size_of::<f32>()`. */
  const F32_BYTES: nat := 4

  datatype Vec2 = Vec2(x: real, y: real)
  datatype Rgba = Rgba(r: real, g: real, b: real, a: real)

  /** `position: [f32; 2]`, `uv: [f32; 2]`, `color: [f32; 4]`, in this order. */
  datatype Vertex = Vertex(position: Vec2, uv: Vec2, color: Rgba)

  /** Number of `f32` components of each field of `Vertex`, in declaration order. */
  const VERTEX_FIELDS: seq<nat> := [2, 2, 4]

  function FieldBytes(k: nat): nat
    requires k < |VERTEX_FIELDS|
  {
    F32_BYTES * VERTEX_FIELDS[k]
  }

  /** Byte offset of field `k`. Every field is an array of `f32`, so under
      `repr(C)` each starts where the previous one ends (no padding). */
  function FieldOffset(k: nat): nat
    requires k <= |VERTEX_FIELDS|
  {
    if k == 0 then 0 else FieldOffset(k - 1) + FieldBytes(k - 1)
  }

  /** `size_of::<Vertex>()`: the end of the last field, which is already a
      multiple of the 4-byte alignment, so there is no tail padding. */
  function VertexSize(): (r: nat)
    ensures r == 32
    ensures r % F32_BYTES == 0
  {
    assert FieldOffset(1) == 8 && FieldOffset(2) == 16;
    FieldOffset(|VERTEX_FIELDS|)
  }

  /** Vertex-attribute formats a vertex-buffer descriptor can name. */
  datatype VertexFormat = Float2 | Float4 | Uint

  function FormatBytes(f: VertexFormat): nat
  {
    match f
    case Float2 => 8
    case Float4 => 16
    case Uint => 4
  }

  /** Number of `f32` components the format reads; zero for integer formats. */
  function FormatFloats(f: VertexFormat): nat
  {
    match f
    case Float2 => 2
    case Float4 => 4
    case Uint => 0
  }

  /** Offset the attribute-array macro gives attribute `k`: the sum of the
      sizes of the formats declared before it. */
  function AttributeOffset(formats: seq<VertexFormat>, k: nat): nat
    requires k <= |formats|
  {
    if k == 0 then 0 else AttributeOffset(formats, k - 1) + FormatBytes(formats[k - 1])
  }

  /** The attribute list reads every field of `Vertex` at its own offset,
      with its own width, as floats. */
  predicate DescribesVertex(formats: seq<VertexFormat>)
  {
    && |formats| == |VERTEX_FIELDS|
    && (forall k | 0 <= k < |formats| ::
          FormatFloats(formats[k]) == VERTEX_FIELDS[k] && AttributeOffset(formats, k) == FieldOffset(k))
    && AttributeOffset(formats, |formats|) == VertexSize()
  }

  /** The attribute list the pipeline declares in the source: `Float2`,
      `Float2`, `Uint`. */
  const DECLARED_ATTRIBUTES: seq<VertexFormat> := [Float2, Float2, Uint]

  /** The attribute list the `Vertex` record calls for. */
  const VERTEX_ATTRIBUTES: seq<VertexFormat> := [Float2, Float2, Float4]

  /** The declared list does not describe `Vertex`: attribute 2 reads only
      4 of the 16 colour bytes, as an integer, and the declared attributes
      end 12 bytes before the 32-byte stride. */
  lemma DeclaredAttributesMisreadColor()
    ensures !DescribesVertex(DECLARED_ATTRIBUTES)
    ensures FormatBytes(DECLARED_ATTRIBUTES[2]) == 4 < FieldBytes(2) == 16
    ensures FormatFloats(DECLARED_ATTRIBUTES[2]) == 0
    ensures AttributeOffset(DECLARED_ATTRIBUTES, 3) + 12 == VertexSize()
  {
    assert AttributeOffset(DECLARED_ATTRIBUTES, 3) == 20;
  }

  /** The corrected list describes `Vertex` exactly. */
  lemma VertexAttributesDescribeVertex()
    ensures DescribesVertex(VERTEX_ATTRIBUTES)
  {
    assert AttributeOffset(VERTEX_ATTRIBUTES, 1) == 8 == FieldOffset(1);
    assert AttributeOffset(VERTEX_ATTRIBUTES, 2) == 16 == FieldOffset(2);
    assert AttributeOffset(VERTEX_ATTRIBUTES, 3) == 32 == VertexSize();
  }

  /** `c as f32 / 255.0`, as an exact real quotient. */
  function ChannelToUnit(c: byte): (r: real)
    ensures 0.0 <= r <= 1.0
    ensures r == 0.0 <==> c == 0
    ensures r == 1.0 <==> c == 255
  {
    c as real / 255.0
  }

  /** Partner of `ChannelToUnit`: scale a unit value back to a byte. */
  function UnitToChannel(r: real): byte
    requires 0.0 <= r <= 1.0
  {
    (r * 255.0).Floor as byte
  }

  lemma ChannelRoundTrip(c: byte)
    ensures UnitToChannel(ChannelToUnit(c)) == c
  {
    assert ChannelToUnit(c) * 255.0 == c as real;
  }

  /** Larger bytes give larger intensities, so the conversion keeps the
      order of the channel values. */
  lemma ChannelToUnitStrictlyMonotonic(c1: byte, c2: byte)
    requires c1 < c2
    ensures ChannelToUnit(c1) < ChannelToUnit(c2)
  {
  }

  /** Reads an 8-bit colour back out of a vertex's unit colour. */
  function ColorOf(c: Rgba): Srgba
    requires 0.0 <= c.r <= 1.0 && 0.0 <= c.g <= 1.0 && 0.0 <= c.b <= 1.0 && 0.0 <= c.a <= 1.0
  {
    Srgba(UnitToChannel(c.r), UnitToChannel(c.g), UnitToChannel(c.b), UnitToChannel(c.a))
  }

  /** The conversion in the `map` closure of the buffer upload: position and
      uv are copied, each colour channel lands in its own place (red, green,
      blue, alpha), and the original colour can be read back. */
  function ToVertex(v: PaintVertex): (r: Vertex)
    ensures r.position == Vec2(v.pos.x, v.pos.y)
    ensures r.uv == Vec2(v.uv.x, v.uv.y)
    ensures r.color.r == ChannelToUnit(v.color.r) && r.color.g == ChannelToUnit(v.color.g)
    ensures r.color.b == ChannelToUnit(v.color.b) && r.color.a == ChannelToUnit(v.color.a)
    ensures ColorOf(r.color) == v.color
  {
    ChannelRoundTrip(v.color.r);
    ChannelRoundTrip(v.color.g);
    ChannelRoundTrip(v.color.b);
    ChannelRoundTrip(v.color.a);
    Vertex(Vec2(v.pos.x, v.pos.y), Vec2(v.uv.x, v.uv.y),
           Rgba(ChannelToUnit(v.color.r), ChannelToUnit(v.color.g),
                ChannelToUnit(v.color.b), ChannelToUnit(v.color.a)))
  }
}
