/** The full-screen quad (src/collections/vertices.rs). */
module Vertices {
  import opened Structs
  import opened Wrappers

  /** `Vertex { position: [f32; 2] }`. */
  datatype Vertex = Vertex(position: (real, real))

  /** `size_of::<Vertex>()`: two 4-byte floats. */
  const VERTEX_SIZE: nat := 2 * WORD_BYTES

  /** Two triangles covering clip space: bottom-left, then top-right. */
  const VERTICES: seq<Vertex> := [
    Vertex((-1.0, -1.0)), Vertex((1.0, -1.0)), Vertex((-1.0, 1.0)),
    Vertex((1.0, -1.0)), Vertex((1.0, 1.0)), Vertex((-1.0, 1.0))]

  /** `bytemuck::cast_slice` of a vertex slice: each vertex's two floats, in order. */
  function VerticesAsBytes(data: seq<Vertex>): (w: seq<Word>)
    ensures WORD_BYTES * |w| == VERTEX_SIZE * |data|
    ensures forall i :: 0 <= i < |data| ==>
      w[2 * i] == F32(data[i].position.0) && w[2 * i + 1] == F32(data[i].position.1)
  {
    if data == [] then []
    else [F32(data[0].position.0), F32(data[0].position.1)] + VerticesAsBytes(data[1..])
  }

  /** Reading a vertex buffer back; None when a word is not a float or the length is odd. */
  function VerticesFromBytes(w: seq<Word>): Option<seq<Vertex>>
    decreases |w|
  {
    if w == [] then Some([])
    else if |w| < 2 || !w[0].F32? || !w[1].F32? then None
    else match VerticesFromBytes(w[2..])
      case None => None
      case Some(rest) => Some([Vertex((w[0].f, w[1].f))] + rest)
  }

  lemma {:induction false} VerticesRoundTrip(data: seq<Vertex>)
    ensures VerticesFromBytes(VerticesAsBytes(data)) == Some(data)
  {
    if data != [] {
      VerticesRoundTrip(data[1..]);
      var w := VerticesAsBytes(data);
      assert w[2..] == VerticesAsBytes(data[1..]);
      assert [data[0]] + data[1..] == data;
    }
  }

  /** The vertex buffer holds 6 vertices, 48 bytes, every coordinate -1 or 1. */
  lemma VerticesShape()
    ensures |VERTICES| == 6
    ensures WORD_BYTES * |VerticesAsBytes(VERTICES)| == 48
    ensures forall i :: 0 <= i < |VERTICES| ==>
      VERTICES[i].position.0 in {-1.0, 1.0} && VERTICES[i].position.1 in {-1.0, 1.0}
  {
  }

  /** Twice the signed area of a triangle: positive exactly when it winds counter-clockwise. */
  function TwiceSignedArea(a: Vertex, b: Vertex, c: Vertex): real {
    (b.position.0 - a.position.0) * (c.position.1 - a.position.1)
      - (b.position.1 - a.position.1) * (c.position.0 - a.position.0)
  }

  /** Both triangles wind counter-clockwise and together have the area of the square [-1,1]^2. */
  lemma TrianglesWindCounterClockwise()
    ensures TwiceSignedArea(VERTICES[0], VERTICES[1], VERTICES[2]) > 0.0
    ensures TwiceSignedArea(VERTICES[3], VERTICES[4], VERTICES[5]) > 0.0
    ensures TwiceSignedArea(VERTICES[0], VERTICES[1], VERTICES[2])
          + TwiceSignedArea(VERTICES[3], VERTICES[4], VERTICES[5]) == 2.0 * 4.0
  {
  }

  /**
    The two triangles use all four corners of [-1,1]^2 and share exactly the
    diagonal (1,-1)-(-1,1); each has one corner the other lacks.
   */
  lemma TrianglesTileSquare()
    ensures forall x, y | x in {-1.0, 1.0} && y in {-1.0, 1.0} :: Vertex((x, y)) in VERTICES
    ensures {VERTICES[0], VERTICES[1], VERTICES[2]} * {VERTICES[3], VERTICES[4], VERTICES[5]}
         == {Vertex((1.0, -1.0)), Vertex((-1.0, 1.0))}
  {
    forall x, y | x in {-1.0, 1.0} && y in {-1.0, 1.0} ensures Vertex((x, y)) in VERTICES {
      if x == -1.0 && y == -1.0 { assert VERTICES[0] == Vertex((x, y)); }
      else if x == 1.0 && y == -1.0 { assert VERTICES[1] == Vertex((x, y)); }
      else if x == -1.0 && y == 1.0 { assert VERTICES[2] == Vertex((x, y)); }
      else { assert VERTICES[4] == Vertex((x, y)); }
    }
  }
}
