/** The full-screen quad of the tonemap blit: six vertices (two triangles)
    in normalised device coordinates with texture coordinates that are
    flipped once, at initialisation, for backends whose texture origin is
    not the bottom-left corner. */
module QuadMesh {

  /** Renderer::PosTexCoord0Vertex: a position and a texture coordinate. */
  datatype Vertex = Vertex(x: real, y: real, z: real, u: real, v: real)

  /** The six corners as the vertex array is first initialised: only x and
      y are given, the other members start at zero. */
  const QuadCorners: seq<Vertex> := [
    Vertex(-1.0, -1.0, 0.0, 0.0, 0.0), Vertex(1.0, -1.0, 0.0, 0.0, 0.0), Vertex(1.0, 1.0, 0.0, 0.0, 0.0),
    Vertex(-1.0, -1.0, 0.0, 0.0, 0.0), Vertex(1.0, 1.0, 0.0, 0.0, 0.0), Vertex(-1.0, 1.0, 0.0, 0.0, 0.0)]

  /** One step of the texture-coordinate loop applied to a vertex. */
  function WithTexCoords(p: Vertex, flipV: bool): (q: Vertex)
    ensures q.x == p.x && q.y == p.y && q.z == 0.0
    ensures 2.0 * q.u - 1.0 == p.x
    ensures !flipV ==> 2.0 * q.v - 1.0 == p.y
    ensures flipV ==> 1.0 - 2.0 * q.v == p.y
  {
    var v := (p.y + 1.0) * 0.5;
    p.(z := 0.0, u := (p.x + 1.0) * 0.5, v := if flipV then 1.0 - v else v)
  }

  /** The vertex data uploaded to the quad's vertex buffer. */
  function Quad(flipV: bool): (q: seq<Vertex>)
    ensures |q| == |QuadCorners|
  {
    seq(|QuadCorners|, i requires 0 <= i < |QuadCorners| => WithTexCoords(QuadCorners[i], flipV))
  }

  /** Fills in depth and texture coordinates of every vertex in place. */
  method AssignTexCoords(vertices: array<Vertex>, flipV: bool)
    modifies vertices
    ensures forall i :: 0 <= i < vertices.Length ==> vertices[i] == WithTexCoords(old(vertices[i]), flipV)
  {
    for i := 0 to vertices.Length
      invariant forall k :: 0 <= k < i ==> vertices[k] == WithTexCoords(old(vertices[k]), flipV)
      invariant forall k :: i <= k < vertices.Length ==> vertices[k] == old(vertices[k])
    {
      var p := vertices[i];
      p := p.(z := 0.0);
      p := p.(u := (p.x + 1.0) * 0.5);
      p := p.(v := (p.y + 1.0) * 0.5);
      if flipV {
        p := p.(v := 1.0 - p.v);
      }
      vertices[i] := p;
    }
  }

  /** Allocates the quad's vertex array at its corners and assigns the
      texture coordinates. */
  method BuildQuad(flipV: bool) returns (vertices: array<Vertex>)
    ensures fresh(vertices) && vertices[..] == Quad(flipV)
  {
    vertices := new Vertex[][QuadCorners[0], QuadCorners[1], QuadCorners[2],
                             QuadCorners[3], QuadCorners[4], QuadCorners[5]];
    AssignTexCoords(vertices, flipV);
  }

  predicate IsUnit(t: real)
  {
    t == 0.0 || t == 1.0
  }

  /** A coordinate on an edge of normalised device space. */
  predicate IsEdge(t: real)
  {
    t == -1.0 || t == 1.0
  }

  /** At a corner of the screen the texture coordinates are a corner of the
      texture: u is 1 exactly on the right edge, and v is 1 exactly on the
      top edge, or on the bottom edge when flipped. */
  lemma TexCoordsAtCorners(p: Vertex, flipV: bool)
    requires IsEdge(p.x) && IsEdge(p.y)
    ensures var q := WithTexCoords(p, flipV);
      IsUnit(q.u) && IsUnit(q.v) && q.z == 0.0 && q.x == p.x && q.y == p.y &&
      (q.u == 1.0 <==> p.x == 1.0) &&
      (q.v == 1.0 <==> (p.y == 1.0) != flipV)
  {
  }

  /** Every vertex of the quad has texture coordinates in {0, 1}; flipping
      keeps u and mirrors v. */
  lemma QuadTexCoords(flipV: bool)
    ensures forall i :: 0 <= i < |Quad(flipV)| ==>
      IsUnit(Quad(flipV)[i].u) && IsUnit(Quad(flipV)[i].v) && Quad(flipV)[i].z == 0.0
    ensures forall i :: 0 <= i < |Quad(flipV)| ==>
      Quad(true)[i].u == Quad(false)[i].u && Quad(true)[i].v == 1.0 - Quad(false)[i].v
  {
  }
}
