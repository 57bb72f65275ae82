/**
 * Per-face textured quads of the earliest mesher (models/block_face.rs): which texture a face of a
 * block uses, where that texture sits in the 6-column atlas, and the 6 vertices of 5 numbers
 * (x, y, z, u, v) that draw the face.
 */
module BlockFaces {
  import opened Wrappers
  import opened Faces
  import E = EarliestBlocks

  /** The textures a face can carry (models/core/block_face_type.rs). */
  datatype BlockFaceType = Grass | Dirt | SideGrass | Stone | LogSide | Log | Leaves

  /** `block_type_to_block_face_type`. */
  function FaceType(b: E.BlockType, face: Face): (r: Result<BlockFaceType>)
    ensures r.Err? <==> b == E.Air
    ensures b == E.Grass ==> r == Ok(if face == Top then Grass else if face == Bottom then Dirt else SideGrass)
    ensures b == E.Log ==> r == Ok(if face in {Top, Bottom} then Log else LogSide)
    ensures b == E.Dirt ==> r == Ok(Dirt)
    ensures b == E.Leaves ==> r == Ok(Leaves)
    ensures b == E.Stone ==> r == Ok(Stone)
  {
    match b
    case Dirt => Ok(Dirt)
    case Grass =>
      (match face
       case Top => Ok(Grass)
       case Right | Left | Back | Front => Ok(SideGrass)
       case Bottom => Ok(Dirt))
    case Log =>
      (match face
       case Top | Bottom => Ok(Log)
       case _ => Ok(LogSide))
    case Leaves => Ok(Leaves)
    case Stone => Ok(Stone)
    case Air => Err(NoTexture)
  }

  /** `block_face_type_to_texture_map_index`. */
  function TextureMapIndex(t: BlockFaceType): (n: nat)
    ensures n < 7
  {
    match t
    case Dirt => 0
    case Grass => 1
    case Stone => 2
    case Log => 3
    case LogSide => 4
    case Leaves => 5
    case SideGrass => 6
  }

  /** The texture index is one-to-one ... */
  lemma TextureMapIndexInjective(s: BlockFaceType, t: BlockFaceType)
    requires TextureMapIndex(s) == TextureMapIndex(t)
    ensures s == t
  {
  }

  /** ... and reaches every cell 0..6, so it is a bijection onto 0..6. */
  lemma TextureMapIndexOnto(n: nat)
    requires n < 7
    ensures exists t :: TextureMapIndex(t) == n
  {
    var t := [Dirt, Grass, Stone, Log, LogSide, Leaves, SideGrass][n];
    assert TextureMapIndex(t) == n;
  }

  /** A cell of the texture atlas, in atlas units. */
  datatype AtlasCell = AtlasCell(left: int, right: int, top: int, bottom: int)

  /** The atlas cell of texture `index`: the atlas is read row by row, six cells to a row. */
  function CellOf(index: nat): (c: AtlasCell)
    ensures 0 <= c.left < 6 && 0 <= c.top
    ensures c.top * 6 + c.left == index
    ensures c.right == c.left + 1 && c.bottom == c.top + 1
  {
    AtlasCell(index % 6, index % 6 + 1, index / 6, index / 6 + 1)
  }

  /** A textured quad: 6 vertices of 5 numbers each. */
  datatype BlockFace = BlockFace(vertices: seq<real>)

  const VertexWidth := 5
  const FaceLength := 30

  /** Field `f` (0..4) of vertex `k` (0..5). */
  function Field(v: seq<real>, k: nat, f: nat): real
    requires k < 6 && f < 5 && |v| == FaceLength
  {
    v[5 * k + f]
  }

  /** The position field that is constant on a face, and its value. */
  function Axis(face: Face): nat {
    match face
    case Left | Right => 0
    case Top | Bottom => 1
    case Front | Back => 2
  }

  function Side(face: Face): real {
    if face in {Right, Top, Back} then 0.5 else -0.5
  }

  /** Every vertex lies on the face's side of the unit cube centred on the origin. */
  ghost predicate OnSide(v: seq<real>, face: Face)
    requires |v| == FaceLength
  {
    forall k :: 0 <= k < 6 ==>
      Field(v, k, Axis(face)) == Side(face) &&
      Field(v, k, 0) in {-0.5, 0.5} && Field(v, k, 1) in {-0.5, 0.5} && Field(v, k, 2) in {-0.5, 0.5}
  }

  /** Every texture coordinate is a corner of the cell. */
  ghost predicate TexturedBy(v: seq<real>, c: AtlasCell)
    requires |v| == FaceLength
  {
    forall k :: 0 <= k < 6 ==>
      Field(v, k, 3) in {c.left as real, c.right as real} &&
      Field(v, k, 4) in {c.top as real, c.bottom as real}
  }

  /** One vertex of a quad: position, then texture coordinate. */
  datatype Vertex = Vertex(x: real, y: real, z: real, u: real, v: real)

  function Numbers(p: Vertex): (r: seq<real>)
    ensures |r| == VertexWidth
  {
    [p.x, p.y, p.z, p.u, p.v]
  }

  /** The vertices written out as one flat array of numbers. */
  function Flatten(q: seq<Vertex>): (r: seq<real>)
    ensures |r| == VertexWidth * |q|
  {
    if q == [] then [] else Numbers(q[0]) + Flatten(q[1..])
  }

  lemma {:induction false} FlattenField(q: seq<Vertex>, k: nat, f: nat)
    requires k < |q| && f < VertexWidth
    ensures Flatten(q)[5 * k + f] == Numbers(q[k])[f]
  {
    if k > 0 {
      FlattenField(q[1..], k - 1, f);
    }
  }

  /** The six vertices of a face, as `BlockFace::new` lists them. */
  function Quad(face: Face, c: AtlasCell): (q: seq<Vertex>)
    ensures |q| == 6
  {
    var l, r, t, b := c.left as real, c.right as real, c.top as real, c.bottom as real;
    match face
    case Top => [
      Vertex(-0.5,  0.5, -0.5, l, b), Vertex( 0.5,  0.5, -0.5, r, b), Vertex( 0.5,  0.5,  0.5, r, t),
      Vertex( 0.5,  0.5,  0.5, r, t), Vertex(-0.5,  0.5,  0.5, l, t), Vertex(-0.5,  0.5, -0.5, l, b)]
    case Bottom => [
      Vertex(-0.5, -0.5, -0.5, l, b), Vertex( 0.5, -0.5, -0.5, r, b), Vertex( 0.5, -0.5,  0.5, r, t),
      Vertex( 0.5, -0.5,  0.5, r, t), Vertex(-0.5, -0.5,  0.5, l, t), Vertex(-0.5, -0.5, -0.5, l, b)]
    case Left => [
      Vertex(-0.5,  0.5,  0.5, l, t), Vertex(-0.5,  0.5, -0.5, r, t), Vertex(-0.5, -0.5, -0.5, r, b),
      Vertex(-0.5, -0.5, -0.5, r, b), Vertex(-0.5, -0.5,  0.5, l, b), Vertex(-0.5,  0.5,  0.5, l, t)]
    case Right => [
      Vertex( 0.5,  0.5,  0.5, l, t), Vertex( 0.5,  0.5, -0.5, r, t), Vertex( 0.5, -0.5, -0.5, r, b),
      Vertex( 0.5, -0.5, -0.5, r, b), Vertex( 0.5, -0.5,  0.5, l, b), Vertex( 0.5,  0.5,  0.5, l, t)]
    case Front => [
      Vertex(-0.5, -0.5, -0.5, l, b), Vertex( 0.5, -0.5, -0.5, r, b), Vertex( 0.5,  0.5, -0.5, r, t),
      Vertex( 0.5,  0.5, -0.5, r, t), Vertex(-0.5,  0.5, -0.5, l, t), Vertex(-0.5, -0.5, -0.5, l, b)]
    case Back => [
      Vertex(-0.5, -0.5,  0.5, l, b), Vertex( 0.5, -0.5,  0.5, r, b), Vertex( 0.5,  0.5,  0.5, r, t),
      Vertex( 0.5,  0.5,  0.5, r, t), Vertex(-0.5,  0.5,  0.5, l, t), Vertex(-0.5, -0.5,  0.5, l, b)]
  }

  lemma QuadShape(face: Face, c: AtlasCell)
    ensures |Flatten(Quad(face, c))| == FaceLength
    ensures OnSide(Flatten(Quad(face, c)), face)
    ensures TexturedBy(Flatten(Quad(face, c)), c)
  {
    forall k | 0 <= k < 6
      ensures VertexOn(Quad(face, c)[k], face, c)
    {
      QuadVertex(face, c, k);
    }
    FlattenShape(Quad(face, c), face, c);
  }

  /** A vertex on the face's side, at a cube corner, textured by a corner of the cell. */
  predicate VertexOn(p: Vertex, face: Face, c: AtlasCell)
  {
    Numbers(p)[Axis(face)] == Side(face) &&
    p.x in {-0.5, 0.5} && p.y in {-0.5, 0.5} && p.z in {-0.5, 0.5} &&
    p.u in {c.left as real, c.right as real} && p.v in {c.top as real, c.bottom as real}
  }

  /** Vertex `k` of a quad as `BlockFace::new` lists it satisfies `VertexOn`. */
  lemma QuadVertex(face: Face, c: AtlasCell, k: nat)
    requires k < 6
    ensures Numbers(Quad(face, c)[k])[Axis(face)] == Side(face)
    ensures Quad(face, c)[k].x in {-0.5, 0.5} && Quad(face, c)[k].y in {-0.5, 0.5} && Quad(face, c)[k].z in {-0.5, 0.5}
    ensures Quad(face, c)[k].u in {c.left as real, c.right as real}
    ensures Quad(face, c)[k].v in {c.top as real, c.bottom as real}
  {
  }

  /** Six vertices that each satisfy `VertexOn` flatten to a quad on the side, textured by the cell. */
  lemma FlattenShape(q: seq<Vertex>, face: Face, c: AtlasCell)
    requires |q| == 6 && forall k :: 0 <= k < 6 ==> VertexOn(q[k], face, c)
    ensures |Flatten(q)| == FaceLength
    ensures OnSide(Flatten(q), face)
    ensures TexturedBy(Flatten(q), c)
  {
    var v := Flatten(q);
    forall k | 0 <= k < 6
      ensures Field(v, k, Axis(face)) == Side(face)
      ensures Field(v, k, 0) in {-0.5, 0.5} && Field(v, k, 1) in {-0.5, 0.5} && Field(v, k, 2) in {-0.5, 0.5}
      ensures Field(v, k, 3) in {c.left as real, c.right as real}
      ensures Field(v, k, 4) in {c.top as real, c.bottom as real}
    {
      FlattenField(q, k, 0);
      FlattenField(q, k, 1);
      FlattenField(q, k, 2);
      FlattenField(q, k, 3);
      FlattenField(q, k, 4);
    }
  }

  /** `BlockFace::new`: the quad of `face` of `b`, textured with the cell of its face type. */
  function New(b: E.BlockType, face: Face): (r: Result<BlockFace>)
    ensures r.Err? <==> b == E.Air
    ensures r.Ok? ==> |r.value.vertices| == FaceLength
  {
    var t :- FaceType(b, face);
    var c := CellOf(TextureMapIndex(t));
    Ok(BlockFace(Flatten(Quad(face, c))))
  }

  /** The quad of a textured block's face lies on that side of the cube and is textured with the cell of the face's texture. */
  lemma NewShape(b: E.BlockType, face: Face)
    requires b != E.Air
    ensures OnSide(New(b, face).value.vertices, face)
    ensures TexturedBy(New(b, face).value.vertices, CellOf(TextureMapIndex(FaceType(b, face).value)))
  {
    QuadShape(face, CellOf(TextureMapIndex(FaceType(b, face).value)));
  }

  /** What `transform` adds to number `i` of a quad: x, y, z to the position fields, nothing to u, v. */
  function Offset(i: nat, x: real, y: real, z: real): real {
    match i % 5
    case 0 => x
    case 1 => y
    case 2 => z
    case _ => 0.0
  }

  /** The quad moved by (x, y, z): each position field shifted along its axis. */
  function Moved(face: BlockFace, x: real, y: real, z: real): (r: BlockFace)
    requires |face.vertices| == FaceLength
  {
    BlockFace(seq(FaceLength, i requires 0 <= i < FaceLength => face.vertices[i] + Offset(i, x, y, z)))
  }

  /** Moving shifts the position fields of vertex k by (x, y, z) and keeps its texture fields. */
  lemma MovedFields(face: BlockFace, x: real, y: real, z: real, k: nat)
    requires |face.vertices| == FaceLength && k < 6
    ensures var v := Moved(face, x, y, z).vertices;
      Field(v, k, 0) == Field(face.vertices, k, 0) + x && Field(v, k, 1) == Field(face.vertices, k, 1) + y &&
      Field(v, k, 2) == Field(face.vertices, k, 2) + z &&
      Field(v, k, 3) == Field(face.vertices, k, 3) && Field(v, k, 4) == Field(face.vertices, k, 4)
  {
    assert (5 * k) % 5 == 0 && (5 * k + 1) % 5 == 1 && (5 * k + 2) % 5 == 2 && (5 * k + 3) % 5 == 3 && (5 * k + 4) % 5 == 4;
  }

  /**
   * A quad on the face's side of the unit cube, moved by (x, y, z): every vertex is a corner of the
   * unit cube centred on (x, y, z), on the face's side, with the texture fields it had.
   */
  lemma MovedOnSide(face: BlockFace, side: Face, x: real, y: real, z: real, k: nat)
    requires |face.vertices| == FaceLength && k < 6 && OnSide(face.vertices, side)
    ensures var v := Moved(face, x, y, z).vertices;
      Field(v, k, 0) - x in {-0.5, 0.5} && Field(v, k, 1) - y in {-0.5, 0.5} && Field(v, k, 2) - z in {-0.5, 0.5} &&
      Field(v, k, Axis(side)) - [x, y, z][Axis(side)] == Side(side) &&
      Field(v, k, 3) == Field(face.vertices, k, 3) && Field(v, k, 4) == Field(face.vertices, k, 4)
  {
    MovedFields(face, x, y, z, k);
    assert Field(face.vertices, k, Axis(side)) == Side(side);
  }

  /** `BlockFace::transform`: the quad moved by (x, y, z); the original is left as it was. */
  method Transform(face: BlockFace, x: real, y: real, z: real) returns (r: BlockFace)
    requires |face.vertices| == FaceLength
    ensures |r.vertices| == FaceLength
    ensures forall i :: 0 <= i < FaceLength ==> r.vertices[i] == face.vertices[i] + Offset(i, x, y, z)
    ensures r == Moved(face, x, y, z)
  {
    var vertices := new real[FaceLength](i requires 0 <= i < FaceLength => face.vertices[i]);
    for i := 0 to FaceLength
      invariant forall j :: 0 <= j < i ==> vertices[j] == face.vertices[j] + Offset(j, x, y, z)
      invariant forall j :: i <= j < FaceLength ==> vertices[j] == face.vertices[j]
    {
      vertices[i] := match i % 5
        case 0 => vertices[i] + x
        case 1 => vertices[i] + y
        case 2 => vertices[i] + z
        case _ => vertices[i];
    }
    r := BlockFace(vertices[..]);
    assert r.vertices == Moved(face, x, y, z).vertices;
  }

  /** Moving a quad leaves the texture fields of every vertex unchanged. */
  lemma TransformKeepsTexture(face: BlockFace, moved: BlockFace, x: real, y: real, z: real, k: nat)
    requires |face.vertices| == FaceLength == |moved.vertices| && k < 6
    requires forall i :: 0 <= i < FaceLength ==> moved.vertices[i] == face.vertices[i] + Offset(i, x, y, z)
    ensures Field(moved.vertices, k, 3) == Field(face.vertices, k, 3)
    ensures Field(moved.vertices, k, 4) == Field(face.vertices, k, 4)
    ensures Field(moved.vertices, k, 0) == Field(face.vertices, k, 0) + x
  {
    assert (5 * k + 3) % 5 == 3 && (5 * k + 4) % 5 == 4 && (5 * k) % 5 == 0;
  }
}
