/** The current block table (src/core/block_type.rs). */
module Blocks {
  import opened Wrappers
  import opened Faces

  datatype BlockType =
    | Grass | Dirt | Log | Leaves | Stone | Air | Orange | Black | DarkOrange
    | Water | Sand | Snow | Cactus | StoneBrick | Plank | Brick

  /** The enum discriminant, `block as u8`: the declaration index. */
  function Code(b: BlockType): (n: nat)
    ensures n < 16
  {
    match b
    case Grass => 0
    case Dirt => 1
    case Log => 2
    case Leaves => 3
    case Stone => 4
    case Air => 5
    case Orange => 6
    case Black => 7
    case DarkOrange => 8
    case Water => 9
    case Sand => 10
    case Snow => 11
    case Cactus => 12
    case StoneBrick => 13
    case Plank => 14
    case Brick => 15
  }

  /** `index_to_block`: the block whose discriminant is `index`, if any. */
  function IndexToBlock(index: nat): (r: Option<BlockType>)
    ensures r.Some? <==> index < 16
    ensures r.Some? ==> Code(r.value) == index
  {
    match index
    case 0 => Some(Grass)
    case 1 => Some(Dirt)
    case 2 => Some(Log)
    case 3 => Some(Leaves)
    case 4 => Some(Stone)
    case 5 => Some(Air)
    case 6 => Some(Orange)
    case 7 => Some(Black)
    case 8 => Some(DarkOrange)
    case 9 => Some(Water)
    case 10 => Some(Sand)
    case 11 => Some(Snow)
    case 12 => Some(Cactus)
    case 13 => Some(StoneBrick)
    case 14 => Some(Plank)
    case 15 => Some(Brick)
    case _ => None
  }

  /** Decoding a block's own code gives the block back. */
  lemma IndexOfCode(b: BlockType)
    ensures IndexToBlock(Code(b)) == Some(b)
  {
  }

  /** Distinct blocks have distinct codes. */
  lemma CodeInjective(a: BlockType, b: BlockType)
    requires Code(a) == Code(b)
    ensures a == b
  {
    IndexOfCode(a);
    IndexOfCode(b);
  }

  /** `block_to_uv`: the texture-atlas row of a face of a block; `Air` has none. */
  function BlockToUv(b: BlockType, face: Face): (r: Result<nat>)
    ensures r.Err? <==> b == Air
    ensures r.Err? ==> r.fault == NoTexture
    ensures r.Ok? ==> r.value <= 18
  {
    match b
    case Dirt => Ok(0)
    case Grass =>
      (match face
       case Top => Ok(1)
       case Bottom => Ok(0)
       case _ => Ok(6))
    case Stone => Ok(2)
    case Log =>
      (match face
       case Top | Bottom => Ok(3)
       case _ => Ok(4))
    case Leaves => Ok(5)
    case Orange => Ok(8)
    case DarkOrange => Ok(9)
    case Black => Ok(10)
    case Water => Ok(11)
    case Sand => Ok(12)
    case Snow =>
      (match face
       case Top => Ok(13)
       case Right | Left | Front | Back => Ok(14)
       case Bottom => Ok(0))
    case Cactus => Ok(15)
    case StoneBrick => Ok(16)
    case Plank => Ok(17)
    case Brick => Ok(18)
    case Air => Err(NoTexture)
  }

  predicate IsSide(face: Face) {
    face in {Left, Right, Front, Back}
  }

  /** Blocks whose texture differs between faces. */
  predicate FaceDependent(b: BlockType) {
    b in {Grass, Log, Snow}
  }

  lemma GrassRows(face: Face)
    ensures BlockToUv(Grass, face) == Ok(if face == Top then 1 else if face == Bottom then 0 else 6)
  {
  }

  lemma LogAndSnowRows(face: Face)
    ensures BlockToUv(Log, face) == Ok(if face in {Top, Bottom} then 3 else 4)
    ensures BlockToUv(Snow, face) == Ok(if face == Top then 13 else if face == Bottom then 0 else 14)
  {
  }

  /** Every other non-Air block has one row for all six faces. */
  lemma UniformRows(b: BlockType, f: Face, g: Face)
    requires b != Air && !FaceDependent(b)
    ensures BlockToUv(b, f) == BlockToUv(b, g)
  {
  }

  /** Row 11 belongs to Water alone, so a vertex's rows tell Water apart from every other block. */
  lemma WaterRowIsUnique(b: BlockType, f: Face)
    requires BlockToUv(b, f) == Ok(11)
    ensures b == Water
  {
  }
}
