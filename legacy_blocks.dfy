/** The older ten-variant block table (models/core/block_type.rs). */
module LegacyBlocks {
  import opened Wrappers
  import opened Faces
  import Blocks

  datatype BlockType = Grass | Dirt | Log | Leaves | Stone | Air | Orange | Black | DarkOrange | Water

  /** `block_to_uv`: the atlas row of a face; `Air` has none. */
  function BlockToUv(b: BlockType, face: Face): (r: Result<nat>)
    ensures r.Err? <==> b == Air
    ensures r.Ok? ==> r.value <= 11
  {
    match b
    case Dirt => Ok(0)
    case Grass =>
      (match face
       case Top => Ok(1)
       case Bottom => Ok(0)
       case _ => Ok(6))
    case Stone => Ok(2)
    case Log =>
      (match face
       case Top | Bottom => Ok(3)
       case _ => Ok(4))
    case Leaves => Ok(5)
    case Orange => Ok(8)
    case DarkOrange => Ok(9)
    case Black => Ok(10)
    case Water => Ok(11)
    case Air => Err(NoTexture)
  }

  /** The same-named variant of the current table. */
  function Widen(b: BlockType): (r: Blocks.BlockType)
    ensures Blocks.Code(r) < 10
    ensures (r == Blocks.Air) == (b == Air) && (r == Blocks.Water) == (b == Water)
  {
    match b
    case Grass => Blocks.Grass
    case Dirt => Blocks.Dirt
    case Log => Blocks.Log
    case Leaves => Blocks.Leaves
    case Stone => Blocks.Stone
    case Air => Blocks.Air
    case Orange => Blocks.Orange
    case Black => Blocks.Black
    case DarkOrange => Blocks.DarkOrange
    case Water => Blocks.Water
  }

  /** Widening keeps the declaration order, so the codes agree too. */
  lemma WidenIsInjective(a: BlockType, b: BlockType)
    requires Widen(a) == Widen(b)
    ensures a == b
  {
  }

  lemma GrassAndLogRows(face: Face)
    ensures BlockToUv(Grass, face) == Ok(if face == Top then 1 else if face == Bottom then 0 else 6)
    ensures BlockToUv(Log, face) == Ok(if face in {Top, Bottom} then 3 else 4)
  {
  }

  /** Dirt, Stone, Leaves, Orange, DarkOrange, Black and Water do not depend on the face. */
  lemma UniformRows(face: Face)
    ensures BlockToUv(Dirt, face) == Ok(0) && BlockToUv(Stone, face) == Ok(2)
    ensures BlockToUv(Leaves, face) == Ok(5) && BlockToUv(Orange, face) == Ok(8)
    ensures BlockToUv(DarkOrange, face) == Ok(9) && BlockToUv(Black, face) == Ok(10)
    ensures BlockToUv(Water, face) == Ok(11)
  {
  }

  /** On the ten shared variants this table and the current one give identical rows. */
  lemma AgreesWithCurrentTable(b: BlockType, face: Face)
    ensures BlockToUv(b, face) == Blocks.BlockToUv(Widen(b), face)
  {
  }
}
