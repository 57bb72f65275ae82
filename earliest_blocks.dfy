/** The earliest six-variant block table (models/block_type.rs): one row per block, whatever the face. */
module EarliestBlocks {
  import opened Wrappers

  datatype BlockType = Grass | Dirt | Log | Leaves | Stone | Air

  /** `block_to_uv`: the atlas row of a block; `Air` has none. */
  function BlockToUv(b: BlockType): (r: Result<nat>)
    ensures r.Err? <==> b == Air
    ensures r.Ok? ==> r.value < 5
  {
    match b
    case Dirt => Ok(0)
    case Grass => Ok(1)
    case Stone => Ok(2)
    case Log => Ok(3)
    case Leaves => Ok(4)
    case Air => Err(NoTexture)
  }

  /** The five textured blocks have pairwise distinct rows. */
  lemma DistinctRows(a: BlockType, b: BlockType)
    requires a != Air && b != Air && a != b
    ensures BlockToUv(a) != BlockToUv(b)
  {
  }
}
