/**
 * Grid coordinates and the block-classification facade that every movement
 * queries. The world is an oracle: a total function from a cell to its
 * classification, supplied by the caller.
 */
module Blocks {

  /** An integer block coordinate (or an integer offset between two of them). */
  datatype Vec3 = Vec3(x: int, y: int, z: int) {
    function Offset(dx: int, dy: int, dz: int): Vec3 {
      Vec3(x + dx, y + dy, z + dz)
    }

    function Plus(v: Vec3): Vec3 {
      Vec3(x + v.x, y + v.y, z + v.z)
    }
  }

  /** A continuous position, such as the exit point of a move. */
  datatype Point = Point(x: real, y: real, z: real)

  /** Horizontal centre of a cell at the height of its base: `pos.offset(0.5, 0, 0.5)`. */
  function Centre(p: Vec3): Point {
    Point(p.x as real + 0.5, p.y as real, p.z as real + 0.5)
  }

  /** What the block cache knows about one cell. */
  datatype Classes = Classes(physical: bool, liquid: bool, isReplaceable: bool, safe: bool, height: real)

  /** A classified cell together with its position, as `getBlockInfo` returns it. */
  datatype BlockInfo = BlockInfo(physical: bool, liquid: bool, isReplaceable: bool, safe: bool, height: real, position: Vec3)

  /** The block-classification oracle. */
  type Cells = Vec3 -> Classes

  /** The classification of cell `p`, carrying `p` as its position. */
  function InfoAt(cells: Cells, p: Vec3): (b: BlockInfo)
    ensures b.position == p
  {
    var c := cells(p);
    BlockInfo(c.physical, c.liquid, c.isReplaceable, c.safe, c.height, p)
  }
}
