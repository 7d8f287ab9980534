/**
 * The ray hits the dig and build handlers read: each names an instance of
 * a chunk's mesh (the mesh's chunk and tile type, the instance slot), the
 * height of the hit point and the normal of the face hit.
 */
module Hits {
  import opened Blocks
  import opened Chunks
  import opened Worlds

  /** One component of a face normal against the thresholds: above 0.5, below -0.5, or neither. */
  datatype Band = Above | Below | Within

  /** A face normal; x and z are horizontal, y is vertical. */
  datatype Normal = Normal(x: Band, y: Band, z: Band)

  /** One ray hit: the height of the hit point, the hit mesh's chunk and tile type, the instance slot, the face normal. */
  datatype Hit = Hit(height: real, chunk: int, tileType: BlockType, slot: int, normal: Normal)

  /** The hit names a stored instance: a chunk of the world, a type with a mesh, a slot of that type's list. */
  predicate HitOk(ws: WorldState, h: Hit)
  {
    0 <= h.chunk < |ws.chunks| && HasMesh(h.tileType) && 0 <= h.slot < |CellsOf(ws.chunks[h.chunk], h.tileType)|
  }

  predicate HitsOk(ws: WorldState, hits: seq<Hit>)
  {
    forall n :: 0 <= n < |hits| ==> HitOk(ws, hits[n])
  }

  /** The coordinates stored for the hit instance. */
  function HitCell(ws: WorldState, h: Hit): Coord
    requires HitOk(ws, h)
  {
    CellsOf(ws.chunks[h.chunk], h.tileType)[h.slot]
  }
}
