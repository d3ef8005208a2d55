/** Names shared by everything that handles chunks. */
module Chunks {

  /** Chunk `index` of the file stored under the cache key `key`. */
  datatype ChunkId = ChunkId(key: string, index: nat)
}
