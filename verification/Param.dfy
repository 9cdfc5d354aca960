/** The sizes that the buffer cache, the log and the file layer share. */
module Param {
  const MAXOPBLOCKS: nat := 10              // blocks that one operation may log
  const LOGSIZE: nat := MAXOPBLOCKS * 3     // blocks in the log
  const NBUF: nat := MAXOPBLOCKS * 3        // buffers in the cache
}
