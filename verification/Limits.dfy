/** Limits that the writing and the reading side share. */
module Limits {

  /** `MAX_TREE_DEPTH`: the root's entries are at depth 1. */
  const MAX_TREE_DEPTH: nat := 256
}
