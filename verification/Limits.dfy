/** Limits of the API's contract that more than one module needs. */
module Limits {
  const MAX_REVISION := 0x1F_FFFF_FFFF_FFFF // 2^53 - 1, the largest integer JSON represents exactly
}
