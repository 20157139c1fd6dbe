/** Truth values as numbers, for counting laws. */
module Counting {
  function Tally(b: bool): nat { if b then 1 else 0 }
}
