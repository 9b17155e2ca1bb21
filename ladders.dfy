/**
 * Score ranges used to state interpretation ladders independently of the
 * if-chains that compute them: a ladder is correct when every score lies in
 * the range of the band it is assigned, and in no other band's range.
 */
module Ladders {

  /** An integer range, unbounded on at most one side. */
  datatype Range = AtMost(hi: int) | Between(lo: int, hi: int) | AtLeast(lo: int)

  predicate Contains(r: Range, score: int) {
    match r
    case AtMost(hi) => score <= hi
    case Between(lo, hi) => lo <= score <= hi
    case AtLeast(lo) => lo <= score
  }
}
