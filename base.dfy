/** Small shared vocabulary: Swift optionals and raw bytes. */
module Base {

  /** A Swift optional: `nil` is `None`. */
  datatype Option<+T> = None | Some(value: T)

  /** One octet of a `Data` buffer. */
  newtype byte = x: int | 0 <= x < 256
}

/**
 * Header collections as the transports hand them over: every header name maps
 * to the list of values received for it.
 */
module HeaderMaps {

  /** Every header carries at least one value, so `value[0]` is defined. */
  predicate NonEmptyValues(h: map<string, seq<string>>)
  {
    forall k :: k in h ==> |h[k]| > 0
  }

  /** The flattened header dictionary: each name keeps the first of its values. */
  function FirstValues(h: map<string, seq<string>>): map<string, string>
    requires NonEmptyValues(h)
  {
    map k | k in h :: h[k][0]
  }
}
