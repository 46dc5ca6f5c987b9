module Wrappers {
  datatype Option<+T> = None | Some(value: T)

  /** The sequence with the first `x` taken out. */
  function Without<T(==)>(s: seq<T>, x: T): seq<T> {
    if s == [] then [] else if s[0] == x then s[1..] else [s[0]] + Without(s[1..], x)
  }
}
