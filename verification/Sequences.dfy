module Sequences {
  function Elements<T(==)>(s: seq<T>): set<T> {
    set x | x in s
  }
}
