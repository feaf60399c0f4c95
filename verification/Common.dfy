/** Small pieces that every component of the model shares. */
module Common {

  datatype Option<+T> = None | Some(value: T) {
    function GetOr(default: T): T {
      match this
      case Some(v) => v
      case None => default
    }
  }

  /** Applies `f` to every value of a map. */
  function Project<K, V, U>(m: map<K, V>, f: V -> U): map<K, U> {
    map k | k in m :: f(m[k])
  }

  lemma ProjectUpdate<K, V, U>(m: map<K, V>, k: K, v: V, f: V -> U)
    ensures Project(m[k := v], f) == Project(m, f)[k := f(v)]
  {
  }

  function Min(a: int, b: int): int {
    if a < b then a else b
  }

  function Max(a: int, b: int): int {
    if a < b then b else a
  }
}
