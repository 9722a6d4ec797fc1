module Base {
  /** A value that may be absent: Go's nil pointer, or "" where it means nothing is there. */
  datatype Option<+T> = None | Some(value: T)

  function Min(a: real, b: real): real { if a <= b then a else b }

  function Max(a: real, b: real): real { if a >= b then a else b }
}
