/** Small shared value types. */
module Support {

  /** A value that may be absent (a JavaScript field that is `undefined` until first use). */
  datatype Option<+T> = None | Some(value: T)

  function Min(a: real, b: real): real { if a <= b then a else b }

  function Max(a: real, b: real): real { if a >= b then a else b }

  // The two edits of a backwards splicing loop over `current == initial[..i + 1] + rest`: at
  // position `i` the element is either replaced by its processed form or spliced out.

  lemma SpliceKeep<T>(initial: seq<T>, i: nat, rest: seq<T>, current: seq<T>, m: T)
    requires i < |initial| && current == initial[..i + 1] + rest
    ensures current[i] == initial[i]
    ensures current[i := m] == initial[..i] + ([m] + rest)
  {
    assert current[i := m] == initial[..i] + [m] + rest;
  }

  lemma SpliceDrop<T>(initial: seq<T>, i: nat, rest: seq<T>, current: seq<T>)
    requires i < |initial| && current == initial[..i + 1] + rest
    ensures current[i] == initial[i]
    ensures current[..i] + current[i + 1..] == initial[..i] + ([] + rest)
  {
    assert current[..i] == initial[..i] && current[i + 1..] == rest;
  }
}
