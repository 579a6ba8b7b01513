/** What several of the models share. */
module Common {
  datatype Option<T> = None | Some(value: T)

  /** A sequence with one place taken out. */
  function Without<T>(s: seq<T>, i: nat): seq<T>
    requires i < |s|
  {
    s[..i] + s[i + 1..]
  }
}
