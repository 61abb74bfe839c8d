/** Datatypes shared by every module. */
module Prelude {
  datatype Option<+T> = None | Some(value: T)

  lemma Associative<T>(a: seq<T>, b: seq<T>, c: seq<T>)
    ensures (a + b) + c == a + (b + c)
  {
  }

  /** A character goes in front of the first piece, whatever follows. */
  lemma PiecesGrow(c: char, rest: seq<string>, more: seq<string>)
    requires rest != []
    ensures [""] + (rest + more) == ([""] + rest) + more
    ensures [[c] + (rest + more)[0]] + (rest + more)[1..] == ([[c] + rest[0]] + rest[1..]) + more
  {
    assert (rest + more)[1..] == rest[1..] + more;
    Associative([[c] + rest[0]], rest[1..], more);
  }
}
