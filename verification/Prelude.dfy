/** Vocabulary shared by every module: optional values, byte strings and the outcome of a fallible
    engine call. */
module Prelude {

  datatype Option<+T> = None | Some(value: T)

  type Byte = b: int | 0 <= b < 256

  /** The bytes of an encoded collection value. A nil Go slice and an empty one are both `[]`. */
  type Bytes = seq<Byte>

  /** A Go string is a sequence of bytes too, and `<` compares bytes. */
  type GoString = Bytes

  /** The bytes of a string constant. */
  function Ascii(s: string): (b: Bytes)
    requires forall i :: 0 <= i < |s| ==> s[i] < 128 as char
    ensures |b| == |s| && forall i :: 0 <= i < |s| ==> b[i] == s[i] as int
  {
    seq(|s|, i requires 0 <= i < |s| => s[i] as int)
  }

  /** A concatenation of parts of known length determines them. */
  lemma SplitAt(x: Bytes, r: Bytes, y: Bytes, s: Bytes)
    requires x + r == y + s && |x| == |y|
    ensures x == y && r == s
  {
    assert (x + r)[..|x|] == x && (y + s)[..|x|] == y;
    assert (x + r)[|x|..] == r && (y + s)[|x|..] == s;
  }

  /** Why a sync pass stopped early. */
  datatype Error =
    | Rollback      // the server went back behind something already recorded
    | Unauthorized  // the bearer token was rejected
    | Unavailable   // network, store or backend failure
    | MergeFailed   // the application's merge function returned an error
    | NotFound      // no stored item, or no current backend value
    | BadEncoding   // a value the codec rejects

  datatype Status = Ok | Failed(error: Error)

  /** The answer to a request, or why there was none. */
  datatype Reply<+T> = Answer(value: T) | NoAnswer(error: Error)
}
