/** Small shared vocabulary: the outcome of a fallible step and Kotlin's notion of a blank string. */
module Common {

  datatype Option<+T> = None | Some(value: T)

  /** A completed future: either a value or the exception it failed with. */
  datatype Result<+T, +E> = Ok(value: T) | Err(error: E)

  /** Kotlin's Char.isWhitespace: Java's Character.isWhitespace or Character.isSpaceChar. */
  predicate IsWhitespace(c: char) {
    var n := c as int;
    || 0x09 <= n <= 0x0D
    || 0x1C <= n <= 0x20
    || n == 0xA0
    || n == 0x1680
    || 0x2000 <= n <= 0x200A
    || n == 0x2028 || n == 0x2029 || n == 0x202F || n == 0x205F
    || n == 0x3000
  }

  /** Kotlin's CharSequence.isBlank: empty, or nothing but whitespace. */
  predicate IsBlank(s: string) {
    forall i :: 0 <= i < |s| ==> IsWhitespace(s[i])
  }

  function Min(a: int, b: int): int {
    if a <= b then a else b
  }
}
