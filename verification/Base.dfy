/** Vocabulary shared by every component: optional values, results, bytes and Go's notion of blank text. */
module Base {
  type Byte = x: int | 0 <= x < 256
  type Bytes = seq<Byte>
  type Id = string
  type Time = int

  datatype Option<+T> = None | Some(value: T)

  datatype Error = InvalidArgument | NotFound | Conflict | Internal

  datatype Result<+T> = Ok(value: T) | Err(error: Error)

  /** An encrypted field as the server and the client store it. */
  datatype Field = Field(ciphertext: Bytes, nonce: Bytes)

  /** unicode.IsSpace. */
  predicate IsSpace(c: char) {
    var n := c as int;
    9 <= n <= 13 || n in {0x20, 0x85, 0xA0, 0x1680, 0x2028, 0x2029, 0x202F, 0x205F, 0x3000} || 0x2000 <= n <= 0x200A
  }

  /** strings.TrimSpace. */
  function Trim(s: string): string
    decreases |s|
  {
    if s != [] && IsSpace(s[0]) then Trim(s[1..])
    else if s != [] && IsSpace(s[|s| - 1]) then Trim(s[..|s| - 1])
    else s
  }

  /** Text order, character by character. */
  predicate TextLess(a: string, b: string)
    decreases |a|
  {
    b != "" && (a == "" || a[0] < b[0] || (a[0] == b[0] && TextLess(a[1..], b[1..])))
  }

  predicate Blank(s: string) {
    Trim(s) == ""
  }

  /** Trimmed text is blank only when empty. */
  lemma {:induction false} TrimTwice(s: string)
    ensures Trim(Trim(s)) == Trim(s)
    decreases |s|
  {
    if s != [] && IsSpace(s[0]) {
      TrimTwice(s[1..]);
    } else if s != [] && IsSpace(s[|s| - 1]) {
      TrimTwice(s[..|s| - 1]);
    }
  }
}
