/** Characters as Rust strings see them. */
module Texts {
  /** The characters that trimming removes (Unicode White_Space). */
  predicate IsSpace(c: char) {
    var n := c as int;
    0x9 <= n <= 0xd || n == 0x20 || n == 0x85 || n == 0xa0 || n == 0x1680 || 0x2000 <= n <= 0x200a ||
    n == 0x2028 || n == 0x2029 || n == 0x202f || n == 0x205f || n == 0x3000
  }

  /** The length in bytes. */
  function Utf8(s: string): nat {
    if |s| == 0 then 0
    else
      var c := s[0] as int;
      (if c < 0x80 then 1 else if c < 0x800 then 2 else if c < 0x10000 then 3 else 4) + Utf8(s[1..])
  }

  /** One character in UTF-8. */
  function Encoded(c: char): seq<int> {
    var n := c as int;
    if n < 0x80 then [n]
    else if n < 0x800 then [0xc0 + n / 64, 0x80 + n % 64]
    else if n < 0x10000 then [0xe0 + n / 4096, 0x80 + n / 64 % 64, 0x80 + n % 64]
    else [0xf0 + n / 262144, 0x80 + n / 4096 % 64, 0x80 + n / 64 % 64, 0x80 + n % 64]
  }

  /** Read a character back: the first byte gives the length, the others six bits each. */
  function Decoded(b: seq<int>): int {
    if |b| == 1 && b[0] < 0x80 then b[0]
    else if |b| == 2 && 0xc0 <= b[0] < 0xe0 then (b[0] - 0xc0) * 64 + (b[1] - 0x80)
    else if |b| == 3 && 0xe0 <= b[0] < 0xf0 then (b[0] - 0xe0) * 4096 + (b[1] - 0x80) * 64 + (b[2] - 0x80)
    else if |b| == 4 && 0xf0 <= b[0] < 0xf8 then
      (b[0] - 0xf0) * 262144 + (b[1] - 0x80) * 4096 + (b[2] - 0x80) * 64 + (b[3] - 0x80)
    else -1
  }

  lemma EncodedIsDecoded(c: char)
    ensures Decoded(Encoded(c)) == c as int
    ensures forall i | 1 <= i < |Encoded(c)| :: 0x80 <= Encoded(c)[i] < 0xc0
  {
    var n := c as int;
    assert n < 0x110000;
    assert n == n / 64 * 64 + n % 64 && n / 64 == n / 64 / 64 * 64 + n / 64 % 64;
    assert n / 64 / 64 == n / 4096 && n / 4096 == n / 4096 / 64 * 64 + n / 4096 % 64;
    assert n / 4096 / 64 == n / 262144;
  }

  function EncodedText(s: string): seq<int> {
    if |s| == 0 then [] else Encoded(s[0]) + EncodedText(s[1..])
  }

  /** `Utf8` is the length of the encoding. */
  lemma {:induction false} Utf8IsEncodedLength(s: string)
    ensures Utf8(s) == |EncodedText(s)|
  {
    if |s| > 0 {
      Utf8IsEncodedLength(s[1..]);
    }
  }
}
