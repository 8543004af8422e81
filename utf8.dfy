// The UTF-8 bytes behind a Rust `&str`. `len`, `index` on a byte range
// and `as_bytes` all work on these bytes, not on the characters.
module Utf8
{
  /// A byte.
  type Byte = b: int | 0 <= b < 0x100

  /// A continuation byte, 0b10xxxxxx: never the first byte of a character.
  predicate Continuation(b: int)
  {
    0x80 <= b < 0xC0
  }

  /// The encoding of one character: itself below 0x80, otherwise a lead
  /// byte followed by one to three continuation bytes.
  function EncodeChar(c: char): (bytes: seq<Byte>)
    ensures 1 <= |bytes| <= 4
    ensures |bytes| == 1 <==> c as int < 0x80
    ensures |bytes| == 1 ==> bytes[0] == c as int
    ensures !Continuation(bytes[0])
    ensures forall i :: 1 <= i < |bytes| ==> Continuation(bytes[i])
  {
    var n := c as int;
    if n < 0x80 then [n]
    else if n < 0x800 then [0xC0 + n / 0x40, 0x80 + n % 0x40]
    else if n < 0x1_0000 then [0xE0 + n / 0x1000, 0x80 + n / 0x40 % 0x40, 0x80 + n % 0x40]
    else [0xF0 + n / 0x4_0000, 0x80 + n / 0x1000 % 0x40, 0x80 + n / 0x40 % 0x40, 0x80 + n % 0x40]
  }

  /// The encoding of a string: its characters' encodings in order. It
  /// has at least one byte per character.
  function Encode(s: string): (bytes: seq<Byte>)
    ensures |bytes| >= |s|
    ensures s != [] ==> !Continuation(bytes[0])
  {
    if s == [] then [] else EncodeChar(s[0]) + Encode(s[1..])
  }

  /// Only ASCII characters.
  predicate Ascii(s: string)
  {
    forall i :: 0 <= i < |s| ==> s[i] as int < 0x80
  }

  /// A string has as many bytes as characters exactly when it is ASCII,
  /// and then each byte is its character's code.
  lemma {:induction false} AsciiEncoding(s: string)
    ensures |Encode(s)| == |s| <==> Ascii(s)
    ensures Ascii(s) ==> forall i :: 0 <= i < |s| ==> Encode(s)[i] == s[i] as int
  {
    if s != [] {
      AsciiEncoding(s[1..]);
      var head := EncodeChar(s[0]);
      assert Encode(s) == head + Encode(s[1..]);
      if Ascii(s) {
        assert Ascii(s[1..]) by {
          forall i | 0 <= i < |s[1..]| ensures s[1..][i] as int < 0x80 {
            assert s[1..][i] == s[i + 1];
          }
        }
        forall i | 0 <= i < |s| ensures Encode(s)[i] == s[i] as int {
          if i > 0 {
            assert s[1..][i - 1] == s[i];
          }
        }
      } else if |Encode(s)| == |s| {
        assert |head| == 1 && |Encode(s[1..])| == |s[1..]|;
        assert Ascii(s[1..]);
        forall i | 0 <= i < |s| ensures s[i] as int < 0x80 {
          if i > 0 {
            assert s[1..][i - 1] == s[i];
          }
        }
        assert false;
      }
    }
  }

  /// Encoding a concatenation concatenates the encodings.
  lemma {:induction false} EncodeAppend(s: string, t: string)
    ensures Encode(s + t) == Encode(s) + Encode(t)
  {
    if s != [] {
      assert (s + t)[1..] == s[1..] + t;
      EncodeAppend(s[1..], t);
    } else {
      assert s + t == t;
    }
  }

  /// A byte offset on a character boundary: the end of the bytes, or a
  /// byte that starts a character.
  predicate Boundary(bytes: seq<Byte>, i: nat)
  {
    i == |bytes| || (i < |bytes| && !Continuation(bytes[i]))
  }
}
