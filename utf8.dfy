/**
 * UTF-8, as `TextEncoder.encode` produces it (section 3 of RFC 3629): the
 * worker encodes the text it hands to Yosys on standard input this way
 * (src/worker.ts). Dafny's `char` is a Unicode scalar value, so every
 * string here is well formed and encodes without replacement characters.
 */
module Utf8 {
  import opened Wrappers

  newtype byte = x: int | 0 <= x < 256

  /** The encoding of one scalar value: one to four bytes. */
  function EncodeChar(c: char): (e: seq<byte>)
    ensures 1 <= |e| <= 4
    ensures |e| == 1 <==> (c as int) < 0x80
  {
    var n := c as int;
    if n < 0x80 then [n as byte]
    else if n < 0x800 then [(0xC0 + n / 64) as byte, (0x80 + n % 64) as byte]
    else if n < 0x10000 then [(0xE0 + n / 4096) as byte, (0x80 + n / 64 % 64) as byte, (0x80 + n % 64) as byte]
    else [(0xF0 + n / 262144) as byte, (0x80 + n / 4096 % 64) as byte, (0x80 + n / 64 % 64) as byte, (0x80 + n % 64) as byte]
  }

  /** `TextEncoder.encode`: the encodings of the characters, in order. */
  function Encode(s: string): (e: seq<byte>)
    ensures |s| <= |e| <= 4 * |s|
    ensures e == [] <==> s == []
  {
    if s == [] then [] else EncodeChar(s[0]) + Encode(s[1..])
  }

  /** The number of bytes of the sequence that a lead byte begins. */
  function SequenceLength(lead: byte): nat
  {
    if lead < 0x80 then 1 else if lead < 0xE0 then 2 else if lead < 0xF0 then 3 else 4
  }

  /** The scalar value a sequence of bytes carries, read off its lead and continuation bytes. */
  function SequenceValue(b: seq<byte>): int
    requires |b| >= 1 && |b| == SequenceLength(b[0])
  {
    if |b| == 1 then b[0] as int
    else if |b| == 2 then (b[0] as int - 0xC0) * 64 + (b[1] as int - 0x80)
    else if |b| == 3 then (b[0] as int - 0xE0) * 4096 + (b[1] as int - 0x80) * 64 + (b[2] as int - 0x80)
    else (b[0] as int - 0xF0) * 262144 + (b[1] as int - 0x80) * 4096 + (b[2] as int - 0x80) * 64 + (b[3] as int - 0x80)
  }

  predicate IsScalarValue(n: int)
  {
    0 <= n < 0xD800 || 0xE000 <= n < 0x110000
  }

  /** Reads bytes back into text; a truncated sequence or one that carries no scalar value is refused. */
  function Decode(b: seq<byte>): Option<string>
    decreases |b|
  {
    if b == [] then Some([])
    else
      var k := SequenceLength(b[0]);
      if |b| < k || !IsScalarValue(SequenceValue(b[..k])) then None
      else
        match Decode(b[k..])
        case None => None
        case Some(rest) => Some([SequenceValue(b[..k]) as char] + rest)
  }

  /** A character's encoding announces its own length and carries its scalar value. */
  lemma EncodeCharShape(c: char)
    ensures |EncodeChar(c)| == SequenceLength(EncodeChar(c)[0])
    ensures SequenceValue(EncodeChar(c)) == c as int
  {
    var n := c as int;
    var e := EncodeChar(c);
    if n >= 0x800 {
      var q := n / 64;
      assert n == q * 64 + n % 64;
      assert q == (n / 4096) * 64 + q % 64;
      if n >= 0x10000 {
        var r := n / 4096;
        assert r == (n / 262144) * 64 + r % 64;
        assert n / 4096 == r && n / 64 % 64 == q % 64;
        assert SequenceValue(e) == (n / 262144) * 262144 + (r % 64) * 4096 + (q % 64) * 64 + n % 64;
      } else {
        assert SequenceValue(e) == (n / 4096) * 4096 + (q % 64) * 64 + n % 64;
      }
    }
  }

  /** The encoding of `s` is between one and four bytes per character, and one per character exactly when all are ASCII. */
  lemma {:induction false} EncodeLength(s: string)
    ensures |s| <= |Encode(s)| <= 4 * |s|
    ensures |Encode(s)| == |s| <==> forall i :: 0 <= i < |s| ==> (s[i] as int) < 0x80
    decreases |s|
  {
    if s != [] {
      EncodeLength(s[1..]);
      if forall i :: 0 <= i < |s| ==> (s[i] as int) < 0x80 {
        assert forall i :: 0 <= i < |s[1..]| ==> (s[1..][i] as int) < 0x80 by {
          forall i | 0 <= i < |s[1..]| ensures (s[1..][i] as int) < 0x80 {
            assert s[1..][i] == s[i + 1];
          }
        }
      }
    }
  }

  /** Decoding the encoding of `s` gives `s` back. */
  lemma {:induction false} DecodeEncode(s: string)
    ensures Decode(Encode(s)) == Some(s)
    decreases |s|
  {
    if s != [] {
      var e, rest := EncodeChar(s[0]), Encode(s[1..]);
      var b := e + rest;
      EncodeCharShape(s[0]);
      assert b[0] == e[0];
      assert b[..|e|] == e && b[|e|..] == rest;
      DecodeEncode(s[1..]);
      assert s == [s[0]] + s[1..];
    }
  }

  /** Different texts have different encodings. */
  lemma EncodeInjective(s: string, t: string)
    ensures Encode(s) == Encode(t) <==> s == t
  {
    if Encode(s) == Encode(t) {
      DecodeEncode(s);
      DecodeEncode(t);
    }
  }

  /** The encoding of a concatenation is the concatenation of the encodings. */
  lemma {:induction false} EncodeAppend(s: string, t: string)
    ensures Encode(s + t) == Encode(s) + Encode(t)
    decreases |s|
  {
    if s != [] {
      assert (s + t)[0] == s[0] && (s + t)[1..] == s[1..] + t;
      EncodeAppend(s[1..], t);
    } else {
      assert s + t == t;
    }
  }
}
