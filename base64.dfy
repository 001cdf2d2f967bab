/** Base 64 encoding as section 4 of RFC 4648 defines it (the alphabet
    `A-Z a-z 0-9 + /`, with `=` padding), as `base64.b64encode` applies it,
    and a strict decoder that inverts it. */
module Base64 {

  newtype byte = x: int | 0 <= x < 256

  /** The character for a 6-bit value, as in table 1 of section 4 of
      RFC 4648. */
  function Char(v: int): (c: char)
    requires 0 <= v < 64
  {
    if v < 26 then (65 + v) as char
    else if v < 52 then (97 + v - 26) as char
    else if v < 62 then (48 + v - 52) as char
    else if v == 62 then '+'
    else '/'
  }

  /** The 6-bit value of an alphabet character. */
  function Value(c: char): (r: Option<int>)
    ensures r.Some? ==> 0 <= r.value < 64 && Char(r.value) == c
  {
    if 'A' <= c <= 'Z' then Some(c as int - 65)
    else if 'a' <= c <= 'z' then Some(c as int - 97 + 26)
    else if '0' <= c <= '9' then Some(c as int - 48 + 52)
    else if c == '+' then Some(62)
    else if c == '/' then Some(63)
    else None
  }

  lemma ValueOfChar(v: int)
    requires 0 <= v < 64
    ensures Value(Char(v)) == Some(v)
  {
  }

  datatype Option<+T> = None | Some(value: T)

  /** A character of the encoded alphabet, padding included. */
  predicate IsEncodingChar(c: char) {
    'A' <= c <= 'Z' || 'a' <= c <= 'z' || '0' <= c <= '9' || c == '+' || c == '/' || c == '='
  }

  /** The four characters for three bytes: each character carries six of
      their 24 bits, most significant first. */
  function Quantum(b0: int, b1: int, b2: int): (r: string)
    requires 0 <= b0 < 256 && 0 <= b1 < 256 && 0 <= b2 < 256
    ensures |r| == 4
  {
    [Char(b0 / 4), Char(b0 % 4 * 16 + b1 / 16), Char(b1 % 16 * 4 + b2 / 64), Char(b2 % 64)]
  }

  /** `base64.b64encode(bytes).decode('utf-8')`: each group of three bytes
      becomes four characters, and a final group of one or two bytes is
      zero-filled and padded with `=`. */
  function Encode(b: seq<byte>): (r: string)
    decreases |b|
  {
    if |b| == 0 then ""
    else if |b| == 1 then Quantum(b[0] as int, 0, 0)[..2] + "=="
    else if |b| == 2 then Quantum(b[0] as int, b[1] as int, 0)[..3] + "="
    else Quantum(b[0] as int, b[1] as int, b[2] as int) + Encode(b[3..])
  }

  /** Four characters per started group of three bytes. */
  lemma {:induction false} EncodeLength(b: seq<byte>)
    ensures |Encode(b)| == (|b| + 2) / 3 * 4
    decreases |b|
  {
    if |b| == 1 {
      assert |Quantum(b[0] as int, 0, 0)[..2] + "=="| == 4;
    } else if |b| == 2 {
      assert |Quantum(b[0] as int, b[1] as int, 0)[..3] + "="| == 4;
    } else if |b| >= 3 {
      EncodeLength(b[3..]);
      var groups := (|b| - 1) / 3;
      assert (|b[3..]| + 2) / 3 == groups && (|b| + 2) / 3 == groups + 1;
      assert |Encode(b)| == 4 + |Encode(b[3..])|;
    }
  }

  /** The output uses only `A-Za-z0-9+/=`. */
  lemma {:induction false} EncodeAlphabet(b: seq<byte>)
    ensures forall i :: 0 <= i < |Encode(b)| ==> IsEncodingChar(Encode(b)[i])
    decreases |b|
  {
    if |b| >= 3 {
      EncodeAlphabet(b[3..]);
      var q := Quantum(b[0] as int, b[1] as int, b[2] as int);
      assert forall i :: 0 <= i < 4 ==> IsEncodingChar(q[i]);
      assert forall i :: 4 <= i < |Encode(b)| ==> Encode(b)[i] == Encode(b[3..])[i - 4];
    }
  }

  // ---------------------------------------------------------------------
  // Strict decoding.

  /** The three bytes four 6-bit values carry. */
  function Group(a: int, b: int, c: int, d: int): seq<byte>
    requires 0 <= a < 64 && 0 <= b < 64 && 0 <= c < 64 && 0 <= d < 64
  {
    [(a * 4 + b / 16) as byte, (b % 16 * 16 + c / 4) as byte, (c % 4 * 64 + d) as byte]
  }

  /** The bytes of four characters, of which the last `pad` are `=`. */
  function DecodeQuantum(s: string, pad: nat): Option<seq<byte>>
    requires |s| == 4 && pad <= 2
  {
    var c2 := if pad == 2 then 'A' else s[2];
    var c3 := if pad >= 1 then 'A' else s[3];
    match (Value(s[0]), Value(s[1]), Value(c2), Value(c3))
    case (Some(a), Some(b), Some(c), Some(d)) => Some(Group(a, b, c, d)[..3 - pad])
    case _ => None
  }

  /** The bytes of a text in the encoded form: padding only in the last
      group, `==` after one byte and `=` after two. */
  function Decode(s: string): Option<seq<byte>>
    decreases |s|
  {
    if s == [] then Some([])
    else if |s| < 4 then None
    else if |s| == 4 && s[2] == '=' && s[3] == '=' then DecodeQuantum(s, 2)
    else if |s| == 4 && s[3] == '=' then DecodeQuantum(s, 1)
    else
      match (DecodeQuantum(s[..4], 0), Decode(s[4..]))
      case (Some(group), Some(rest)) => Some(group + rest)
      case _ => None
  }

  lemma QuantumGroup(b0: int, b1: int, b2: int)
    requires 0 <= b0 < 256 && 0 <= b1 < 256 && 0 <= b2 < 256
    ensures Group(b0 / 4, b0 % 4 * 16 + b1 / 16, b1 % 16 * 4 + b2 / 64, b2 % 64)
              == [b0 as byte, b1 as byte, b2 as byte]
  {
    assert (b0 % 4 * 16 + b1 / 16) / 16 == b0 % 4;
    assert (b0 % 4 * 16 + b1 / 16) % 16 == b1 / 16;
    assert (b1 % 16 * 4 + b2 / 64) / 4 == b1 % 16;
    assert (b1 % 16 * 4 + b2 / 64) % 4 == b2 / 64;
  }

  /** An unpadded group decodes to its three bytes. */
  lemma DecodeQuantumFull(b0: int, b1: int, b2: int)
    requires 0 <= b0 < 256 && 0 <= b1 < 256 && 0 <= b2 < 256
    ensures Quantum(b0, b1, b2)[3] != '='
    ensures DecodeQuantum(Quantum(b0, b1, b2), 0) == Some([b0 as byte, b1 as byte, b2 as byte])
  {
    var q := Quantum(b0, b1, b2);
    var v0, v1, v2, v3 := b0 / 4, b0 % 4 * 16 + b1 / 16, b1 % 16 * 4 + b2 / 64, b2 % 64;
    assert q[0] == Char(v0) && q[1] == Char(v1) && q[2] == Char(v2) && q[3] == Char(v3);
    ValueOfChar(v0);
    ValueOfChar(v1);
    ValueOfChar(v2);
    ValueOfChar(v3);
    assert Value(q[3]) == Some(v3) && Value('=') == None;
    var g := Group(v0, v1, v2, v3);
    assert DecodeQuantum(q, 0) == Some(g[..3]);
    assert g[..3] == g;
    QuantumGroup(b0, b1, b2);
  }

  /** A full group followed by more text decodes group by group. */
  lemma DecodeFullGroup(q: string, rest: string)
    requires |q| == 4 && q[3] != '='
    ensures Decode(q + rest) ==
      match (DecodeQuantum(q, 0), Decode(rest))
      case (Some(group), Some(tail)) => Some(group + tail)
      case _ => None
  {
    var s := q + rest;
    assert s[..4] == q && s[4..] == rest && s[3] == q[3];
  }

  /** One byte: two characters and `==`. */
  lemma DecodeEncodeOne(b: seq<byte>)
    requires |b| == 1
    ensures Decode(Encode(b)) == Some(b)
  {
    var x := b[0] as int;
    var v0, v1 := x / 4, x % 4 * 16;
    assert 0 / 16 == 0 && 0 % 16 * 4 + 0 / 64 == 0 && 0 % 64 == 0;
    var s := Encode(b);
    assert s == [Char(v0), Char(v1), '=', '='];
    ValueOfChar(v0);
    ValueOfChar(v1);
    assert v1 / 16 == x % 4;
    var g := Group(v0, v1, 0, 0);
    assert g[0] == x as byte;
    assert Decode(s) == DecodeQuantum(s, 2) == Some(g[..1]);
    assert g[..1] == [x as byte] == b;
  }

  /** Two bytes: three characters and `=`. */
  lemma DecodeEncodeTwo(b: seq<byte>)
    requires |b| == 2
    ensures Decode(Encode(b)) == Some(b)
  {
    var x, y := b[0] as int, b[1] as int;
    var v0, v1, v2 := x / 4, x % 4 * 16 + y / 16, y % 16 * 4 + 0 / 64;
    var s := Encode(b);
    assert s == [Char(v0), Char(v1), Char(v2), '='];
    ValueOfChar(v0);
    ValueOfChar(v1);
    ValueOfChar(v2);
    assert Value(s[2]) == Some(v2) && Value('=') == None;
    QuantumGroup(x, y, 0);
    var g := Group(v0, v1, v2, 0 % 64);
    assert g == [x as byte, y as byte, 0 as byte];
    assert Decode(s) == DecodeQuantum(s, 1) == Some(g[..2]);
    assert g[..2] == [x as byte, y as byte] == b;
  }

  /** Decoding undoes encoding. */
  lemma {:induction false} DecodeEncode(b: seq<byte>)
    ensures Decode(Encode(b)) == Some(b)
    decreases |b|
  {
    if |b| == 0 {
      assert Encode(b) == "";
    } else if |b| == 1 {
      DecodeEncodeOne(b);
    } else if |b| == 2 {
      DecodeEncodeTwo(b);
    } else {
      DecodeEncodeGroup(b);
    }
  }

  /** The inductive step: a full group, then the encoding of the rest. */
  lemma {:induction false} DecodeEncodeGroup(b: seq<byte>)
    requires |b| >= 3
    ensures Decode(Encode(b)) == Some(b)
    decreases |b|, 0
  {
    var head := b[..3];
    assert head == [b[0] as int as byte, b[1] as int as byte, b[2] as int as byte];
    var q := Quantum(b[0] as int, b[1] as int, b[2] as int);
    var rest := Encode(b[3..]);
    assert Encode(b) == q + rest;
    DecodeQuantumFull(b[0] as int, b[1] as int, b[2] as int);
    DecodeEncode(b[3..]);
    DecodeFullGroup(q, rest);
    assert Decode(q + rest) == Some(head + b[3..]);
    assert head + b[3..] == b;
  }
}
