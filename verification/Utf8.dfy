/** UTF-8 as in RFC 3629: every scalar value has one encoding and the decoder accepts no other. */
module Utf8 {
  import opened Common

  type Byte = b: int | 0 <= b < 256

  type Bytes = seq<Byte>

  predicate Continues(b: Byte) { 0x80 <= b < 0xC0 }

  predicate IsScalar(v: int) { 0 <= v < 0xD800 || 0xE000 <= v < 0x11_0000 }

  function Encode(c: char): (r: Bytes)
    ensures 1 <= |r| <= 4
  {
    var v := c as int;
    if v < 0x80 then [v]
    else if v < 0x800 then [0xC0 + v / 0x40, Low(v)]
    else if v < 0x1_0000 then [0xE0 + v / 0x40 / 0x40, Low(v / 0x40), Low(v)]
    else [0xF0 + v / 0x40 / 0x40 / 0x40, Low(v / 0x40 / 0x40), Low(v / 0x40), Low(v)]
  }

  /** The continuation byte of the last six bits. */
  function Low(v: nat): Byte { 0x80 + v % 0x40 }

  function EncodeAll(s: string): Bytes
  {
    if s == [] then [] else Encode(s[0]) + EncodeAll(s[1..])
  }

  /** The length of a sequence that starts with this byte; 0 if none does. */
  function Length(b: Byte): nat
  {
    if b < 0x80 then 1
    else if 0xC2 <= b < 0xE0 then 2
    else if 0xE0 <= b < 0xF0 then 3
    else if 0xF0 <= b < 0xF5 then 4
    else 0
  }

  /** The scalar value of a whole sequence of the length that its first byte promises. */
  function Value(b: Bytes): int
    requires b != [] && |b| == Length(b[0])
  {
    var first: int := b[0];
    if |b| == 1 then first
    else if |b| == 2 then Join(first - 0xC0, b[1])
    else if |b| == 3 then Join(Join(first - 0xE0, b[1]), b[2])
    else Join(Join(Join(first - 0xF0, b[1]), b[2]), b[3])
  }

  /** Six more bits. */
  function Join(high: int, b: Byte): int { high * 0x40 + (b - 0x80) }

  predicate WellFormed(b: Bytes)
  {
    && b != [] && |b| == Length(b[0]) && (forall x <- b[1..] :: Continues(x))
    && IsScalar(Value(b))
    && (|b| == 3 ==> Value(b) >= 0x800)
    && (|b| == 4 ==> Value(b) >= 0x1_0000)
  }

  /** The text that the bytes encode, or `None` where a decoder would put a replacement character. */
  function Decode(b: Bytes): Option<string>
  {
    if b == [] then Some("")
    else
      var n := Length(b[0]);
      if n == 0 || |b| < n || !WellFormed(b[..n]) then None
      else
        match Decode(b[n..])
        case None => None
        case Some(rest) => Some([Value(b[..n]) as char] + rest)
  }

  lemma JoinLow(v: nat)
    ensures Join(v / 0x40, Low(v)) == v && Continues(Low(v))
  {
  }

  lemma LowJoin(high: nat, b: Byte)
    requires Continues(b)
    ensures Join(high, b) >= 0 && Join(high, b) / 0x40 == high && Low(Join(high, b)) == b
  {
  }

  lemma EncodeWellFormed(c: char)
    ensures WellFormed(Encode(c)) && Value(Encode(c)) == c as int
    ensures |Encode(c)| == Length(Encode(c)[0])
  {
    var v := c as nat;
    JoinLow(v);
    JoinLow(v / 0x40);
    JoinLow(v / 0x40 / 0x40);
    hide Join, Low;
    assert forall x <- Encode(c)[1..] :: Continues(x);
  }

  lemma ValueEncodes(b: Bytes)
    requires WellFormed(b)
    ensures Encode(Value(b) as char) == b
  {
    var v := Value(b);
    assert forall i :: 0 <= i < |b| - 1 ==> b[1..][i] == b[i + 1];
    if |b| == 2 {
      LowJoin(b[0] - 0xC0, b[1]);
    } else if |b| == 3 {
      var high := Join(b[0] - 0xE0, b[1]);
      LowJoin(b[0] - 0xE0, b[1]);
      LowJoin(high, b[2]);
    } else if |b| == 4 {
      var high := Join(b[0] - 0xF0, b[1]);
      LowJoin(b[0] - 0xF0, b[1]);
      LowJoin(high, b[2]);
      LowJoin(Join(high, b[2]), b[3]);
    }
  }

  /** Decoding undoes encoding. */
  lemma {:induction false} DecodeEncode(s: string)
    ensures Decode(EncodeAll(s)) == Some(s)
  {
    if s != [] {
      var head, tail := Encode(s[0]), EncodeAll(s[1..]);
      EncodeWellFormed(s[0]);
      DecodeEncode(s[1..]);
      hide Encode, WellFormed, Value, Length;
      assert (head + tail)[..|head|] == head && (head + tail)[|head|..] == tail;
      assert s == [s[0]] + s[1..];
    }
  }

  /** And no other bytes decode to the text. */
  lemma {:induction false} EncodeDecode(b: Bytes)
    requires Decode(b).Some?
    ensures EncodeAll(Decode(b).value) == b
  {
    if b != [] {
      var n := DecodeStep(b);
      var head, tail := b[..n], b[n..];
      assert b == head + tail;
      hide *;
      var first, rest := Value(head) as char, Decode(tail).value;
      ValueEncodes(head);
      EncodeDecode(tail);
      EncodeCons(first, rest);
    }
  }

  lemma DecodeStep(b: Bytes) returns (n: nat)
    requires b != [] && Decode(b).Some?
    ensures 0 < n <= |b| && WellFormed(b[..n]) && n == Length(b[..n][0]) && IsScalar(Value(b[..n]))
    ensures Decode(b[n..]).Some? && Decode(b).value == [Value(b[..n]) as char] + Decode(b[n..]).value
  {
    n := Length(b[0]);
    hide Value;
  }

  lemma EncodeCons(first: char, rest: string)
    ensures EncodeAll([first] + rest) == Encode(first) + EncodeAll(rest)
  {
    hide Encode;
    assert ([first] + rest)[1..] == rest;
  }

  /** A zero byte encodes the NUL character and nothing else. */
  lemma {:induction false} ZeroFree(s: string)
    requires '\0' !in s
    ensures 0 !in EncodeAll(s)
  {
    if s != [] {
      ZeroFree(s[1..]);
      assert s[0] in s && 0 !in Encode(s[0]);
    }
  }
}
