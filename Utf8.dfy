/** UTF-8 as defined in section 3 of RFC 3629: the encoding whose length
    `submit_content` sends as `contentLength` when the caller gives none. */
module Utf8 {
  import opened Wrappers

  newtype Byte = b: int | 0 <= b < 256

  /** The number of octets section 3 of RFC 3629 assigns to a code point:
      1 up to U+007F, 2 up to U+07FF, 3 up to U+FFFF, 4 above. */
  function Width(c: char): nat
  {
    var n := c as int;
    if n < 0x80 then 1 else if n < 0x800 then 2 else if n < 0x10000 then 3 else 4
  }

  /** The octet sequence of one code point. The lead octet is 0xxxxxxx,
      110xxxxx, 1110xxxx or 11110xxx according to the length, and every other
      octet is a continuation octet 10xxxxxx. */
  function EncodeChar(c: char): (r: seq<Byte>)
    ensures |r| == Width(c)
    ensures |r| == 1 <==> r[0] < 0x80
    ensures |r| == 2 <==> 0xC0 <= r[0] < 0xE0
    ensures |r| == 3 <==> 0xE0 <= r[0] < 0xF0
    ensures |r| == 4 <==> 0xF0 <= r[0] < 0xF8
    ensures forall k :: 0 < k < |r| ==> 0x80 <= r[k] < 0xC0
  {
    var n := c as int;
    if n < 0x80 then
      [n as Byte]
    else if n < 0x800 then
      [(0xC0 + n / 64) as Byte, (0x80 + n % 64) as Byte]
    else if n < 0x10000 then
      [(0xE0 + n / 4096) as Byte, (0x80 + n / 64 % 64) as Byte, (0x80 + n % 64) as Byte]
    else
      [(0xF0 + n / 262144) as Byte, (0x80 + n / 4096 % 64) as Byte,
       (0x80 + n / 64 % 64) as Byte, (0x80 + n % 64) as Byte]
  }

  /** `s.encode("utf-8")`: the code points' octet sequences, in order. Each
      code point takes at least one and at most four octets. */
  function Encode(s: string): (r: seq<Byte>)
    ensures |s| <= |r| <= 4 * |s|
  {
    if s == [] then [] else EncodeChar(s[0]) + Encode(s[1..])
  }

  /** The sum of the per-code-point widths of RFC 3629's table. */
  function TableLength(s: string): nat
  {
    if s == [] then 0 else Width(s[0]) + TableLength(s[1..])
  }

  /** The sequence length a lead octet announces (0 for an octet that cannot lead). */
  function LeadWidth(b: Byte): nat
  {
    if b < 0x80 then 1
    else if 0xC0 <= b < 0xE0 then 2
    else if 0xE0 <= b < 0xF0 then 3
    else if 0xF0 <= b < 0xF8 then 4
    else 0
  }

  /** The code point carried by one complete octet sequence of 1 to 4 octets. */
  function Scalar(bs: seq<Byte>): int
    requires 1 <= |bs| <= 4
  {
    var b0 := bs[0] as int;
    if |bs| == 1 then b0
    else if |bs| == 2 then (b0 - 0xC0) * 64 + (bs[1] as int - 0x80)
    else if |bs| == 3 then (b0 - 0xE0) * 4096 + (bs[1] as int - 0x80) * 64 + (bs[2] as int - 0x80)
    else (b0 - 0xF0) * 262144 + (bs[1] as int - 0x80) * 4096 + (bs[2] as int - 0x80) * 64 + (bs[3] as int - 0x80)
  }

  predicate IsScalarValue(n: int)
  {
    0 <= n < 0xD800 || 0xE000 <= n < 0x110000
  }

  /** A decoder that accepts only well-formed UTF-8: it splits the octets by
      their lead octets, and gives None when an octet cannot lead, the input
      ends inside a sequence, an octet after the lead is not a continuation
      octet, the value is not a Unicode scalar value, or the sequence is
      longer than RFC 3629 allows for its value (an overlong form). */
  function Decode(bs: seq<Byte>): Option<string>
    decreases |bs|
  {
    if bs == [] then Some([])
    else
      var w := LeadWidth(bs[0]);
      if w == 0 || |bs| < w then None
      else if exists k :: 0 < k < w && !(0x80 <= bs[k] < 0xC0) then None
      else
        var n := Scalar(bs[..w]);
        if !IsScalarValue(n) || Width(n as char) != w then None
        else match Decode(bs[w..])
          case None => None
          case Some(rest) => Some([n as char] + rest)
  }

  /** Decoding the octets of one code point gives that code point back. */
  lemma ScalarOfEncodeChar(c: char)
    ensures Scalar(EncodeChar(c)) == c as int
  {
    var n := c as int;
    if n < 0x80 {
    } else if n < 0x800 {
      assert n == (n / 64) * 64 + n % 64;
    } else if n < 0x10000 {
      assert n / 64 / 64 == n / 4096;
      assert n / 64 == (n / 4096) * 64 + n / 64 % 64;
      assert n == (n / 64) * 64 + n % 64;
    } else {
      assert n / 64 / 64 == n / 4096;
      assert n / 4096 / 64 == n / 262144;
      assert n / 4096 == (n / 262144) * 64 + n / 4096 % 64;
      assert n / 64 == (n / 4096) * 64 + n / 64 % 64;
      assert n == (n / 64) * 64 + n % 64;
    }
  }

  /** The length of the encoding is the sum of the widths in RFC 3629's table. */
  lemma {:induction false} EncodeLengthIsTableLength(s: string)
    ensures |Encode(s)| == TableLength(s)
  {
    if s != [] {
      EncodeLengthIsTableLength(s[1..]);
    }
  }

  /** The decoder recovers every string from its encoding, so the octet count
      is that of a genuine UTF-8 encoding. */
  lemma {:induction false} DecodeEncode(s: string)
    ensures Decode(Encode(s)) == Some(s)
  {
    if s != [] {
      var e := EncodeChar(s[0]);
      var bs := Encode(s);
      assert bs == e + Encode(s[1..]);
      assert LeadWidth(bs[0]) == |e|;
      assert bs[..|e|] == e;
      assert bs[|e|..] == Encode(s[1..]);
      ScalarOfEncodeChar(s[0]);
      DecodeEncode(s[1..]);
      assert [s[0]] + s[1..] == s;
    }
  }

  /** Whatever octets decode to a string have the length RFC 3629's table
      gives that string, so the decoder pins the length of any encoding it
      inverts. */
  lemma {:induction false} DecodeLength(bs: seq<Byte>, s: string)
    requires Decode(bs) == Some(s)
    ensures |bs| == TableLength(s)
    decreases |bs|
  {
    if bs != [] {
      var w := LeadWidth(bs[0]);
      var rest := Decode(bs[w..]).value;
      assert s == [Scalar(bs[..w]) as char] + rest;
      assert s[1..] == rest;
      DecodeLength(bs[w..], rest);
    }
  }

  /** An overlong two-octet form of "A" is rejected. */
  lemma OverlongRejected()
    ensures Decode([0xC1, 0x81]) == None
  {
  }
}
