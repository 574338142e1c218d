/** Bytes as text: hexadecimal (section 8 of RFC 4648) for nonces and base64 with padding (section 4 of RFC 4648) for
    sealed bodies. Decoding is strict: it accepts nothing that encoding could not have produced, except that hex digits
    may be upper case. */
module Encoding {
  import opened Wrappers

  type Byte = b: nat | b < 256
  type Bytes = seq<Byte>

  // ---------- Hexadecimal ----------

  type Nibble = n: nat | n < 16

  function High(b: Byte): Nibble {
    b / 16
  }

  function Low(b: Byte): Nibble {
    b % 16
  }

  function Pack(high: Nibble, low: Nibble): Byte {
    high * 16 + low
  }

  lemma NibblesSurvive(high: Nibble, low: Nibble, b: Byte)
    ensures High(Pack(high, low)) == high && Low(Pack(high, low)) == low
    ensures Pack(High(b), Low(b)) == b
  {
  }

  function HexDigit(n: Nibble): char {
    if n < 10 then '0' + n as char else 'a' + (n - 10) as char
  }

  function HexValue(c: char): Option<Nibble> {
    if '0' <= c <= '9' then Some((c - '0') as int)
    else if 'a' <= c <= 'f' then Some((c - 'a') as int + 10)
    else if 'A' <= c <= 'F' then Some((c - 'A') as int + 10)
    else None
  }

  function LowerDigit(c: char): char {
    if 'A' <= c <= 'F' then c + 32 as char else c
  }

  function LowerHex(s: string): string {
    seq(|s|, i requires 0 <= i < |s| => LowerDigit(s[i]))
  }

  function ToHex(bytes: Bytes): string {
    if bytes == [] then "" else [HexDigit(High(bytes[0])), HexDigit(Low(bytes[0]))] + ToHex(bytes[1..])
  }

  function FromHex(s: string): Option<Bytes> {
    if s == "" then Some([])
    else if |s| == 1 then None
    else
      var high, low, rest := HexValue(s[0]), HexValue(s[1]), FromHex(s[2..]);
      if high.Some? && low.Some? && rest.Some? then Some([Pack(high.value, low.value)] + rest.value) else None
  }

  lemma SplitTwo(s: string)
    requires |s| >= 2
    ensures s == [s[0], s[1]] + s[2..]
  {
  }

  lemma FromHexStep(c: char, d: char, rest: string)
    ensures FromHex([c, d] + rest) ==
            if HexValue(c).Some? && HexValue(d).Some? && FromHex(rest).Some?
            then Some([Pack(HexValue(c).value, HexValue(d).value)] + FromHex(rest).value)
            else None
  {
    var s := [c, d] + rest;
    assert s[0] == c && s[1] == d && s[2..] == rest;
  }

  lemma HexDigitInverse(n: Nibble)
    ensures HexValue(HexDigit(n)) == Some(n)
  {
  }

  lemma HexValueInverse(c: char)
    ensures HexValue(c).Some? ==> HexDigit(HexValue(c).value) == LowerDigit(c)
  {
  }

  lemma {:induction false} FromHexOfToHex(bytes: Bytes)
    ensures FromHex(ToHex(bytes)) == Some(bytes)
  {
    if bytes != [] {
      FromHexOfToHex(bytes[1..]);
      HexDigitInverse(High(bytes[0]));
      HexDigitInverse(Low(bytes[0]));
      FromHexStep(HexDigit(High(bytes[0])), HexDigit(Low(bytes[0])), ToHex(bytes[1..]));
      NibblesSurvive(0, 0, bytes[0]);
      assert bytes == [bytes[0]] + bytes[1..];
    }
  }

  lemma ToHexStep(b: Byte, rest: Bytes)
    ensures ToHex([b] + rest) == [HexDigit(High(b)), HexDigit(Low(b))] + ToHex(rest)
  {
    assert ([b] + rest)[1..] == rest;
  }

  lemma ToHexOfNibbles(high: Nibble, low: Nibble, rest: Bytes)
    ensures ToHex([Pack(high, low)] + rest) == [HexDigit(high), HexDigit(low)] + ToHex(rest)
  {
    NibblesSurvive(high, low, 0);
    ToHexStep(Pack(high, low), rest);
  }

  lemma LowerHexStep(c: char, d: char, rest: string)
    ensures LowerHex([c, d] + rest) == [LowerDigit(c), LowerDigit(d)] + LowerHex(rest)
  {
  }

  /** Whatever hex text is accepted, it is the encoding of its bytes up to letter case. */
  lemma {:induction false} ToHexOfFromHex(s: string)
    requires FromHex(s).Some?
    ensures ToHex(FromHex(s).value) == LowerHex(s)
  {
    if s != "" {
      var c, d, rest := s[0], s[1], s[2..];
      SplitTwo(s);
      FromHexStep(c, d, rest);
      ToHexOfFromHex(rest);
      ToHexOfNibbles(HexValue(c).value, HexValue(d).value, FromHex(rest).value);
      HexValueInverse(c);
      HexValueInverse(d);
      LowerHexStep(c, d, rest);
    }
  }

  lemma Regroup(a: Bytes, b: Bytes, c: Bytes)
    ensures (a + b) + c == a + (b + c)
  {
  }

  lemma FromHexAppendStep(c: char, d: char, s: string, t: string)
    requires FromHex([c, d] + s).Some? && FromHex(s).Some? && FromHex(t).Some?
    requires FromHex(s + t) == Some(FromHex(s).value + FromHex(t).value)
    ensures FromHex([c, d] + (s + t)) == Some(FromHex([c, d] + s).value + FromHex(t).value)
  {
    FromHexStep(c, d, s);
    FromHexStep(c, d, s + t);
    Regroup([Pack(HexValue(c).value, HexValue(d).value)], FromHex(s).value, FromHex(t).value);
  }

  lemma AppendToTwo(s: string, t: string)
    requires |s| >= 2
    ensures s + t == [s[0], s[1]] + (s[2..] + t)
  {
  }

  /** Hex text is read byte by byte. */
  lemma {:induction false} FromHexAppend(s: string, t: string)
    requires FromHex(s).Some? && FromHex(t).Some?
    ensures FromHex(s + t) == Some(FromHex(s).value + FromHex(t).value)
  {
    if s == "" {
      assert s + t == t;
      assert FromHex(s).value + FromHex(t).value == FromHex(t).value;
    } else {
      var c, d, rest := s[0], s[1], s[2..];
      SplitTwo(s);
      FromHexStep(c, d, rest);
      FromHexAppend(rest, t);
      FromHexAppendStep(c, d, rest, t);
      AppendToTwo(s, t);
    }
  }

  // ---------- Base64 ----------

  type Digit = d: nat | d < 64

  function Base64Char(d: Digit): char {
    if d < 26 then 'A' + d as char
    else if d < 52 then 'a' + (d - 26) as char
    else if d < 62 then '0' + (d - 52) as char
    else if d == 62 then '+'
    else '/'
  }

  function Base64Value(c: char): Option<Digit> {
    if 'A' <= c <= 'Z' then Some((c - 'A') as int)
    else if 'a' <= c <= 'z' then Some((c - 'a') as int + 26)
    else if '0' <= c <= '9' then Some((c - '0') as int + 52)
    else if c == '+' then Some(62)
    else if c == '/' then Some(63)
    else None
  }

  lemma Base64CharInverse(d: Digit)
    ensures Base64Value(Base64Char(d)) == Some(d) && Base64Char(d) != '='
  {
  }

  lemma Base64ValueInverse(c: char)
    ensures Base64Value(c).Some? ==> Base64Char(Base64Value(c).value) == c
  {
  }

  /** Three bytes as four groups of six bits. */
  function First(a: Byte): Digit {
    a / 4
  }

  function Second(a: Byte, b: Byte): Digit {
    a % 4 * 16 + b / 16
  }

  function Third(b: Byte, c: Byte): Digit {
    b % 16 * 4 + c / 64
  }

  function Fourth(c: Byte): Digit {
    c % 64
  }

  /** ... and back. */
  function Byte1(w: Digit, x: Digit): Byte {
    w * 4 + x / 16
  }

  function Byte2(x: Digit, y: Digit): Byte {
    x % 16 * 16 + y / 4
  }

  function Byte3(y: Digit, z: Digit): Byte {
    y % 4 * 64 + z
  }

  lemma BitsSurvive(a: Byte, b: Byte, c: Byte)
    ensures Byte1(First(a), Second(a, b)) == a && Byte2(Second(a, b), Third(b, c)) == b && Byte3(Third(b, c), Fourth(c)) == c
  {
  }

  lemma NoStrayBits(b: Byte)
    ensures Second(b, 0) % 16 == 0 && Third(b, 0) % 4 == 0
  {
    var k, l := b % 4, b % 16;
    assert Second(b, 0) == k * 16 && Third(b, 0) == l * 4;
  }

  lemma BitsComeFrom(w: Digit, x: Digit, y: Digit, z: Digit)
    ensures var a, b, c := Byte1(w, x), Byte2(x, y), Byte3(y, z);
            First(a) == w && Second(a, b) == x && Third(b, c) == y && Fourth(c) == z
    ensures x % 16 == 0 ==> Second(Byte1(w, x), 0) == x
    ensures y % 4 == 0 ==> Third(Byte2(x, y), 0) == y
  {
  }

  function ToBase64(bytes: Bytes): string {
    if bytes == [] then ""
    else if |bytes| == 1 then
      [Base64Char(First(bytes[0])), Base64Char(Second(bytes[0], 0)), '=', '=']
    else if |bytes| == 2 then
      [Base64Char(First(bytes[0])), Base64Char(Second(bytes[0], bytes[1])), Base64Char(Third(bytes[1], 0)), '=']
    else
      [Base64Char(First(bytes[0])), Base64Char(Second(bytes[0], bytes[1])),
       Base64Char(Third(bytes[1], bytes[2])), Base64Char(Fourth(bytes[2]))] + ToBase64(bytes[3..])
  }

  /** The bytes of one group of four characters; the last group may be padded, and then has no stray bits. */
  function FromGroup(a: char, b: char, c: char, d: char, last: bool): Option<Bytes> {
    var w, x, y, z := Base64Value(a), Base64Value(b), Base64Value(c), Base64Value(d);
    if w.None? || x.None? then None
    else if y.Some? && z.Some? then
      Some([Byte1(w.value, x.value), Byte2(x.value, y.value), Byte3(y.value, z.value)])
    else if !last || d != '=' then None
    else if y.Some? then
      if y.value % 4 == 0 then Some([Byte1(w.value, x.value), Byte2(x.value, y.value)]) else None
    else if c == '=' && x.value % 16 == 0 then Some([Byte1(w.value, x.value)])
    else None
  }

  function FromBase64(s: string): Option<Bytes> {
    if s == "" then Some([])
    else if |s| < 4 then None
    else
      var group, rest := FromGroup(s[0], s[1], s[2], s[3], |s| == 4), FromBase64(s[4..]);
      if group.Some? && rest.Some? then Some(group.value + rest.value) else None
  }

  lemma FullGroup(a: Byte, b: Byte, c: Byte, last: bool)
    ensures FromGroup(Base64Char(First(a)), Base64Char(Second(a, b)), Base64Char(Third(b, c)), Base64Char(Fourth(c)), last)
            == Some([a, b, c])
  {
    Base64CharInverse(First(a));
    Base64CharInverse(Second(a, b));
    Base64CharInverse(Third(b, c));
    Base64CharInverse(Fourth(c));
    BitsSurvive(a, b, c);
  }

  lemma GroupOfTwo(a: Byte, b: Byte)
    ensures FromGroup(Base64Char(First(a)), Base64Char(Second(a, b)), Base64Char(Third(b, 0)), '=', true) == Some([a, b])
  {
    Base64CharInverse(First(a));
    Base64CharInverse(Second(a, b));
    Base64CharInverse(Third(b, 0));
    BitsSurvive(a, b, 0);
    NoStrayBits(b);
  }

  lemma GroupOfOne(a: Byte)
    ensures FromGroup(Base64Char(First(a)), Base64Char(Second(a, 0)), '=', '=', true) == Some([a])
  {
    var w, x := First(a), Second(a, 0);
    Base64CharInverse(w);
    Base64CharInverse(x);
    assert Byte1(w, x) == a by {
      BitsSurvive(a, 0, 0);
    }
    NoStrayBits(a);
    assert Base64Value('=') == None;
  }

  lemma FromBase64Step(a: char, b: char, c: char, d: char, rest: string)
    ensures FromBase64([a, b, c, d] + rest) ==
            if FromGroup(a, b, c, d, rest == "").Some? && FromBase64(rest).Some?
            then Some(FromGroup(a, b, c, d, rest == "").value + FromBase64(rest).value)
            else None
  {
    var s := [a, b, c, d] + rest;
    assert s[0] == a && s[1] == b && s[2] == c && s[3] == d && s[4..] == rest;
  }

  lemma ShortBase64(bytes: Bytes)
    requires |bytes| == 1 || |bytes| == 2
    ensures FromBase64(ToBase64(bytes)) == Some(bytes)
  {
    var s := ToBase64(bytes);
    if |bytes| == 1 {
      GroupOfOne(bytes[0]);
      assert bytes == [bytes[0]];
    } else {
      GroupOfTwo(bytes[0], bytes[1]);
      assert bytes == [bytes[0], bytes[1]];
    }
    FromBase64Step(s[0], s[1], s[2], s[3], "");
    assert s == [s[0], s[1], s[2], s[3]] + "";
    assert bytes + [] == bytes;
  }

  lemma FullGroupFirst(a: Byte, b: Byte, c: Byte, rest: string)
    requires FromBase64(rest).Some?
    ensures FromBase64([Base64Char(First(a)), Base64Char(Second(a, b)), Base64Char(Third(b, c)), Base64Char(Fourth(c))] + rest)
            == Some([a, b, c] + FromBase64(rest).value)
  {
    FullGroup(a, b, c, rest == "");
    FromBase64Step(Base64Char(First(a)), Base64Char(Second(a, b)), Base64Char(Third(b, c)), Base64Char(Fourth(c)), rest);
  }

  lemma {:induction false} FromBase64OfToBase64(bytes: Bytes)
    ensures FromBase64(ToBase64(bytes)) == Some(bytes)
  {
    if bytes == [] {
    } else if |bytes| < 3 {
      ShortBase64(bytes);
    } else {
      var a, b, c, rest := bytes[0], bytes[1], bytes[2], ToBase64(bytes[3..]);
      FromBase64OfToBase64(bytes[3..]);
      FullGroupFirst(a, b, c, rest);
      assert bytes == [a, b, c] + bytes[3..];
    }
  }

  lemma CanonicalThree(w: Digit, x: Digit, y: Digit, z: Digit)
    ensures ToBase64([Byte1(w, x), Byte2(x, y), Byte3(y, z)]) == [Base64Char(w), Base64Char(x), Base64Char(y), Base64Char(z)]
  {
    BitsComeFrom(w, x, y, z);
    var group := [Byte1(w, x), Byte2(x, y), Byte3(y, z)];
    assert group[3..] == [] && ToBase64(group[3..]) == "";
  }

  lemma CanonicalTwo(w: Digit, x: Digit, y: Digit)
    requires y % 4 == 0
    ensures ToBase64([Byte1(w, x), Byte2(x, y)]) == [Base64Char(w), Base64Char(x), Base64Char(y), '=']
  {
    BitsComeFrom(w, x, y, 0);
  }

  lemma CanonicalOne(w: Digit, x: Digit)
    requires x % 16 == 0
    ensures ToBase64([Byte1(w, x)]) == [Base64Char(w), Base64Char(x), '=', '=']
  {
    BitsComeFrom(w, x, 0, 0);
  }

  lemma GroupIsCanonical(a: char, b: char, c: char, d: char, last: bool)
    requires FromGroup(a, b, c, d, last).Some?
    ensures var group := FromGroup(a, b, c, d, last).value;
            ToBase64(group) == [a, b, c, d] && (|group| == 3 || last)
  {
    Base64ValueInverse(a);
    Base64ValueInverse(b);
    Base64ValueInverse(c);
    Base64ValueInverse(d);
    var w, x, y, z := Base64Value(a).value, Base64Value(b).value, Base64Value(c), Base64Value(d);
    if y.Some? && z.Some? {
      CanonicalThree(w, x, y.value, z.value);
    } else if y.Some? {
      CanonicalTwo(w, x, y.value);
    } else {
      CanonicalOne(w, x);
    }
  }

  /** Whatever base64 text is accepted, it is the one encoding of its bytes. */
  lemma {:induction false} ToBase64OfFromBase64(s: string)
    requires FromBase64(s).Some?
    ensures ToBase64(FromBase64(s).value) == s
  {
    if s != "" {
      var rest := s[4..];
      assert s == [s[0], s[1], s[2], s[3]] + rest;
      FromBase64Step(s[0], s[1], s[2], s[3], rest);
      GroupIsCanonical(s[0], s[1], s[2], s[3], rest == "");
      ToBase64OfFromBase64(rest);
      var group, more := FromGroup(s[0], s[1], s[2], s[3], rest == "").value, FromBase64(rest).value;
      if |group| == 3 {
        ToBase64Step(group, more);
      } else {
        assert group + more == group;
      }
    }
  }

  lemma ToBase64Step(group: Bytes, more: Bytes)
    requires |group| == 3
    ensures ToBase64(group + more) == ToBase64(group) + ToBase64(more)
  {
    assert (group + more)[3..] == more;
    assert group[3..] == [];
  }
}
