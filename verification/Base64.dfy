/**
 Base64 with the alphabets of sections 4 and 5 of RFC 4648; the url alphabet is padded with '.'.
 */
module Base64 {
  type Byte = x: int | 0 <= x < 256
  type Sextet = x: int | 0 <= x < 64

  datatype Result<+T> = Ok(value: T) | InvalidInput

  function Upper(): (s: string)
    ensures |s| == 26
  {
    "ABCDEFGHIJKLMNOPQRSTUVWXYZ"
  }

  function Lower(): (s: string)
    ensures |s| == 26
  {
    "abcdefghijklmnopqrstuvwxyz"
  }

  function Digits(): (s: string)
    ensures |s| == 10
  {
    "0123456789"
  }

  /** The two alphabets differ in their last two characters. */
  function Alphabet(url: bool): (s: string)
    ensures |s| == 64
  {
    Upper() + Lower() + Digits() + (if url then "-_" else "+/")
  }

  function Symbol(k: Sextet, url: bool): char {
    Alphabet(url)[k]
  }

  function Padding(url: bool): char {
    if url then '.' else '='
  }

  predicate IsPadding(c: char) {
    c == '=' || c == '.'
  }

  /** The position of a character; both alphabets are accepted. */
  function PosOfChar(c: char): (r: Result<Sextet>) {
    if 'A' <= c <= 'Z' then Ok(c as int - 'A' as int)
    else if 'a' <= c <= 'z' then Ok(c as int - 'a' as int + 26)
    else if '0' <= c <= '9' then Ok(c as int - '0' as int + 52)
    else if c == '+' || c == '-' then Ok(62)
    else if c == '/' || c == '_' then Ok(63)
    else InvalidInput
  }

  lemma UpperAt(k: nat)
    requires k < 26
    ensures Upper()[k] as int == 'A' as int + k
  {
  }

  lemma LowerAt(k: nat)
    requires k < 26
    ensures Lower()[k] as int == 'a' as int + k
  {
  }

  lemma DigitAt(k: nat)
    requires k < 10
    ensures Digits()[k] as int == '0' as int + k
  {
  }

  /** Every position of an alphabet is found again, and no character of it is taken for padding or a line break. */
  lemma PositionOfSymbol(k: Sextet, url: bool)
    ensures PosOfChar(Symbol(k, url)) == Ok(k) && !IsPadding(Symbol(k, url)) && Symbol(k, url) != '\n'
  {
    hide Upper, Lower, Digits;
    if k < 26 {
      UpperAt(k);
    } else if k < 52 {
      LowerAt(k - 26);
    } else if k < 62 {
      DigitAt(k - 52);
    }
  }

  // ---------------------------------------------------------------------------------------------------------
  // Encoding

  /** The four six-bit groups of three bytes. */
  function Group0(b0: Byte): Sextet {
    b0 as int / 4
  }

  function Group1(b0: Byte, b1: Byte): Sextet {
    b0 as int % 4 * 16 + b1 as int / 16
  }

  function Group2(b1: Byte, b2: Byte): Sextet {
    b1 as int % 16 * 4 + b2 as int / 64
  }

  function Group3(b2: Byte): Sextet {
    b2 as int % 64
  }

  /** The four characters of up to three bytes; missing bits are zero, missing groups padding. */
  function Quad(bytes: seq<Byte>, url: bool): (s: string)
    requires bytes != []
    ensures |s| == 4
  {
    var b0 := bytes[0];
    if |bytes| == 1 then [Symbol(Group0(b0), url), Symbol(Group1(b0, 0), url), Padding(url), Padding(url)]
    else
      var b1 := bytes[1];
      if |bytes| == 2 then
        [Symbol(Group0(b0), url), Symbol(Group1(b0, b1), url), Symbol(Group2(b1, 0), url), Padding(url)]
      else
        [Symbol(Group0(b0), url), Symbol(Group1(b0, b1), url), Symbol(Group2(b1, bytes[2]), url),
         Symbol(Group3(bytes[2]), url)]
  }

  function Encoded(bytes: seq<Byte>, url: bool): string
    decreases |bytes|
  {
    if bytes == [] then ""
    else if |bytes| <= 3 then Quad(bytes, url)
    else Quad(bytes[..3], url) + Encoded(bytes[3..], url)
  }

  /** `base64_encode`: the masks and shifts of the source are quotients and remainders of bytes. */
  method Encode(bytes: seq<Byte>, url: bool) returns (ret: string)
    ensures ret == Encoded(bytes, url)
  {
    hide Quad;
    ret := "";
    if |bytes| == 0 {
      return;
    }
    var pos := 0;
    assert bytes[0..] == bytes;
    while pos < |bytes|
      invariant 0 <= pos
      invariant ret + Encoded(if pos <= |bytes| then bytes[pos..] else [], url) == Encoded(bytes, url)
      decreases |bytes| - pos
    {
      var quad := EncodeQuad(bytes, url, pos);
      EncodeTurn(bytes, url, pos, ret, ret + quad);
      ret := ret + quad;
      pos := pos + 3;
    }
    assert ret + "" == ret;
  }

  /** The body of the encoding loop. */
  method EncodeQuad(bytes: seq<Byte>, url: bool, pos: nat) returns (quad: string)
    requires pos < |bytes|
    ensures quad == Quad(bytes[pos..if pos + 3 <= |bytes| then pos + 3 else |bytes|], url)
  {
    hide Alphabet;
    var trailing, a := Padding(url), Alphabet(url);
    quad := [a[bytes[pos] / 4]];
    if pos + 1 < |bytes| {
      quad := quad + [a[bytes[pos] % 4 * 16 + bytes[pos + 1] / 16]];
      if pos + 2 < |bytes| {
        quad := quad + [a[bytes[pos + 1] % 16 * 4 + bytes[pos + 2] / 64]];
        quad := quad + [a[bytes[pos + 2] % 64]];
      } else {
        quad := quad + [a[bytes[pos + 1] % 16 * 4]];
        quad := quad + [trailing];
      }
    } else {
      quad := quad + [a[bytes[pos] % 4 * 16]];
      quad := quad + [trailing];
      quad := quad + [trailing];
    }
  }

  /** One turn of the encoding loop writes one quad. */
  lemma EncodeTurn(bytes: seq<Byte>, url: bool, pos: nat, before: string, after: string)
    requires pos < |bytes|
    requires before + Encoded(bytes[pos..], url) == Encoded(bytes, url)
    requires after == before + Quad(bytes[pos..if pos + 3 <= |bytes| then pos + 3 else |bytes|], url)
    ensures after + Encoded(if pos + 3 <= |bytes| then bytes[pos + 3..] else [], url) == Encoded(bytes, url)
  {
    hide Quad;
    var rest := bytes[pos..];
    if |rest| <= 3 {
      assert bytes[pos..|bytes|] == rest;
      assert pos + 3 <= |bytes| ==> bytes[pos..pos + 3] == rest && bytes[pos + 3..] == [];
      assert after + "" == after;
    } else {
      assert rest[..3] == bytes[pos..pos + 3] && rest[3..] == bytes[pos + 3..];
      assert before + (Quad(rest[..3], url) + Encoded(rest[3..], url))
          == before + Quad(rest[..3], url) + Encoded(rest[3..], url);
    }
  }

  /** Four characters for every three bytes begun. */
  lemma {:induction false} EncodedLength(bytes: seq<Byte>, url: bool)
    ensures |Encoded(bytes, url)| == (|bytes| + 2) / 3 * 4
    decreases |bytes|
  {
    hide Quad;
    if |bytes| > 3 {
      EncodedLength(bytes[3..], url);
    }
  }

  /** The four characters read as digits in base 64. */
  function Number(quad: string): int
    requires |quad| == 4 && forall i :: 0 <= i < 4 ==> PosOfChar(quad[i]).Ok?
  {
    var p := seq(4, i requires 0 <= i < 4 => PosOfChar(quad[i]).value as int);
    ((p[0] * 64 + p[1]) * 64 + p[2]) * 64 + p[3]
  }

  /** A full quad is the 24-bit number its three bytes make, most significant first; a short one is that of the bytes
      filled up with zeros, with padding for the groups that hold none of them. */
  lemma QuadIsNumber(b0: Byte, b1: Byte, b2: Byte, url: bool)
    ensures var q := Quad([b0, b1, b2], url);
            (forall i :: 0 <= i < 4 ==> PosOfChar(q[i]).Ok?)
            && Number(q) == (b0 as int * 256 + b1 as int) * 256 + b2 as int
    ensures Quad([b0], url) == Quad([b0, 0, 0], url)[..2] + [Padding(url), Padding(url)]
    ensures Quad([b0, b1], url) == Quad([b0, b1, 0], url)[..3] + [Padding(url)]
  {
    hide Symbol, PosOfChar, Group0, Group1, Group2, Group3;
    PositionOfSymbol(Group0(b0), url);
    PositionOfSymbol(Group1(b0, b1), url);
    PositionOfSymbol(Group2(b1, b2), url);
    PositionOfSymbol(Group3(b2), url);
    SameNumber(b0, b1, b2);
  }

  lemma SameNumber(b0: Byte, b1: Byte, b2: Byte)
    ensures ((Group0(b0) as int * 64 + Group1(b0, b1) as int) * 64 + Group2(b1, b2) as int) * 64 + Group3(b2) as int
         == (b0 as int * 256 + b1 as int) * 256 + b2 as int
  {
  }

  // ---------------------------------------------------------------------------------------------------------
  // Decoding

  /** The character at `i`; one past the end stands the terminating NUL. */
  function CharAt(s: string, i: nat): char
    requires i <= |s|
  {
    if i < |s| then s[i] else '\0'
  }

  function FirstByte(p0: Sextet, p1: Sextet): Byte {
    p0 as int * 4 + p1 as int / 16
  }

  function SecondByte(p1: Sextet, p2: Sextet): Byte {
    p1 as int % 16 * 16 + p2 as int / 4
  }

  function ThirdByte(p2: Sextet, p3: Sextet): Byte {
    p2 as int % 4 * 64 + p3 as int
  }

  /** The bytes of the quad at the front, which may be short or padded. */
  function QuadDecoded(s: string): Result<seq<Byte>>
    requires s != ""
  {
    var p1 := PosOfChar(CharAt(s, 1));
    var p0 := PosOfChar(s[0]);
    if p1.InvalidInput? || p0.InvalidInput? then InvalidInput
    else
      var first := FirstByte(p0.value, p1.value);
      if |s| <= 2 || IsPadding(s[2]) then Ok([first])
      else
        var p2 := PosOfChar(s[2]);
        if p2.InvalidInput? then InvalidInput
        else
          var second := SecondByte(p1.value, p2.value);
          if |s| <= 3 || IsPadding(s[3]) then Ok([first, second])
          else
            var p3 := PosOfChar(s[3]);
            if p3.InvalidInput? then InvalidInput
            else
              var third := ThirdByte(p2.value, p3.value);
              Ok([first, second, third])
  }

  function Decoded(s: string): Result<seq<Byte>>
    decreases |s|
  {
    if s == "" then Ok([])
    else
      var q := QuadDecoded(s);
      if q.InvalidInput? then InvalidInput
      else if |s| <= 4 then q
      else
        var rest := Decoded(s[4..]);
        if rest.InvalidInput? then InvalidInput else Ok(q.value + rest.value)
  }

  function Without(s: string, c: char): string {
    if s == "" then "" else (if s[0] == c then "" else [s[0]]) + Without(s[1..], c)
  }

  /** `base64_decode`; the exception of the source is the result `InvalidInput`. */
  method Decode(encoded: string, removeLineBreaks: bool) returns (r: Result<seq<Byte>>)
    ensures r == Decoded(if removeLineBreaks then Without(encoded, '\n') else encoded)
  {
    if |encoded| == 0 {
      return Ok([]);
    }
    var s := encoded;
    if removeLineBreaks {
      s := RemoveLineBreaks(encoded);
    }
    r := DecodeLoop(s);
  }

  method RemoveLineBreaks(s: string) returns (copy: string)
    ensures copy == Without(s, '\n')
  {
    copy := "";
    assert s[0..] == s;
    for i := 0 to |s|
      invariant copy + Without(s[i..], '\n') == Without(s, '\n')
    {
      assert s[i..][1..] == s[i + 1..];
      if s[i] != '\n' {
        assert copy + ([s[i]] + Without(s[i + 1..], '\n')) == copy + [s[i]] + Without(s[i + 1..], '\n');
        copy := copy + [s[i]];
      } else {
        assert "" + Without(s[i + 1..], '\n') == Without(s[i + 1..], '\n');
      }
    }
  }

  method DecodeLoop(s: string) returns (r: Result<seq<Byte>>)
    ensures r == Decoded(s)
  {
    hide PosOfChar, QuadDecoded;
    var ret: seq<Byte> := [];
    var pos := 0;
    assert s[0..] == s;
    assert Decoded(s).Ok? ==> [] + Decoded(s).value == Decoded(s).value;
    while pos < |s|
      invariant 0 <= pos
      invariant DecodedAfter(ret, if pos <= |s| then s[pos..] else "") == Decoded(s)
      decreases |s| - pos
    {
      var quad := DecodeQuad(s, pos);
      DecodeTurn(s, pos, ret);
      if quad.InvalidInput? {
        return InvalidInput;
      }
      ret := ret + quad.value;
      pos := pos + 4;
    }
    assert ret + [] == ret;
    r := Ok(ret);
  }

  /** The bytes so far and those of the rest. */
  function DecodedAfter(ret: seq<Byte>, rest: string): Result<seq<Byte>> {
    var d := Decoded(rest);
    if d.InvalidInput? then InvalidInput else Ok(ret + d.value)
  }

  lemma DecodeTurn(s: string, pos: nat, ret: seq<Byte>)
    requires pos < |s|
    ensures QuadDecoded(s[pos..]).InvalidInput? ==> DecodedAfter(ret, s[pos..]) == InvalidInput
    ensures QuadDecoded(s[pos..]).Ok? ==>
              DecodedAfter(ret, s[pos..])
              == DecodedAfter(ret + QuadDecoded(s[pos..]).value, if pos + 4 <= |s| then s[pos + 4..] else "")
  {
    hide QuadDecoded;
    var rest, q := s[pos..], QuadDecoded(s[pos..]);
    if q.Ok? {
      if |rest| <= 4 {
        assert pos + 4 <= |s| ==> s[pos + 4..] == "";
        assert ret + q.value + [] == ret + q.value;
      } else {
        assert rest[4..] == s[pos + 4..];
        if Decoded(rest[4..]).Ok? {
          assert ret + (q.value + Decoded(rest[4..]).value) == ret + q.value + Decoded(rest[4..]).value;
        }
      }
    }
  }

  /** One turn of the decoding loop. */
  method DecodeQuad(s: string, pos: nat) returns (r: Result<seq<Byte>>)
    requires pos < |s|
    ensures r == QuadDecoded(s[pos..])
  {
    hide PosOfChar, FirstByte, SecondByte, ThirdByte;
    ghost var rest := s[pos..];
    assert CharAt(rest, 1) == CharAt(s, pos + 1) && rest[0] == s[pos];
    assert |rest| > 2 ==> rest[2] == s[pos + 2];
    assert |rest| > 3 ==> rest[3] == s[pos + 3];
    var p1 := PosOfChar(CharAt(s, pos + 1));
    if p1.InvalidInput? {
      return InvalidInput;
    }
    var p0 := PosOfChar(s[pos]);
    if p0.InvalidInput? {
      return InvalidInput;
    }
    var ret := [FirstByte(p0.value, p1.value)];
    if pos + 2 < |s| && s[pos + 2] != '=' && s[pos + 2] != '.' {
      var p2 := PosOfChar(s[pos + 2]);
      if p2.InvalidInput? {
        return InvalidInput;
      }
      ret := ret + [SecondByte(p1.value, p2.value)];
      if pos + 3 < |s| && s[pos + 3] != '=' && s[pos + 3] != '.' {
        var p3 := PosOfChar(s[pos + 3]);
        if p3.InvalidInput? {
          return InvalidInput;
        }
        ret := ret + [ThirdByte(p2.value, p3.value)];
        assert ret == [ret[0], ret[1], ret[2]];
      } else {
        assert ret == [ret[0], ret[1]];
      }
    }
    r := Ok(ret);
  }

  // ---------------------------------------------------------------------------------------------------------
  // Round trips

  lemma GroupsJoin(b0: Byte, b1: Byte, b2: Byte)
    ensures FirstByte(Group0(b0), Group1(b0, b1)) == b0
    ensures SecondByte(Group1(b0, b1), Group2(b1, b2)) == b1
    ensures ThirdByte(Group2(b1, b2), Group3(b2)) == b2
  {
  }

  lemma OneByte(b0: Byte, url: bool, s: string)
    requires |s| >= 2 && s[0] == Quad([b0], url)[0] && s[1] == Quad([b0], url)[1]
    requires |s| > 2 ==> s[2] == Padding(url)
    ensures QuadDecoded(s) == Ok([b0])
  {
    hide Symbol, PosOfChar, Group0, Group1, Group2, Group3, FirstByte, SecondByte, ThirdByte;
    GroupsJoin(b0, 0, 0);
    PositionOfSymbol(Group0(b0), url);
    PositionOfSymbol(Group1(b0, 0), url);
  }

  lemma TwoBytes(b0: Byte, b1: Byte, url: bool, s: string)
    requires |s| >= 3
    requires var q := Quad([b0, b1], url); s[0] == q[0] && s[1] == q[1] && s[2] == q[2]
    requires |s| > 3 ==> s[3] == Padding(url)
    ensures QuadDecoded(s) == Ok([b0, b1])
  {
    hide Symbol, PosOfChar, Group0, Group1, Group2, Group3, FirstByte, SecondByte, ThirdByte;
    GroupsJoin(b0, b1, 0);
    PositionOfSymbol(Group0(b0), url);
    PositionOfSymbol(Group1(b0, b1), url);
    PositionOfSymbol(Group2(b1, 0), url);
  }

  lemma ThreeBytes(b0: Byte, b1: Byte, b2: Byte, url: bool, s: string)
    requires |s| >= 4
    requires var q := Quad([b0, b1, b2], url); s[0] == q[0] && s[1] == q[1] && s[2] == q[2] && s[3] == q[3]
    ensures QuadDecoded(s) == Ok([b0, b1, b2])
  {
    hide Symbol, PosOfChar, Group0, Group1, Group2, Group3, FirstByte, SecondByte, ThirdByte;
    GroupsJoin(b0, b1, b2);
    PositionOfSymbol(Group0(b0), url);
    PositionOfSymbol(Group1(b0, b1), url);
    PositionOfSymbol(Group2(b1, b2), url);
    PositionOfSymbol(Group3(b2), url);
  }

  /** The quad of up to three bytes, with whatever follows it, gives the bytes back. */
  lemma QuadRoundTrip(bytes: seq<Byte>, url: bool, more: string)
    requires 1 <= |bytes| <= 3
    ensures QuadDecoded(Quad(bytes, url) + more) == Ok(bytes)
  {
    var s := Quad(bytes, url) + more;
    hide QuadDecoded, Symbol;
    if |bytes| == 1 {
      assert bytes == [bytes[0]];
      OneByte(bytes[0], url, s);
    } else if |bytes| == 2 {
      assert bytes == [bytes[0], bytes[1]];
      TwoBytes(bytes[0], bytes[1], url, s);
    } else {
      assert bytes == [bytes[0], bytes[1], bytes[2]];
      ThreeBytes(bytes[0], bytes[1], bytes[2], url, s);
    }
  }

  /** Decoding what was encoded gives the bytes back, for every byte string and both alphabets. */
  lemma {:induction false} RoundTrip(bytes: seq<Byte>, url: bool)
    ensures Decoded(Encoded(bytes, url)) == Ok(bytes)
    decreases |bytes|
  {
    hide Quad, QuadDecoded;
    if bytes != [] {
      var front := if |bytes| <= 3 then bytes else bytes[..3];
      var rest := if |bytes| <= 3 then "" else Encoded(bytes[3..], url);
      QuadRoundTrip(front, url, rest);
      var s := Quad(front, url) + rest;
      assert s[4..] == rest;
      if |bytes| <= 3 {
        assert s == Quad(front, url);
      } else {
        RoundTrip(bytes[3..], url);
        EncodedLength(bytes[3..], url);
        assert bytes[..3] + bytes[3..] == bytes;
      }
    }
  }

  /** The encoding with its padding left off, which RFC 2045 tolerates. */
  function Unpadded(bytes: seq<Byte>, url: bool): string {
    var s := Encoded(bytes, url);
    EncodedLength(bytes, url);
    s[..|s| - (3 - |bytes| % 3) % 3]
  }

  lemma ShortQuadRoundTrip(bytes: seq<Byte>, url: bool)
    requires 1 <= |bytes| <= 2
    ensures QuadDecoded(Quad(bytes, url)[..|bytes| + 1]) == Ok(bytes)
  {
    hide QuadDecoded, Symbol;
    var s := Quad(bytes, url)[..|bytes| + 1];
    if |bytes| == 1 {
      assert bytes == [bytes[0]];
      OneByte(bytes[0], url, s);
    } else {
      assert bytes == [bytes[0], bytes[1]];
      TwoBytes(bytes[0], bytes[1], url, s);
    }
  }

  lemma UnpaddedShort(bytes: seq<Byte>, url: bool)
    requires |bytes| <= 3
    ensures Unpadded(bytes, url) == if bytes == [] then "" else Quad(bytes, url)[..|bytes| + 1]
  {
    hide Quad;
  }

  lemma UnpaddedLong(bytes: seq<Byte>, url: bool)
    requires |bytes| > 3
    ensures Unpadded(bytes, url) == Quad(bytes[..3], url) + Unpadded(bytes[3..], url)
  {
    hide Quad;
    EncodedLength(bytes[3..], url);
    assert |bytes[3..]| % 3 == |bytes| % 3;
  }

  /** The padding is not needed to decode. */
  lemma {:induction false} UnpaddedRoundTrip(bytes: seq<Byte>, url: bool)
    ensures Decoded(Unpadded(bytes, url)) == Ok(bytes)
    decreases |bytes|
  {
    hide Quad, QuadDecoded, Unpadded;
    if |bytes| <= 3 {
      UnpaddedShort(bytes, url);
      if |bytes| == 3 {
        assert Quad(bytes, url)[..4] == Quad(bytes, url);
        RoundTrip(bytes, url);
      } else if bytes != [] {
        ShortQuadRoundTrip(bytes, url);
      }
    } else {
      var rest := Unpadded(bytes[3..], url);
      UnpaddedLong(bytes, url);
      UnpaddedRoundTrip(bytes[3..], url);
      QuadRoundTrip(bytes[..3], url, rest);
      var s := Unpadded(bytes, url);
      assert s[4..] == rest;
      assert bytes[..3] + bytes[3..] == bytes;
      NothingAfter(rest, bytes[3..]);
    }
  }

  lemma NothingAfter(rest: string, bytes: seq<Byte>)
    requires Decoded(rest) == Ok(bytes) && bytes != []
    ensures rest != ""
  {
  }

  // ---------------------------------------------------------------------------------------------------------
  // Line breaks

  /** The string in lines of `distance` characters. */
  function Broken(s: string, distance: nat): string
    requires distance > 0
    decreases |s|
  {
    if |s| <= distance then s else s[..distance] + "\n" + Broken(s[distance..], distance)
  }

  /** `insert_linebreaks`: the string grows under the loop. */
  method InsertLineBreaks(s: string, distance: nat) returns (str: string)
    requires distance > 0
    ensures str == Broken(s, distance)
  {
    if |s| == 0 {
      return "";
    }
    hide Broken;
    str := s;
    var pos := distance;
    ghost var done, rest := "", s;
    assert done + rest == s && done + Broken(rest, distance) == Broken(s, distance);
    while pos < |str|
      invariant str == done + rest && pos == |done| + distance
      invariant done + Broken(rest, distance) == Broken(s, distance)
      decreases |rest|
    {
      BreakOnce(done, rest, distance);
      str := str[..pos] + "\n" + str[pos..];
      done, rest := done + rest[..distance] + "\n", rest[distance..];
      pos := pos + distance + 1;
    }
    ShortLine(rest, distance);
  }

  lemma BreakOnce(done: string, rest: string, distance: nat)
    requires 0 < distance < |rest|
    ensures var pos := |done| + distance;
            (done + rest)[..pos] + "\n" + (done + rest)[pos..] == done + rest[..distance] + "\n" + rest[distance..]
    ensures done + Broken(rest, distance) == done + rest[..distance] + "\n" + Broken(rest[distance..], distance)
  {
    var more := Broken(rest[distance..], distance);
    assert Broken(rest, distance) == rest[..distance] + "\n" + more;
    hide Broken;
    assert done + (rest[..distance] + "\n" + more) == done + rest[..distance] + "\n" + more;
  }

  lemma ShortLine(rest: string, distance: nat)
    requires 0 < distance && |rest| <= distance
    ensures Broken(rest, distance) == rest
  {
  }

  /** `encode_with_line_breaks`, for the PEM and the MIME form. */
  method EncodeLines(bytes: seq<Byte>, distance: nat) returns (lines: string)
    requires distance > 0
    ensures lines == Broken(Encoded(bytes, false), distance)
    ensures Decoded(Without(lines, '\n')) == Ok(bytes)
  {
    hide Encoded, Broken, Decoded, Without;
    var s := Encode(bytes, false);
    lines := InsertLineBreaks(s, distance);
    LinesRoundTrip(bytes, distance);
  }

  lemma {:induction false} WithoutNone(s: string, c: char)
    requires c !in s
    ensures Without(s, c) == s
  {
    if s != "" {
      assert s[0] in s;
      WithoutNone(s[1..], c);
      assert s == [s[0]] + s[1..];
    }
  }

  lemma {:induction false} WithoutOfTwo(a: string, b: string, c: char)
    ensures Without(a + b, c) == Without(a, c) + Without(b, c)
  {
    if a == "" {
      assert a + b == b;
    } else {
      assert (a + b)[1..] == a[1..] + b;
      WithoutOfTwo(a[1..], b, c);
      var x := if a[0] == c then "" else [a[0]];
      assert x + (Without(a[1..], c) + Without(b, c)) == x + Without(a[1..], c) + Without(b, c);
    }
  }

  lemma WithoutOneBreak(line: string, more: string)
    requires '\n' !in line
    ensures Without(line + "\n" + more, '\n') == line + Without(more, '\n')
  {
    hide Without;
    WithoutNone(line, '\n');
    WithoutOfTwo(line + "\n", more, '\n');
    WithoutOfTwo(line, "\n", '\n');
    BreakAlone();
    assert line + "" == line;
  }

  lemma BreakAlone()
    ensures Without("\n", '\n') == ""
  {
  }

  lemma {:induction false} WithoutBreaks(s: string, distance: nat)
    requires distance > 0 && '\n' !in s
    ensures Without(Broken(s, distance), '\n') == s
    decreases |s|
  {
    hide Without;
    if |s| <= distance {
      WithoutNone(s, '\n');
    } else {
      WithoutBreaks(s[distance..], distance);
      WithoutOneBreak(s[..distance], Broken(s[distance..], distance));
      assert s[..distance] + s[distance..] == s;
    }
  }

  /** Line breaks stand exactly after every full line. */
  lemma {:induction false} BreaksStand(s: string, distance: nat, i: nat)
    requires distance > 0 && '\n' !in s && i < |Broken(s, distance)|
    ensures Broken(s, distance)[i] == '\n' <==> (i + 1) % (distance + 1) == 0
    decreases |s|
  {
    if |s| <= distance {
      assert s[i] in s;
    } else if i < distance {
      assert s[i] in s;
    } else if i > distance {
      BreaksStand(s[distance..], distance, i - distance - 1);
      NextLine(i, distance);
    }
  }

  lemma NextLine(i: nat, distance: nat)
    requires i > distance
    ensures (i + 1) % (distance + 1) == (i - distance) % (distance + 1)
  {
    AddDivisor(i - distance, distance + 1);
  }

  lemma AddDivisor(a: nat, d: nat)
    requires d > 0
    ensures (a + d) % d == a % d
  {
    var m := (a + d) / d - a / d - 1;
    assert (a + d) / d * d + (a + d) % d == a + d && a / d * d + a % d == a;
    assert m * d == a % d - (a + d) % d;
    OnlyZero(m, d);
  }

  lemma OnlyZero(m: int, d: nat)
    requires -(d as int) < m * d < d
    ensures m == 0
  {
  }

  lemma {:induction false} EncodedHasNoBreaks(bytes: seq<Byte>, url: bool)
    ensures '\n' !in Encoded(bytes, url)
    decreases |bytes|
  {
    if bytes != [] {
      var front := if |bytes| <= 3 then bytes else bytes[..3];
      QuadHasNoBreaks(front, url);
      if |bytes| > 3 {
        EncodedHasNoBreaks(bytes[3..], url);
      }
    }
  }

  lemma QuadHasNoBreaks(bytes: seq<Byte>, url: bool)
    requires 1 <= |bytes| <= 3
    ensures '\n' !in Quad(bytes, url)
  {
    hide Symbol, PosOfChar;
    forall k: Sextet
      ensures Symbol(k, url) != '\n'
    {
      PositionOfSymbol(k, url);
    }
  }

  /** The PEM and MIME forms decode to the bytes when line breaks are removed.  When they are not, and the lines hold
      whole quads as those of 64 and 76 characters do, the form decodes exactly when it is a single line. */
  lemma LinesRoundTrip(bytes: seq<Byte>, distance: nat)
    requires distance > 0
    ensures var lines := Broken(Encoded(bytes, false), distance);
            Decoded(Without(lines, '\n')) == Ok(bytes)
            && (distance % 4 == 0 ==>
                  Decoded(lines) == if |Encoded(bytes, false)| <= distance then Ok(bytes) else InvalidInput)
  {
    hide Encoded, Decoded, Without;
    var s := Encoded(bytes, false);
    EncodedHasNoBreaks(bytes, false);
    WithoutBreaks(s, distance);
    RoundTrip(bytes, false);
    if |s| > distance && distance % 4 == 0 {
      var lines := Broken(s, distance);
      assert lines[distance] == '\n';
      assert Fault(lines, distance);
      InvalidExactly(lines);
    }
  }

  // ---------------------------------------------------------------------------------------------------------
  // Errors

  /** What the decoder stops at: a string that ends after the first character of a quad, or a character of neither
      alphabet, unless it is padding in one of the last two places of a quad or follows padding in the third. */
  predicate Fault(s: string, i: nat)
    requires i <= |s|
  {
    if i == |s| then i % 4 == 1
    else
      PosOfChar(s[i]).InvalidInput?
      && (i % 4 <= 1 || (!IsPadding(s[i]) && (i % 4 == 2 || !IsPadding(s[i - 1]))))
  }

  lemma QuadInvalidExactly(s: string)
    requires s != ""
    ensures QuadDecoded(s) == InvalidInput <==> exists i: nat :: i < 4 && i <= |s| && Fault(s, i)
  {
    hide FirstByte, SecondByte, ThirdByte;
    assert PosOfChar('\0') == InvalidInput;
    hide PosOfChar;
    var q := QuadDecoded(s);
    if q == InvalidInput {
      if PosOfChar(s[0]).InvalidInput? {
        assert Fault(s, 0);
      } else if PosOfChar(CharAt(s, 1)).InvalidInput? {
        assert Fault(s, 1);
      } else if PosOfChar(s[2]).InvalidInput? {
        assert Fault(s, 2);
      } else {
        assert Fault(s, 3);
      }
    }
  }

  lemma FaultBehind(s: string, i: nat)
    requires |s| >= 4 && i <= |s[4..]|
    ensures Fault(s[4..], i) <==> Fault(s, i + 4)
  {
  }

  /** The decoder fails exactly on the strings with such a fault; every other character is read or passed over. */
  lemma {:induction false} InvalidExactly(s: string)
    ensures Decoded(s) == InvalidInput <==> exists i: nat :: i <= |s| && Fault(s, i)
    decreases |s|
  {
    hide Fault, QuadDecoded;
    if s == "" {
      NoFaultInEmpty();
    } else {
      QuadInvalidExactly(s);
      if |s| >= 4 {
        InvalidExactly(s[4..]);
        forall i: nat | i <= |s[4..]|
          ensures Fault(s[4..], i) <==> Fault(s, i + 4)
        {
          FaultBehind(s, i);
        }
        assert forall i: nat :: 4 <= i <= |s| && Fault(s, i) ==> Fault(s[4..], i - 4);
        if |s| == 4 {
          assert s[4..] == "";
        }
      }
    }
  }

  lemma NoFaultInEmpty()
    ensures !Fault("", 0)
  {
  }

  /** A character of neither alphabet passes behind padding and fails in front of it. */
  lemma StrangeCharacters()
    ensures PosOfChar('!') == InvalidInput
    ensures Decoded("QQ=!") == Ok([65]) && Decoded("QQ!=") == InvalidInput
  {
  }
}
