/**
 * Base64 encoding with the standard alphabet and `=` padding, as section 4 of RFC 4648
 * defines it: each group of three bytes becomes four characters, and a final group of one
 * or two bytes is padded to four characters with `=`.
 */
module Base64 {
  import opened Errors

  type Byte = x: int | 0 <= x < 256

  /** A six-bit value: the index of a character in the alphabet. */
  type Sextet = x: int | 0 <= x < 64

  const Pad: char := '='

  /** The 64 characters of the standard alphabet: A-Z, a-z, 0-9, '+' and '/'. */
  predicate IsAlphabetChar(c: char)
  {
    ('A' <= c <= 'Z') || ('a' <= c <= 'z') || ('0' <= c <= '9') || c == '+' || c == '/'
  }

  /** The character for value `v` in RFC 4648's Table 1 (the standard Base64 alphabet). */
  function CharOf(v: Sextet): char
  {
    if v < 26 then (('A' as int) + v) as char
    else if v < 52 then (('a' as int) + (v - 26)) as char
    else if v < 62 then (('0' as int) + (v - 52)) as char
    else if v == 62 then '+'
    else '/'
  }

  /** The value of an alphabet character, or None for any other character. */
  function IndexOf(c: char): (r: Option<Sextet>)
    ensures r.Some? <==> IsAlphabetChar(c)
  {
    if 'A' <= c <= 'Z' then Some(c as int - 'A' as int)
    else if 'a' <= c <= 'z' then Some(c as int - 'a' as int + 26)
    else if '0' <= c <= '9' then Some(c as int - '0' as int + 52)
    else if c == '+' then Some(62)
    else if c == '/' then Some(63)
    else None
  }

  /** Every value has an alphabet character, which IndexOf maps back to the value. */
  lemma IndexOfCharOf(v: Sextet)
    ensures IsAlphabetChar(CharOf(v)) && IndexOf(CharOf(v)) == Some(v)
  {
  }

  lemma CharOfIndexOf(c: char)
    requires IsAlphabetChar(c)
    ensures CharOf(IndexOf(c).value) == c
  {
  }

  /** Three bytes, 24 bits, as four characters. */
  function EncodeGroup(b0: Byte, b1: Byte, b2: Byte): string
  {
    [CharOf(b0 / 4), CharOf((b0 % 4) * 16 + b1 / 16), CharOf((b1 % 16) * 4 + b2 / 64), CharOf(b2 % 64)]
  }

  /** A final group of one byte: two characters and two pad characters. */
  function EncodeFinal1(b0: Byte): string
  {
    [CharOf(b0 / 4), CharOf((b0 % 4) * 16), Pad, Pad]
  }

  /** A final group of two bytes: three characters and one pad character. */
  function EncodeFinal2(b0: Byte, b1: Byte): string
  {
    [CharOf(b0 / 4), CharOf((b0 % 4) * 16 + b1 / 16), CharOf((b1 % 16) * 4), Pad]
  }

  /** The number of pad characters the encoding of `n` bytes ends with. */
  function PadCount(n: nat): nat
  {
    (3 - n % 3) % 3
  }

  predicate IsEncodingChar(c: char)
  {
    IsAlphabetChar(c) || c == Pad
  }

  /** `base64.b64encode(bytes).decode()`: the encoding of `s` as a string. */
  function Encode(s: seq<Byte>): (t: string)
    ensures |t| == 4 * ((|s| + 2) / 3)
    decreases |s|
  {
    if |s| == 0 then ""
    else if |s| == 1 then EncodeFinal1(s[0])
    else if |s| == 2 then EncodeFinal2(s[0], s[1])
    else EncodeGroup(s[0], s[1], s[2]) + Encode(s[3..])
  }

  /** The first byte that a group's sextets carry: six bits of `i0`, two of `i1`. */
  function Byte0(i0: Sextet, i1: Sextet): Byte { i0 * 4 + i1 / 16 }

  /** The second byte: four bits of `i1`, four of `i2`. */
  function Byte1(i1: Sextet, i2: Sextet): Byte { (i1 % 16) * 16 + i2 / 4 }

  /** The third byte: two bits of `i2`, six of `i3`. */
  function Byte2(i2: Sextet, i3: Sextet): Byte { (i2 % 4) * 64 + i3 }

  /** Four alphabet characters back to three bytes; None if any character is outside the alphabet. */
  function DecodeGroup(c0: char, c1: char, c2: char, c3: char): Option<seq<Byte>>
  {
    match (IndexOf(c0), IndexOf(c1), IndexOf(c2), IndexOf(c3))
    case (Some(i0), Some(i1), Some(i2), Some(i3)) =>
      Some([Byte0(i0, i1), Byte1(i1, i2), Byte2(i2, i3)])
    case _ => None
  }

  /**
   * The last four characters of an encoding: a full group, or a padded group of one or two
   * bytes. The bits the padding leaves unused must be zero, so that each byte string has
   * exactly one encoding.
   */
  function DecodeFinal(c0: char, c1: char, c2: char, c3: char): Option<seq<Byte>>
  {
    if c2 == Pad && c3 == Pad then
      match (IndexOf(c0), IndexOf(c1))
      case (Some(i0), Some(i1)) =>
        if i1 % 16 == 0 then Some([Byte0(i0, i1)]) else None
      case _ => None
    else if c3 == Pad then
      match (IndexOf(c0), IndexOf(c1), IndexOf(c2))
      case (Some(i0), Some(i1), Some(i2)) =>
        if i2 % 4 == 0 then Some([Byte0(i0, i1), Byte1(i1, i2)]) else None
      case _ => None
    else DecodeGroup(c0, c1, c2, c3)
  }

  /** Strict decoding: None unless `t` is the encoding of some byte string. */
  function Decode(t: string): Option<seq<Byte>>
    decreases |t|
  {
    if |t| == 0 then Some([])
    else if |t| < 4 then None
    else if |t| == 4 then DecodeFinal(t[0], t[1], t[2], t[3])
    else
      match DecodeGroup(t[0], t[1], t[2], t[3])
      case None => None
      case Some(head) =>
        match Decode(t[4..])
        case None => None
        case Some(tail) => Some(head + tail)
  }

  /** Splitting bytes into sextets and joining them again gives the bytes back. */
  lemma SplitJoin(b0: Byte, b1: Byte, b2: Byte)
    ensures Byte0(b0 / 4, (b0 % 4) * 16 + b1 / 16) == b0
    ensures Byte1((b0 % 4) * 16 + b1 / 16, (b1 % 16) * 4 + b2 / 64) == b1
    ensures Byte2((b1 % 16) * 4 + b2 / 64, b2 % 64) == b2
  {
    assert ((b0 % 4) * 16 + b1 / 16) / 16 == b0 % 4 && ((b0 % 4) * 16 + b1 / 16) % 16 == b1 / 16;
    assert ((b1 % 16) * 4 + b2 / 64) / 4 == b1 % 16 && ((b1 % 16) * 4 + b2 / 64) % 4 == b2 / 64;
  }

  /** Joining sextets into bytes and splitting them again gives the sextets back. */
  lemma JoinSplit(i0: Sextet, i1: Sextet, i2: Sextet, i3: Sextet)
    ensures Byte0(i0, i1) / 4 == i0
    ensures (Byte0(i0, i1) % 4) * 16 + Byte1(i1, i2) / 16 == i1
    ensures (Byte1(i1, i2) % 16) * 4 + Byte2(i2, i3) / 64 == i2
    ensures Byte2(i2, i3) % 64 == i3
  {
    assert Byte0(i0, i1) / 4 == i0 && Byte0(i0, i1) % 4 == i1 / 16;
    assert Byte1(i1, i2) / 16 == i1 % 16 && Byte1(i1, i2) % 16 == i2 / 4;
    assert Byte2(i2, i3) / 64 == i2 % 4 && Byte2(i2, i3) % 64 == i3;
  }

  /** Four alphabet characters decode to the bytes their sextets carry. */
  lemma DecodeGroupOfSextets(i0: Sextet, i1: Sextet, i2: Sextet, i3: Sextet)
    ensures DecodeGroup(CharOf(i0), CharOf(i1), CharOf(i2), CharOf(i3))
         == Some([Byte0(i0, i1), Byte1(i1, i2), Byte2(i2, i3)])
    ensures DecodeFinal(CharOf(i0), CharOf(i1), CharOf(i2), CharOf(i3))
         == DecodeGroup(CharOf(i0), CharOf(i1), CharOf(i2), CharOf(i3))
  {
    IndexOfCharOf(i0); IndexOfCharOf(i1); IndexOfCharOf(i2); IndexOfCharOf(i3);
  }

  lemma DecodeGroupOfEncodeGroup(b0: Byte, b1: Byte, b2: Byte)
    ensures var g := EncodeGroup(b0, b1, b2);
      DecodeGroup(g[0], g[1], g[2], g[3]) == Some([b0, b1, b2]) &&
      DecodeFinal(g[0], g[1], g[2], g[3]) == Some([b0, b1, b2])
  {
    var i0, i1, i2, i3 := b0 / 4, (b0 % 4) * 16 + b1 / 16, (b1 % 16) * 4 + b2 / 64, b2 % 64;
    SplitJoin(b0, b1, b2);
    DecodeGroupOfSextets(i0, i1, i2, i3);
    var g := EncodeGroup(b0, b1, b2);
    assert g[0] == CharOf(i0) && g[1] == CharOf(i1) && g[2] == CharOf(i2) && g[3] == CharOf(i3);
  }

  lemma DecodeEncodeFinal1(b0: Byte)
    ensures Decode(EncodeFinal1(b0)) == Some([b0])
  {
    SplitJoin(b0, 0, 0);
    assert ((b0 % 4) * 16) % 16 == 0;
    IndexOfCharOf(b0 / 4); IndexOfCharOf((b0 % 4) * 16);
    var t := EncodeFinal1(b0);
    assert Decode(t) == DecodeFinal(t[0], t[1], t[2], t[3]);
  }

  lemma DecodeEncodeFinal2(b0: Byte, b1: Byte)
    ensures Decode(EncodeFinal2(b0, b1)) == Some([b0, b1])
  {
    var i0, i1, i2 := b0 / 4, (b0 % 4) * 16 + b1 / 16, (b1 % 16) * 4;
    SplitJoin(b0, b1, 0);
    assert i2 % 4 == 0 && i2 / 4 == b1 % 16;
    assert Byte1(i1, i2) == b1;
    IndexOfCharOf(i0); IndexOfCharOf(i1); IndexOfCharOf(i2);
    var t := EncodeFinal2(b0, b1);
    assert t[2] != Pad;
    assert IndexOf(t[0]) == Some(i0) && IndexOf(t[1]) == Some(i1) && IndexOf(t[2]) == Some(i2);
    assert Decode(t) == DecodeFinal(t[0], t[1], t[2], t[3]);
  }

  /** A group followed by a non-empty decodable rest decodes to the group's bytes, then the rest's. */
  lemma DecodeGroupThen(g: string, rest: string, head: seq<Byte>, tail: seq<Byte>)
    requires |g| == 4 && DecodeGroup(g[0], g[1], g[2], g[3]) == Some(head)
    requires |rest| > 0 && Decode(rest) == Some(tail)
    ensures Decode(g + rest) == Some(head + tail)
  {
    var t := g + rest;
    assert t[0] == g[0] && t[1] == g[1] && t[2] == g[2] && t[3] == g[3];
    assert t[4..] == rest;
  }

  /** The encoding of three or more bytes is the first group's encoding, then the rest's. */
  lemma EncodeSplit(s: seq<Byte>)
    requires |s| >= 3
    ensures Encode(s) == EncodeGroup(s[0], s[1], s[2]) + Encode(s[3..])
  {
  }

  lemma SplitBytes(s: seq<Byte>)
    requires |s| >= 3
    ensures s == [s[0], s[1], s[2]] + s[3..]
  {
  }

  lemma DecodeEncodeGroup(b0: Byte, b1: Byte, b2: Byte)
    ensures Decode(Encode([b0, b1, b2])) == Some([b0, b1, b2])
  {
    var s := [b0, b1, b2];
    EncodeSplit(s);
    assert s[3..] == [];
    var g := EncodeGroup(b0, b1, b2);
    DecodeGroupOfEncodeGroup(b0, b1, b2);
    assert Encode(s) == g;
  }

  /** Decoding an encoding returns the original bytes. */
  lemma {:induction false} DecodeEncode(s: seq<Byte>)
    ensures Decode(Encode(s)) == Some(s)
    decreases |s|
  {
    if |s| == 1 {
      DecodeEncodeFinal1(s[0]);
      assert s == [s[0]];
    } else if |s| == 2 {
      DecodeEncodeFinal2(s[0], s[1]);
      assert s == [s[0], s[1]];
    } else if |s| == 3 {
      DecodeEncodeGroup(s[0], s[1], s[2]);
      assert s == [s[0], s[1], s[2]];
    } else if |s| > 3 {
      EncodeSplit(s);
      SplitBytes(s);
      DecodeEncode(s[3..]);
      DecodeGroupOfEncodeGroup(s[0], s[1], s[2]);
      DecodeGroupThen(EncodeGroup(s[0], s[1], s[2]), Encode(s[3..]), [s[0], s[1], s[2]], s[3..]);
    }
  }

  lemma EncodeGroupOfDecodeGroup(c0: char, c1: char, c2: char, c3: char)
    requires DecodeGroup(c0, c1, c2, c3).Some?
    ensures var b := DecodeGroup(c0, c1, c2, c3).value;
      |b| == 3 && EncodeGroup(b[0], b[1], b[2]) == [c0, c1, c2, c3]
  {
    var i0, i1, i2, i3 := IndexOf(c0).value, IndexOf(c1).value, IndexOf(c2).value, IndexOf(c3).value;
    var b := DecodeGroup(c0, c1, c2, c3).value;
    assert b == [Byte0(i0, i1), Byte1(i1, i2), Byte2(i2, i3)];
    JoinSplit(i0, i1, i2, i3);
    CharOfIndexOf(c0); CharOfIndexOf(c1); CharOfIndexOf(c2); CharOfIndexOf(c3);
    EncodeGroupOfSextets(b[0], b[1], b[2], i0, i1, i2, i3);
  }

  lemma EncodeGroupOfSextets(b0: Byte, b1: Byte, b2: Byte, i0: Sextet, i1: Sextet, i2: Sextet, i3: Sextet)
    requires b0 / 4 == i0 && (b0 % 4) * 16 + b1 / 16 == i1
    requires (b1 % 16) * 4 + b2 / 64 == i2 && b2 % 64 == i3
    ensures EncodeGroup(b0, b1, b2) == [CharOf(i0), CharOf(i1), CharOf(i2), CharOf(i3)]
  {
  }

  lemma EncodeOfDecodeFinal1(c0: char, c1: char)
    requires DecodeFinal(c0, c1, Pad, Pad).Some?
    ensures Encode(DecodeFinal(c0, c1, Pad, Pad).value) == [c0, c1, Pad, Pad]
  {
    var i0, i1 := IndexOf(c0).value, IndexOf(c1).value;
    var b0 := Byte0(i0, i1);
    assert DecodeFinal(c0, c1, Pad, Pad).value == [b0];
    JoinSplit(i0, i1, 0, 0);
    assert i1 % 16 == 0;
    assert (b0 % 4) * 16 == i1;
    CharOfIndexOf(c0); CharOfIndexOf(c1);
    assert Encode([b0]) == EncodeFinal1(b0);
  }

  lemma EncodeOfDecodeFinal2(c0: char, c1: char, c2: char)
    requires c2 != Pad && DecodeFinal(c0, c1, c2, Pad).Some?
    ensures Encode(DecodeFinal(c0, c1, c2, Pad).value) == [c0, c1, c2, Pad]
  {
    var i0, i1, i2 := IndexOf(c0).value, IndexOf(c1).value, IndexOf(c2).value;
    var b0, b1 := Byte0(i0, i1), Byte1(i1, i2);
    assert DecodeFinal(c0, c1, c2, Pad).value == [b0, b1];
    JoinSplit(i0, i1, i2, 0);
    assert i2 % 4 == 0;
    assert (b1 % 16) * 4 == i2;
    CharOfIndexOf(c0); CharOfIndexOf(c1); CharOfIndexOf(c2);
    assert Encode([b0, b1]) == EncodeFinal2(b0, b1);
  }

  lemma EncodeOfDecodeFinal(c0: char, c1: char, c2: char, c3: char)
    requires DecodeFinal(c0, c1, c2, c3).Some?
    ensures Encode(DecodeFinal(c0, c1, c2, c3).value) == [c0, c1, c2, c3]
  {
    if c2 == Pad && c3 == Pad {
      EncodeOfDecodeFinal1(c0, c1);
    } else if c3 == Pad {
      EncodeOfDecodeFinal2(c0, c1, c2);
    } else {
      var b := DecodeFinal(c0, c1, c2, c3).value;
      EncodeGroupOfDecodeGroup(c0, c1, c2, c3);
      assert b[3..] == [];
      assert Encode(b) == EncodeGroup(b[0], b[1], b[2]) + Encode(b[3..]);
    }
  }

  /** A string longer than one group decodes only if its first group and its rest both do. */
  lemma DecodeSplit(t: string)
    requires |t| > 4 && Decode(t).Some?
    ensures DecodeGroup(t[0], t[1], t[2], t[3]).Some? && Decode(t[4..]).Some?
    ensures Decode(t).value == DecodeGroup(t[0], t[1], t[2], t[3]).value + Decode(t[4..]).value
  {
  }

  lemma SplitChars(t: string)
    requires |t| >= 4
    ensures t == [t[0], t[1], t[2], t[3]] + t[4..]
  {
  }

  /** Every string that decodes is the encoding of what it decodes to: each byte string has one encoding. */
  lemma {:induction false} EncodeDecode(t: string)
    requires Decode(t).Some?
    ensures Encode(Decode(t).value) == t
    decreases |t|
  {
    if |t| == 4 {
      EncodeOfDecodeFinal(t[0], t[1], t[2], t[3]);
      assert t == [t[0], t[1], t[2], t[3]];
    } else if |t| > 4 {
      DecodeSplit(t);
      EncodeDecode(t[4..]);
      EncodeGroupThen(t, DecodeGroup(t[0], t[1], t[2], t[3]).value, Decode(t[4..]).value);
    }
  }

  /** A first group that decodes, followed by the encoding of `tail`, is the encoding of the bytes joined. */
  lemma EncodeGroupThen(t: string, head: seq<Byte>, tail: seq<Byte>)
    requires |t| > 4 && DecodeGroup(t[0], t[1], t[2], t[3]) == Some(head) && Encode(tail) == t[4..]
    ensures Encode(head + tail) == t
  {
    SplitChars(t);
    EncodeGroupOfDecodeGroup(t[0], t[1], t[2], t[3]);
    EncodeAfterGroup(head, tail);
  }

  lemma EncodeAfterGroup(head: seq<Byte>, tail: seq<Byte>)
    requires |head| == 3
    ensures Encode(head + tail) == EncodeGroup(head[0], head[1], head[2]) + Encode(tail)
  {
    var s := head + tail;
    EncodeSplit(s);
    assert s[3..] == tail;
  }

  /** Different byte strings have different encodings. */
  lemma EncodeInjective(s: seq<Byte>, s': seq<Byte>)
    requires Encode(s) == Encode(s')
    ensures s == s'
  {
    DecodeEncode(s);
    DecodeEncode(s');
  }

  /** No character of a full group's encoding is a pad character. */
  lemma GroupIsAlphabet(b0: Byte, b1: Byte, b2: Byte)
    ensures forall i :: 0 <= i < 4 ==> IsAlphabetChar(EncodeGroup(b0, b1, b2)[i])
  {
    IndexOfCharOf(b0 / 4); IndexOfCharOf((b0 % 4) * 16 + b1 / 16);
    IndexOfCharOf((b1 % 16) * 4 + b2 / 64); IndexOfCharOf(b2 % 64);
  }

  /**
   * `t` uses only the standard alphabet and `=`, and `=` appears in exactly its last `n`
   * positions.
   */
  predicate AlphabetPadded(t: string, n: nat)
  {
    && n <= |t|
    && (forall i :: 0 <= i < |t| ==> IsEncodingChar(t[i]))
    && (forall i :: 0 <= i < |t| ==> (t[i] == Pad <==> |t| - n <= i))
  }

  lemma Final1Chars(b0: Byte)
    ensures AlphabetPadded(EncodeFinal1(b0), 2)
  {
    IndexOfCharOf(b0 / 4); IndexOfCharOf((b0 % 4) * 16);
  }

  lemma Final2Chars(b0: Byte, b1: Byte)
    ensures AlphabetPadded(EncodeFinal2(b0, b1), 1)
  {
    IndexOfCharOf(b0 / 4); IndexOfCharOf((b0 % 4) * 16 + b1 / 16); IndexOfCharOf((b1 % 16) * 4);
  }

  /** A group of alphabet characters in front keeps the pad characters exactly at the end. */
  lemma PaddedAfterGroup(g: string, rest: string, n: nat)
    requires |g| == 4 && forall i :: 0 <= i < 4 ==> IsAlphabetChar(g[i])
    requires AlphabetPadded(rest, n)
    ensures AlphabetPadded(g + rest, n)
  {
    var t := g + rest;
    forall i | 0 <= i < |t|
      ensures IsEncodingChar(t[i])
      ensures t[i] == Pad <==> |t| - n <= i
    {
      if i < 4 {
        assert t[i] == g[i];
      } else {
        assert t[i] == rest[i - 4];
      }
    }
  }

  /**
   * The encoding uses only the standard alphabet and `=`, and `=` appears exactly in the
   * last PadCount(|s|) positions: two after a final single byte, one after a final pair.
   */
  lemma PadCountStep(n: nat)
    requires n >= 3
    ensures PadCount(n) == PadCount(n - 3)
  {
  }

  lemma {:induction false} EncodeAlphabet(s: seq<Byte>)
    ensures AlphabetPadded(Encode(s), PadCount(|s|))
    decreases |s|
  {
    if |s| == 0 {
      assert Encode(s) == "";
    } else if |s| == 1 {
      Final1Chars(s[0]);
      assert PadCount(1) == 2;
    } else if |s| == 2 {
      Final2Chars(s[0], s[1]);
      assert PadCount(2) == 1;
    } else {
      EncodeSplit(s);
      GroupIsAlphabet(s[0], s[1], s[2]);
      EncodeAlphabet(s[3..]);
      PadCountStep(|s|);
      PaddedAfterGroup(EncodeGroup(s[0], s[1], s[2]), Encode(s[3..]), PadCount(|s|));
    }
  }

  /** The test vectors of section 10 of RFC 4648: "", "f", "fo", "foo", "foob", "fooba", "foobar". */
  lemma Rfc4648Vectors()
    ensures Encode([]) == ""
    ensures Encode([102]) == "Zg=="
    ensures Encode([102, 111]) == "Zm8="
    ensures Encode([102, 111, 111]) == "Zm9v"
    ensures Encode([102, 111, 111, 98]) == "Zm9vYg=="
    ensures Encode([102, 111, 111, 98, 97]) == "Zm9vYmE="
    ensures Encode([102, 111, 111, 98, 97, 114]) == "Zm9vYmFy"
  {
  }
}
