/**
 * Base64url without padding: the "URL and Filename safe" alphabet of section 5 of RFC 4648, with
 * the '=' padding of section 3.2 left off, as `urlsafe_base64_encode` produces it. Decoding accepts
 * exactly the strings of that alphabet whose length is not 1 modulo 4.
 */
module Base64Url {
  import opened Wrappers
  import opened Py

  type Sextet = x: int | 0 <= x < 64

  /** Table 2 of RFC 4648: A-Z, a-z, 0-9, '-', '_'. */
  function Symbol(d: Sextet): char
  {
    if d < 26 then (65 + d) as char
    else if d < 52 then (97 + d - 26) as char
    else if d < 62 then (48 + d - 52) as char
    else if d == 62 then '-'
    else '_'
  }

  /** The value of an alphabet character. */
  function Index(c: char): (r: Option<Sextet>)
    ensures r.Some? ==> Symbol(r.value) == c
  {
    if 'A' <= c <= 'Z' then Some(c as int - 65)
    else if 'a' <= c <= 'z' then Some(c as int - 97 + 26)
    else if '0' <= c <= '9' then Some(c as int - 48 + 52)
    else if c == '-' then Some(62)
    else if c == '_' then Some(63)
    else None
  }

  lemma IndexSymbol(d: Sextet)
    ensures Index(Symbol(d)) == Some(d)
  {
  }

  /** Three bytes split into four sextets, most significant bits first. */
  function Split3(b0: Byte, b1: Byte, b2: Byte): seq<Sextet>
  {
    [b0 / 4, (b0 % 4) * 16 + b1 / 16, (b1 % 16) * 4 + b2 / 64, b2 % 64]
  }

  /** The encoding: each 24-bit group becomes four symbols, a final 1 or 2 bytes two or three. */
  function Encode(b: seq<Byte>): (s: string)
    ensures |s| % 4 != 1
    decreases |b|
  {
    if |b| == 0 then ""
    else if |b| == 1 then [Symbol(b[0] / 4), Symbol((b[0] % 4) * 16)]
    else if |b| == 2 then [Symbol(b[0] / 4), Symbol((b[0] % 4) * 16 + b[1] / 16), Symbol((b[1] % 16) * 4)]
    else
      var d := Split3(b[0], b[1], b[2]);
      [Symbol(d[0]), Symbol(d[1]), Symbol(d[2]), Symbol(d[3])] + Encode(b[3..])
  }

  /** The values of the first `n` characters, or None when one is outside the alphabet. */
  function Indices(s: string): (r: Option<seq<Sextet>>)
    ensures r.Some? ==> |r.value| == |s|
  {
    if |s| == 0 then Some([])
    else
      match (Index(s[0]), Indices(s[1..]))
      case (Some(d), Some(ds)) => Some([d] + ds)
      case _ => None
  }

  /** Every character is in the base64url alphabet. */
  predicate InAlphabet(s: string)
  {
    forall i :: 0 <= i < |s| ==> Index(s[i]).Some?
  }

  /** The characters have values exactly when all of them are in the alphabet. */
  lemma {:induction false} IndicesDefined(s: string)
    ensures Indices(s).Some? <==> InAlphabet(s)
  {
    if |s| > 0 {
      IndicesDefined(s[1..]);
      assert forall i :: 1 <= i < |s| ==> s[i] == s[1..][i - 1];
    }
  }

  /** Four sextets back to three bytes; bits beyond a final partial byte are ignored. */
  function Join4(d: seq<Sextet>): seq<Byte>
    requires |d| == 4
  {
    var d0, d1, d2, d3: int := d[0], d[1], d[2], d[3];
    [d0 * 4 + d1 / 16, (d1 % 16) * 16 + d2 / 4, (d2 % 4) * 64 + d3]
  }

  /** The decoding: None for a character outside the alphabet or a length of 1 modulo 4. */
  function Decode(s: string): (r: Option<seq<Byte>>)
    ensures r.Some? <==> |s| % 4 != 1 && InAlphabet(s)
    decreases |s|
  {
    if |s| == 0 then Some([])
    else if |s| == 1 then None
    else
      var n := if |s| < 4 then |s| else 4;
      IndicesDefined(s[..n]);
      assert InAlphabet(s) <==> InAlphabet(s[..n]) && InAlphabet(s[n..]) by {
        assert forall i :: 0 <= i < n ==> s[..n][i] == s[i];
        assert forall i :: n <= i < |s| ==> s[n..][i - n] == s[i];
      }
      match Indices(s[..n])
      case None => None
      case Some(d) =>
        var d0, d1: int := d[0], d[1];
        if n == 2 then Some([d0 * 4 + d1 / 16])
        else if n == 3 then
          var d2: int := d[2];
          Some([d0 * 4 + d1 / 16, (d1 % 16) * 16 + d2 / 4])
        else match Decode(s[4..])
          case None => None
          case Some(rest) => Some(Join4(d) + rest)
  }

  /** Joining the sextets of three bytes gives the bytes back. */
  lemma Join4Split3(b0: Byte, b1: Byte, b2: Byte)
    ensures Join4(Split3(b0, b1, b2)) == [b0, b1, b2]
  {
    var d := Split3(b0, b1, b2);
    assert d[1] / 16 == b0 % 4 && d[1] % 16 == b1 / 16;
    assert d[2] / 4 == b1 % 16 && d[2] % 4 == b2 / 64;
    assert b0 == (b0 / 4) * 4 + b0 % 4;
    assert b1 == (b1 / 16) * 16 + b1 % 16;
    assert b2 == (b2 / 64) * 64 + b2 % 64;
  }

  lemma IndicesOfSymbols(ds: seq<Sextet>)
    ensures Indices(seq(|ds|, i requires 0 <= i < |ds| => Symbol(ds[i]))) == Some(ds)
  {
    var s := seq(|ds|, i requires 0 <= i < |ds| => Symbol(ds[i]));
    if |ds| > 0 {
      IndexSymbol(ds[0]);
      IndicesOfSymbols(ds[1..]);
      assert s[1..] == seq(|ds[1..]|, i requires 0 <= i < |ds[1..]| => Symbol(ds[1..][i]));
      assert ds == [ds[0]] + ds[1..];
    }
  }

  /** Decoding an encoding gives back the bytes. */
  lemma {:induction false} DecodeEncode(b: seq<Byte>)
    ensures Decode(Encode(b)) == Some(b)
    decreases |b|
  {
    var s := Encode(b);
    if |b| == 1 {
      var ds: seq<Sextet> := [b[0] / 4, (b[0] % 4) * 16];
      IndicesOfSymbols(ds);
      assert s[..2] == seq(2, i requires 0 <= i < 2 => Symbol(ds[i]));
      assert b[0] == (b[0] / 4) * 4 + b[0] % 4;
      var d0, d1: int := ds[0], ds[1];
      assert d0 * 4 + d1 / 16 == b[0];
      assert Decode(s) == Some([d0 * 4 + d1 / 16]);
      assert b == [b[0]];
    } else if |b| == 2 {
      var ds: seq<Sextet> := [b[0] / 4, (b[0] % 4) * 16 + b[1] / 16, (b[1] % 16) * 4];
      IndicesOfSymbols(ds);
      assert s[..3] == seq(3, i requires 0 <= i < 3 => Symbol(ds[i]));
      assert ds[1] / 16 == b[0] % 4 && ds[1] % 16 == b[1] / 16 && ds[2] / 4 == b[1] % 16;
      assert b[0] == (b[0] / 4) * 4 + b[0] % 4;
      assert b[1] == (b[1] / 16) * 16 + b[1] % 16;
      var d0, d1, d2: int := ds[0], ds[1], ds[2];
      assert d0 * 4 + d1 / 16 == b[0];
      assert (d1 % 16) * 16 + d2 / 4 == b[1];
      assert Decode(s) == Some([d0 * 4 + d1 / 16, (d1 % 16) * 16 + d2 / 4]);
      assert b == [b[0], b[1]];
    } else if |b| >= 3 {
      var ds := Split3(b[0], b[1], b[2]);
      IndicesOfSymbols(ds);
      assert s[..4] == seq(4, i requires 0 <= i < 4 => Symbol(ds[i]));
      assert s[4..] == Encode(b[3..]);
      DecodeEncode(b[3..]);
      Join4Split3(b[0], b[1], b[2]);
      assert b == [b[0], b[1], b[2]] + b[3..];
    }
  }

  /** Four characters for every three bytes, rounded up, with no padding. */
  lemma {:induction false} EncodeLength(b: seq<Byte>)
    ensures |Encode(b)| == (4 * |b| + 2) / 3
    decreases |b|
  {
    if |b| >= 3 {
      EncodeLength(b[3..]);
    }
  }
}
