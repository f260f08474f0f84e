/** `base64ToBlob` (src/utils/fileHelpers.ts): the label PDF arrives as Base64
    text, is decoded with `atob` into a string of byte-valued characters, copied
    character code by character code into an array, turned into a Uint8Array and
    wrapped in a Blob.

    `atob` follows the "forgiving-base64 decode" algorithm of the HTML Living
    Standard (section 8.3, "Base64 utility methods", and the Infra Standard's
    forgiving-base64 decode): ASCII whitespace is removed, one or two trailing
    '=' are dropped when the length is a multiple of four, a length of 1 modulo 4
    or a character outside the RFC 4648 section 4 alphabet is a failure, and the
    leftover bits of a final partial group are discarded. A failure makes `atob`
    throw, modelled here as `None`. */
module FileHelpers {
  import opened Wrappers
  import opened Seqs

  const PdfMime := "application/pdf"

  /** A Blob: its bytes and its MIME type. */
  datatype Blob = Blob(bytes: seq<int>, mimeType: string)

  predicate IsByte(n: int) { 0 <= n < 256 }

  predicate IsByteSeq(b: seq<int>) {
    forall i :: 0 <= i < |b| ==> IsByte(b[i])
  }

  predicate IsSextetSeq(v: seq<int>) {
    forall i :: 0 <= i < |v| ==> 0 <= v[i] < 64
  }

  // ------------------------------------------------------------ the alphabet

  /** The character of a 6-bit value in the RFC 4648 section 4 alphabet. */
  function SextetChar(v: int): (c: char)
    requires 0 <= v < 64
  {
    if v < 26 then ('A' as int + v) as char
    else if v < 52 then ('a' as int + (v - 26)) as char
    else if v < 62 then ('0' as int + (v - 52)) as char
    else if v == 62 then '+'
    else '/'
  }

  /** The 6-bit value of an alphabet character, `None` for any other character. */
  function SextetValue(c: char): (r: Option<int>)
    ensures r.Some? ==> 0 <= r.value < 64 && SextetChar(r.value) == c
  {
    if 'A' <= c <= 'Z' then Some(c as int - 'A' as int)
    else if 'a' <= c <= 'z' then Some(c as int - 'a' as int + 26)
    else if '0' <= c <= '9' then Some(c as int - '0' as int + 52)
    else if c == '+' then Some(62)
    else if c == '/' then Some(63)
    else None
  }

  /** Every 6-bit value has exactly one character, and it reads back. */
  lemma SextetRoundTrip(v: int)
    requires 0 <= v < 64
    ensures SextetValue(SextetChar(v)) == Some(v)
  {
  }

  predicate AsciiWhitespace(c: char) {
    c == ' ' || c == '\t' || c == '\n' || c == '\U{000C}' || c == '\r'
  }

  predicate NotAsciiWhitespace(c: char) { !AsciiWhitespace(c) }

  // ---------------------------------------------------------------- decoding

  /** One or two trailing '=' removed, only when the length is a multiple of four. */
  function DropPadding(t: string): (r: string)
    ensures |t| % 4 != 0 ==> r == t
    ensures |r| <= |t| && r == t[..|r|] && |t| - 2 <= |r|
  {
    if |t| % 4 == 0 && |t| >= 2 && t[|t| - 2] == '=' && t[|t| - 1] == '=' then t[..|t| - 2]
    else if |t| % 4 == 0 && |t| >= 1 && t[|t| - 1] == '=' then t[..|t| - 1]
    else t
  }

  /** The 6-bit values of the characters of `t`, `None` when one is not in the alphabet. */
  function Sextets(t: string): (r: Option<seq<int>>)
    ensures r.Some? ==> |r.value| == |t| && IsSextetSeq(r.value)
    ensures r.None? ==> exists i :: 0 <= i < |t| && SextetValue(t[i]).None?
  {
    if t == [] then Some([])
    else
      match (SextetValue(t[0]), Sextets(t[1..]))
      case (Some(x), Some(rest)) => Some([x] + rest)
      case (None, _) => None
      case (Some(_), None) =>
        assert exists i :: 0 <= i < |t[1..]| && SextetValue(t[1..][i]).None?;
        var i :| 0 <= i < |t[1..]| && SextetValue(t[1..][i]).None?;
        assert t[i + 1] == t[1..][i];
        None
  }

  /** The number of bytes `n` sextets decode to (never called with `n % 4 == 1`). */
  function DecodedLength(n: nat): nat {
    n / 4 * 3 + (if n % 4 == 2 then 1 else if n % 4 == 3 then 2 else 0)
  }

  /** Four sextets make three bytes; a final two or three make one or two, their
      leftover low bits dropped. */
  function DecodeSextets(v: seq<int>): (b: seq<int>)
    requires IsSextetSeq(v) && |v| % 4 != 1
    ensures IsByteSeq(b)
    ensures |b| == DecodedLength(|v|)
  {
    if |v| == 0 then []
    else if |v| == 2 then [v[0] * 4 + v[1] / 16]
    else if |v| == 3 then [v[0] * 4 + v[1] / 16, (v[1] % 16) * 16 + v[2] / 4]
    else
      [v[0] * 4 + v[1] / 16, (v[1] % 16) * 16 + v[2] / 4, (v[2] % 4) * 64 + v[3]]
      + DecodeSextets(v[4..])
  }

  /** The bytes `atob` decodes `s` to, `None` where it throws. */
  function Base64Decode(s: string): (r: Option<seq<int>>)
    ensures r.Some? ==> IsByteSeq(r.value)
  {
    var t := DropPadding(Filter(NotAsciiWhitespace, s));
    if |t| % 4 == 1 then None
    else
      match Sextets(t)
      case None => None
      case Some(v) => Some(DecodeSextets(v))
  }

  /** The cases where `atob` throws: a length of 1 modulo 4 once whitespace
      and padding are gone, or a character outside the alphabet (an '=' that
      is not trailing padding included). */
  lemma Base64DecodeFails(s: string)
    ensures var t := DropPadding(Filter(NotAsciiWhitespace, s));
            Base64Decode(s).None? <==>
              (|t| % 4 == 1 || exists i :: 0 <= i < |t| && SextetValue(t[i]).None?)
  {
    var t := DropPadding(Filter(NotAsciiWhitespace, s));
    if |t| % 4 != 1 && Sextets(t).Some? {
      var v := Sextets(t).value;
      forall i | 0 <= i < |t| ensures SextetValue(t[i]).Some? {
        SextetsAt(t, i);
      }
    }
  }

  lemma {:induction false} SextetsAt(t: string, i: int)
    requires 0 <= i < |t| && Sextets(t).Some?
    ensures SextetValue(t[i]) == Some(Sextets(t).value[i])
  {
    if i > 0 {
      SextetsAt(t[1..], i - 1);
    }
  }

  // ---------------------------------------------------------------- encoding

  /** The sextets of standard Base64 encoding without padding (`btoa`). */
  function EncodeSextets(b: seq<int>): (v: seq<int>)
    requires IsByteSeq(b)
    ensures IsSextetSeq(v)
    ensures |v| == |b| / 3 * 4 + (if |b| % 3 == 1 then 2 else if |b| % 3 == 2 then 3 else 0)
  {
    if |b| == 0 then []
    else if |b| == 1 then [b[0] / 4, (b[0] % 4) * 16]
    else if |b| == 2 then [b[0] / 4, (b[0] % 4) * 16 + b[1] / 16, (b[1] % 16) * 4]
    else
      [b[0] / 4, (b[0] % 4) * 16 + b[1] / 16, (b[1] % 16) * 4 + b[2] / 64, b[2] % 64]
      + EncodeSextets(b[3..])
  }

  function SextetChars(v: seq<int>): (t: string)
    requires IsSextetSeq(v)
    ensures |t| == |v|
  {
    seq(|v|, i requires 0 <= i < |v| => SextetChar(v[i]))
  }

  /** Standard padded Base64 text of a byte sequence. */
  function Base64Encode(b: seq<int>): (s: string)
    requires IsByteSeq(b)
    ensures |s| % 4 == 0
  {
    var body := SextetChars(EncodeSextets(b));
    body + (if |b| % 3 == 1 then "==" else if |b| % 3 == 2 then "=" else "")
  }

  lemma {:induction false} DecodeEncodeSextets(b: seq<int>)
    requires IsByteSeq(b)
    ensures DecodeSextets(EncodeSextets(b)) == b
  {
    var v := EncodeSextets(b);
    if |b| == 1 {
      assert IsByte(b[0]);
      SplitDivMod16(b[0] % 4, 0);
      assert DecodeSextets(v) == [v[0] * 4 + v[1] / 16];
    } else if |b| == 2 {
      assert IsByte(b[0]) && IsByte(b[1]);
      SplitDivMod16(b[0] % 4, b[1] / 16);
      SplitDivMod4(b[1] % 16, 0);
      assert DecodeSextets(v) == [v[0] * 4 + v[1] / 16, (v[1] % 16) * 16 + v[2] / 4];
    } else if |b| >= 3 {
      var x, y, z := b[0], b[1], b[2];
      assert IsByte(x) && IsByte(y) && IsByte(z);
      var w := EncodeSextets(b[3..]);
      assert v == [x / 4, (x % 4) * 16 + y / 16, (y % 16) * 4 + z / 64, z % 64] + w;
      GroupRoundTrip(x, y, z);
      DecodeEncodeSextets(b[3..]);
      assert v[4..] == w;
      assert b == [x, y, z] + b[3..];
    }
  }

  /** A base-16 digit split off by `/ 16` and `% 16`. */
  lemma SplitDivMod16(a: int, c: int)
    requires 0 <= c < 16
    ensures (a * 16 + c) / 16 == a && (a * 16 + c) % 16 == c
  {
  }

  /** A base-4 digit split off by `/ 4` and `% 4`. */
  lemma SplitDivMod4(a: int, c: int)
    requires 0 <= c < 4
    ensures (a * 4 + c) / 4 == a && (a * 4 + c) % 4 == c
  {
  }

  /** Three bytes make four sextets that decode back to them. */
  lemma GroupRoundTrip(x: int, y: int, z: int)
    requires IsByte(x) && IsByte(y) && IsByte(z)
    ensures var s0, s1, s2, s3 := x / 4, (x % 4) * 16 + y / 16, (y % 16) * 4 + z / 64, z % 64;
            s0 * 4 + s1 / 16 == x && (s1 % 16) * 16 + s2 / 4 == y && (s2 % 4) * 64 + s3 == z
  {
    SplitDivMod16(x % 4, y / 16);
    SplitDivMod4(y % 16, z / 64);
  }

  lemma {:induction false} SextetsOfChars(v: seq<int>)
    requires IsSextetSeq(v)
    ensures Sextets(SextetChars(v)) == Some(v)
  {
    if v != [] {
      SextetsOfChars(v[1..]);
      SextetRoundTrip(v[0]);
      assert SextetChars(v)[1..] == SextetChars(v[1..]);
      assert v == [v[0]] + v[1..];
    }
  }

  /** Base64 text contains no whitespace, so `atob` keeps all of it. */
  lemma EncodedHasNoWhitespace(b: seq<int>)
    requires IsByteSeq(b)
    ensures Filter(NotAsciiWhitespace, Base64Encode(b)) == Base64Encode(b)
  {
    var v := EncodeSextets(b);
    var body := SextetChars(v);
    var s := Base64Encode(b);
    assert s[..|body|] == body;
    forall i | 0 <= i < |s| ensures NotAsciiWhitespace(s[i]) {
      if i < |body| {
        assert s[i] == body[i] == SextetChar(v[i]);
      }
    }
    FilterAllPass(NotAsciiWhitespace, s);
  }

  /** Dropping the padding of Base64 text leaves exactly its alphabet part. */
  lemma EncodedPaddingDropped(b: seq<int>)
    requires IsByteSeq(b)
    ensures DropPadding(Base64Encode(b)) == SextetChars(EncodeSextets(b))
  {
    var v := EncodeSextets(b);
    var body := SextetChars(v);
    var s := Base64Encode(b);
    if |b| % 3 == 0 {
      assert s == body;
      if |body| > 0 {
        SextetCharNotPad(v[|v| - 1]);
        assert body[|body| - 1] == SextetChar(v[|v| - 1]);
      }
    } else if |b| % 3 == 1 {
      assert s == body + "==";
      assert |s| % 4 == 0 && s[|s| - 2] == '=' && s[|s| - 1] == '=';
      assert s[..|s| - 2] == body;
    } else {
      assert s == body + "=";
      SextetCharNotPad(v[|v| - 1]);
      assert s[|s| - 2] == body[|body| - 1] == SextetChar(v[|v| - 1]);
      assert |s| % 4 == 0 && s[|s| - 1] == '=';
      assert s[..|s| - 1] == body;
    }
  }

  /** No alphabet character is the padding character. */
  lemma SextetCharNotPad(v: int)
    requires 0 <= v < 64
    ensures SextetChar(v) != '='
  {
  }

  /** What `atob` gives back for text `btoa` produced is the original bytes. */
  lemma Base64RoundTrip(b: seq<int>)
    requires IsByteSeq(b)
    ensures Base64Decode(Base64Encode(b)) == Some(b)
  {
    var v := EncodeSextets(b);
    var s := Base64Encode(b);
    EncodedHasNoWhitespace(b);
    EncodedPaddingDropped(b);
    var t := DropPadding(Filter(NotAsciiWhitespace, s));
    assert t == SextetChars(v);
    SextetCountNotOneMod4(|b|);
    assert |t| % 4 != 1;
    SextetsOfChars(v);
    DecodeEncodeSextets(b);
    assert Base64Decode(s) == Some(DecodeSextets(v));
  }

  /** Encoding never leaves a lone sextet in the last group. */
  lemma SextetCountNotOneMod4(n: nat)
    ensures (n / 3 * 4 + (if n % 3 == 1 then 2 else if n % 3 == 2 then 3 else 0)) % 4 != 1
  {
    var q := n / 3;
    assert (q * 4) % 4 == 0;
  }

  // --------------------------------------------------------- base64ToBlob

  /** The byte string `atob` returns: one character per byte. */
  function Atob(s: string): (r: Option<string>)
    ensures r.None? <==> Base64Decode(s).None?
    ensures r.Some? ==> |r.value| == |Base64Decode(s).value|
    ensures r.Some? ==> forall i :: 0 <= i < |r.value| ==> r.value[i] as int == Base64Decode(s).value[i]
  {
    match Base64Decode(s)
    case None => None
    case Some(b) => Some(seq(|b|, i requires 0 <= i < |b| => b[i] as char))
  }

  /** `new Uint8Array(numbers)`: every number taken modulo 256. */
  function Uint8Array(numbers: seq<int>): (r: seq<int>)
    ensures |r| == |numbers| && IsByteSeq(r)
    ensures IsByteSeq(numbers) ==> r == numbers
  {
    seq(|numbers|, i requires 0 <= i < |numbers| => numbers[i] % 256)
  }

  /** `base64ToBlob(base64, type)`; `mimeType` is `None` when the caller
      leaves the type at its default. Where `atob` throws there is no Blob. */
  method Base64ToBlob(base64: string, mimeType: Option<string>) returns (r: Option<Blob>)
    ensures r.None? <==> Base64Decode(base64).None?
    ensures r.Some? ==> r.value.bytes == Base64Decode(base64).value
    ensures r.Some? ==> r.value.mimeType == mimeType.GetOr(PdfMime)
  {
    var decoded := Atob(base64);
    if decoded.None? {
      return None;
    }
    var byteCharacters := decoded.value;
    ghost var bytes := Base64Decode(base64).value;
    var byteNumbers := new int[|byteCharacters|];
    var i := 0;
    while i < |byteCharacters|
      invariant 0 <= i <= |byteCharacters|
      invariant forall k :: 0 <= k < i ==> byteNumbers[k] == bytes[k]
    {
      byteNumbers[i] := byteCharacters[i] as int;
      i := i + 1;
    }
    assert byteNumbers[..] == bytes;
    var byteArray := Uint8Array(byteNumbers[..]);
    return Some(Blob(byteArray, mimeType.GetOr(PdfMime)));
  }

  /** Decoding an encoded label gives back its bytes, and `atob` yields one
      character per byte; what `Base64ToBlob` then builds is stated by its own
      ensures. */
  lemma LabelBlobOfEncoded(b: seq<int>)
    requires IsByteSeq(b)
    ensures Base64Decode(Base64Encode(b)) == Some(b)
    ensures Atob(Base64Encode(b)).Some? && |Atob(Base64Encode(b)).value| == |b|
  {
    Base64RoundTrip(b);
  }
}
