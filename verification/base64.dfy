/**
 The application-server key decoder of the subscription page.

 `urlB64ToUint8Array` turns a base64url string (section 5 of RFC 4648) into the
 standard base64 alphabet (section 4 of RFC 4648) by padding it to a multiple of
 four with `=` and translating `-` to `+` and `_` to `/`; it then hands the
 result to the browser's `atob`, whose behaviour is the "forgiving-base64
 decode" of the WHATWG Infra standard, and copies the character codes of the
 decoded string into a `Uint8Array`.

 The encoder `EncodeUrl` is not part of the page: it is the encoder used to
 state the round trip of the decoder (`UrlKeyRoundTrip`).
 */
module Base64 {
  import opened Wrappers

  /** The value of one `Uint8Array` element. */
  type byte = x: int | 0 <= x < 256

  /** The value of one base64 digit. */
  type sextet = x: int | 0 <= x < 64

  /** The exception `atob` throws when its argument is not base64. */
  datatype DomException = InvalidCharacterError

  /** ASCII whitespace as the WHATWG Infra standard defines it: TAB, LF, FF, CR and SPACE. */
  predicate IsAsciiWhitespace(c: char) {
    c == '\t' || c == '\n' || c as int == 0x0C || c == '\r' || c == ' '
  }

  predicate IsAsciiAlphanumeric(c: char) {
    'A' <= c <= 'Z' || 'a' <= c <= 'z' || '0' <= c <= '9'
  }

  /** A digit of the standard alphabet (section 4 of RFC 4648). */
  predicate IsStdDigit(c: char) {
    IsAsciiAlphanumeric(c) || c == '+' || c == '/'
  }

  /** A digit of the URL- and filename-safe alphabet (section 5 of RFC 4648). */
  predicate IsUrlDigit(c: char) {
    IsAsciiAlphanumeric(c) || c == '-' || c == '_'
  }

  predicate AllStdDigits(s: string) {
    forall i :: 0 <= i < |s| ==> IsStdDigit(s[i])
  }

  predicate AllUrlDigits(s: string) {
    forall i :: 0 <= i < |s| ==> IsUrlDigit(s[i])
  }

  /** The value of a digit of the standard alphabet. */
  function StdValue(c: char): sextet
    requires IsStdDigit(c)
  {
    if 'A' <= c <= 'Z' then c as int - 'A' as int
    else if 'a' <= c <= 'z' then c as int - 'a' as int + 26
    else if '0' <= c <= '9' then c as int - '0' as int + 52
    else if c == '+' then 62
    else 63
  }

  /** The digit of the standard alphabet that stands for `v`. */
  function StdDigit(v: sextet): (c: char)
    ensures IsStdDigit(c) && StdValue(c) == v
  {
    if v < 26 then ('A' as int + v) as char
    else if v < 52 then ('a' as int + (v - 26)) as char
    else if v < 62 then ('0' as int + (v - 52)) as char
    else if v == 62 then '+'
    else '/'
  }

  /** What the two `replace` passes of the decoder do to one character. */
  function UrlToStd(c: char): char {
    if c == '-' then '+' else if c == '_' then '/' else c
  }

  /** The digit of the URL-safe alphabet that stands for `v`. */
  function UrlDigit(v: sextet): (c: char)
    ensures IsUrlDigit(c) && UrlToStd(c) == StdDigit(v)
  {
    if v == 62 then '-' else if v == 63 then '_' else StdDigit(v)
  }

  // ---------------------------------------------------------------------------
  // String helpers standing for the JavaScript built-ins the decoder calls
  // ---------------------------------------------------------------------------

  /** `c.repeat(k)` */
  function Repeat(c: char, k: nat): (r: string)
    ensures |r| == k && forall i :: 0 <= i < k ==> r[i] == c
  {
    seq(k, _ => c)
  }

  /** `s.replace(/from/g, to)` for a single-character pattern. */
  function ReplaceAll(s: string, from: char, to: char): (r: string)
    ensures |r| == |s|
    ensures forall i :: 0 <= i < |s| && s[i] == from ==> r[i] == to
    ensures forall i :: 0 <= i < |s| && s[i] != from ==> r[i] == s[i]
  {
    if s == [] then []
    else [if s[0] == from then to else s[0]] + ReplaceAll(s[1..], from, to)
  }

  /** The number of `=` the decoder appends to a string of length `n`. */
  function PaddingLength(n: nat): (k: nat)
    ensures k < 4 && (n + k) % 4 == 0
  {
    (4 - n % 4) % 4
  }

  /** Lines 12-13 of the decoder: pad to a multiple of four, then translate the alphabet. */
  function ToStandardAlphabet(s: string): (r: string)
    ensures |r| == |s| + PaddingLength(|s|) && |r| % 4 == 0
    ensures forall i :: 0 <= i < |s| && s[i] == '-' ==> r[i] == '+'
    ensures forall i :: 0 <= i < |s| && s[i] == '_' ==> r[i] == '/'
    ensures forall i :: 0 <= i < |s| && s[i] != '-' && s[i] != '_' ==> r[i] == s[i]
    ensures forall i :: |s| <= i < |r| ==> r[i] == '='
    ensures forall i :: 0 <= i < |r| ==> r[i] != '-' && r[i] != '_'
  {
    var padded := s + Repeat('=', PaddingLength(|s|));
    ReplaceAll(ReplaceAll(padded, '-', '+'), '_', '/')
  }

  // ---------------------------------------------------------------------------
  // atob: the forgiving-base64 decode of the WHATWG Infra standard
  // ---------------------------------------------------------------------------

  /** Step 1 of forgiving-base64 decode: remove all ASCII whitespace. */
  function RemoveWhitespace(s: string): (r: string)
    ensures |r| <= |s|
    ensures forall c :: c in r <==> c in s && !IsAsciiWhitespace(c)
    ensures (forall i :: 0 <= i < |s| ==> !IsAsciiWhitespace(s[i])) ==> r == s
  {
    if s == [] then []
    else
      assert s == [s[0]] + s[1..];
      if IsAsciiWhitespace(s[0]) then RemoveWhitespace(s[1..])
      else [s[0]] + RemoveWhitespace(s[1..])
  }

  /**
   Whitespace removal is an in-order filter: it keeps a single non-whitespace
   character, drops a single whitespace character, and works piecewise on a
   concatenation.
   */
  lemma {:induction false} RemoveWhitespaceFilters(a: string, b: string, c: char)
    ensures RemoveWhitespace([c]) == if IsAsciiWhitespace(c) then [] else [c]
    ensures RemoveWhitespace(a + b) == RemoveWhitespace(a) + RemoveWhitespace(b)
    decreases |a|
  {
    if a != [] {
      assert (a + b)[1..] == a[1..] + b;
      RemoveWhitespaceFilters(a[1..], b, c);
    } else {
      assert a + b == b;
    }
  }

  /** Step 2: when the length is a multiple of four, drop one or two trailing `=`. */
  function StripPadding(d: string): (r: string)
    ensures |d| - 2 <= |r| <= |d| && r == d[..|r|]
    ensures forall i :: |r| <= i < |d| ==> d[i] == '='
    ensures |d| % 4 != 0 ==> r == d
    ensures |d| % 4 == 0 && |d| >= 2 && d[|d| - 2..] == "==" ==> |r| == |d| - 2
    ensures |d| % 4 == 0 && |d| >= 2 && d[|d| - 2] != '=' && d[|d| - 1] == '=' ==> |r| == |d| - 1
    ensures |d| % 4 == 0 && (|d| == 0 || d[|d| - 1] != '=') ==> r == d
  {
    if |d| % 4 != 0 then d
    else if |d| >= 2 && d[|d| - 2] == '=' && d[|d| - 1] == '=' then d[..|d| - 2]
    else if |d| >= 1 && d[|d| - 1] == '=' then d[..|d| - 1]
    else d
  }

  function StdValues(d: string): (v: seq<sextet>)
    requires AllStdDigits(d)
    ensures |v| == |d|
  {
    seq(|d|, i requires 0 <= i < |d| => StdValue(d[i]))
  }

  /** The number of bytes `n` base64 digits decode to (n % 4 == 1 never decodes). */
  function DecodedLength(n: nat): nat {
    3 * (n / 4) + (if n % 4 == 2 then 1 else if n % 4 == 3 then 2 else 0)
  }

  /**
   One group of two to four digits read as a bit stream, eight bits per byte;
   the low bits left over by a group of two or three digits are discarded.
   */
  function DecodeGroup(g: seq<sextet>): (out: seq<byte>)
    requires 2 <= |g| <= 4
    ensures |out| == |g| - 1
  {
    var a, b := g[0] as int, g[1] as int;
    var c := if |g| > 2 then g[2] as int else 0;
    var d := if |g| > 3 then g[3] as int else 0;
    var bytes: seq<byte> := [a * 4 + b / 16, (b % 16) * 16 + c / 4, (c % 4) * 64 + d];
    bytes[..|g| - 1]
  }

  /** Steps 5-7 of forgiving-base64 decode: every four digits give three bytes, a shorter last group one or two. */
  function DecodeSextets(v: seq<sextet>): (out: seq<byte>)
    requires |v| % 4 != 1
    ensures |out| == DecodedLength(|v|)
    decreases |v|
  {
    if |v| >= 4 then DecodeGroup(v[..4]) + DecodeSextets(v[4..])
    else if |v| >= 2 then DecodeGroup(v)
    else []
  }

  /** The "binary string" `atob` returns: one character per byte. */
  function Latin1(b: seq<byte>): (s: string)
    ensures |s| == |b| && forall i :: 0 <= i < |b| ==> s[i] as int == b[i]
  {
    seq(|b|, i requires 0 <= i < |b| => b[i] as char)
  }

  /** `window.atob`: forgiving-base64 decode, throwing on failure. */
  function Atob(data: string): (r: Result<string, DomException>)
    ensures r.Success? ==> forall i :: 0 <= i < |r.value| ==> r.value[i] as int < 256
  {
    var d := StripPadding(RemoveWhitespace(data));
    if |d| % 4 == 1 || !AllStdDigits(d) then Failure(InvalidCharacterError)
    else Success(Latin1(DecodeSextets(StdValues(d))))
  }

  // ---------------------------------------------------------------------------
  // The decoder itself
  // ---------------------------------------------------------------------------

  /** `charCodeAt` of every character, stored into a `Uint8Array` (which keeps the value mod 256). */
  function CharCodes(raw: string): (out: seq<byte>)
    ensures |out| == |raw|
    ensures forall i :: 0 <= i < |raw| && raw[i] as int < 256 ==> out[i] == raw[i] as int
  {
    seq(|raw|, i requires 0 <= i < |raw| => (raw[i] as int) % 256)
  }

  /** The copy loop of the decoder, computing `CharCodes` one element at a time. */
  method CopyCharCodes(raw: string) returns (out: seq<byte>)
    ensures out == CharCodes(raw)
  {
    out := [];
    var i := 0;
    while i < |raw|
      invariant 0 <= i <= |raw|
      invariant |out| == i
      invariant forall j :: 0 <= j < i ==> out[j] == (raw[j] as int) % 256
    {
      out := out + [(raw[i] as int) % 256];
      i := i + 1;
    }
  }

  /** `urlB64ToUint8Array`: the bytes of a base64url key, or the exception `atob` throws. */
  function UrlB64ToUint8Array(s: string): (r: Result<seq<byte>, DomException>)
    ensures Atob(ToStandardAlphabet(s)).Failure? ==> r == Failure(InvalidCharacterError)
    ensures Atob(ToStandardAlphabet(s)).Success? ==>
              var raw := Atob(ToStandardAlphabet(s)).value;
              r.Success? && |r.value| == |raw| &&
              forall i :: 0 <= i < |raw| ==> r.value[i] == raw[i] as int
  {
    match Atob(ToStandardAlphabet(s))
    case Failure(e) => Failure(e)
    case Success(raw) => Success(CharCodes(raw))
  }

  // ---------------------------------------------------------------------------
  // Properties of the decoder
  // ---------------------------------------------------------------------------

  /** Stripping removes exactly the `=` run that padding appended after `m` non-`=` characters. */
  lemma StripPaddingOfPadded(t: string, m: nat)
    requires m <= |t| <= m + 2 && |t| % 4 == 0
    requires forall i :: 0 <= i < m ==> t[i] != '='
    requires forall i :: m <= i < |t| ==> t[i] == '='
    ensures StripPadding(t) == t[..m]
  {
    if |t| == m + 2 {
      assert t[|t| - 2] == '=' && t[|t| - 1] == '=';
    } else if |t| == m + 1 {
      assert t[|t| - 2] != '=';
    } else if |t| > 0 {
      assert t[|t| - 1] != '=';
    }
  }

  /** Translating a base64url string gives standard digits followed by nothing but `=`. */
  lemma TranslatedUrlDigits(s: string)
    requires AllUrlDigits(s)
    ensures var t := ToStandardAlphabet(s);
            && (forall i :: 0 <= i < |s| ==> IsStdDigit(t[i]) && t[i] != '=')
            && (forall i :: 0 <= i < |t| ==> !IsAsciiWhitespace(t[i]))
  {
    var t := ToStandardAlphabet(s);
    forall i | 0 <= i < |s|
      ensures IsStdDigit(t[i]) && t[i] != '='
    {
      assert IsUrlDigit(s[i]);
    }
  }

  /** A base64url string with no `=` of its own reaches the bit-stream decoding with its padding removed. */
  lemma UrlDigitsDecode(s: string)
    requires AllUrlDigits(s) && |s| % 4 != 1
    ensures var d := StripPadding(RemoveWhitespace(ToStandardAlphabet(s)));
            d == ToStandardAlphabet(s)[..|s|] && AllStdDigits(d) && |d| % 4 != 1 &&
            Atob(ToStandardAlphabet(s)) == Success(Latin1(DecodeSextets(StdValues(d))))
  {
    var t := ToStandardAlphabet(s);
    TranslatedUrlDigits(s);
    assert RemoveWhitespace(t) == t;
    assert PaddingLength(|s|) <= 2;
    StripPaddingOfPadded(t, |s|);
    var d := StripPadding(t);
    assert d == t[..|s|];
    assert AllStdDigits(d);
  }

  /**
   A base64url key of length n (n % 4 != 1) decodes to 3 * (n / 4) bytes plus
   one or two for a trailing group of two or three digits.
   */
  lemma UrlKeyLength(s: string)
    requires AllUrlDigits(s) && |s| % 4 != 1
    ensures UrlB64ToUint8Array(s).Success?
    ensures |UrlB64ToUint8Array(s).value| == DecodedLength(|s|)
  {
    UrlDigitsDecode(s);
  }

  /** A string without whitespace whose length leaves remainder 1 mod 4 is rejected. */
  lemma RejectsLengthOneModFour(s: string)
    requires forall i :: 0 <= i < |s| ==> !IsAsciiWhitespace(s[i])
    requires |s| % 4 == 1
    ensures UrlB64ToUint8Array(s) == Failure(InvalidCharacterError)
  {
    var t := ToStandardAlphabet(s);
    assert |t| == |s| + 3;
    forall i | 0 <= i < |t|
      ensures !IsAsciiWhitespace(t[i])
    {
      if i < |s| {
        assert t[i] == s[i] || t[i] == '+' || t[i] == '/';
      }
    }
    assert RemoveWhitespace(t) == t;
    assert t[|t| - 2] == '=' && t[|t| - 1] == '=';
    var d := StripPadding(t);
    assert d == t[..|s| + 1];
    assert d[|s|] == '=';
    assert !AllStdDigits(d);
    assert Atob(t) == Failure(InvalidCharacterError);
  }

  /** A character outside both alphabets, whitespace and `=` makes the decoder throw. */
  lemma RejectsForeignCharacter(s: string, i: nat)
    requires i < |s|
    requires !IsUrlDigit(s[i]) && !IsStdDigit(s[i]) && !IsAsciiWhitespace(s[i]) && s[i] != '='
    ensures UrlB64ToUint8Array(s) == Failure(InvalidCharacterError)
  {
    var c := s[i];
    var t := ToStandardAlphabet(s);
    assert t[i] == c;
    var w := RemoveWhitespace(t);
    assert c in w;
    var d := StripPadding(w);
    var k :| 0 <= k < |w| && w[k] == c;
    assert k < |d| by {
      assert w[k] != '=';
    }
    assert d[k] == c;
    assert !AllStdDigits(d);
  }

  // ---------------------------------------------------------------------------
  // Round trip against an encoder
  // ---------------------------------------------------------------------------

  /** One group of one to three bytes as base64 digits, the last digit padded with zero bits. */
  function EncodeGroup(x: seq<byte>): (g: seq<sextet>)
    requires 1 <= |x| <= 3
    ensures |g| == |x| + 1
  {
    var p := x[0] as int;
    var q := if |x| > 1 then x[1] as int else 0;
    var r := if |x| > 2 then x[2] as int else 0;
    var digits: seq<sextet> := [p / 4, (p % 4) * 16 + q / 16, (q % 16) * 4 + r / 64, r % 64];
    digits[..|x| + 1]
  }

  /** The base64 digit values of a byte string, three bytes to four digits, no padding. */
  function Sextets(b: seq<byte>): (v: seq<sextet>)
    ensures |v| % 4 != 1 && DecodedLength(|v|) == |b|
    decreases |b|
  {
    if |b| >= 3 then EncodeGroup(b[..3]) + Sextets(b[3..])
    else if |b| >= 1 then EncodeGroup(b)
    else []
  }

  /** Unpadded base64url, the form in which a server publishes its application-server key. */
  function EncodeUrl(b: seq<byte>): (s: string)
    ensures AllUrlDigits(s) && |s| % 4 != 1
    ensures DecodedLength(|s|) == |b|
  {
    var v := Sextets(b);
    seq(|v|, i requires 0 <= i < |v| => UrlDigit(v[i]))
  }

  /** Splitting a byte into its high and low bits and joining them again gives the byte back. */
  lemma Recombine(x: byte, y: byte, z: byte)
    ensures (x / 4) * 4 + ((x % 4) * 16 + y / 16) / 16 == x
    ensures (((x % 4) * 16 + y / 16) % 16) * 16 + ((y % 16) * 4 + z / 64) / 4 == y
    ensures (((y % 16) * 4 + z / 64) % 4) * 64 + z % 64 == z
  {
    assert ((x % 4) * 16 + y / 16) / 16 == x % 4;
    assert ((x % 4) * 16 + y / 16) % 16 == y / 16;
    assert ((y % 16) * 4 + z / 64) / 4 == y % 16;
    assert ((y % 16) * 4 + z / 64) % 4 == z / 64;
  }

  lemma GroupRoundTrip(x: seq<byte>)
    requires 1 <= |x| <= 3
    ensures DecodeGroup(EncodeGroup(x)) == x
  {
    var q := if |x| > 1 then x[1] else 0;
    var r := if |x| > 2 then x[2] else 0;
    Recombine(x[0], q, r);
  }

  /** Decoding the digit values of a byte string gives the byte string back. */
  lemma {:induction false} SextetsRoundTrip(b: seq<byte>)
    ensures DecodeSextets(Sextets(b)) == b
    decreases |b|
  {
    if |b| >= 3 {
      var v := Sextets(b);
      assert v[..4] == EncodeGroup(b[..3]);
      assert v[4..] == Sextets(b[3..]);
      GroupRoundTrip(b[..3]);
      SextetsRoundTrip(b[3..]);
      assert b[..3] + b[3..] == b;
    } else if |b| >= 1 {
      GroupRoundTrip(b);
    }
  }

  /** The decoder inverts the unpadded base64url encoding of every byte string. */
  lemma UrlKeyRoundTrip(b: seq<byte>)
    ensures UrlB64ToUint8Array(EncodeUrl(b)) == Success(b)
  {
    var v := Sextets(b);
    var s := EncodeUrl(b);
    var t := ToStandardAlphabet(s);
    UrlDigitsDecode(s);
    var d := t[..|s|];
    forall i | 0 <= i < |s|
      ensures d[i] == StdDigit(v[i])
    {
      assert s[i] == UrlDigit(v[i]);
      assert t[i] == UrlToStd(s[i]);
    }
    assert StdValues(d) == v;
    SextetsRoundTrip(b);
    assert CharCodes(Latin1(b)) == b;
  }

  /** A two-digit key whose first digit is `A` and second is worth less than 16 decodes to the single byte 0. */
  lemma ZeroByteKey(s: string)
    requires |s| == 2 && s[0] == 'A' && 'A' <= s[1] <= 'P'
    ensures UrlB64ToUint8Array(s) == Success([0])
  {
    assert AllUrlDigits(s);
    UrlDigitsDecode(s);
    var t := ToStandardAlphabet(s);
    var d := StripPadding(RemoveWhitespace(t));
    assert d == s by {
      assert d == t[..2];
    }
    var v := StdValues(s);
    assert v == [0, s[1] as int - 'A' as int];
    assert StdValues(d) == v;
    var out := DecodeSextets(v);
    assert out == DecodeGroup(v);
    assert out == [0];
    var raw := Latin1(out);
    assert Atob(t) == Success(raw);
    assert CharCodes(raw) == [0];
  }

  /** The byte 0 encodes as `AA`. */
  lemma EncodeZeroByte()
    ensures EncodeUrl([0]) == "AA"
  {
    var x: seq<byte> := [0];
    var g := EncodeGroup(x);
    assert g == [0, 0];
    assert Sextets(x) == g;
    assert UrlDigit(0) == 'A';
  }

  /**
   Decoding discards the low bits of a trailing group, so distinct keys can
   decode to the same bytes and re-encoding need not give the key back.
   */
  lemma NonCanonicalKeysCollide()
    ensures UrlB64ToUint8Array("AB") == UrlB64ToUint8Array("AA") == Success([0])
    ensures EncodeUrl([0]) == "AA"
  {
    ZeroByteKey("AA");
    ZeroByteKey("AB");
    EncodeZeroByte();
  }
}
