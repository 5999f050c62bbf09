/**
  The Qt string and byte-array conversions the client relies on: QString::number,
  QUrl::toPercentEncoding and the construction of a QByteArray from a C string.
*/
module QtText {
  import opened Platform

  // ---------------------------------------------------------------- QString::number

  predicate IsDigit(c: char) {
    '0' <= c <= '9'
  }

  predicate AllDigits(s: string) {
    forall i :: 0 <= i < |s| ==> IsDigit(s[i])
  }

  function DigitChar(d: nat): char
    requires d < 10
  {
    ('0' as int + d) as char
  }

  /** Decimal digits of a natural number, most significant first. */
  function NaturalDigits(n: nat): (s: string)
    ensures |s| >= 1
    decreases n
  {
    if n < 10 then [DigitChar(n)] else NaturalDigits(n / 10) + [DigitChar(n % 10)]
  }

  /** QString::number for an integer: decimal, with a leading '-' for a negative number. */
  function Number(n: int): (s: string)
    ensures s != []
  {
    if n < 0 then "-" + NaturalDigits(-n) else NaturalDigits(n)
  }

  /** The value of a string of decimal digits, read most significant first. */
  function DigitsValue(s: string): nat
    requires AllDigits(s)
    decreases |s|
  {
    if s == [] then 0 else DigitsValue(s[..|s| - 1]) * 10 + (s[|s| - 1] as int - '0' as int)
  }

  /** Reads back a decimal number as Number writes it; None for anything else. */
  function ReadNumber(s: string): Option<int> {
    if |s| > 0 && s[0] == '-' then
      (if |s| > 1 && AllDigits(s[1..]) then Some(-(DigitsValue(s[1..]) as int)) else None)
    else if |s| > 0 && AllDigits(s) then Some(DigitsValue(s) as int)
    else None
  }

  lemma {:induction false} NaturalDigitsValue(n: nat)
    ensures AllDigits(NaturalDigits(n))
    ensures DigitsValue(NaturalDigits(n)) == n
    ensures NaturalDigits(n)[0] == '0' <==> n == 0
    decreases n
  {
    if n >= 10 {
      NaturalDigitsValue(n / 10);
      var s := NaturalDigits(n);
      assert s == NaturalDigits(n / 10) + [DigitChar(n % 10)];
      assert s[..|s| - 1] == NaturalDigits(n / 10);
    }
  }

  /** Number writes every integer so that ReadNumber recovers it, without leading zeros. */
  lemma NumberRoundTrip(n: int)
    ensures ReadNumber(Number(n)) == Some(n)
    ensures n > 0 ==> AllDigits(Number(n)) && Number(n)[0] != '0'
  {
    if n < 0 {
      NegativeRoundTrip(n);
    } else {
      var d := NaturalDigits(n);
      NaturalDigitsValue(n);
      assert IsDigit(d[0]);
      assert Number(n) == d;
    }
  }

  lemma NegativeRoundTrip(n: int)
    requires n < 0
    ensures ReadNumber(Number(n)) == Some(n)
  {
    var d := NaturalDigits(-n);
    NaturalDigitsValue(-n);
    var s := Number(n);
    assert s == "-" + d;
    assert s[0] == '-' && |s| > 1;
    assert s[1..] == d;
  }

  // ---------------------------------------------------------------- QUrl::toPercentEncoding

  const PercentSign: byte := 37
  const Slash: byte := 47

  /** The unreserved set of RFC 3986 section 2.3: ALPHA, DIGIT, '-', '.', '_' and '~'. */
  predicate Unreserved(b: byte) {
    (65 <= b <= 90) || (97 <= b <= 122) || (48 <= b <= 57) || b == 45 || b == 46 || b == 95 || b == 126
  }

  /** Qt keeps a byte as it is when it is unreserved or excluded, and never keeps '%'. */
  predicate Kept(b: byte, exclude: set<byte>) {
    b != PercentSign && (Unreserved(b) || b in exclude)
  }

  /** An upper-case hexadecimal digit, as toPercentEncoding writes it. */
  function HexDigit(d: nat): char
    requires d < 16
  {
    if d < 10 then ('0' as int + d) as char else ('A' as int + d - 10) as char
  }

  function HexValue(c: char): (r: Option<nat>)
    ensures r.Some? ==> r.value < 16
  {
    if '0' <= c <= '9' then Some(c as int - '0' as int)
    else if 'A' <= c <= 'F' then Some(c as int - 'A' as int + 10)
    else None
  }

  function EncodeByte(b: byte, exclude: set<byte>): string {
    if Kept(b, exclude) then [b as int as char]
    else ['%', HexDigit(b as int / 16), HexDigit(b as int % 16)]
  }

  /** Percent-encoding of RFC 3986 section 2.1 applied to bytes, as QByteArray::toPercentEncoding does. */
  function PercentEncode(bs: seq<byte>, exclude: set<byte>): string
    decreases |bs|
  {
    if bs == [] then [] else EncodeByte(bs[0], exclude) + PercentEncode(bs[1..], exclude)
  }

  /** The inverse reading: "%XX" is one byte, any character below 256 is itself. */
  function PercentDecode(s: string): Option<seq<byte>>
    decreases |s|
  {
    if s == [] then Some([])
    else if s[0] == '%' then
      if |s| < 3 then None
      else
        match (HexValue(s[1]), HexValue(s[2]), PercentDecode(s[3..]))
        case (Some(h), Some(l), Some(rest)) => Some([(h * 16 + l) as byte] + rest)
        case _ => None
    else if s[0] as int < 256 then
      match PercentDecode(s[1..])
      case Some(rest) => Some([s[0] as int as byte] + rest)
      case None => None
    else None
  }

  /** A character toPercentEncoding may write. */
  predicate Encoded(c: char, exclude: set<byte>) {
    c == '%' || HexValue(c).Some? || (c as int < 256 && Kept(c as int as byte, exclude))
  }

  lemma {:induction false} PercentRoundTrip(bs: seq<byte>, exclude: set<byte>)
    ensures PercentDecode(PercentEncode(bs, exclude)) == Some(bs)
    decreases |bs|
  {
    if bs != [] {
      PercentRoundTrip(bs[1..], exclude);
      var b := bs[0];
      var s := PercentEncode(bs, exclude);
      var rest := PercentEncode(bs[1..], exclude);
      if Kept(b, exclude) {
        assert s == [b as int as char] + rest;
        assert s[1..] == rest;
        assert s[0] != '%' && s[0] as int < 256 && s[0] as int as byte == b;
        assert PercentDecode(s) == Some([b] + bs[1..]);
        assert [b] + bs[1..] == bs;
      } else {
        assert s == ['%', HexDigit(b as int / 16), HexDigit(b as int % 16)] + rest;
        assert s[3..] == rest;
        assert HexValue(HexDigit(b as int / 16)) == Some(b as int / 16);
        assert HexValue(HexDigit(b as int % 16)) == Some(b as int % 16);
        assert [b] + bs[1..] == bs;
      }
    }
  }

  lemma {:induction false} PercentEncodeAlphabet(bs: seq<byte>, exclude: set<byte>)
    ensures forall i :: 0 <= i < |PercentEncode(bs, exclude)| ==> Encoded(PercentEncode(bs, exclude)[i], exclude)
    decreases |bs|
  {
    if bs != [] {
      PercentEncodeAlphabet(bs[1..], exclude);
      var b := bs[0];
      assert HexValue(HexDigit(b as int / 16)).Some? && HexValue(HexDigit(b as int % 16)).Some?;
    }
  }

  /** QUrl::toPercentEncoding(s, "/"): the UTF-8 bytes of s, encoded, with '/' kept. */
  function EncodePath(lib: Library, s: string): string {
    PercentEncode(lib.utf8(s), {Slash})
  }

  /** An encoded path has no line break, so it stays on one line of a canonical string. */
  lemma EncodePathOneLine(lib: Library, s: string)
    ensures '\n' !in EncodePath(lib, s)
  {
    var e := EncodePath(lib, s);
    PercentEncodeAlphabet(lib.utf8(s), {Slash});
  }

  // ---------------------------------------------------------------- QByteArray(const char*)

  /** The bytes a QByteArray keeps when it is built from a C string: everything before the first NUL. */
  function UpToNul(bs: seq<byte>): seq<byte>
    decreases |bs|
  {
    if bs == [] || bs[0] == 0 then [] else [bs[0]] + UpToNul(bs[1..])
  }

  lemma {:induction false} UpToNulPrefix(bs: seq<byte>)
    ensures UpToNul(bs) <= bs
    ensures 0 !in UpToNul(bs)
    ensures UpToNul(bs) == bs <==> 0 !in bs
    ensures |UpToNul(bs)| < |bs| ==> bs[|UpToNul(bs)|] == 0
    decreases |bs|
  {
    if bs != [] && bs[0] != 0 {
      UpToNulPrefix(bs[1..]);
      assert bs == [bs[0]] + bs[1..];
    }
  }

  /** Whatever follows the first NUL is dropped. */
  lemma {:induction false} UpToNulCut(a: seq<byte>, rest: seq<byte>)
    ensures UpToNul(a + [0] + rest) == UpToNul(a)
    decreases |a|
  {
    if a == [] {
      assert (a + [0] + rest)[0] == 0;
    } else {
      assert (a + [0] + rest)[0] == a[0];
      assert (a + [0] + rest)[1..] == a[1..] + [0] + rest;
      UpToNulCut(a[1..], rest);
    }
  }
}
