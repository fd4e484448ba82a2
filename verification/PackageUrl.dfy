/** Percent-encoding (sections 2.1 and 2.3 of RFC 3986) and package URLs, as in
    scripts/release_provenance.py. */
module PackageUrl {
  import opened Text

  predicate Unreserved(b: Byte) {
    'A' as int <= b <= 'Z' as int || 'a' as int <= b <= 'z' as int || '0' as int <= b <= '9' as int ||
    b == '-' as int || b == '.' as int || b == '_' as int || b == '~' as int
  }

  function HexUpper(n: int): char
    requires 0 <= n < 16
  {
    if n < 10 then ('0' as int + n) as char else ('A' as int + n - 10) as char
  }

  function EncodeByte(b: Byte, slashSafe: bool): string {
    if Unreserved(b) || (slashSafe && b == '/' as int) then [b as char]
    else ['%', HexUpper(b / 16), HexUpper(b % 16)]
  }

  function EncodeBytes(bs: seq<Byte>, slashSafe: bool): string {
    if bs == [] then "" else EncodeByte(bs[0], slashSafe) + EncodeBytes(bs[1..], slashSafe)
  }

  function PercentEncode(value: string, slashSafe: bool): string { EncodeBytes(Utf8(value), slashSafe) }

  function Purl(ecosystem: string, name: string, version: string): string {
    "pkg:" + ecosystem + "/" + PercentEncode(name, true) + "@" + PercentEncode(version, false)
  }

  // ---- Decoding.

  function HexDigit(c: char): int {
    if '0' <= c <= '9' then c as int - '0' as int
    else if 'A' <= c <= 'F' then c as int - 'A' as int + 10
    else if 'a' <= c <= 'f' then c as int - 'a' as int + 10
    else -1
  }

  function DecodeBytes(s: string): Option<seq<Byte>>
    decreases |s|
  {
    if s == "" then Some([])
    else if s[0] == '%' then
      if |s| < 3 || HexDigit(s[1]) < 0 || HexDigit(s[2]) < 0 then None
      else
        var rest := DecodeBytes(s[3..]);
        if rest.None? then None else Some([HexDigit(s[1]) * 16 + HexDigit(s[2])] + rest.value)
    else if s[0] as int >= 256 then None
    else
      var rest := DecodeBytes(s[1..]);
      if rest.None? then None else Some([s[0] as int] + rest.value)
  }

  function Scalar(n: int): Option<char> {
    if 0 <= n < 0xD800 || 0xE000 <= n < 0x110000 then Some(n as char) else None
  }

  // The character at the start of UTF-8 bytes and the number of bytes it takes.
  function DecodeChar(bs: seq<Byte>): Option<(char, nat)>
    requires bs != []
  {
    var b := bs[0] as int;
    var n := if b < 0x80 then 1 else if b < 0xE0 then 2 else if b < 0xF0 then 3 else 4;
    if |bs| < n then None
    else
      var code :=
        if n == 1 then b
        else if n == 2 then (b - 0xC0) * 64 + (bs[1] as int - 0x80)
        else if n == 3 then (b - 0xE0) * 4096 + (bs[1] as int - 0x80) * 64 + (bs[2] as int - 0x80)
        else (b - 0xF0) * 262144 + (bs[1] as int - 0x80) * 4096 + (bs[2] as int - 0x80) * 64 + (bs[3] as int - 0x80);
      var c := Scalar(code);
      if c.None? then None else Some((c.value, n))
  }

  function Utf8Decode(bs: seq<Byte>): Option<string>
    decreases |bs|
  {
    if bs == [] then Some("")
    else
      var first := DecodeChar(bs);
      if first.None? || first.value.1 == 0 || first.value.1 > |bs| then None
      else
        var rest := Utf8Decode(bs[first.value.1..]);
        if rest.None? then None else Some([first.value.0] + rest.value)
  }

  function PercentDecode(s: string): Option<string> {
    var bs := DecodeBytes(s);
    if bs.None? then None else Utf8Decode(bs.value)
  }

  // ---- Decoding undoes encoding.

  lemma EncodedByte(b: Byte, slashSafe: bool, rest: string)
    requires DecodeBytes(rest).Some?
    ensures DecodeBytes(EncodeByte(b, slashSafe) + rest) == Some([b] + DecodeBytes(rest).value)
  {
  }

  lemma {:induction false} DecodeEncodeBytes(bs: seq<Byte>, slashSafe: bool)
    ensures DecodeBytes(EncodeBytes(bs, slashSafe)) == Some(bs)
  {
    if bs != [] {
      DecodeEncodeBytes(bs[1..], slashSafe);
      EncodedByte(bs[0], slashSafe, EncodeBytes(bs[1..], slashSafe));
      assert bs == [bs[0]] + bs[1..];
    }
  }

  lemma DecodeUtf8Char(c: char, rest: seq<Byte>)
    ensures DecodeChar(Utf8Char(c) + rest) == Some((c, |Utf8Char(c)|))
  {
    var n := c as int;
    assert n % 64 == n - n / 64 * 64;
    assert n / 64 % 64 == n / 64 - n / 4096 * 64;
    assert n / 4096 % 64 == n / 4096 - n / 262144 * 64;
  }

  lemma {:induction false} DecodeUtf8(s: string)
    ensures Utf8Decode(Utf8(s)) == Some(s)
  {
    if s != "" {
      DecodeUtf8(s[1..]);
      var head, rest := Utf8Char(s[0]), Utf8(s[1..]);
      DecodeUtf8Char(s[0], rest);
      assert (head + rest)[|head|..] == rest;
      assert s == [s[0]] + s[1..];
    }
  }

  /** Percent-encoding has a left inverse, with or without slashes left alone. */
  lemma PercentRoundTrip(value: string, slashSafe: bool)
    ensures PercentDecode(PercentEncode(value, slashSafe)) == Some(value)
  {
    DecodeEncodeBytes(Utf8(value), slashSafe);
    DecodeUtf8(value);
  }

  // ---- Package URLs.

  lemma {:induction false} NoAtSign(bs: seq<Byte>, slashSafe: bool)
    ensures '@' !in EncodeBytes(bs, slashSafe)
  {
    if bs != [] { NoAtSign(bs[1..], slashSafe); }
  }

  /** A package URL determines the ecosystem, the name and the version. */
  lemma PurlInjective(e: string, n: string, v: string, e': string, n': string, v': string)
    requires '/' !in e && '/' !in e' && Purl(e, n, v) == Purl(e', n', v')
    ensures e == e' && n == n' && v == v'
  {
    hide PercentEncode, PercentDecode;
    var rest, rest' := PercentEncode(n, true) + "@" + PercentEncode(v, false), PercentEncode(n', true) + "@" + PercentEncode(v', false);
    PurlShape(e, n, v);
    PurlShape(e', n', v');
    CutUnique(e, e', '/', rest, rest');
    EncodedHasNoAtSign(n);
    EncodedHasNoAtSign(n');
    CutUnique(PercentEncode(n, true), PercentEncode(n', true), '@', PercentEncode(v, false), PercentEncode(v', false));
    PercentRoundTrip(n, true);
    PercentRoundTrip(n', true);
    PercentRoundTrip(v, false);
    PercentRoundTrip(v', false);
  }

  lemma PurlShape(e: string, n: string, v: string)
    ensures Purl(e, n, v)[4..] == e + "/" + (PercentEncode(n, true) + "@" + PercentEncode(v, false))
    ensures "pkg:" <= Purl(e, n, v)
  {
  }

  lemma EncodedHasNoAtSign(n: string)
    ensures '@' !in PercentEncode(n, true)
  {
    NoAtSign(Utf8(n), true);
  }
}
