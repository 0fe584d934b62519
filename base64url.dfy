/**
 * The URL-safe transport of the state snapshot: bytes become text in the
 * "URL and filename safe" alphabet of RFC 4648 (section 5), with the trailing
 * pad characters removed as section 3.2 of RFC 4648 permits.
 *
 * The source builds this from the browser's `btoa`/`atob` and two character
 * replacements; both library calls are written out here: `Btoa` is the
 * padded standard encoding of section 4 of RFC 4648, and `Atob` is the
 * "forgiving-base64 decode" of the WHATWG Infra standard (its section
 * "Forgiving base64"),
 * which drops ASCII whitespace, accepts missing padding and fails on a
 * stray character or an impossible length.
 */
module Base64Url {
  import opened Wrappers

  type byte = x: int | 0 <= x < 256

  // ---------------------------------------------------------------------
  // Alphabets
  // ---------------------------------------------------------------------

  /** The symbol for a 6-bit value in the standard alphabet (RFC 4648, section 4). */
  function StdChar(n: int): char
    requires 0 <= n < 64
  {
    if n < 26 then ('A' as int + n) as char
    else if n < 52 then ('a' as int + (n - 26)) as char
    else if n < 62 then ('0' as int + (n - 52)) as char
    else if n == 62 then '+'
    else '/'
  }

  /** The symbol for a 6-bit value in the URL-safe alphabet (RFC 4648, section 5). */
  function UrlChar(n: int): char
    requires 0 <= n < 64
  {
    if n == 62 then '-' else if n == 63 then '_' else StdChar(n)
  }

  /** The value of a symbol of the standard alphabet, or `None` for any other character. */
  function StdIndex(c: char): (r: Option<int>)
    ensures r.Some? ==> 0 <= r.value < 64 && StdChar(r.value) == c
  {
    if 'A' <= c <= 'Z' then Some(c as int - 'A' as int)
    else if 'a' <= c <= 'z' then Some(c as int - 'a' as int + 26)
    else if '0' <= c <= '9' then Some(c as int - '0' as int + 52)
    else if c == '+' then Some(62)
    else if c == '/' then Some(63)
    else None
  }

  /** The characters the URL-safe alphabet is made of: `A-Z a-z 0-9 - _`. */
  predicate IsUrlSafe(c: char) {
    ('A' <= c <= 'Z') || ('a' <= c <= 'z') || ('0' <= c <= '9') || c == '-' || c == '_'
  }

  predicate IsSextets(xs: seq<int>) {
    forall i :: 0 <= i < |xs| ==> 0 <= xs[i] < 64
  }

  function StdChars(xs: seq<int>): (s: string)
    requires IsSextets(xs)
  {
    seq(|xs|, i requires 0 <= i < |xs| => StdChar(xs[i]))
  }

  function UrlChars(xs: seq<int>): (s: string)
    requires IsSextets(xs)
  {
    seq(|xs|, i requires 0 <= i < |xs| => UrlChar(xs[i]))
  }

  // ---------------------------------------------------------------------
  // Bytes <-> 6-bit groups
  // ---------------------------------------------------------------------

  /** Three bytes as four 6-bit values (RFC 4648, section 4). */
  function Quad(b0: byte, b1: byte, b2: byte): (r: seq<int>)
    ensures |r| == 4 && IsSextets(r)
  {
    [b0 / 4, (b0 % 4) * 16 + b1 / 16, (b1 % 16) * 4 + b2 / 64, b2 % 64]
  }

  /** Four 6-bit values as three bytes. */
  function Unquad(x0: int, x1: int, x2: int, x3: int): (r: seq<byte>)
    requires 0 <= x0 < 64 && 0 <= x1 < 64 && 0 <= x2 < 64 && 0 <= x3 < 64
    ensures |r| == 3
  {
    [x0 * 4 + x1 / 16, (x1 % 16) * 16 + x2 / 4, (x2 % 4) * 64 + x3]
  }

  /**
   * Splits bytes into 6-bit values, three bytes to four values; a final
   * group of one or two bytes gives two or three values, its unused low
   * bits set to zero.
   */
  function Sextets(b: seq<byte>): (r: seq<int>)
    ensures IsSextets(r)
    ensures |r| % 4 != 1 && (|r| % 4 == 0 <==> |b| % 3 == 0)
    ensures |b| > 0 ==> |r| > 0
    decreases |b|
  {
    if |b| == 0 then []
    else if |b| == 1 then Quad(b[0], 0, 0)[..2]
    else if |b| == 2 then Quad(b[0], b[1], 0)[..3]
    else Quad(b[0], b[1], b[2]) + Sextets(b[3..])
  }

  /** Joins 6-bit values back into bytes; leftover low bits of a final partial group are discarded. */
  function Unsextets(xs: seq<int>): (r: seq<byte>)
    requires IsSextets(xs) && |xs| % 4 != 1
    decreases |xs|
  {
    if |xs| == 0 then []
    else if |xs| == 2 then Unquad(xs[0], xs[1], 0, 0)[..1]
    else if |xs| == 3 then Unquad(xs[0], xs[1], xs[2], 0)[..2]
    else Unquad(xs[0], xs[1], xs[2], xs[3]) + Unsextets(xs[4..])
  }

  // ---------------------------------------------------------------------
  // Latin-1 "binary strings", btoa and atob
  // ---------------------------------------------------------------------

  /** A "binary string": every character is a code unit below 256. */
  predicate IsLatin1(s: string) {
    forall i :: 0 <= i < |s| ==> s[i] as int < 256
  }

  /** `String.fromCharCode` applied to each byte. */
  function Latin1(b: seq<byte>): (s: string)
    ensures |s| == |b| && IsLatin1(s)
  {
    seq(|b|, i requires 0 <= i < |b| => b[i] as char)
  }

  /** `charCodeAt` applied to each character of a binary string. */
  function CodeUnits(s: string): (b: seq<byte>)
    requires IsLatin1(s)
    ensures |b| == |s|
  {
    seq(|s|, i requires 0 <= i < |s| => s[i] as int)
  }

  function Padding(n: nat): string {
    if n % 3 == 1 then "==" else if n % 3 == 2 then "=" else ""
  }

  /** `btoa`: the padded standard encoding of a binary string. */
  function Btoa(binary: string): string
    requires IsLatin1(binary)
  {
    StdChars(Sextets(CodeUnits(binary))) + Padding(|binary|)
  }

  predicate IsAsciiWhitespace(c: char) {
    c == ' ' || c == '\t' || c == '\n' || c == '\r' || c as int == 12
  }

  function StripWhitespace(s: string): (r: string)
    ensures |r| <= |s|
  {
    if s == [] then []
    else if IsAsciiWhitespace(s[0]) then StripWhitespace(s[1..])
    else [s[0]] + StripWhitespace(s[1..])
  }

  /** When the length is a multiple of four, one or two trailing `=` are dropped. */
  function DropPadding(d: string): (r: string)
    ensures |r| <= |d|
  {
    if |d| >= 2 && d[|d| - 2] == '=' && d[|d| - 1] == '=' then d[..|d| - 2]
    else if |d| >= 1 && d[|d| - 1] == '=' then d[..|d| - 1]
    else d
  }

  predicate AllStd(s: string) {
    forall i :: 0 <= i < |s| ==> StdIndex(s[i]).Some?
  }

  function Indices(s: string): (xs: seq<int>)
    requires AllStd(s)
    ensures |xs| == |s| && IsSextets(xs)
  {
    seq(|s|, i requires 0 <= i < |s| => StdIndex(s[i]).value)
  }

  /** `atob`: `None` is the `InvalidCharacterError` it throws. */
  function Atob(data: string): (r: Option<string>)
    ensures r.Some? ==> IsLatin1(r.value)
  {
    var d := StripWhitespace(data);
    var body := if |d| % 4 == 0 then DropPadding(d) else d;
    if |body| % 4 == 1 || !AllStd(body) then None
    else Some(Latin1(Unsextets(Indices(body))))
  }

  // ---------------------------------------------------------------------
  // The two replacements around btoa/atob
  // ---------------------------------------------------------------------

  /** `.replace(/\+/g, '-').replace(/\//g, '_')` */
  function ToUrlAlphabet(s: string): (r: string)
    ensures |r| == |s|
  {
    seq(|s|, i requires 0 <= i < |s| => if s[i] == '+' then '-' else if s[i] == '/' then '_' else s[i])
  }

  /** `.replace(/-/g, '+').replace(/_/g, '/')` */
  function Normalize(s: string): (r: string)
    ensures |r| == |s|
  {
    seq(|s|, i requires 0 <= i < |s| => if s[i] == '-' then '+' else if s[i] == '_' then '/' else s[i])
  }

  /** `.replace(/=+$/, '')`: drops the whole run of trailing `=`. */
  function TrimPadding(s: string): (r: string)
    ensures |r| <= |s|
    decreases |s|
  {
    if |s| > 0 && s[|s| - 1] == '=' then TrimPadding(s[..|s| - 1]) else s
  }

  /** What `toBase64` returns for `bytes`. */
  function Encode(bytes: seq<byte>): string {
    TrimPadding(ToUrlAlphabet(Btoa(Latin1(bytes))))
  }

  /** What `fromBase64` returns for `text`; `None` when `atob` throws. */
  function Decode(text: string): Option<seq<byte>> {
    match Atob(Normalize(text))
    case None => None
    case Some(binary) => Some(CodeUnits(binary))
  }

  // ---------------------------------------------------------------------
  // The two operations of the source
  // ---------------------------------------------------------------------

  /** `toBase64`: the byte-by-byte "binary string" loop, then `btoa` and the replacements. */
  method ToBase64(bytes: seq<byte>) returns (text: string)
    ensures text == Encode(bytes)
  {
    var binary := "";
    var i := 0;
    while i < |bytes|
      invariant 0 <= i <= |bytes|
      invariant binary == Latin1(bytes[..i])
    {
      binary := binary + [bytes[i] as char];
      i := i + 1;
    }
    assert bytes[..i] == bytes;
    text := TrimPadding(ToUrlAlphabet(Btoa(binary)));
  }

  /** `fromBase64`: `None` is the exception `atob` throws; the byte array is filled in place. */
  method FromBase64(text: string) returns (r: Option<seq<byte>>)
    ensures r == Decode(text)
  {
    var normalized := Normalize(text);
    var decoded := Atob(normalized);
    if decoded.None? {
      return None;
    }
    var bytes := CopyCodeUnits(decoded.value);
    r := Some(bytes);
  }

  /** The `Uint8Array` loop of `fromBase64`: each character's code unit, in order. */
  method CopyCodeUnits(binary: string) returns (b: seq<byte>)
    requires IsLatin1(binary)
    ensures b == CodeUnits(binary)
  {
    var bytes := new byte[|binary|];
    for i := 0 to |binary|
      invariant forall j :: 0 <= j < i ==> bytes[j] == binary[j] as int
    {
      bytes[i] := binary[i] as int;
    }
    b := bytes[..];
  }

  // ---------------------------------------------------------------------
  // Properties
  // ---------------------------------------------------------------------

  lemma GroupRoundTrip(b0: byte, b1: byte, b2: byte)
    ensures var q := Quad(b0, b1, b2); Unquad(q[0], q[1], q[2], q[3]) == [b0, b1, b2]
  {
  }

  lemma SextetsSplit(b: seq<byte>)
    requires |b| >= 3
    ensures Sextets(b) == Quad(b[0], b[1], b[2]) + Sextets(b[3..])
  {
  }

  lemma UnsextetsSplit(head: seq<int>, rest: seq<int>)
    requires IsSextets(head) && |head| == 4
    requires IsSextets(rest) && |rest| % 4 != 1
    ensures IsSextets(head + rest) && |head + rest| % 4 != 1
    ensures Unsextets(head + rest) == Unquad(head[0], head[1], head[2], head[3]) + Unsextets(rest)
  {
    assert (head + rest)[4..] == rest;
  }

  /** Joining the 6-bit groups of any byte sequence gives the bytes back. */
  lemma {:induction false} SextetsRoundTrip(b: seq<byte>)
    ensures Unsextets(Sextets(b)) == b
    decreases |b|
  {
    if |b| == 1 {
      GroupRoundTrip(b[0], 0, 0);
      assert b == [b[0]];
    } else if |b| == 2 {
      GroupRoundTrip(b[0], b[1], 0);
      assert b == [b[0], b[1]];
    } else if |b| >= 3 {
      SextetsSplit(b);
      SextetsRoundTrip(b[3..]);
      GroupRoundTrip(b[0], b[1], b[2]);
      UnsextetsSplit(Quad(b[0], b[1], b[2]), Sextets(b[3..]));
      assert b == [b[0], b[1], b[2]] + b[3..];
    }
  }

  lemma TrimPaddingOfPadded(u: string, p: string)
    requires u == [] || u[|u| - 1] != '='
    requires forall i :: 0 <= i < |p| ==> p[i] == '='
    ensures TrimPadding(u + p) == u
    decreases |p|
  {
    if p == [] {
      assert u + p == u;
    } else {
      var q := p[..|p| - 1];
      assert (u + p)[..|u + p| - 1] == u + q;
      TrimPaddingOfPadded(u, q);
    }
  }

  /** The transport text is the unpadded URL-safe spelling of the 6-bit groups. */
  lemma {:induction false} EncodeUnpadded(bytes: seq<byte>)
    ensures Encode(bytes) == UrlChars(Sextets(bytes))
  {
    var xs := Sextets(bytes);
    assert CodeUnits(Latin1(bytes)) == bytes;
    var p := Padding(|bytes|);
    assert Btoa(Latin1(bytes)) == StdChars(xs) + p;
    assert ToUrlAlphabet(StdChars(xs) + p) == UrlChars(xs) + p;
    var u := UrlChars(xs);
    assert u == [] || u[|u| - 1] != '=';
    TrimPaddingOfPadded(u, p);
  }

  /** Everything `toBase64` writes is in `A-Z a-z 0-9 - _`; in particular it holds no `=`. */
  lemma EncodeIsUrlSafe(bytes: seq<byte>)
    ensures forall i :: 0 <= i < |Encode(bytes)| ==> IsUrlSafe(Encode(bytes)[i]) && Encode(bytes)[i] != '='
  {
    EncodeUnpadded(bytes);
  }

  lemma StripWhitespaceNoop(s: string)
    requires forall i :: 0 <= i < |s| ==> !IsAsciiWhitespace(s[i])
    ensures StripWhitespace(s) == s
  {
    if s != [] {
      StripWhitespaceNoop(s[1..]);
      assert s == [s[0]] + s[1..];
    }
  }

  lemma NormalizeUrlChars(xs: seq<int>)
    requires IsSextets(xs)
    ensures Normalize(UrlChars(xs)) == StdChars(xs)
  {
  }

  lemma IndicesStdChars(xs: seq<int>)
    requires IsSextets(xs)
    ensures AllStd(StdChars(xs)) && Indices(StdChars(xs)) == xs
  {
    var std := StdChars(xs);
    forall i | 0 <= i < |xs|
      ensures StdIndex(std[i]) == Some(xs[i])
    {
    }
  }

  /** `atob` reads back an unpadded standard spelling of well-formed 6-bit groups. */
  lemma AtobOfStdChars(xs: seq<int>)
    requires IsSextets(xs) && |xs| % 4 != 1
    ensures Atob(StdChars(xs)) == Some(Latin1(Unsextets(xs)))
  {
    var std := StdChars(xs);
    StdCharsPlain(xs);
    StripWhitespaceNoop(std);
    assert DropPadding(std) == std;
    IndicesStdChars(xs);
  }

  /** A standard spelling holds neither whitespace nor `=`. */
  lemma StdCharsPlain(xs: seq<int>)
    requires IsSextets(xs)
    ensures forall i :: 0 <= i < |StdChars(xs)| ==> !IsAsciiWhitespace(StdChars(xs)[i]) && StdChars(xs)[i] != '='
  {
    var std := StdChars(xs);
    forall i | 0 <= i < |std|
      ensures !IsAsciiWhitespace(std[i]) && std[i] != '='
    {
      assert std[i] == StdChar(xs[i]);
    }
  }

  /** `fromBase64` undoes `toBase64` for every byte sequence. */
  lemma {:induction false} RoundTrip(bytes: seq<byte>)
    ensures Decode(Encode(bytes)) == Some(bytes)
  {
    var xs := Sextets(bytes);
    EncodeUnpadded(bytes);
    NormalizeUrlChars(xs);
    AtobOfStdChars(xs);
    SextetsRoundTrip(bytes);
    assert CodeUnits(Latin1(bytes)) == bytes;
  }
}
