/** Python's `base64.urlsafe_b64encode` and the unpadded form the backend
    derives from it with `.rstrip(b"=")` (which is also what
    `secrets.token_urlsafe` returns), with the length and alphabet facts that
    make a code verifier acceptable under section 4.1 of RFC 7636. */
module Base64Url {

  type byte = b: int | 0 <= b < 256

  /** The 64 symbols of the URL- and filename-safe alphabet (section 5 of
      RFC 4648): A-Z, a-z, 0-9, '-' and '_'. */
  predicate IsUrlSafeSymbol(c: char) {
    ('A' <= c <= 'Z') || ('a' <= c <= 'z') || ('0' <= c <= '9') || c == '-' || c == '_'
  }

  predicate AllUrlSafe(s: string) {
    forall i :: 0 <= i < |s| ==> IsUrlSafeSymbol(s[i])
  }

  /** The symbol for a 6-bit value. */
  function Symbol(v: int): (c: char)
    requires 0 <= v < 64
    ensures IsUrlSafeSymbol(c)
  {
    if v < 26 then ('A' as int + v) as char
    else if v < 52 then ('a' as int + v - 26) as char
    else if v < 62 then ('0' as int + v - 52) as char
    else if v == 62 then '-'
    else '_'
  }

  /** `base64.urlsafe_b64encode(b)`: every 3 bytes become 4 symbols; a final
      group of 1 or 2 bytes becomes 2 or 3 symbols padded with '='. */
  function Encode(b: seq<byte>): string
    decreases |b|
  {
    if |b| == 0 then ""
    else if |b| == 1 then
      [Symbol(b[0] / 4), Symbol(b[0] % 4 * 16), '=', '=']
    else if |b| == 2 then
      [Symbol(b[0] / 4), Symbol(b[0] % 4 * 16 + b[1] / 16), Symbol(b[1] % 16 * 4), '=']
    else
      [Symbol(b[0] / 4), Symbol(b[0] % 4 * 16 + b[1] / 16),
       Symbol(b[1] % 16 * 4 + b[2] / 64), Symbol(b[2] % 64)] + Encode(b[3..])
  }

  /** `s.rstrip(c)` for a single character: drop every trailing `c`. */
  function RStrip(s: string, c: char): string
    decreases |s|
  {
    if |s| > 0 && s[|s| - 1] == c then RStrip(s[..|s| - 1], c) else s
  }

  /** `base64.urlsafe_b64encode(b).rstrip(b"=").decode()`. */
  function Unpadded(b: seq<byte>): string {
    RStrip(Encode(b), '=')
  }

  /** How many symbols carry data for `n` bytes: 4 per full group, and 2 or 3
      for a final group of 1 or 2 bytes. */
  function DataLength(n: nat): nat {
    4 * (n / 3) + (if n % 3 == 0 then 0 else n % 3 + 1)
  }

  /** The padded encoding is `DataLength` URL-safe symbols followed only by
      '=' characters, `4 * ceil(n / 3)` characters in all. */
  lemma {:induction false} EncodeShape(b: seq<byte>)
    ensures |Encode(b)| == 4 * ((|b| + 2) / 3)
    ensures DataLength(|b|) <= |Encode(b)|
    ensures AllUrlSafe(Encode(b)[..DataLength(|b|)])
    ensures forall i :: DataLength(|b|) <= i < |Encode(b)| ==> Encode(b)[i] == '='
    decreases |b|
  {
    if |b| >= 3 {
      EncodeShape(b[3..]);
      LengthStep(|b|);
      var head := Encode(b)[..4];
      var rest := Encode(b[3..]);
      assert Encode(b) == head + rest;
      assert Encode(b)[..DataLength(|b|)] == head + rest[..DataLength(|b| - 3)];
    }
  }

  /** Three more bytes are one more group of four symbols. */
  lemma LengthStep(n: nat)
    requires n >= 3
    ensures DataLength(n) == 4 + DataLength(n - 3)
    ensures 4 * ((n + 2) / 3) == 4 + 4 * ((n - 3 + 2) / 3)
  {
  }

  /** Stripping '=' from symbols followed by padding leaves the symbols. */
  lemma {:induction false} RStripPadding(data: string, pad: string)
    requires AllUrlSafe(data)
    requires forall i :: 0 <= i < |pad| ==> pad[i] == '='
    ensures RStrip(data + pad, '=') == data
    decreases |pad|
  {
    if |pad| == 0 {
      assert data + pad == data;
      if |data| > 0 {
        assert IsUrlSafeSymbol(data[|data| - 1]);
      }
    } else {
      var s := data + pad;
      assert s[|s| - 1] == '=';
      assert s[..|s| - 1] == data + pad[..|pad| - 1];
      RStripPadding(data, pad[..|pad| - 1]);
    }
  }

  /** The unpadded encoding is the padded one without its padding: a prefix
      of it of `DataLength` URL-safe characters, none of them '='. */
  lemma UnpaddedShape(b: seq<byte>)
    ensures Unpadded(b) <= Encode(b)
    ensures |Unpadded(b)| == DataLength(|b|)
    ensures AllUrlSafe(Unpadded(b))
    ensures forall i :: 0 <= i < |Unpadded(b)| ==> Unpadded(b)[i] != '='
  {
    EncodeShape(b);
    var e := Encode(b);
    var n := DataLength(|b|);
    assert e == e[..n] + e[n..];
    RStripPadding(e[..n], e[n..]);
  }
}
