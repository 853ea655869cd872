/** lib/auth/pkce.ts: the base64url transforms behind the PKCE code verifier,
    state, nonce and S256 code challenge (RFC 7636 section 4.2 and Appendix A;
    base64url is section 5 of RFC 4648). Random bytes, SHA-256 and `btoa` are
    foreign and enter as parameters. */
module Pkce {

  /** An element of a `Uint8Array`. */
  type Byte = b: int | 0 <= b < 256

  /** `s.replace(/from/g, to)` for a single character. */
  function ReplaceAll(s: string, from: char, to: char): (r: string)
    ensures |r| == |s|
    ensures forall i :: 0 <= i < |s| ==> r[i] == (if s[i] == from then to else s[i])
  {
    if s == [] then [] else [if s[0] == from then to else s[0]] + ReplaceAll(s[1..], from, to)
  }

  /** `s.replace(/c/g, '')`. */
  function DeleteAll(s: string, c: char): (r: string)
    ensures c !in r
    ensures forall x :: x in r ==> x in s
  {
    if s == [] then [] else (if s[0] == c then [] else [s[0]]) + DeleteAll(s[1..], c)
  }

  /** `'='.repeat(n)`. */
  function Padding(n: nat): (r: string)
    ensures |r| == n && forall i :: 0 <= i < n ==> r[i] == '='
  {
    seq(n, _ => '=')
  }

  /** base64UrlFromBase64: the three chained replacements of the source. */
  function Base64UrlFromBase64(base64: string): (r: string)
    ensures '+' !in r && '/' !in r && '=' !in r
  {
    DeleteAll(ReplaceAll(ReplaceAll(base64, '+', '-'), '/', '_'), '=')
  }

  /** base64UrlToBase64: translate back, then pad with '=' to a multiple of four. */
  function Base64UrlToBase64(base64url: string): (r: string)
    ensures '-' !in r && '_' !in r
    ensures |r| % 4 == 0 && |base64url| <= |r| <= |base64url| + 3
    ensures |base64url| % 4 == 0 ==> |r| == |base64url|
    ensures forall i :: 0 <= i < |base64url| ==> r[i] == StdChar(base64url[i])
    ensures forall i :: |base64url| <= i < |r| ==> r[i] == '='
  {
    var base64 := ReplaceAll(ReplaceAll(base64url, '-', '+'), '_', '/');
    var padding := |base64| % 4;
    if padding != 0 then base64 + Padding(4 - padding) else base64
  }

  // ---------------------------------------------------------------------
  // Reference definitions: one character at a time.

  function UrlChar(c: char): char {
    if c == '+' then '-' else if c == '/' then '_' else c
  }

  function StdChar(c: char): char {
    if c == '-' then '+' else if c == '_' then '/' else c
  }

  /** Base64url text of standard base64 text, character by character: '+'
      becomes '-', '/' becomes '_', '=' is dropped and everything else is kept
      in its original order. */
  function UrlSafe(s: string): string {
    if s == [] then [] else (if s[0] == '=' then [] else [UrlChar(s[0])]) + UrlSafe(s[1..])
  }

  function MapUrl(s: string): (r: string)
    ensures |r| == |s| && forall i :: 0 <= i < |s| ==> r[i] == UrlChar(s[i])
  {
    seq(|s|, i requires 0 <= i < |s| => UrlChar(s[i]))
  }

  /** The RFC 4648 section 4 alphabet, without the pad character. */
  predicate StdAlphabet(c: char) {
    'A' <= c <= 'Z' || 'a' <= c <= 'z' || '0' <= c <= '9' || c == '+' || c == '/'
  }

  lemma {:induction false} DeleteMappedIsUrlSafe(s: string)
    ensures DeleteAll(MapUrl(s), '=') == UrlSafe(s)
  {
    if s != [] {
      DeleteMappedIsUrlSafe(s[1..]);
      assert MapUrl(s)[1..] == MapUrl(s[1..]);
    }
  }

  /** The source's chain of replacements is the character-by-character translation. */
  lemma FromBase64IsUrlSafe(s: string)
    ensures Base64UrlFromBase64(s) == UrlSafe(s)
  {
    assert ReplaceAll(ReplaceAll(s, '+', '-'), '/', '_') == MapUrl(s);
    DeleteMappedIsUrlSafe(s);
  }

  lemma {:induction false} UrlSafeAppend(a: string, b: string)
    ensures UrlSafe(a + b) == UrlSafe(a) + UrlSafe(b)
  {
    if a == [] {
      assert a + b == b;
    } else {
      var head := if a[0] == '=' then [] else [UrlChar(a[0])];
      assert (a + b)[0] == a[0] && (a + b)[1..] == a[1..] + b;
      assert UrlSafe(a + b) == head + UrlSafe(a[1..] + b);
      UrlSafeAppend(a[1..], b);
      assert head + (UrlSafe(a[1..]) + UrlSafe(b)) == (head + UrlSafe(a[1..])) + UrlSafe(b);
    }
  }

  lemma {:induction false} UrlSafeOfPadding(n: nat)
    ensures UrlSafe(Padding(n)) == []
  {
    if n > 0 {
      UrlSafeOfPadding(n - 1);
      assert Padding(n)[1..] == Padding(n - 1);
    }
  }

  lemma {:induction false} UrlSafeWithoutPad(s: string)
    requires '=' !in s
    ensures UrlSafe(s) == MapUrl(s)
  {
    if s != [] {
      UrlSafeWithoutPad(s[1..]);
      assert MapUrl(s) == [UrlChar(s[0])] + MapUrl(s[1..]);
    }
  }

  /** Text without '=' followed by padding loses the padding and is mapped
      character by character. */
  lemma PaddedToUrl(body: string, pad: nat)
    requires '=' !in body
    ensures Base64UrlFromBase64(body + Padding(pad)) == MapUrl(body)
  {
    FromBase64IsUrlSafe(body + Padding(pad));
    UrlSafeAppend(body, Padding(pad));
    UrlSafeOfPadding(pad);
    UrlSafeWithoutPad(body);
  }

  /** Translating the mapped body back restores the body and its padding. */
  lemma MappedBackToStandard(body: string, pad: nat)
    requires forall i :: 0 <= i < |body| ==> StdAlphabet(body[i])
    requires pad <= 2 && (|body| + pad) % 4 == 0
    ensures Base64UrlToBase64(MapUrl(body)) == body + Padding(pad)
  {
    var s := body + Padding(pad);
    var r := Base64UrlToBase64(MapUrl(body));
    assert |r| == |s| by {
      if pad == 0 {
        assert |body| % 4 == 0;
      } else {
        assert |body| % 4 == 4 - pad;
      }
    }
    forall i | 0 <= i < |r| ensures r[i] == s[i] {
      if i < |body| {
        assert StdAlphabet(body[i]);
      }
    }
  }

  /** Round trip for well-formed standard base64: an alphabet body followed by
      at most two '=' with total length a multiple of four comes back unchanged. */
  lemma StandardRoundTrip(body: string, pad: nat)
    requires forall i :: 0 <= i < |body| ==> StdAlphabet(body[i])
    requires pad <= 2 && (|body| + pad) % 4 == 0
    ensures Base64UrlToBase64(Base64UrlFromBase64(body + Padding(pad))) == body + Padding(pad)
  {
    assert '=' !in body by {
      forall i | 0 <= i < |body| ensures body[i] != '=' { assert StdAlphabet(body[i]); }
    }
    PaddedToUrl(body, pad);
    MappedBackToStandard(body, pad);
  }

  function MapStd(s: string): (r: string)
    ensures |r| == |s| && forall i :: 0 <= i < |s| ==> r[i] == StdChar(s[i])
  {
    seq(|s|, i requires 0 <= i < |s| => StdChar(s[i]))
  }

  /** The standard form of base64url text is its translation followed by padding. */
  lemma ToStandardShape(u: string)
    ensures Base64UrlToBase64(u) == MapStd(u) + Padding(|Base64UrlToBase64(u)| - |u|)
  {
  }

  /** Reverse round trip: base64url text (no '+', '/' or '=') survives padding
      and unpadding. */
  lemma UrlRoundTrip(u: string)
    requires '+' !in u && '/' !in u && '=' !in u
    ensures Base64UrlFromBase64(Base64UrlToBase64(u)) == u
  {
    ToStandardShape(u);
    var head := MapStd(u);
    assert '=' !in head by {
      forall i | 0 <= i < |head| ensures head[i] != '=' { assert head[i] == StdChar(u[i]); }
    }
    PaddedToUrl(head, |Base64UrlToBase64(u)| - |u|);
    assert MapUrl(head) == u;
  }

  // ---------------------------------------------------------------------
  // Encoders.

  /** `String.fromCharCode` of each byte, concatenated: the Latin-1 text of the bytes. */
  function Latin1(buffer: seq<Byte>): string {
    seq(|buffer|, i requires 0 <= i < |buffer| => buffer[i] as char)
  }

  /** The loop of base64UrlEncode that turns the bytes into a binary string. */
  method BinaryString(buffer: seq<Byte>) returns (binary: string)
    ensures |binary| == |buffer|
    ensures forall i :: 0 <= i < |buffer| ==> binary[i] as int == buffer[i]
  {
    binary := "";
    for i := 0 to |buffer|
      invariant |binary| == i
      invariant forall k :: 0 <= k < i ==> binary[k] as int == buffer[k]
    {
      binary := binary + [buffer[i] as char];
    }
  }

  /** base64UrlEncode: binary string, then `btoa`, then the url-safe translation. */
  method Base64UrlEncode(buffer: seq<Byte>, btoa: string -> string) returns (r: string)
    ensures r == UrlSafe(btoa(Latin1(buffer)))
    ensures '+' !in r && '/' !in r && '=' !in r
  {
    var binary := BinaryString(buffer);
    assert binary == Latin1(buffer);
    var base64 := btoa(binary);
    r := Base64UrlFromBase64(base64);
    FromBase64IsUrlSafe(base64);
  }

  /** generateRandomString: `randomBytes` is what `Crypto.getRandomBytes(length)` returned. */
  method GenerateRandomString(randomBytes: seq<Byte>, btoa: string -> string) returns (r: string)
    ensures r == UrlSafe(btoa(Latin1(randomBytes)))
    ensures '+' !in r && '/' !in r && '=' !in r
  {
    r := Base64UrlEncode(randomBytes, btoa);
  }

  /** generateCodeChallenge: `sha256Base64` is the digest, base64-encoded, that
      `Crypto.digestStringAsync` returns; the challenge is its base64url form. */
  function GenerateCodeChallenge(codeVerifier: string, sha256Base64: string -> string): (challenge: string)
    ensures challenge == UrlSafe(sha256Base64(codeVerifier))
    ensures '+' !in challenge && '/' !in challenge && '=' !in challenge
  {
    FromBase64IsUrlSafe(sha256Base64(codeVerifier));
    Base64UrlFromBase64(sha256Base64(codeVerifier))
  }
}
