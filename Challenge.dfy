/**
 * `createChallenge`: the PKCE verifier and S256 challenge (RFC 7636). The
 * random source, SHA-256 and `btoa` are foreign primitives and are passed in;
 * the mapping of bytes to verifier characters and the rewrite of base64 into
 * base64url (section 5 of RFC 4648, padding stripped) are modelled exactly.
 */
module Challenge {
  import opened AuthenticatorInterfaces

  newtype uint8 = x: int | 0 <= x < 256

  /** The foreign primitives the challenge needs. */
  datatype Crypto = Crypto(
    randomByte: nat -> uint8,          // byte i of the array `getRandomValues` fills
    digest: seq<uint8> -> seq<uint8>,  // SHA-256
    btoa: seq<uint8> -> string)        // base64 of a byte string

  /** The number of random bytes drawn, hence the verifier's length. */
  const VerifierLength: nat := 50

  const Digits: string := "0123456789"
  const Upper: string := "ABCDEFGHIJKLMNOPQRSTUVWXYZ"
  const Lower: string := "abcdefghijklmnopqrstuvwxyz"
  /** The 62-character alphabet of the verifier. */
  const Alphabet: string := Digits + Upper + Lower

  predicate IsAlphanumeric(c: char)
  {
    ('0' <= c <= '9') || ('A' <= c <= 'Z') || ('a' <= c <= 'z')
  }

  /** The unreserved characters of section 4.1 of RFC 7636. */
  predicate IsUnreserved(c: char)
  {
    IsAlphanumeric(c) || c == '-' || c == '.' || c == '_' || c == '~'
  }

  lemma DigitsAt(k: nat)
    requires k < |Digits|
    ensures Digits[k] as int == '0' as int + k
  {
    assert Digits == ['0', '1', '2', '3', '4', '5', '6', '7', '8', '9'];
  }

  lemma UpperAt(k: nat)
    requires k < |Upper|
    ensures Upper[k] as int == 'A' as int + k
  {
  }

  lemma LowerAt(k: nat)
    requires k < |Lower|
    ensures Lower[k] as int == 'a' as int + k
  {
  }

  /** Every alphabet character is an ASCII letter or digit. */
  lemma AlphabetAt(k: nat)
    requires k < |Alphabet|
    ensures IsAlphanumeric(Alphabet[k]) && (Alphabet[k] as int) < 128
  {
    if k < 10 { DigitsAt(k); } else if k < 36 { UpperAt(k - 10); } else { LowerAt(k - 36); }
  }

  /** `allChars[x % allChars.length]`. */
  function VerifierChar(b: uint8): (c: char)
    ensures IsAlphanumeric(c) && (c as int) < 128
  {
    AlphabetAt(b as int % |Alphabet|);
    Alphabet[b as int % |Alphabet|]
  }

  /** The verifier string: one alphabet character per random byte. */
  function Verifier(bytes: seq<uint8>): (v: string)
    ensures |v| == |bytes|
    ensures forall i :: 0 <= i < |v| ==> IsAlphanumeric(v[i])
  {
    seq(|bytes|, i requires 0 <= i < |bytes| => VerifierChar(bytes[i]))
  }

  /** The `chars` array: each byte mapped to the character code of its alphabet character. */
  function DigestInput(bytes: seq<uint8>): seq<uint8>
  {
    seq(|bytes|, i requires 0 <= i < |bytes| => VerifierChar(bytes[i]) as int as uint8)
  }

  /** The octets of a string whose characters are all below 256. */
  function Ascii(s: string): seq<uint8>
    requires forall i :: 0 <= i < |s| ==> (s[i] as int) < 256
  {
    seq(|s|, i requires 0 <= i < |s| => s[i] as int as uint8)
  }

  /** The digest is taken over the ASCII octets of the verifier, as S256 asks of it. */
  lemma DigestInputIsAsciiOfVerifier(bytes: seq<uint8>)
    ensures forall i :: 0 <= i < |Verifier(bytes)| ==> (Verifier(bytes)[i] as int) < 256
    ensures DigestInput(bytes) == Ascii(Verifier(bytes))
  {
  }

  /** `s.replace(/from/g, to)` for a single character. */
  function ReplaceAll(s: string, from: char, to: char): (r: string)
    ensures |r| == |s|
  {
    seq(|s|, i requires 0 <= i < |s| => if s[i] == from then to else s[i])
  }

  /** The length of the longest run of `c` at the end of `s`. */
  function TrailingCount(s: string, c: char): (n: nat)
    ensures n <= |s|
    ensures forall i :: |s| - n <= i < |s| ==> s[i] == c
    ensures n < |s| ==> s[|s| - 1 - n] != c
    decreases |s|
  {
    if s != [] && s[|s| - 1] == c then 1 + TrailingCount(s[..|s| - 1], c) else 0
  }

  /** `s.replace(/c+$/, "")`: `s` without its trailing run of `c`. */
  function StripTrailing(s: string, c: char): string
  {
    s[..|s| - TrailingCount(s, c)]
  }

  /** `.replace(/\+/g, "-").replace(/\//g, "_")`: the base64url alphabet. */
  function Rewrite(b64: string): (r: string)
    ensures |r| == |b64|
    ensures forall i :: 0 <= i < |r| ==> r[i] != '+' && r[i] != '/' && (r[i] == '=' <==> b64[i] == '=')
  {
    ReplaceAll(ReplaceAll(b64, '+', '-'), '/', '_')
  }

  /** The rewrite of `btoa` output into unpadded base64url. */
  function Base64Url(b64: string): (r: string)
    ensures '+' !in r && '/' !in r
    ensures r == [] || r[|r| - 1] != '='
    ensures |r| <= |b64|
  {
    StripTrailing(Rewrite(b64), '=')
  }

  predicate IsBase64Char(c: char)
  {
    IsAlphanumeric(c) || c == '+' || c == '/'
  }

  /** What `btoa` produces: a multiple of four characters, at most two of them trailing padding. */
  predicate WellFormedBase64(s: string)
  {
    var n := TrailingCount(s, '=');
    |s| % 4 == 0 && n <= 2 &&
    forall i :: 0 <= i < |s| - n ==> IsBase64Char(s[i])
  }

  function Padding(n: nat): (p: string)
    ensures |p| == n && forall i :: 0 <= i < n ==> p[i] == '='
  {
    seq(n, i => '=')
  }

  /** Back from the base64url alphabet. */
  function Restore(r: string): string
  {
    ReplaceAll(ReplaceAll(r, '-', '+'), '_', '/')
  }

  /** The inverse rewrite: back to the base64 alphabet, padded to a multiple of four. */
  function FromBase64Url(r: string): string
  {
    Restore(r) + Padding((4 - |r| % 4) % 4)
  }

  lemma {:induction false} TrailingCountPointwise(a: string, b: string, c: char)
    requires |a| == |b|
    requires forall i :: 0 <= i < |a| ==> (a[i] == c <==> b[i] == c)
    ensures TrailingCount(a, c) == TrailingCount(b, c)
    decreases |a|
  {
    if a != [] && a[|a| - 1] == c {
      TrailingCountPointwise(a[..|a| - 1], b[..|b| - 1], c);
    }
  }

  /** Replacing `+` and `/` keeps the trailing padding where it was, so the result is the rewritten body. */
  lemma Base64UrlIsRewrittenBody(s: string)
    ensures Base64Url(s) == Rewrite(s)[..|s| - TrailingCount(s, '=')]
  {
    TrailingCountPointwise(Rewrite(s), s, '=');
  }

  /** Mapping `-` and `_` back restores every base64 character. */
  lemma RestoreBody(s: string, k: nat)
    requires k <= |s|
    requires forall i :: 0 <= i < k ==> IsBase64Char(s[i])
    ensures Restore(Rewrite(s)[..k]) == s[..k]
  {
    var m := Rewrite(s);
    var b := Restore(m[..k]);
    forall i | 0 <= i < k ensures b[i] == s[i] {
      assert IsBase64Char(s[i]);
      assert m[..k][i] == m[i];
    }
  }

  lemma PaddingRestores(s: string, n: nat)
    requires n <= |s| && forall i :: |s| - n <= i < |s| ==> s[i] == '='
    ensures s[..|s| - n] + Padding(n) == s
  {
    var padded := s[..|s| - n] + Padding(n);
    forall i | 0 <= i < |s| ensures padded[i] == s[i] {
      if i >= |s| - n { assert padded[i] == Padding(n)[i - (|s| - n)]; }
    }
  }

  /** The base64url form is the restored body, one character per non-padding character. */
  lemma Base64UrlBody(s: string)
    requires forall i :: 0 <= i < |s| - TrailingCount(s, '=') ==> IsBase64Char(s[i])
    ensures |Base64Url(s)| == |s| - TrailingCount(s, '=')
    ensures Restore(Base64Url(s)) == s[..|s| - TrailingCount(s, '=')]
  {
    Base64UrlIsRewrittenBody(s);
    RestoreBody(s, |s| - TrailingCount(s, '='));
  }

  /** Restoring the body and re-padding it to a multiple of four gives back the padded original. */
  lemma FromBase64UrlOf(s: string, r: string, n: nat)
    requires |r| + n == |s| && |s| % 4 == 0 && n <= 2
    requires Restore(r) == s[..|r|] && s[..|r|] + Padding(n) == s
    ensures FromBase64Url(r) == s
  {
    PaddingLength(|r|, n);
  }

  /** The rewrite loses nothing: well-formed base64 comes back from its base64url form. */
  lemma {:induction false} Base64UrlRoundTrip(s: string)
    requires WellFormedBase64(s)
    ensures FromBase64Url(Base64Url(s)) == s
  {
    var n := TrailingCount(s, '=');
    var r := Base64Url(s);
    Base64UrlBody(s);
    PaddingRestores(s, n);
    FromBase64UrlOf(s, r, n);
  }

  /** The base64url form of well-formed base64 uses only unreserved characters: letters, digits, `-` and `_`. */
  lemma {:induction false} Base64UrlIsUnreserved(s: string)
    requires WellFormedBase64(s)
    ensures forall i :: 0 <= i < |Base64Url(s)| ==> IsUnreserved(Base64Url(s)[i])
  {
    var n := TrailingCount(s, '=');
    var r := Base64Url(s);
    Base64UrlIsRewrittenBody(s);
    var m1 := ReplaceAll(s, '+', '-');
    var m := ReplaceAll(m1, '/', '_');
    forall i | 0 <= i < |r| ensures IsUnreserved(r[i]) {
      assert r[i] == m[i];
      assert IsBase64Char(s[i]);
      assert m1[i] == if s[i] == '+' then '-' else s[i];
      assert m[i] == if m1[i] == '/' then '_' else m1[i];
    }
  }

  /** Padding restores a length to a multiple of four when at most two characters were stripped. */
  lemma PaddingLength(m: nat, n: nat)
    requires (m + n) % 4 == 0 && n <= 2
    ensures (4 - m % 4) % 4 == n
  {
    if n > 0 {
      var q := (m + n) / 4;
      assert m == 4 * (q - 1) + (4 - n);
    }
  }

  /**
   * The pair of one attempt: the verifier of the 50 random bytes and the
   * base64url of the digest of its ASCII octets (the S256 method).
   */
  function CreateChallenge(crypto: Crypto): (r: CodeChallenge)
    ensures |r.verifier| == VerifierLength
    ensures forall i :: 0 <= i < VerifierLength ==>
              r.verifier[i] == Alphabet[crypto.randomByte(i) as int % |Alphabet|]
    ensures forall i :: 0 <= i < |r.verifier| ==> (r.verifier[i] as int) < 256
    ensures r.challenge == Base64Url(crypto.btoa(crypto.digest(Ascii(r.verifier))))
  {
    var bytes := seq(VerifierLength, i requires 0 <= i < VerifierLength => crypto.randomByte(i));
    DigestInputIsAsciiOfVerifier(bytes);
    CodeChallenge(Verifier(bytes), Base64Url(crypto.btoa(crypto.digest(DigestInput(bytes)))))
  }

  /**
   * The pair meets RFC 7636: the verifier is 43 to 128 unreserved characters;
   * the challenge has no `+`, no `/` and no trailing `=`, and when `btoa`
   * gives well-formed base64 it is made only of unreserved characters.
   */
  lemma ChallengeConforms(crypto: Crypto)
    ensures var r := CreateChallenge(crypto);
      43 <= |r.verifier| <= 128 &&
      (forall i :: 0 <= i < |r.verifier| ==> IsUnreserved(r.verifier[i])) &&
      '+' !in r.challenge && '/' !in r.challenge &&
      (r.challenge == [] || r.challenge[|r.challenge| - 1] != '=')
    ensures var r := CreateChallenge(crypto);
      WellFormedBase64(crypto.btoa(crypto.digest(Ascii(r.verifier)))) ==>
        forall i :: 0 <= i < |r.challenge| ==> IsUnreserved(r.challenge[i])
  {
    var r := CreateChallenge(crypto);
    forall i | 0 <= i < |r.verifier| ensures IsUnreserved(r.verifier[i]) {
      AlphabetAt(crypto.randomByte(i) as int % |Alphabet|);
    }
    var b64 := crypto.btoa(crypto.digest(Ascii(r.verifier)));
    if WellFormedBase64(b64) {
      Base64UrlIsUnreserved(b64);
    }
  }
}
