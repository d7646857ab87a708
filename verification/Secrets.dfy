/** The enc:v1 envelope of internal/secret and the signed session cookie of internal/idp. */
module Secrets {
  import opened Text
  import opened Base64

  /** A Go string: a sequence of bytes, each shown as the character of that code. */
  type GoString = s: string | forall c :: c in s ==> c as int < 256

  function ToBytes(s: GoString): (r: seq<byte>)
    ensures |r| == |s|
  {
    seq(|s|, i requires 0 <= i < |s| => assert s[i] in s; s[i] as int)
  }

  function FromBytes(b: seq<byte>): (r: GoString)
    ensures |r| == |b|
    ensures ToBytes(r) == b
  {
    var r := seq(|b|, i requires 0 <= i < |b| => b[i] as char);
    assert forall c :: c in r ==> exists i :: 0 <= i < |b| && c == b[i] as char;
    r
  }

  lemma FromToBytes(s: GoString)
    ensures FromBytes(ToBytes(s)) == s
  {
    assert forall i :: 0 <= i < |s| ==> FromBytes(ToBytes(s))[i] == s[i];
  }

  const TAG_SIZE: nat := 16
  const NONCE_SIZE: nat := 12

  /** AES-GCM under the store's fixed key, as an abstract authenticated cipher. */
  datatype Aead = Aead(seal: (seq<byte>, seq<byte>) -> seq<byte>, open: (seq<byte>, seq<byte>) -> Option<seq<byte>>)

  ghost predicate Lawful(a: Aead)
  {
    && (forall iv, p :: |a.seal(iv, p)| == |p| + TAG_SIZE)
    && (forall iv, p :: a.open(iv, a.seal(iv, p)) == Some(p))
    && (forall iv, x :: a.open(iv, x).Some? ==> |a.open(iv, x).value| + TAG_SIZE == |x|)
  }

  const PREFIX: string := "enc:v1:"

  predicate IsEncrypted(value: string) { PREFIX <= value }

  function Encrypt(a: Aead, plaintext: GoString, iv: seq<byte>): string
    requires |a.seal(iv, ToBytes(plaintext))| == |plaintext| + TAG_SIZE
  {
    if IsEncrypted(plaintext) then plaintext
    else
      var sealed := a.seal(iv, ToBytes(plaintext));
      var tagStart := |sealed| - TAG_SIZE;
      Envelope(iv, sealed[tagStart..], sealed[..tagStart])
  }

  /** The cipher panics on a nonce of another length. */
  datatype Opening = Opened(value: string) | Bad(why: string) | Panicked

  function Decrypt(a: Aead, value: string): Opening
  {
    if !IsEncrypted(value) then Opened(value)
    else
      var parts := Split(value, ':');
      if |parts| != 5 || parts[0] != "enc" || parts[1] != "v1" then Bad("invalid encrypted secret format")
      else
        var iv, tag, ciphertext := Decode(parts[2]), Decode(parts[3]), Decode(parts[4]);
        if iv.None? || tag.None? || ciphertext.None? then Bad("illegal base64 data")
        else if |iv.value| != NONCE_SIZE then Panicked
        else
          var plaintext := a.open(iv.value, ciphertext.value + tag.value);
          if plaintext.None? then Bad("message authentication failed") else Opened(FromBytes(plaintext.value))
  }

  lemma FiveParts(x: string, y: string, z: string)
    requires (forall c :: c in x ==> IsDigit(c)) && (forall c :: c in y ==> IsDigit(c))
        && (forall c :: c in z ==> IsDigit(c))
    ensures var v := Join(["enc", "v1", x, y, z], ':'); Split(v, ':') == ["enc", "v1", x, y, z] && IsEncrypted(v)
  {
    var parts := ["enc", "v1", x, y, z];
    SplitJoin(parts, ':');
    var v := Join(parts, ':');
    assert v == "enc" + ":" + ("v1" + ":" + Join(parts[2..], ':'));
    assert v[..7] == PREFIX;
  }

  function Envelope(iv: seq<byte>, tag: seq<byte>, ciphertext: seq<byte>): string
  {
    Join(["enc", "v1", Encode(iv), Encode(tag), Encode(ciphertext)], ':')
  }

  lemma OpenEnvelope(a: Aead, iv: seq<byte>, tag: seq<byte>, ciphertext: seq<byte>)
    ensures var v := Envelope(iv, tag, ciphertext); var p := a.open(iv, ciphertext + tag);
      Decrypt(a, v) ==
        if |iv| != NONCE_SIZE then Panicked
        else if p.None? then Bad("message authentication failed") else Opened(FromBytes(p.value))
  {
    FiveParts(Encode(iv), Encode(tag), Encode(ciphertext));
    RoundTrip(iv);
    RoundTrip(tag);
    RoundTrip(ciphertext);
  }

  /** Opening an envelope panics exactly when its nonce has the wrong length, whatever else it holds. */
  lemma EnvelopePanicsIff(a: Aead, iv: seq<byte>, tag: seq<byte>, ciphertext: seq<byte>)
    ensures Decrypt(a, Envelope(iv, tag, ciphertext)) == Panicked <==> |iv| != NONCE_SIZE
  {
    OpenEnvelope(a, iv, tag, ciphertext);
  }

  /** Sealing writes the nonce, the tag and the ciphertext of one sealed message. */
  lemma EncryptIsEnvelope(a: Aead, p: GoString, iv: seq<byte>) returns (tag: seq<byte>, ciphertext: seq<byte>)
    requires Lawful(a) && !IsEncrypted(p)
    ensures Encrypt(a, p, iv) == Envelope(iv, tag, ciphertext) && ciphertext + tag == a.seal(iv, ToBytes(p))
  {
    var sealed := a.seal(iv, ToBytes(p));
    var t := |sealed| - TAG_SIZE;
    tag, ciphertext := sealed[t..], sealed[..t];
  }

  lemma EnvelopeShape(iv: seq<byte>, tag: seq<byte>, ciphertext: seq<byte>)
    ensures IsEncrypted(Envelope(iv, tag, ciphertext)) && |Split(Envelope(iv, tag, ciphertext), ':')| == 5
    ensures forall c :: c in Envelope(iv, tag, ciphertext) ==> c as int < 256
  {
    FiveParts(Encode(iv), Encode(tag), Encode(ciphertext));
    JoinChars(["enc", "v1", Encode(iv), Encode(tag), Encode(ciphertext)]);
  }

  /** A sealed secret always splits into exactly five parts, is recognised as sealed, and opens to the input. */
  lemma EncryptShape(a: Aead, p: GoString, iv: seq<byte>)
    requires Lawful(a) && !IsEncrypted(p) && |iv| == NONCE_SIZE
    ensures IsEncrypted(Encrypt(a, p, iv))
    ensures |Split(Encrypt(a, p, iv), ':')| == 5
    ensures Decrypt(a, Encrypt(a, p, iv)) == Opened(p)
  {
    var tag, ciphertext := EncryptIsEnvelope(a, p, iv);
    EnvelopeShape(iv, tag, ciphertext);
    OpenEnvelope(a, iv, tag, ciphertext);
    FromToBytes(p);
  }

  /** What was sealed under one key opens under another exactly when that key opens the sealed message itself. */
  lemma OpeningNeedsKey(a: Aead, other: Aead, p: GoString, iv: seq<byte>)
    requires Lawful(a) && !IsEncrypted(p) && |iv| == NONCE_SIZE
    ensures Decrypt(other, Encrypt(a, p, iv)).Opened? <==> other.open(iv, a.seal(iv, ToBytes(p))).Some?
  {
    var tag, ciphertext := EncryptIsEnvelope(a, p, iv);
    OpenEnvelope(other, iv, tag, ciphertext);
  }

  /** Sealing a second time changes nothing, whatever the nonces. */
  lemma EncryptIdempotent(a: Aead, p: GoString, iv: seq<byte>, iv2: seq<byte>)
    requires Lawful(a)
    ensures forall c :: c in Encrypt(a, p, iv) ==> c as int < 256
    ensures Encrypt(a, Encrypt(a, p, iv), iv2) == Encrypt(a, p, iv)
  {
    if !IsEncrypted(p) {
      var tag, ciphertext := EncryptIsEnvelope(a, p, iv);
      EnvelopeShape(iv, tag, ciphertext);
    }
  }

  lemma {:induction false} JoinChars(parts: seq<string>)
    requires forall p, c :: p in parts && c in p ==> c as int < 256
    ensures forall c :: c in Join(parts, ':') ==> c as int < 256
  {
    if |parts| > 1 {
      JoinChars(parts[1..]);
      assert parts[0] in parts;
    } else if |parts| == 1 {
      assert parts[0] in parts;
    }
  }

  /** A part of a split is no longer than what was split, less the separators. */
  lemma {:induction false} SplitLengths(s: string, sep: char)
    ensures TotalLength(Split(s, sep)) + |Split(s, sep)| - 1 == |s|
  {
    if s != "" {
      SplitLengths(s[1..], sep);
      var rest := Split(s[1..], sep);
      if s[0] != sep {
        assert ([[s[0]] + rest[0]] + rest[1..])[1..] == rest[1..];
      } else {
        assert ([""] + rest)[1..] == rest;
      }
    }
  }

  function TotalLength(parts: seq<string>): nat
  {
    if parts == [] then 0 else |parts[0]| + TotalLength(parts[1..])
  }

  /** A value that carries the prefix never decrypts to itself. */
  lemma PrefixedNeverFixed(a: Aead, p: GoString)
    requires Lawful(a) && IsEncrypted(p)
    ensures Decrypt(a, p) != Opened(p)
  {
    var parts := Split(p, ':');
    SplitLengths(p, ':');
    if |parts| == 5 {
      var q1, q2, q3, q4 := parts[1..], parts[2..], parts[3..], parts[4..];
      assert q1[1..] == q2 && q2[1..] == q3 && q3[1..] == q4;
      assert TotalLength(q3) == |parts[3]| + TotalLength(q4) && TotalLength(q4) >= |parts[4]|;
      assert TotalLength(parts) >= TotalLength(q1) >= TotalLength(q2) >= TotalLength(q3);
      DecodeShrinks(parts[3]);
      DecodeShrinks(parts[4]);
    }
  }

  lemma DecodeShrinks(s: string)
    ensures Decode(s).Some? ==> |Decode(s).value| <= |s|
  {
  }

  /** Round trip, exactly: sealing then opening returns the input if and only if it was not already prefixed. */
  lemma EnvelopeRoundTripIff(a: Aead, p: GoString, iv: seq<byte>)
    requires Lawful(a) && |iv| == NONCE_SIZE
    ensures Decrypt(a, Encrypt(a, p, iv)) == Opened(p) <==> !IsEncrypted(p)
  {
    if IsEncrypted(p) { PrefixedNeverFixed(a, p); } else { EncryptShape(a, p, iv); }
  }

  // ---- the session cookie ----

  /** The cookie value: the id, a dot, and the base64url of its MAC. */
  function SignedCookie(mac: string -> seq<byte>, id: string): string { id + "." + Encode(mac(id)) }

  function SplitFirst(s: string, sep: char): (r: (string, Option<string>))
    ensures sep !in r.0
    ensures r.1.None? ==> r.0 == s && sep !in s
    ensures r.1.Some? ==> s == r.0 + [sep] + r.1.value
  {
    if s == "" then ("", None)
    else if s[0] == sep then ("", Some(s[1..]))
    else var r := SplitFirst(s[1..], sep); ([s[0]] + r.0, r.1)
  }

  function ReadSession(mac: string -> seq<byte>, cookie: string): Option<string>
  {
    var parts := SplitFirst(cookie, '.');
    if parts.1.Some? && parts.1.value == Encode(mac(parts.0)) then Some(parts.0) else None
  }

  /** A cookie is accepted for an id exactly when it is the signed cookie of that id and the id has no dot. */
  lemma CookieAcceptedIff(mac: string -> seq<byte>, cookie: string, id: string)
    ensures ReadSession(mac, cookie) == Some(id) <==> cookie == SignedCookie(mac, id) && '.' !in id
  {
    var parts := SplitFirst(cookie, '.');
    if cookie == SignedCookie(mac, id) && '.' !in id {
      assert '.' in cookie by { assert cookie[|id|] == '.'; }
      HeadTailInjective(id, Encode(mac(id)), parts.0, parts.1.value, '.');
    }
  }

  /** A cookie signed under one key is accepted under another exactly when the two sign its id alike. */
  lemma CookieNeedsKey(mac: string -> seq<byte>, other: string -> seq<byte>, id: string)
    requires '.' !in id
    ensures ReadSession(other, SignedCookie(mac, id)) == Some(id) <==> other(id) == mac(id)
  {
    CookieAcceptedIff(other, SignedCookie(mac, id), id);
    if SignedCookie(mac, id) == SignedCookie(other, id) {
      var a, b := SignedCookie(mac, id), SignedCookie(other, id);
      assert a[|id| + 1..] == Encode(mac(id)) && b[|id| + 1..] == Encode(other(id));
      RoundTrip(mac(id));
      RoundTrip(other(id));
    }
  }

  /** Hence every random id written to a cookie is read back: random ids are base64url and have no dot. */
  lemma RandomIdReadBack(mac: string -> seq<byte>, random: seq<byte>)
    ensures ReadSession(mac, SignedCookie(mac, Encode(random))) == Some(Encode(random))
  {
    CookieAcceptedIff(mac, SignedCookie(mac, Encode(random)), Encode(random));
  }
}
