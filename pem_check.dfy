/** The credential check of the stand-alone HTTPS demo server (server-fixed.js).
    Before it starts its HTTPS listener, the server loads a certificate and a
    private key only when both files exist, both can be read as text, and each
    text carries the PEM encapsulation boundaries of section 2 of RFC 7468.
    The test is plain substring containment, not a parse: the certificate must
    contain the exact "-----BEGIN CERTIFICATE-----" and "-----END
    CERTIFICATE-----" lines, the key only the label-free prefixes "-----BEGIN"
    and "-----END". */
module PemCheck {
  import opened Wrappers

  const CertificateBegin: string := "-----BEGIN CERTIFICATE-----"
  const CertificateEnd: string := "-----END CERTIFICATE-----"
  const KeyBegin: string := "-----BEGIN"
  const KeyEnd: string := "-----END"

  /** The credentials handed to the HTTPS server: the two texts as read. */
  datatype Credentials = Credentials(cert: string, key: string)

  /** `sub` occurs in `s` starting at index `i`. */
  ghost predicate OccursAt(s: string, sub: string, i: int) {
    0 <= i && i + |sub| <= |s| && s[i..i + |sub|] == sub
  }

  /** `sub` is a substring of `s`. */
  ghost predicate Occurs(s: string, sub: string) {
    exists i :: OccursAt(s, sub, i)
  }

  /** Moving the window one character: an occurrence in `s` other than at 0 is an occurrence in `s[1..]`, and back. */
  lemma OccursTail(s: string, sub: string)
    requires |s| > 0 && !OccursAt(s, sub, 0)
    ensures Occurs(s, sub) <==> Occurs(s[1..], sub)
  {
    if Occurs(s, sub) {
      var i :| OccursAt(s, sub, i);
      assert s[1..][i - 1..i - 1 + |sub|] == s[i..i + |sub|];
      assert OccursAt(s[1..], sub, i - 1);
    }
    if Occurs(s[1..], sub) {
      var i :| OccursAt(s[1..], sub, i);
      assert s[1..][i..i + |sub|] == s[i + 1..i + 1 + |sub|];
      assert OccursAt(s, sub, i + 1);
    }
  }

  /** JavaScript's `s.includes(sub)`: true exactly when `sub` occurs somewhere in `s`
      (the empty string occurs everywhere). */
  function Includes(s: string, sub: string): (b: bool)
    ensures b <==> Occurs(s, sub)
    decreases |s|
  {
    if |s| < |sub| then
      false
    else if s[..|sub|] == sub then
      assert OccursAt(s, sub, 0);
      true
    else
      OccursTail(s, sub);
      Includes(s[1..], sub)
  }

  /** The certificate text carries both certificate boundary lines. */
  ghost predicate CertificateFramed(cert: string) {
    Occurs(cert, CertificateBegin) && Occurs(cert, CertificateEnd)
  }

  /** The key text carries a begin and an end boundary, whatever their label. */
  ghost predicate KeyFramed(key: string) {
    Occurs(key, KeyBegin) && Occurs(key, KeyEnd)
  }

  /** `checkCertificates`: `certExists`/`keyExists` are the two `existsSync` answers,
      `certText`/`keyText` the two `readFileSync` results (None when the read throws).
      The answer is None (JavaScript's `null`) on a missing file, a failed read or a
      missing boundary; otherwise the two texts exactly as read. */
  function CheckCertificates(certExists: bool, keyExists: bool,
                             certText: Option<string>, keyText: Option<string>): (r: Option<Credentials>)
    ensures !certExists || !keyExists ==> r == None
    ensures certText.Some? && !CertificateFramed(certText.value) ==> r == None
    ensures r.Some? <==>
              certExists && keyExists && certText.Some? && keyText.Some? &&
              CertificateFramed(certText.value) && KeyFramed(keyText.value)
    ensures r.Some? ==> r.value == Credentials(certText.value, keyText.value)
  {
    if !certExists || !keyExists then
      None
    else if certText.None? || keyText.None? then
      None
    else
      var cert := certText.value;
      var key := keyText.value;
      if !Includes(cert, CertificateBegin) || !Includes(cert, CertificateEnd) then
        None
      else if !Includes(key, KeyBegin) || !Includes(key, KeyEnd) then
        None
      else
        Some(Credentials(cert, key))
  }

  /** An occurrence of `a + b` is an occurrence of its prefix `a`. */
  lemma {:induction false} OccursPrefix(s: string, a: string, b: string)
    requires Occurs(s, a + b)
    ensures Occurs(s, a)
  {
    var i :| OccursAt(s, a + b, i);
    assert s[i..i + |a|] == s[i..i + |a + b|][..|a|] == (a + b)[..|a|] == a;
    assert OccursAt(s, a, i);
  }

  /** The key test is strictly more permissive than the certificate test: every text
      that passes as a certificate also passes as a key. */
  lemma CertificateFramedIsKeyFramed(text: string)
    requires CertificateFramed(text)
    ensures KeyFramed(text)
  {
    assert CertificateBegin == KeyBegin + " CERTIFICATE-----";
    assert CertificateEnd == KeyEnd + " CERTIFICATE-----";
    OccursPrefix(text, KeyBegin, " CERTIFICATE-----");
    OccursPrefix(text, KeyEnd, " CERTIFICATE-----");
  }

  /** The key may carry any label (PRIVATE KEY, RSA PRIVATE KEY, EC PRIVATE KEY, ...):
      with a well-framed certificate and both files readable, a key text framed by
      begin and end lines with an arbitrary label is accepted and returned unchanged. */
  lemma KeyLabelIsFree(cert: string, tag: string, body: string)
    requires CertificateFramed(cert)
    ensures var key := KeyBegin + " " + tag + "-----\n" + body + KeyEnd + " " + tag + "-----\n";
            CheckCertificates(true, true, Some(cert), Some(key)) == Some(Credentials(cert, key))
  {
    var head := KeyBegin + " " + tag + "-----\n" + body;
    var key := head + KeyEnd + " " + tag + "-----\n";
    assert key == KeyBegin + " " + tag + "-----\n" + body + KeyEnd + " " + tag + "-----\n";
    assert key[0..|KeyBegin|] == KeyBegin;
    assert OccursAt(key, KeyBegin, 0);
    assert key[|head|..|head| + |KeyEnd|] == KeyEnd;
    assert OccursAt(key, KeyEnd, |head|);
  }
}
