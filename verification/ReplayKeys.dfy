/** Replay keys of `resource_auth.py`: a security namespace is put in front of the caller's request
    id, so that two identities never share a stored key. */
module ReplayKeys {
  import opened Basics
  import opened StoreModel

  const SEPARATOR: char := '\U{001F}'
  const NETWORK_NAMESPACE := "network-chatgpt-v1"

  predicate SeparatorFree(s: string) {
    SEPARATOR !in s
  }

  /** The namespace of an identity; `digest` is the hexadecimal digest of the OAuth fields. */
  function Namespace(identity: Identity, digest: string): string {
    match identity
    case OAuthIdentity(_) => "oauth-" + digest
    case NetworkIdentity => NETWORK_NAMESPACE
  }

  /** None stands for the ValueError of the source. */
  function Encode(namespace: Option<string>, requestId: string): Option<string> {
    match namespace
    case None => Some(requestId)
    case Some(n) =>
      if n == "" || !SeparatorFree(n) || !SeparatorFree(requestId) then None
      else Some(n + [SEPARATOR] + requestId)
  }

  /** Everything after the first separator, or the whole value if there is none. */
  function Decode(value: string): string {
    var rest := AfterSeparator(value);
    if rest.Some? then rest.value else value
  }

  function AfterSeparator(value: string): Option<string> {
    if value == "" then None
    else if value[0] == SEPARATOR then Some(value[1..])
    else AfterSeparator(value[1..])
  }

  lemma {:induction false} AfterSeparatorFinds(prefix: string, rest: string)
    requires SeparatorFree(prefix)
    ensures AfterSeparator(prefix + [SEPARATOR] + rest) == Some(rest)
    ensures AfterSeparator(prefix) == None
  {
    var value := prefix + [SEPARATOR] + rest;
    if prefix == "" {
      assert value[1..] == rest;
    } else {
      assert value[1..] == prefix[1..] + [SEPARATOR] + rest;
      AfterSeparatorFinds(prefix[1..], rest);
    }
  }

  lemma {:induction false} AfterSeparatorShorter(value: string)
    ensures AfterSeparator(value).Some? <==> !SeparatorFree(value)
    ensures AfterSeparator(value).Some? ==> |AfterSeparator(value).value| < |value|
  {
    if value != "" && value[0] != SEPARATOR {
      AfterSeparatorShorter(value[1..]);
      assert value == [value[0]] + value[1..];
    }
  }

  /** Decoding inverts encoding exactly on separator-free request ids. */
  lemma DecodeInvertsEncode(namespace: Option<string>, requestId: string)
    requires Encode(namespace, requestId).Some?
    ensures Decode(Encode(namespace, requestId).value) == requestId <==> SeparatorFree(requestId)
  {
    if namespace.Some? {
      AfterSeparatorFinds(namespace.value, requestId);
    } else {
      AfterSeparatorShorter(requestId);
    }
  }

  /** Two separator-free request ids get the same key only for the same namespace and id. */
  lemma EncodeInjective(n1: Option<string>, id1: string, n2: Option<string>, id2: string)
    requires SeparatorFree(id1) && SeparatorFree(id2)
    requires Encode(n1, id1).Some? && Encode(n1, id1) == Encode(n2, id2)
    ensures n1 == n2 && id1 == id2
  {
    DecodeInvertsEncode(n1, id1);
    DecodeInvertsEncode(n2, id2);
    var key := Encode(n1, id1).value;
    if n1.Some? && n2.Some? {
      var k := |key| - |id1| - 1;
      assert n1.value == key[..k] && n2.value == key[..k];
    }
  }

  predicate Alphanumeric(c: char) {
    'a' <= c <= 'z' || 'A' <= c <= 'Z' || '0' <= c <= '9'
  }

  /** The format of a client request id: 1 to 128 characters from a fixed alphabet. */
  predicate ValidRequestId(s: string) {
    1 <= |s| <= 128 && Alphanumeric(s[0])
    && forall k :: 0 <= k < |s| ==> Alphanumeric(s[k]) || s[k] in "_.:-"
  }

  predicate HexDigit(c: char) {
    '0' <= c <= '9' || 'a' <= c <= 'f' || 'A' <= c <= 'F'
  }

  predicate ValidHash(s: string) {
    |s| == 64 && forall k :: 0 <= k < |s| ==> HexDigit(s[k])
  }

  /** Keys of different identities differ: the network profile never meets an OAuth principal, and
      two OAuth principals meet only if their digests do. */
  lemma IdentitiesSeparated(i1: Identity, d1: string, i2: Identity, d2: string, id1: string, id2: string)
    requires ValidRequestId(id1) && ValidRequestId(id2) && SeparatorFree(d1) && SeparatorFree(d2)
    requires Encode(Some(Namespace(i1, d1)), id1) == Encode(Some(Namespace(i2, d2)), id2)
    ensures id1 == id2 && (i1.NetworkIdentity? <==> i2.NetworkIdentity?)
    ensures i1.OAuthIdentity? ==> d1 == d2
  {
    EncodeInjective(Some(Namespace(i1, d1)), id1, Some(Namespace(i2, d2)), id2);
    assert NETWORK_NAMESPACE[0] == 'n' && ("oauth-" + d1)[0] == 'o' && ("oauth-" + d2)[0] == 'o';
    assert ("oauth-" + d1)[6..] == d1 && ("oauth-" + d2)[6..] == d2;
  }
}
