/** oauth2/endpoint/approval.go, ComputeKey, ComputeMAC and CheckMAC: the per-session key and
    the HMAC-SHA256 signature that bind an approval prompt to its parameters, its expiration
    time and the user's session. */
module Signature {
  import opened NetUrl
  import opened Stdlib

  /** ComputeKey: the server key's HMAC of the user id, the expiration time and the session id,
      written one after the other. */
  function ComputeKey(p: Primitives, userId: string, expirationTime: string, sessionId: string, key: Bytes): (k: Bytes)
    ensures k == p.hmacSha256(key, userId + expirationTime + sessionId)
  {
    SumOfWrites(p, key, [userId, expirationTime, sessionId]);
    Concat3(userId, expirationTime, sessionId);
    Sum(p, WriteAll(NewHmac(key), [userId, expirationTime, sessionId]))
  }

  /** ComputeMAC: the session key's HMAC of the encoded parameters followed by the user id, the
      expiration time and the session id. */
  function ComputeMAC(p: Primitives, params: Values, userId: string, expirationTime: string,
                      sessionId: string, key: Bytes): (mac: Bytes)
    ensures mac == p.hmacSha256(key, p.encodeValues(params) + userId + expirationTime + sessionId)
  {
    var chunks := [p.encodeValues(params), userId, expirationTime, sessionId];
    SumOfWrites(p, key, chunks);
    Concat4(p.encodeValues(params), userId, expirationTime, sessionId);
    Sum(p, WriteAll(NewHmac(key), chunks))
  }

  /** CheckMAC: hmac.Equal, a constant-time comparison, is plain equality of the bytes. */
  function CheckMAC(p: Primitives, params: Values, userId: string, expirationTime: string,
                    sessionId: string, mac: Bytes, key: Bytes): (ok: bool)
    ensures ok <==> mac == p.hmacSha256(key, p.encodeValues(params) + userId + expirationTime + sessionId)
  {
    mac == ComputeMAC(p, params, userId, expirationTime, sessionId, key)
  }

  /** Nothing separates the fields fed to the key, so any user id and expiration time that
      concatenate to the same text give the same key. */
  lemma KeyFieldsAmbiguous(p: Primitives, userId1: string, exp1: string, userId2: string, exp2: string,
                           sessionId: string, key: Bytes)
    requires userId1 + exp1 == userId2 + exp2
    ensures ComputeKey(p, userId1, exp1, sessionId, key) == ComputeKey(p, userId2, exp2, sessionId, key)
  {
    assert userId1 + exp1 + sessionId == (userId1 + exp1) + sessionId;
    assert userId2 + exp2 + sessionId == (userId2 + exp2) + sessionId;
  }

  /** The same holds for the MAC: the user id and expiration time are not delimited. */
  lemma MacFieldsAmbiguous(p: Primitives, params: Values, userId1: string, exp1: string,
                           userId2: string, exp2: string, sessionId: string, key: Bytes)
    requires userId1 + exp1 == userId2 + exp2
    ensures ComputeMAC(p, params, userId1, exp1, sessionId, key)
         == ComputeMAC(p, params, userId2, exp2, sessionId, key)
  {
    var e := p.encodeValues(params);
    assert e + userId1 + exp1 + sessionId == e + (userId1 + exp1) + sessionId;
    assert e + userId2 + exp2 + sessionId == e + (userId2 + exp2) + sessionId;
  }

  /** An instance: user "1" expiring at "23" and user "12" expiring at "3" share a key. */
  lemma KeyFieldsCollide(p: Primitives, sessionId: string, key: Bytes)
    ensures ComputeKey(p, "1", "23", sessionId, key) == ComputeKey(p, "12", "3", sessionId, key)
  {
    KeyFieldsAmbiguous(p, "1", "23", "12", "3", sessionId, key);
  }

  /** CheckMAC accepts what ComputeMAC produced for the same fields and key. */
  lemma CheckAcceptsComputed(p: Primitives, params: Values, userId: string, expirationTime: string,
                             sessionId: string, key: Bytes)
    ensures CheckMAC(p, params, userId, expirationTime, sessionId,
                     ComputeMAC(p, params, userId, expirationTime, sessionId, key), key)
  {
  }

  /** The MAC covers the parameters' contents, not the order they were added in. */
  lemma MacIgnoresAddOrder(p: Primitives, v: Values, a: string, x: string, b: string, y: string,
                           userId: string, expirationTime: string, sessionId: string, key: Bytes)
    requires a != b
    ensures ComputeMAC(p, Add(Add(v, a, x), b, y), userId, expirationTime, sessionId, key)
         == ComputeMAC(p, Add(Add(v, b, y), a, x), userId, expirationTime, sessionId, key)
  {
    AddCommutes(v, a, x, b, y);
  }
}
