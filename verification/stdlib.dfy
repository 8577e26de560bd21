/** The Go standard-library services the provider calls but whose internals are not modelled:
    base64, HMAC-SHA256, url.Values.Encode, url.ParseQuery, url.QueryEscape/QueryUnescape,
    url.Parse, URL.String, strconv.ParseInt/FormatInt and the runtime's map iteration order.
    Each is an uninterpreted function carried in a `Primitives` record; `Lawful` lists the only
    facts about them that the proofs use. */
module Stdlib {
  import opened Wrappers
  import opened NetUrl

  /** Go strings and byte slices are both modelled as sequences of characters, one per byte. */
  type Bytes = string

  const MinInt64: int := -0x8000_0000_0000_0000
  const MaxInt64: int := 0x7fff_ffff_ffff_ffff

  datatype Primitives = Primitives(
    /** base64.StdEncoding.EncodeToString */
    b64Encode: Bytes -> string,
    /** base64.StdEncoding.DecodeString; None is a decoding error */
    b64Decode: string -> Option<Bytes>,
    /** hmac.New(sha256.New, key) fed `message`, then Sum(nil) */
    hmacSha256: (Bytes, Bytes) -> Bytes,
    /** url.Values.Encode; a function of the map, so insertion order cannot matter
        (Go sorts the keys) */
    encodeValues: Values -> string,
    /** url.ParseQuery with its error ignored, as URL.Query() does */
    parseQuery: string -> Values,
    /** url.QueryEscape */
    queryEscape: string -> string,
    /** url.QueryUnescape; None is an unescaping error */
    queryUnescape: string -> Option<string>,
    /** url.Parse; None is a parse error */
    parseUrl: string -> Option<Url>,
    /** URL.String */
    urlString: Url -> string,
    /** strconv.ParseInt(s, 10, 64); None is a syntax or range error */
    parseInt: string -> Option<int>,
    /** strconv.FormatInt(n, 10) */
    formatInt: int -> string,
    /** the order in which a `for k, v := range values` loop visits the keys */
    iterationOrder: Values -> seq<string>)

  /** Values with every empty value list dropped: what survives an Encode/ParseQuery trip. */
  function Nonempty(v: Values): (w: Values)
    ensures forall k :: k in w <==> k in v && |v[k]| > 0
    ensures forall k :: k in w ==> w[k] == v[k]
  {
    map k | k in v && |v[k]| > 0 :: v[k]
  }

  /** The values of two queries joined with '&': those of the left one first. */
  function Merge(a: Values, b: Values): (m: Values)
    ensures m.Keys == a.Keys + b.Keys
  {
    map k | k in a.Keys + b.Keys ::
      (if k in a then a[k] else []) + (if k in b then b[k] else [])
  }

  /** The characters url.QueryEscape leaves as they are. */
  predicate Unreserved(c: char)
  {
    ('a' <= c <= 'z') || ('A' <= c <= 'Z') || ('0' <= c <= '9') || c in "-_.~"
  }

  /** A name made only of such characters, which escaping leaves unchanged. */
  predicate PlainName(k: string)
  {
    k != "" && forall i :: 0 <= i < |k| ==> Unreserved(k[i])
  }

  /** The facts about the standard library that the proofs rely on. */
  ghost predicate Lawful(p: Primitives)
  {
    // base64: decoding an encoding gives back the bytes
    && (forall b :: p.b64Decode(p.b64Encode(b)) == Some(b))
    // strconv: a formatted int64 parses back to itself
    && (forall n :: MinInt64 <= n <= MaxInt64 ==> p.parseInt(p.formatInt(n)) == Some(n))
    // the empty query holds no parameters
    && p.parseQuery("") == map[]
    // ParseQuery undoes Encode, except that names without values vanish
    && (forall v :: p.parseQuery(p.encodeValues(v)) == Nonempty(v))
    // ParseQuery reads the '&'-separated pairs left to right
    && (forall a, b :: a != "" && b != "" ==>
          p.parseQuery(a + "&" + b) == Merge(p.parseQuery(a), p.parseQuery(b)))
    // ranging over a map visits exactly its keys
    && (forall v, k :: k in p.iterationOrder(v) <==> k in v)
  }

  /** One more fact, kept apart from `Lawful` because only the login redirect needs it:
      ParseQuery reads a single pair `name=QueryEscape(x)` as that name holding x. */
  ghost predicate ReadsEscapedPair(p: Primitives)
  {
    forall k, x :: PlainName(k) ==> p.parseQuery(k + "=" + p.queryEscape(x)) == map[k := [x]]
  }

  /** A running HMAC: the key and everything written into it so far. */
  datatype Hmac = Hmac(key: Bytes, written: Bytes)

  /** hmac.New(sha256.New, key) */
  function NewHmac(key: Bytes): Hmac
  {
    Hmac(key, [])
  }

  /** Writes each chunk in turn, as successive `Write` calls do. */
  function WriteAll(h: Hmac, chunks: seq<Bytes>): Hmac
    decreases |chunks|
  {
    if |chunks| == 0 then h
    else WriteAll(h.(written := h.written + chunks[0]), chunks[1..])
  }

  /** The chunks laid end to end, with nothing between them. */
  function Concat(chunks: seq<Bytes>): Bytes
    decreases |chunks|
  {
    if |chunks| == 0 then [] else chunks[0] + Concat(chunks[1..])
  }

  /** Sum(nil): the MAC of everything written. */
  function Sum(p: Primitives, h: Hmac): Bytes
  {
    p.hmacSha256(h.key, h.written)
  }

  /** Successive writes into an HMAC are one write of their concatenation: no separator or
      length prefix is added between chunks. */
  lemma {:induction false} WriteAllIsConcat(h: Hmac, chunks: seq<Bytes>)
    ensures WriteAll(h, chunks) == Hmac(h.key, h.written + Concat(chunks))
    decreases |chunks|
  {
    if |chunks| > 0 {
      WriteAllIsConcat(h.(written := h.written + chunks[0]), chunks[1..]);
      assert h.written + chunks[0] + Concat(chunks[1..]) == h.written + (chunks[0] + Concat(chunks[1..]));
    }
  }

  /** The MAC of a sequence of writes is the MAC of their concatenation under the same key. */
  lemma SumOfWrites(p: Primitives, key: Bytes, chunks: seq<Bytes>)
    ensures Sum(p, WriteAll(NewHmac(key), chunks)) == p.hmacSha256(key, Concat(chunks))
  {
    WriteAllIsConcat(NewHmac(key), chunks);
    assert [] + Concat(chunks) == Concat(chunks);
  }

  /** Three writes are their concatenation. */
  lemma Concat3(a: Bytes, b: Bytes, c: Bytes)
    ensures Concat([a, b, c]) == a + b + c
  {
    assert [a, b, c][1..] == [b, c];
    assert [b, c][1..] == [c];
    assert [c][1..] == [];
    assert Concat([c]) == c + Concat([]);
    assert Concat([b, c]) == b + Concat([c]);
    assert Concat([a, b, c]) == a + Concat([b, c]);
    assert c + [] == c;
    assert a + (b + c) == a + b + c;
  }

  /** Four writes are their concatenation. */
  lemma Concat4(a: Bytes, b: Bytes, c: Bytes, d: Bytes)
    ensures Concat([a, b, c, d]) == a + b + c + d
  {
    assert [a, b, c, d][1..] == [b, c, d];
    Concat3(b, c, d);
    assert a + (b + c + d) == a + b + c + d;
  }
}
