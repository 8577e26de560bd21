/** The parts of Go's `net/url` package the provider relies on: `url.Values` and `url.URL`. */
module NetUrl {

  /** url.Values: each parameter name maps to its values, in the order they were added. */
  type Values = map<string, seq<string>>

  /** Values.Get: the first value for `key`, or "" when there is none. */
  function Get(v: Values, key: string): string
  {
    if key in v && |v[key]| > 0 then v[key][0] else ""
  }

  /** Values.Add: appends `value` to the values already present for `key`. */
  function Add(v: Values, key: string, value: string): (w: Values)
    ensures w.Keys == v.Keys + {key}
    ensures key in v ==> w[key] == v[key] + [value]
    ensures key !in v ==> w[key] == [value]
    ensures forall k :: k in v && k != key ==> w[k] == v[k]
  {
    v[key := (if key in v then v[key] else []) + [value]]
  }

  /** A Values holding exactly one value per listed key. */
  predicate SingleValued(v: Values)
  {
    forall k :: k in v ==> |v[k]| == 1
  }

  /** Adding values under two different names gives the same Values in either order: a Values
      is its contents, not the history of its construction. */
  lemma AddCommutes(v: Values, a: string, x: string, b: string, y: string)
    requires a != b
    ensures Add(Add(v, a, x), b, y) == Add(Add(v, b, y), a, x)
  {
  }

  /** url.URL, with the components the provider reads or writes. */
  datatype Url = Url(
    scheme: string,
    opaquePart: string,
    user: string,
    host: string,
    path: string,
    rawQuery: string,
    fragment: string)

  /** The two URLs agree on every component except the raw query. */
  predicate SameButQuery(u: Url, w: Url)
  {
    && u.scheme == w.scheme && u.opaquePart == w.opaquePart && u.user == w.user
    && u.host == w.host && u.path == w.path && u.fragment == w.fragment
  }
}
