// Go's http.Header: a table from a header name to the list of its values,
// with Set (replace by one value), Add (append a value) and Del (remove
// the name). Names are taken as already canonical.

module Headers {

  type Header = map<string, seq<string>>

  /** Header.Values(key): the values recorded for `key`, none when it is absent. */
  function Values(h: Header, key: string): seq<string>
  {
    if key in h then h[key] else []
  }

  /** Header.Get(key): the first value for `key`, or "". */
  function Get(h: Header, key: string): (v: string)
    ensures Values(h, key) == [] ==> v == ""
    ensures Values(h, key) != [] ==> v == Values(h, key)[0]
  {
    if key in h && |h[key]| > 0 then h[key][0] else ""
  }

  /** Header.Set: `key` ends up with exactly the one value `v`; every other name keeps its values. */
  function Set(h: Header, key: string, v: string): (r: Header)
    ensures Values(r, key) == [v]
    ensures forall k :: k != key ==> Values(r, k) == Values(h, k)
    ensures r.Keys == h.Keys + {key}
  {
    h[key := [v]]
  }

  /** Header.Add: `v` is appended after the values `key` already had; every other name keeps its values. */
  function Add(h: Header, key: string, v: string): (r: Header)
    ensures Values(r, key) == Values(h, key) + [v]
    ensures forall k :: k != key ==> Values(r, k) == Values(h, k)
    ensures r.Keys == h.Keys + {key}
  {
    h[key := Values(h, key) + [v]]
  }

  /** Header.Del: `key` has no values afterwards; every other name keeps its values. */
  function Del(h: Header, key: string): (r: Header)
    ensures Values(r, key) == []
    ensures forall k :: k != key ==> Values(r, k) == Values(h, k)
    ensures r.Keys == h.Keys - {key}
  {
    h - {key}
  }
}
