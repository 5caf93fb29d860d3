/** Go's url.Values: each key holds the list of values added for it, in order. */
module UrlValues {

  type Values = map<string, seq<string>>

  /** url.Values.Add: appends value to the values already held for key. */
  function Add(v: Values, key: string, value: string): (r: Values)
    ensures r.Keys == v.Keys + {key}
    ensures key in v ==> r[key] == v[key] + [value]
    ensures key !in v ==> r[key] == [value]
    ensures forall k | k in v && k != key :: r[k] == v[k]
  {
    v[key := (if key in v then v[key] else []) + [value]]
  }
}
