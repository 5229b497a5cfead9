/**
 * A JavaScript object used as a dictionary (`{ [key: string]: V }`):
 * a map from keys to values together with the order in which keys were
 * first assigned, which is the order `Object.keys` reports them in.
 */
module Dictionary {
  import opened Lists

  datatype Dict<V> = Dict(keys: seq<string>, vals: map<string, V>)

  /** Every key is listed once, and exactly the assigned keys are listed. */
  ghost predicate Valid<V>(d: Dict<V>) {
    Distinct(d.keys) && forall k :: k in d.vals <==> k in d.keys
  }

  /** `{}` */
  function Empty<V>(): (r: Dict<V>)
    ensures Valid(r) && r.vals == map[]
  {
    Dict([], map[])
  }

  /** `obj[k] = v`: a new key goes last, an existing key keeps its place. */
  function Put<V>(d: Dict<V>, k: string, v: V): (r: Dict<V>)
    ensures Valid(d) ==> Valid(r)
    ensures r.vals == d.vals[k := v]
    ensures r.keys == if k in d.vals then d.keys else d.keys + [k]
  {
    if k in d.vals then Dict(d.keys, d.vals[k := v]) else Dict(d.keys + [k], d.vals[k := v])
  }
}
