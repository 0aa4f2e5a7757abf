/**
 * The configuration tree: the untyped values the configuration framework
 * hands to the mapping layer and takes back from it (Go's `string`,
 * `[]interface{}` and `map[string]interface{}`).
 */
module Config {
  import opened Wrappers

  datatype CVal =
    | Str(s: string)
    | Lst(items: seq<CVal>)
    | Obj(fields: map<string, CVal>)

  /** The text stored under `k`, if `k` is present and holds text. */
  function StrAt(m: map<string, CVal>, k: string): (r: Option<string>)
    ensures r.Some? <==> k in m && m[k].Str?
    ensures r.Some? ==> m[k] == Str(r.value)
  {
    if k in m && m[k].Str? then Some(m[k].s) else None
  }

  /** The list stored under `k`, if `k` is present and holds a list. */
  function ListAt(m: map<string, CVal>, k: string): (r: Option<seq<CVal>>)
    ensures r.Some? <==> k in m && m[k].Lst?
    ensures r.Some? ==> m[k] == Lst(r.value)
  {
    if k in m && m[k].Lst? then Some(m[k].items) else None
  }

  /**
   * The object carried by a list-of-one, the configuration's encoding of an
   * optional nested object; absent when the list is empty or its first
   * element is not an object.
   */
  function Single(l: seq<CVal>): (r: Option<map<string, CVal>>)
    ensures r.Some? <==> |l| > 0 && l[0].Obj?
    ensures r.Some? ==> l[0] == Obj(r.value)
  {
    if |l| > 0 && l[0].Obj? then Some(l[0].fields) else None
  }

  /** `m` with `k` set to the text `v` when `v` is present, and `k` left out otherwise. */
  function PutStr(m: map<string, CVal>, k: string, v: Option<string>): (r: map<string, CVal>)
    requires k !in m
    ensures StrAt(r, k) == v
    ensures k in r <==> v.Some?
    ensures r.Keys - {k} == m.Keys
    ensures forall j :: j in m ==> r[j] == m[j]
  {
    if v.Some? then m[k := Str(v.value)] else m
  }
}
