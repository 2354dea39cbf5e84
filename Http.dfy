/** The parts of an HTTP request the views read: the query string as a multi-valued dictionary. */
module Http {
  import opened Wrappers

  /** A query string: each parameter name with its values, in the order given. */
  type QueryDict = map<string, seq<string>>

  /** `QueryDict.get(key)`: the last value given for `key`, or None when it is absent. */
  function QueryGet(q: QueryDict, key: string): (r: Option<string>)
    ensures r.Some? <==> key in q && q[key] != []
    ensures r.Some? ==> r.value == q[key][|q[key]| - 1]
  {
    if key in q && q[key] != [] then Some(q[key][|q[key]| - 1]) else None
  }

  /** `QueryDict.getlist(key)`: every value given for `key`, or none. */
  function QueryGetList(q: QueryDict, key: string): (r: seq<string>)
    ensures key !in q ==> r == []
    ensures key in q ==> r == q[key]
  {
    if key in q then q[key] else []
  }
}
