/**
 * The Python dicts and lists the core sends to and reads from the search engine, as JSON
 * values. `V` stands for the numbers of an embedding vector, which the model never inspects.
 */
module Json {
  import opened Wrappers

  datatype Json<V> =
    | JNull
    | JBool(b: bool)
    | JInt(i: int)
    | JStr(s: string)
    | JVector(v: V)
    | JArr(items: seq<Json<V>>)
    | JObj(fields: map<string, Json<V>>)

  /** Python's chained indexing `j[k1][k2]...`: None where a step meets a non-dict or a missing key. */
  function Lookup<V>(j: Json<V>, path: seq<string>): Option<Json<V>>
    decreases |path|
  {
    if |path| == 0 then Some(j)
    else if j.JObj? && path[0] in j.fields then Lookup(j.fields[path[0]], path[1..])
    else None
  }

  /** The string at `path`, or None if it is missing or not a string. */
  function LookupStr<V>(j: Json<V>, path: seq<string>): Option<string>
  {
    match Lookup(j, path)
    case Some(JStr(s)) => Some(s)
    case _ => None
  }

  /** The integer at `path`, or None if it is missing or not an integer. */
  function LookupInt<V>(j: Json<V>, path: seq<string>): Option<int>
  {
    match Lookup(j, path)
    case Some(JInt(i)) => Some(i)
    case _ => None
  }
}
