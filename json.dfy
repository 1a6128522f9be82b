/**
 * JSON values as `json.loads` produces them and `json.dumps` consumes them.
 * Only the shape is modelled; the text grammar is not.
 */
module JsonData {
  import opened Wrappers
  import opened Text

  datatype Json =
    | JNull
    | JBool(b: bool)
    | JInt(i: int)
    | JFloat(f: real)
    | JStr(s: string)
    | JArray(items: seq<Json>)
    | JObject(members: seq<(string, Json)>)

  /** A bucket key of a terms aggregation: a string, or a number for numeric and date fields. */
  datatype Key = KStr(s: string) | KInt(i: int)

  /** `str(key)`. */
  function KeyText(k: Key): string
  {
    match k
    case KStr(s) => s
    case KInt(i) => IntToString(i)
  }

  /** The key as a JSON value. */
  function KeyJson(k: Key): Json
  {
    match k
    case KStr(s) => JStr(s)
    case KInt(i) => JInt(i)
  }

  /** The keys of an object, in insertion order. */
  function Keys(members: seq<(string, Json)>): (ks: seq<string>)
    ensures |ks| == |members|
    ensures forall i :: 0 <= i < |members| ==> ks[i] == members[i].0
  {
    seq(|members|, i requires 0 <= i < |members| => members[i].0)
  }

  predicate DistinctKeys(members: seq<(string, Json)>)
  {
    forall i, j :: 0 <= i < j < |members| ==> members[i].0 != members[j].0
  }

  /**
   * The value of the first member with `key`, if any. For an object with
   * distinct keys this is `obj.get(key)`; a Python dict keeps the last of
   * duplicate keys instead.
   */
  function Get(members: seq<(string, Json)>, key: string): Option<Json>
  {
    if members == [] then None
    else if members[0].0 == key then Some(members[0].1)
    else Get(members[1..], key)
  }

  /** In an object with distinct keys, a key's lookup finds the member that carries it. */
  lemma {:induction false} GetMember(members: seq<(string, Json)>, i: nat)
    requires DistinctKeys(members) && i < |members|
    ensures Get(members, members[i].0) == Some(members[i].1)
  {
    if i > 0 {
      assert members[0].0 != members[i].0;
      GetMember(members[1..], i - 1);
    }
  }
}
