/** Dynamically typed values as the Python backend and the JavaScript front end
    see decoded JSON: objects keep their keys in insertion order, as Python
    `dict`s and JavaScript objects do. */
module Json {
  import opened Wrappers

  datatype Json =
    | JNull
    | JBool(b: bool)
    | JInt(i: int)
    | JStr(s: string)
    | JList(items: seq<Json>)
    | JObject(members: seq<Member>)

  datatype Member = Member(key: string, value: Json)

  /** The keys of an object's members, in order. */
  function Keys(ms: seq<Member>): (ks: seq<string>)
    ensures |ks| == |ms|
    ensures forall i :: 0 <= i < |ms| ==> ks[i] == ms[i].key
  {
    if ms == [] then [] else [ms[0].key] + Keys(ms[1..])
  }

  /** A well-formed object has no key twice. */
  predicate UniqueKeys(ms: seq<Member>) {
    forall i, j :: 0 <= i < j < |ms| ==> ms[i].key != ms[j].key
  }

  /** Python truthiness: `None`, `False`, `0`, `''`, `[]` and `{}` are false. */
  predicate PyTruthy(v: Json) {
    match v
    case JNull => false
    case JBool(b) => b
    case JInt(i) => i != 0
    case JStr(s) => s != ""
    case JList(items) => items != []
    case JObject(ms) => ms != []
  }

  /** JavaScript truthiness: `null`, `false`, `0` and `''` are false, every
      array and object (even an empty one) is true. */
  predicate JsTruthy(v: Json) {
    match v
    case JNull => false
    case JBool(b) => b
    case JInt(i) => i != 0
    case JStr(s) => s != ""
    case JList(_) => true
    case JObject(_) => true
  }

  /** Python `d.get(key)`: the value of the member with that key. A decoded
      object never repeats a key (`UniqueKeys`): Python's and JavaScript's
      JSON decoders both keep the last duplicate, so on such objects taking
      the first member agrees with them (`GetUnique`). */
  function Get(ms: seq<Member>, key: string): (r: Option<Json>)
    ensures r.Some? <==> key in Keys(ms)
    ensures r.Some? ==> exists i :: 0 <= i < |ms| && ms[i].key == key && ms[i].value == r.value
  {
    if ms == [] then None
    else if ms[0].key == key then Some(ms[0].value)
    else Get(ms[1..], key)
  }

  /** Under unique keys the member found is the only one with that key. */
  lemma {:induction false} GetUnique(ms: seq<Member>, i: nat)
    requires UniqueKeys(ms) && i < |ms|
    ensures Get(ms, ms[i].key) == Some(ms[i].value)
  {
    if i > 0 {
      assert ms[0].key != ms[i].key;
      assert UniqueKeys(ms[1..]) by {
        forall j, k | 0 <= j < k < |ms[1..]| ensures ms[1..][j].key != ms[1..][k].key {
          assert ms[j + 1].key != ms[k + 1].key;
        }
      }
      GetUnique(ms[1..], i - 1);
    }
  }
}
