/**
 * The JSON values the page reads from `content.json`, and the JavaScript property reads
 * made on them: `v[key]`, `Object.keys(v)`, `typeof v === 'object'`, truthiness and
 * optional chaining (`a?.b`).
 */
module Json {
  import opened Wrappers
  import opened Decimal

  /**
   * A value as `JSON.parse` builds it. An object's members are listed in the order
   * `Object.keys` enumerates them. The datatype does not force the keys of an object to be
   * distinct; for the objects `JSON.parse` builds they are.
   */
  datatype Value =
    | JNull
    | JBool(b: bool)
    | JNumber(n: real)
    | JString(s: string)
    | JArray(items: seq<Value>)
    | JObject(members: seq<(string, Value)>)

  /** JavaScript truthiness: `null`, `false`, `0` and `""` are falsy; every array and object is truthy. */
  predicate Truthy(v: Value)
    ensures v.JNull? ==> !Truthy(v)
    ensures v.JString? ==> (Truthy(v) <==> v.s != [])
  {
    match v
    case JNull => false
    case JBool(b) => b
    case JNumber(n) => n != 0.0
    case JString(s) => s != []
    case JArray(_) => true
    case JObject(_) => true
  }

  /** The value of the first member named `key`, if any. */
  function Lookup(members: seq<(string, Value)>, key: string): (r: Option<Value>)
    ensures r.None? <==> forall i :: 0 <= i < |members| ==> members[i].0 != key
    ensures r.Some? ==> exists i :: 0 <= i < |members| && members[i] == (key, r.value)
  {
    if members == [] then None
    else if members[0].0 == key then Some(members[0].1)
    else Lookup(members[1..], key)
  }

  /**
   * The property read `v[key]`, with `None` for `undefined`: an object's own member; an
   * array's or a string's `length` and its elements at canonical index names. Reading a
   * property of a number, a boolean or `null` gives nothing here (for `null` the program
   * never gets that far).
   */
  function Get(v: Value, key: string): (r: Option<Value>)
    ensures v.JObject? ==> r == Lookup(v.members, key)
    ensures v.JArray? && key == "length" ==> r == Some(JNumber(|v.items| as real))
    ensures v.JArray? && r.Some? && key != "length" ==>
      exists i :: 0 <= i < |v.items| && key == NatToString(i) && r.value == v.items[i]
    ensures !v.JObject? && !v.JArray? && !v.JString? ==> r.None?
  {
    match v
    case JObject(ms) => Lookup(ms, key)
    case JArray(items) =>
      if key == "length" then Some(JNumber(|items| as real))
      else (match IndexOfName(key)
        case Some(i) =>
          IndexNameRoundTrip(key);
          if i < |items| then Some(items[i]) else None
        case None => None)
    case JString(s) =>
      if key == "length" then Some(JNumber(|s| as real))
      else (match IndexOfName(key)
        case Some(i) => if i < |s| then Some(JString([s[i]])) else None
        case None => None)
    case _ => None
  }

  /** `typeof v === 'object' && v !== null`: objects and arrays. */
  predicate IsObject(v: Value)
    ensures IsObject(v) ==> Truthy(v) && v != JNull
  {
    v.JObject? || v.JArray?
  }

  /** `Object.keys(v)`, each key paired with `v[key]`: an array's and a string's keys are their index names. */
  function Members(v: Value): (r: seq<(string, Value)>)
    ensures v.JObject? ==> r == v.members
    ensures v.JArray? ==> |r| == |v.items|
    ensures !v.JObject? && !v.JArray? && !v.JString? ==> r == []
    ensures !IsObject(v) ==> forall i :: 0 <= i < |r| ==> !IsObject(r[i].1)
  {
    match v
    case JObject(ms) => ms
    case JArray(items) => seq(|items|, i requires 0 <= i < |items| => (NatToString(i), items[i]))
    case JString(s) => seq(|s|, i requires 0 <= i < |s| => (NatToString(i), JString([s[i]])))
    case _ => []
  }

  /** No key occurs twice among the members, as in every object `JSON.parse` builds. */
  predicate DistinctKeys(members: seq<(string, Value)>) {
    forall i, j :: 0 <= i < j < |members| ==> members[i].0 != members[j].0
  }

  /** Each key `Object.keys` enumerates reads back, through `v[key]`, the value paired with it. */
  lemma GetMember(v: Value, i: nat)
    requires i < |Members(v)|
    requires v.JObject? ==> DistinctKeys(v.members)
    ensures Get(v, Members(v)[i].0) == Some(Members(v)[i].1)
  {
    var key := Members(v)[i].0;
    match v
    case JObject(ms) =>
      LookupDistinct(ms, i);
    case JArray(items) =>
      IndexOfNameIff(key, i);
      assert key != "length" by {
        assert IsDigit(key[0]);
      }
    case JString(s) =>
      IndexOfNameIff(key, i);
      assert key != "length" by {
        assert IsDigit(key[0]);
      }
  }

  lemma {:induction false} LookupDistinct(members: seq<(string, Value)>, i: nat)
    requires i < |members| && DistinctKeys(members)
    ensures Lookup(members, members[i].0) == Some(members[i].1)
  {
    if i > 0 {
      assert members[0].0 != members[i].0;
      LookupDistinct(members[1..], i - 1);
    }
  }

  /**
   * `contentData.level[level]`, the section of one level: nothing when `contentData.level` is
   * missing or `null` (the read throws a `TypeError`) or has no member `level`.
   */
  function Section(contentData: Value, level: string): (r: Option<Value>)
    ensures r.Some? ==> exists levels :: Get(contentData, "level") == Some(levels) && levels != JNull && Get(levels, level) == r
  {
    match Get(contentData, "level")
    case None => None
    case Some(levels) => if levels == JNull then None else Get(levels, level)
  }

  /** `v?.k1?.k2…`: each step reads the property unless the value so far is `undefined` or `null`. */
  function OptionalChain(v: Option<Value>, keys: seq<string>): (r: Option<Value>)
    ensures keys != [] && (v.None? || v == Some(JNull)) ==> r.None?
    ensures keys == [] ==> r == v
    decreases |keys|
  {
    if keys == [] then v
    else match v
      case None => None
      case Some(x) => if x == JNull then None else OptionalChain(Get(x, keys[0]), keys[1..])
  }
}
