/** Python data as the modelled code receives it from `json.load`, a decoded
    HTTP body or a parsed TOML file: `None`, booleans, integers, strings, lists
    and dicts. A dict is the ordered sequence of its members (Python dicts keep
    insertion order); a decoded dict never repeats a key. */
module Data {
  import opened Wrappers
  import Text

  datatype Value =
    | VNone
    | VBool(b: bool)
    | VInt(i: int)
    | VStr(s: string)
    | VList(items: seq<Value>)
    | VDict(members: seq<Member>)

  datatype Member = Member(key: string, value: Value)

  predicate HasKey(members: seq<Member>, key: string) {
    exists i :: 0 <= i < |members| && members[i].key == key
  }

  predicate DistinctKeys(members: seq<Member>) {
    forall i, j :: 0 <= i < j < |members| ==> members[i].key != members[j].key
  }

  function Keys(members: seq<Member>): (ks: seq<string>)
    ensures |ks| == |members|
    ensures forall i :: 0 <= i < |members| ==> ks[i] == members[i].key
  {
    if members == [] then [] else [members[0].key] + Keys(members[1..])
  }

  lemma HasKeyTail(members: seq<Member>, key: string)
    requires members != []
    ensures HasKey(members, key) <==> members[0].key == key || HasKey(members[1..], key)
  {
    if HasKey(members, key) && members[0].key != key {
      var i :| 0 <= i < |members| && members[i].key == key;
      assert members[1..][i - 1].key == key;
    }
    if HasKey(members[1..], key) {
      var i :| 0 <= i < |members[1..]| && members[1..][i].key == key;
      assert members[i + 1].key == key;
    }
  }

  /** `d.get(key)`: the member's value, or `None` (the Python default) when absent. */
  function Get(members: seq<Member>, key: string): (r: Option<Value>)
    ensures r.Some? <==> HasKey(members, key)
    ensures r.Some? ==> Member(key, r.value) in members
  {
    if members == [] then None
    else if members[0].key == key then Some(members[0].value)
    else
      var r := Get(members[1..], key);
      HasKeyTail(members, key);
      r
  }

  /** With distinct keys, `d[k]` is the value stored under `k`. */
  lemma {:induction false} GetDistinct(members: seq<Member>, i: nat)
    requires DistinctKeys(members)
    requires i < |members|
    ensures Get(members, members[i].key) == Some(members[i].value)
  {
    if i > 0 {
      GetDistinct(members[1..], i - 1);
    }
  }

  /** `d.get(key, default)`. */
  function GetOr(members: seq<Member>, key: string, default: Value): Value {
    Get(members, key).GetOr(default)
  }

  /** `d[key] = value`: overwrites in place when present, appends otherwise. */
  function Put(members: seq<Member>, key: string, value: Value): (r: seq<Member>)
    ensures HasKey(members, key) ==> |r| == |members|
    ensures !HasKey(members, key) ==> r == members + [Member(key, value)]
  {
    if members == [] then [Member(key, value)]
    else if members[0].key == key then [Member(key, value)] + members[1..]
    else
      var rest := Put(members[1..], key, value);
      HasKeyTail(members, key);
      [members[0]] + rest
  }

  /** `d[k] = v` keeps every key in its place and every other member as it
      was. */
  lemma {:induction false} PutKeepsOthers(members: seq<Member>, key: string, value: Value)
    ensures var r := Put(members, key, value);
      && |r| >= |members|
      && (forall i :: 0 <= i < |members| ==> r[i].key == members[i].key)
      && (forall i :: 0 <= i < |members| && members[i].key != key ==> r[i] == members[i])
  {
    if members != [] {
      var r := Put(members, key, value);
      if members[0].key != key {
        var rest := Put(members[1..], key, value);
        PutKeepsOthers(members[1..], key, value);
        assert r == [members[0]] + rest;
        forall i | 0 < i < |members|
          ensures r[i].key == members[i].key && (members[i].key != key ==> r[i] == members[i])
        {
          assert r[i] == rest[i - 1] && members[i] == members[1..][i - 1];
        }
      }
    }
  }

  /** `d[k] = v` keeps a dict a dict: keys stay distinct. */
  lemma {:induction false} PutDistinct(members: seq<Member>, key: string, value: Value)
    requires DistinctKeys(members)
    ensures DistinctKeys(Put(members, key, value))
  {
    var r := Put(members, key, value);
    PutKeepsOthers(members, key, value);
    if !HasKey(members, key) {
      forall i, j | 0 <= i < j < |r| ensures r[i].key != r[j].key {
        if j == |members| {
          assert r[i].key == members[i].key;
        }
      }
    }
  }

  /** After `d[k] = v`, reading `k` gives `v`; other keys read as before. */
  lemma {:induction false} GetPut(members: seq<Member>, key: string, value: Value, other: string)
    ensures Get(Put(members, key, value), key) == Some(value)
    ensures other != key ==> Get(Put(members, key, value), other) == Get(members, other)
  {
    if members != [] {
      var r := Put(members, key, value);
      if members[0].key == key {
        assert r[1..] == members[1..];
      } else {
        GetPut(members[1..], key, value, other);
        assert r[1..] == Put(members[1..], key, value);
      }
    }
  }

  /** `d[k] = v` adds `k` to the keys and no other key. */
  lemma HasKeyPut(members: seq<Member>, key: string, value: Value, other: string)
    ensures HasKey(Put(members, key, value), other) <==> other == key || HasKey(members, other)
  {
    GetPut(members, key, value, other);
  }

  /** Every member after `d[k] = v` was there before, or is the new one. */
  lemma {:induction false} PutMembers(members: seq<Member>, key: string, value: Value)
    ensures forall m :: m in Put(members, key, value) ==> m in members || m == Member(key, value)
  {
    if members != [] && members[0].key != key {
      PutMembers(members[1..], key, value);
    }
  }

  /** Python truthiness (`if v:`). */
  predicate Truthy(v: Value) {
    match v
    case VNone => false
    case VBool(b) => b
    case VInt(i) => i != 0
    case VStr(s) => s != []
    case VList(items) => items != []
    case VDict(members) => members != []
  }

  /** Python's `str(v)`. Strings inside containers are shown between single
      quotes without escaping (Python escapes quotes and backslashes). */
  function PyStr(v: Value): string
  {
    match v
    case VStr(s) => s
    case _ => Repr(v)
  }

  function Repr(v: Value): string
  {
    match v
    case VNone => "None"
    case VBool(b) => if b then "True" else "False"
    case VInt(i) => Text.IntToString(i)
    case VStr(s) => "'" + s + "'"
    case VList(items) =>
      "[" + Text.Join(", ", seq(|items|, k requires 0 <= k < |items| => Repr(items[k]))) + "]"
    case VDict(members) =>
      "{" + Text.Join(", ", seq(|members|, k requires 0 <= k < |members| =>
        assert members[k] in members; "'" + members[k].key + "': " + Repr(members[k].value))) + "}"
  }

  /** Python's `x in container` where `x` is a string. The error case is the
      `TypeError` that `in` raises on a number, a boolean or `None`. */
  function PyIn(x: string, container: Value): (r: Result<bool, string>)
    ensures container.VDict? ==> r == Ok(HasKey(container.members, x))
    ensures container.VList? ==> r == Ok(VStr(x) in container.items)
    ensures r.Err? <==> container.VNone? || container.VBool? || container.VInt?
  {
    match container
    case VDict(members) => Ok(HasKey(members, x))
    case VList(items) => Ok(VStr(x) in items)
    case VStr(s) => Ok(Text.Contains(s, x))
    case _ => Err("TypeError")
  }
}
