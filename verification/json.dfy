/**
 * The decoded JSON values the pages receive from `response.json()`, and the few
 * operations of Python's built-in types that the pages apply to them.
 *
 * An object is kept as the list of its (key, value) members in document order,
 * so that the dict Python builds from it can be described exactly: its keys come
 * in first-occurrence order and, for a repeated key, the last value wins.
 */
module Json {

  import opened Wrappers

  datatype Value =
    | Null
    | Bool(b: bool)
    | Int(i: int)
    | Float(x: real)
    | Str(s: string)
    | List(items: seq<Value>)
    | Obj(members: seq<(string, Value)>)

  /** `isinstance(v, (int, float))`; a Python bool is an int. */
  predicate IsNumber(v: Value) {
    v.Bool? || v.Int? || v.Float?
  }

  /** The Python type name that appears in TypeError and AttributeError messages. */
  function TypeName(v: Value): string {
    match v
    case Null => "NoneType"
    case Bool(_) => "bool"
    case Int(_) => "int"
    case Float(_) => "float"
    case Str(_) => "str"
    case List(_) => "list"
    case Obj(_) => "dict"
  }

  /** `key in d` for the dict built from an object's members. */
  predicate HasKey(members: seq<(string, Value)>, key: string) {
    exists i :: 0 <= i < |members| && members[i].0 == key
  }

  /** `d.get(key)` / `d[key]`: the value of the LAST member carrying the key. */
  function Get(members: seq<(string, Value)>, key: string): (r: Option<Value>)
    ensures r.Some? <==> HasKey(members, key)
    ensures r.Some? ==> exists i :: 0 <= i < |members| && members[i] == (key, r.value)
                                    && forall j :: i < j < |members| ==> members[j].0 != key
  {
    if |members| == 0 then None
    else if members[|members| - 1].0 == key then Some(members[|members| - 1].1)
    else
      var r := Get(members[..|members| - 1], key);
      assert forall i :: 0 <= i < |members| - 1 ==> members[..|members| - 1][i] == members[i];
      r
  }

  /** The position of the first member carrying the key. */
  function FirstIndex(members: seq<(string, Value)>, key: string): (p: nat)
    requires HasKey(members, key)
    ensures p < |members| && members[p].0 == key
    ensures forall q :: 0 <= q < p ==> members[q].0 != key
  {
    if members[0].0 == key then 0
    else
      assert HasKey(members[1..], key) by {
        var i :| 0 <= i < |members| && members[i].0 == key;
        assert members[1..][i - 1].0 == key;
      }
      1 + FirstIndex(members[1..], key)
  }

  /** A key that occurs in a prefix first occurs at the same position in the whole. */
  lemma FirstIndexOfPrefix(members: seq<(string, Value)>, n: nat, key: string)
    requires n <= |members| && HasKey(members[..n], key)
    ensures HasKey(members, key)
    ensures FirstIndex(members, key) == FirstIndex(members[..n], key)
  {
    var p := FirstIndex(members[..n], key);
    assert members[p].0 == key;
  }

  /** `list(d.keys())`: each key once, in the order of its first occurrence
      (see KeysFollowFirstOccurrence). */
  function Keys(members: seq<(string, Value)>): (ks: seq<string>)
    ensures forall k :: k in ks <==> HasKey(members, k)
    ensures forall i, j :: 0 <= i < j < |ks| ==> ks[i] != ks[j]
    ensures |members| > 0 ==> |ks| > 0 && ks[0] == members[0].0
  {
    if |members| == 0 then []
    else
      var front := Keys(members[..|members| - 1]);
      assert forall i :: 0 <= i < |members| - 1 ==> members[..|members| - 1][i] == members[i];
      if members[|members| - 1].0 in front then front else front + [members[|members| - 1].0]
  }

  /** The keys come in the order in which each first occurs among the members. */
  lemma {:induction false} KeysFollowFirstOccurrence(members: seq<(string, Value)>)
    ensures forall i, j :: 0 <= i < j < |Keys(members)| ==>
              FirstIndex(members, Keys(members)[i]) < FirstIndex(members, Keys(members)[j])
  {
    if |members| > 0 {
      var n := |members| - 1;
      var front := Keys(members[..n]);
      KeysFollowFirstOccurrence(members[..n]);
      forall i | 0 <= i < |front|
        ensures FirstIndex(members, front[i]) == FirstIndex(members[..n], front[i]) < n
      {
        FirstIndexOfPrefix(members, n, front[i]);
      }
      if members[n].0 !in front {
        var k := members[n].0;
        assert FirstIndex(members, k) == n;
      }
    }
  }
}
