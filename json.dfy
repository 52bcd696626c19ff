/**
 * The JSON values that `response.json()` and the tool-call argument bag can
 * hold.  Numbers are integers in this model.  An object keeps its members in
 * the order they were written; when a key is written twice the later member
 * wins, as with JSON.parse.  A key that is not there reads as `undefined`,
 * which is `None` here.
 */
module Json {
  import opened Wrappers

  datatype Json =
    | JNull
    | JBool(b: bool)
    | JNum(n: int)
    | JStr(s: string)
    | JArr(items: seq<Json>)
    | JObj(members: seq<Member>)

  datatype Member = Member(key: string, value: Json)

  /** Property access `obj[k]`: the value of the last member named `k`, or undefined. */
  function Lookup(ms: seq<Member>, k: string): (r: Option<Json>)
    ensures r.Some? <==> exists i :: 0 <= i < |ms| && ms[i].key == k
    ensures r.Some? ==>
      exists i :: 0 <= i < |ms| && ms[i].key == k && r.value == ms[i].value && forall j | i < j < |ms| :: ms[j].key != k
  {
    if |ms| == 0 then None
    else if ms[|ms| - 1].key == k then Some(ms[|ms| - 1].value)
    else
      var r := Lookup(ms[..|ms| - 1], k);
      assert forall i :: 0 <= i < |ms| - 1 ==> ms[..|ms| - 1][i] == ms[i];
      r
  }

  /** Property access on any value: undefined unless the value is an object. */
  function Get(v: Option<Json>, k: string): Option<Json>
  {
    if v.Some? && v.value.JObj? then Lookup(v.value.members, k) else None
  }

  /** `obj[k] = v`: the object with one more member, which later lookups of `k` see. */
  function Set(ms: seq<Member>, k: string, v: Json): seq<Member>
  {
    ms + [Member(k, v)]
  }

  /** `delete obj[k]`: the object without any member named `k`. */
  function Remove(ms: seq<Member>, k: string): (r: seq<Member>)
    ensures forall m :: m in r <==> m in ms && m.key != k
  {
    if |ms| == 0 then []
    else if ms[0].key == k then Remove(ms[1..], k)
    else [ms[0]] + Remove(ms[1..], k)
  }

  lemma LookupSet(ms: seq<Member>, k: string, v: Json, k': string)
    ensures Lookup(Set(ms, k, v), k') == if k' == k then Some(v) else Lookup(ms, k')
  {
    var s := Set(ms, k, v);
    assert s[..|s| - 1] == ms;
  }

  lemma {:induction false} LookupRemove(ms: seq<Member>, k: string, k': string)
    ensures Lookup(Remove(ms, k), k') == if k' == k then None else Lookup(ms, k')
    decreases |ms|
  {
    if |ms| == 0 {
    } else {
      var init := ms[..|ms| - 1];
      var last := ms[|ms| - 1];
      LookupRemove(init, k, k');
      RemoveAppend(init, [last], k);
      assert ms == init + [last];
      if last.key == k {
        assert Remove([last], k) == [];
        assert Remove(init + [last], k) == Remove(init, k);
      } else {
        assert Remove([last], k) == [last];
        var r := Remove(init, k) + [last];
        assert r[..|r| - 1] == Remove(init, k);
      }
    }
  }

  lemma {:induction false} RemoveAppend(a: seq<Member>, b: seq<Member>, k: string)
    ensures Remove(a + b, k) == Remove(a, k) + Remove(b, k)
    decreases |a|
  {
    if |a| == 0 {
      assert a + b == b;
    } else {
      assert (a + b)[1..] == a[1..] + b;
      RemoveAppend(a[1..], b, k);
    }
  }

  /** One change to an object: `obj[k] = v` or `delete obj[k]`. */
  datatype Edit = Put(key: string, value: Json) | Delete(key: string)

  function Apply(ms: seq<Member>, e: Edit): seq<Member>
  {
    match e
    case Put(k, v) => Set(ms, k, v)
    case Delete(k) => Remove(ms, k)
  }

  /** What reading key `k` gives after the edit: the new value, undefined, or what it was. */
  function After(e: Edit, ms: seq<Member>, k: string): Option<Json>
  {
    if k != e.key then Lookup(ms, k) else if e.Put? then Some(e.value) else None
  }

  lemma LookupApply(ms: seq<Member>, e: Edit, k: string)
    ensures Lookup(Apply(ms, e), k) == After(e, ms, k)
  {
    match e
    case Put(k0, v) => LookupSet(ms, k0, v, k);
    case Delete(k0) => LookupRemove(ms, k0, k);
  }
}
