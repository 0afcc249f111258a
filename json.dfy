/**
 * A JSON document as Python's json module hands it to the plugin, with the
 * handful of Python operations the plugin applies to such values: truth
 * testing, `dict.get`, `len`, iteration and the `in` operator.
 */
module Json {
  import opened Wrappers

  /**
   * A decoded JSON value. Numbers are kept as exact reals (the plugin never
   * computes with them); an object is its members in insertion order, as a
   * Python dict iterates them.
   */
  datatype Json =
    | JNull
    | JBool(b: bool)
    | JNum(n: real)
    | JStr(s: string)
    | JArr(items: seq<Json>)
    | JObj(members: seq<(string, Json)>)

  /** Python's truth value of a decoded value (`if not x:`). */
  predicate Truthy(j: Json)
    ensures j.JNull? ==> !Truthy(j)
    ensures Elements(j).Some? ==> (Truthy(j) <==> Elements(j).value != [])
  {
    match j
    case JNull => false
    case JBool(b) => b
    case JNum(n) => n != 0.0
    case JStr(s) => s != []
    case JArr(xs) => xs != []
    case JObj(ms) => ms != []
  }

  /** The keys of an object, in order. */
  function Keys(ms: seq<(string, Json)>): seq<string> {
    seq(|ms|, i requires 0 <= i < |ms| => ms[i].0)
  }

  /** `d.get(key)` on a dict: the value stored under `key`, or None when the key is absent. */
  function Member(ms: seq<(string, Json)>, key: string): (r: Option<Json>)
    ensures r.Some? <==> key in Keys(ms)
    ensures r.Some? ==> (key, r.value) in ms
  {
    if ms == [] then None
    else
      assert Keys(ms) == [ms[0].0] + Keys(ms[1..]);
      if ms[0].0 == key then Some(ms[0].1) else Member(ms[1..], key)
  }

  /**
   * What `for x in j` (and `*j` in a call) produces: the items of a list,
   * the one-character strings of a string, the keys of a dict. Null, numbers
   * and booleans are not iterable (Python raises TypeError): None.
   */
  function Elements(j: Json): (r: Option<seq<Json>>)
    ensures r.None? <==> j.JNull? || j.JBool? || j.JNum?
    ensures j.JArr? ==> r == Some(j.items)
    ensures j.JStr? ==> r.Some? && |r.value| == |j.s|
                        && forall i :: 0 <= i < |j.s| ==> r.value[i] == JStr([j.s[i]])
    ensures j.JObj? ==> r.Some? && |r.value| == |j.members|
                        && forall i :: 0 <= i < |j.members| ==> r.value[i] == JStr(Keys(j.members)[i])
  {
    match j
    case JArr(xs) => Some(xs)
    case JStr(s) => Some(seq(|s|, i requires 0 <= i < |s| => JStr([s[i]])))
    case JObj(ms) => Some(seq(|ms|, i requires 0 <= i < |ms| => JStr(ms[i].0)))
    case _ => None
  }

  /** `len(j)`; None where Python raises TypeError. */
  function Len(j: Json): (n: Option<nat>)
    ensures n.Some? <==> Elements(j).Some?
    ensures n.Some? ==> n.value == |Elements(j).value|
    ensures n == Some(0) <==> !Truthy(j) && Elements(j).Some?
  {
    match j
    case JArr(xs) => Some(|xs|)
    case JStr(s) => Some(|s|)
    case JObj(ms) => Some(|ms|)
    case _ => None
  }

  /** `t` occurs in `s` starting at index `i`. */
  ghost predicate OccursAt(s: string, t: string, i: int) {
    0 <= i && i + |t| <= |s| && s[i..i + |t|] == t
  }

  /** `t` occurs in `s` as a contiguous piece. */
  ghost predicate Occurs(s: string, t: string) {
    exists i :: OccursAt(s, t, i)
  }

  /** Python's substring test `t in s`, scanning from the left. */
  function Contains(s: string, t: string): (b: bool)
    ensures b <==> Occurs(s, t)
    decreases |s|
  {
    if |s| < |t| then false
    else if s[..|t|] == t then
      assert OccursAt(s, t, 0);
      true
    else
      OccursStep(s, t);
      Contains(s[1..], t)
  }

  /** When `t` is not a prefix of `s`, it occurs in `s` exactly when it occurs in the tail of `s`. */
  lemma OccursStep(s: string, t: string)
    requires |s| >= |t| && s[..|t|] != t
    ensures Occurs(s, t) <==> Occurs(s[1..], t)
  {
    if Occurs(s, t) {
      var i :| OccursAt(s, t, i);
      assert i != 0;
      assert s[1..][i - 1..i - 1 + |t|] == s[i..i + |t|];
      assert OccursAt(s[1..], t, i - 1);
    }
    if Occurs(s[1..], t) {
      var i :| OccursAt(s[1..], t, i);
      assert s[i + 1..i + 1 + |t|] == s[1..][i..i + |t|];
      assert OccursAt(s, t, i + 1);
    }
  }

  /**
   * Python's `needle in hay` for a string needle: a substring test on a
   * string, membership among the items of a list or the keys of a dict; on
   * null, a number or a boolean Python raises TypeError (None).
   */
  function In(needle: string, hay: Json): (r: Option<bool>)
    ensures r.Some? <==> Elements(hay).Some?
    ensures hay.JStr? ==> r == Some(Occurs(hay.s, needle))
    ensures !hay.JStr? && r.Some? ==> r.value == (JStr(needle) in Elements(hay).value)
  {
    match hay
    case JStr(s) => Some(Contains(s, needle))
    case JArr(xs) => Some(JStr(needle) in xs)
    case JObj(ms) =>
      var ks := Elements(hay).value;
      assert JStr(needle) in ks ==> needle in Keys(ms) by {
        if JStr(needle) in ks {
          var i :| 0 <= i < |ks| && ks[i] == JStr(needle);
          assert Keys(ms)[i] == needle;
        }
      }
      assert needle in Keys(ms) ==> JStr(needle) in ks by {
        if needle in Keys(ms) {
          var i :| 0 <= i < |ms| && Keys(ms)[i] == needle;
          assert ks[i] == JStr(needle);
        }
      }
      Some(needle in Keys(ms))
    case _ => None
  }
}
