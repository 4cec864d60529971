/**
 * The decoded JSON a datagram carries (what `json.loads` returns) and the two
 * ways the responder looks inside it: Python indexing along a key path and
 * Python truthiness.
 */
module JsonValues {
  import opened Wrappers
  import opened Text

  datatype Json =
    | JNull
    | JBool(b: bool)
    | JInt(i: int)
    | JReal(r: real)
    | JStr(s: string)
    | JArray(items: seq<Json>)
    | JObject(members: map<string, Json>)

  /** `bool(j)`: false for None, False, zero and the empty string, list and dict. */
  predicate Truthy(j: Json) {
    match j
    case JNull => false
    case JBool(b) => b
    case JInt(i) => i != 0
    case JReal(r) => r != 0.0
    case JStr(s) => s != ""
    case JArray(items) => items != []
    case JObject(members) => members != map[]
  }

  /** Exactly seven values are falsy: None, False, 0, 0.0, the empty string, `[]` and `{}`. */
  lemma FalsyValues(j: Json)
    ensures !Truthy(j) <==>
      j in {JNull, JBool(false), JInt(0), JReal(0.0), JStr(""), JArray([]), JObject(map[])}
  {
  }

  /** Where `j[k0][k1]...` ends up. */
  datatype Descent =
    | Reached(value: Json)     // every subscript succeeded
    | KeyMissing(key: string)  // a dict did not hold this key (KeyError)
    | NotSubscriptable         // a string key was applied to a non-dict (TypeError)

  /** Reference definition of Python's `j[path[0]][path[1]]...`. */
  function Descend(j: Json, path: seq<string>): Descent
    decreases |path|
  {
    if path == [] then Reached(j)
    else
      match j
      case JObject(m) => if path[0] in m then Descend(m[path[0]], path[1..]) else KeyMissing(path[0])
      case _ => NotSubscriptable
  }

  /** Subscript number `i` of `path` succeeds: the value reached so far is a dict holding `path[i]`. */
  predicate StepSucceeds(j: Json, path: seq<string>, i: nat)
    requires i < |path|
  {
    var d := Descend(j, path[..i]);
    d.Reached? && d.value.JObject? && path[i] in d.value.members
  }

  /** Subscript number `i` of `path` raises KeyError: the value reached is a dict without `path[i]`. */
  predicate StepMisses(j: Json, path: seq<string>, i: nat)
    requires i < |path|
  {
    var d := Descend(j, path[..i]);
    d.Reached? && d.value.JObject? && path[i] !in d.value.members
  }

  /** Extending a path by one key applies one more subscript to what the shorter path reached. */
  lemma {:induction false} DescendExtend(j: Json, path: seq<string>, k: string)
    ensures Descend(j, path + [k]) ==
      match Descend(j, path)
      case Reached(JObject(m)) => if k in m then Reached(m[k]) else KeyMissing(k)
      case Reached(_) => NotSubscriptable
      case other => other
    decreases |path|
  {
    if path == [] {
      assert [] + [k] == [k];
    } else {
      assert (path + [k])[0] == path[0];
      assert (path + [k])[1..] == path[1..] + [k];
      match j
      case JObject(m) =>
        if path[0] in m {
          DescendExtend(m[path[0]], path[1..], k);
        }
      case _ =>
    }
  }

  /** The whole path is reached exactly when every subscript along it succeeds. */
  lemma {:induction false} ReachedIffEveryStep(j: Json, path: seq<string>)
    ensures Descend(j, path).Reached? <==> forall i :: 0 <= i < |path| ==> StepSucceeds(j, path, i)
    decreases |path|
  {
    if path != [] {
      var n := |path| - 1;
      var front := path[..n];
      assert path == front + [path[n]];
      ReachedIffEveryStep(j, front);
      DescendExtend(j, front, path[n]);
      forall i | 0 <= i < n
        ensures StepSucceeds(j, path, i) <==> StepSucceeds(j, front, i)
      {
        assert path[..i] == front[..i];
      }
      assert path[..n] == front;
      assert StepSucceeds(j, path, n) <==>
        (Descend(j, front).Reached? && Descend(j, front).value.JObject? && path[n] in Descend(j, front).value.members);
    }
  }

  /** Subscript `i` is the first to fail, and it fails with KeyError on `k`. */
  predicate FirstMissAt(j: Json, path: seq<string>, k: string, i: nat)
  {
    i < |path| && StepMisses(j, path, i) && path[i] == k &&
    forall l :: 0 <= l < i ==> StepSucceeds(j, path, l)
  }

  /**
   * The walk stops with KeyError on `k` exactly when some subscript misses `k`
   * and every subscript before it succeeded.
   */
  lemma {:induction false} KeyMissingIffFirstMiss(j: Json, path: seq<string>, k: string)
    ensures Descend(j, path) == KeyMissing(k) <==> exists i: nat :: FirstMissAt(j, path, k, i)
    decreases |path|
  {
    if path != [] {
      var n := |path| - 1;
      var front := path[..n];
      assert path == front + [path[n]];
      KeyMissingIffFirstMiss(j, front, k);
      ReachedIffEveryStep(j, front);
      DescendExtend(j, front, path[n]);
      forall i | 0 <= i < n
        ensures StepSucceeds(j, path, i) <==> StepSucceeds(j, front, i)
        ensures StepMisses(j, path, i) <==> StepMisses(j, front, i)
      {
        assert path[..i] == front[..i];
      }
      assert path[..n] == front;
      if Descend(j, path) == KeyMissing(k) {
        if Descend(j, front) == KeyMissing(k) {
          var i: nat :| FirstMissAt(j, front, k, i);
          assert FirstMissAt(j, path, k, i);
        } else {
          assert FirstMissAt(j, path, k, n);
        }
      }
      if exists i: nat :: FirstMissAt(j, path, k, i) {
        var i: nat :| FirstMissAt(j, path, k, i);
        if i < n {
          assert FirstMissAt(j, front, k, i);
        } else {
          assert forall l :: 0 <= l < n ==> StepSucceeds(j, front, l);
          assert Descend(j, front).Reached?;
        }
      }
    }
  }

  /**
   * The value at a slash-separated path, or `JNull` (None) when the path
   * cannot be followed.
   */
  function SafeKey(j: Json, path: string): Json {
    match Descend(j, Split(path, '/'))
    case Reached(v) => v
    case _ => JNull
  }
}
