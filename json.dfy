/**
 * Python values as the orchestration layer handles them: the results of
 * `json.loads`, request bodies, records, and the dicts the code builds.
 *
 * A Python dict keeps insertion order, and several operations of the system
 * depend on that order (stable sorts over `items()`, "first value seen"), so a
 * dict is an ordered list of members.  Lookup finds the last member with the
 * key, and assignment replaces that member or appends a new one; for a dict
 * without repeated keys (every dict Python builds) this is exactly Python's
 * behaviour, and for a parsed text with a repeated key it is `json.loads`'s
 * "last value wins".
 */
module Json {

  datatype Option<T> = None | Some(value: T)

  datatype Json =
    | JNull                                   // None, and JSON null
    | JBool(b: bool)
    | JInt(i: int)
    | JFloat(r: real)                         // a float, as an exact real
    | JStr(s: string)
    | JArr(items: seq<Json>)                  // a list
    | JObj(members: seq<(string, Json)>)      // a dict with string keys

  type Dict = seq<(string, Json)>

  /** Python truthiness of a value: `if v:`. */
  predicate Truthy(v: Json) {
    match v
    case JNull => false
    case JBool(b) => b
    case JInt(i) => i != 0
    case JFloat(r) => r != 0.0
    case JStr(s) => s != ""
    case JArr(xs) => xs != []
    case JObj(ms) => ms != []
  }

  function Keys(d: Dict): set<string> {
    set i | 0 <= i < |d| :: d[i].0
  }

  /** `d[k]` when `k in d`, `None` otherwise. */
  function Lookup(d: Dict, k: string): Option<Json>
    decreases |d|
  {
    if d == [] then None
    else if d[|d| - 1].0 == k then Some(d[|d| - 1].1)
    else Lookup(d[..|d| - 1], k)
  }

  /** `d.get(k, default)` */
  function Get(d: Dict, k: string, default: Json): Json {
    match Lookup(d, k)
    case Some(v) => v
    case None => default
  }

  /** `d[k] = v`: an existing key keeps its place, a new key goes last. */
  function Set(d: Dict, k: string, v: Json): Dict
    decreases |d|
  {
    if d == [] then [(k, v)]
    else if d[|d| - 1].0 == k then d[..|d| - 1] + [(k, v)]
    else Set(d[..|d| - 1], k, v) + [d[|d| - 1]]
  }

  /** `d.pop(k)`, discarding the value. */
  function Remove(d: Dict, k: string): Dict
    decreases |d|
  {
    if d == [] then []
    else if d[|d| - 1].0 == k then Remove(d[..|d| - 1], k)
    else Remove(d[..|d| - 1], k) + [d[|d| - 1]]
  }

  /** `{**d, **e}`, which is also `d.update(e)`: the members of `e` are assigned in order. */
  function Update(d: Dict, e: Dict): Dict
    decreases |e|
  {
    if e == [] then d
    else Set(Update(d, e[..|e| - 1]), e[|e| - 1].0, e[|e| - 1].1)
  }

  /** A dict literal built member by member, as `{k1: v1, k2: v2, ...}` is. */
  function FromMembers(ms: Dict): Dict {
    Update([], ms)
  }

  /** No key occurs twice. */
  predicate DistinctKeys(d: Dict) {
    forall i, j :: 0 <= i < j < |d| ==> d[i].0 != d[j].0
  }

  /** A value `json.loads` can produce: no object repeats a key. */
  predicate WellFormed(v: Json) {
    match v
    case JArr(xs) => forall x | x in xs :: WellFormed(x)
    case JObj(ms) => DistinctKeys(ms) && forall m | m in ms :: WellFormed(m.1)
    case _ => true
  }

  /** Python's `==` on two dicts: same keys, same values, order ignored. */
  predicate SameDict(a: Dict, b: Dict) {
    Keys(a) == Keys(b) && forall k :: k in Keys(a) ==> Lookup(a, k) == Lookup(b, k)
  }

  lemma {:induction false} LookupKeys(d: Dict, k: string)
    ensures Lookup(d, k).Some? <==> k in Keys(d)
    decreases |d|
  {
    if d != [] {
      var p := d[..|d| - 1];
      LookupKeys(p, k);
      assert Keys(d) == Keys(p) + {d[|d| - 1].0} by {
        forall x | x in Keys(d) ensures x in Keys(p) + {d[|d| - 1].0} {
          var i :| 0 <= i < |d| && d[i].0 == x;
          if i < |d| - 1 { assert p[i] == d[i]; }
        }
        forall x | x in Keys(p) + {d[|d| - 1].0} ensures x in Keys(d) {
          if x in Keys(p) {
            var i :| 0 <= i < |p| && p[i].0 == x;
            assert d[i] == p[i];
          }
        }
      }
    }
  }

  /** Without repeated keys, every member is what its key looks up. */
  lemma {:induction false} LookupDistinct(d: Dict, i: nat)
    requires DistinctKeys(d) && i < |d|
    ensures Lookup(d, d[i].0) == Some(d[i].1)
    decreases |d|
  {
    if i < |d| - 1 {
      var p := d[..|d| - 1];
      assert DistinctKeys(p);
      assert p[i] == d[i];
      LookupDistinct(p, i);
    }
  }

  lemma {:induction false} LookupMember(d: Dict, k: string)
    requires Lookup(d, k).Some?
    ensures (k, Lookup(d, k).value) in d
    decreases |d|
  {
    if d[|d| - 1].0 != k {
      LookupMember(d[..|d| - 1], k);
    }
  }

  lemma {:induction false} LookupSet(d: Dict, k: string, v: Json, j: string)
    ensures Lookup(Set(d, k, v), j) == if j == k then Some(v) else Lookup(d, j)
    decreases |d|
  {
    if d != [] {
      var p := d[..|d| - 1];
      if d[|d| - 1].0 == k {
        assert (p + [(k, v)])[..|p|] == p;
      } else {
        LookupSet(p, k, v, j);
        assert (Set(p, k, v) + [d[|d| - 1]])[..|Set(p, k, v)|] == Set(p, k, v);
      }
    }
  }

  /** Setting one key leaves every other key as it was. */
  lemma {:induction false} SetKeepsOthers(d: Dict, k: string, v: Json)
    ensures forall j :: j != k ==> Lookup(Set(d, k, v), j) == Lookup(d, j)
  {
    forall j | j != k ensures Lookup(Set(d, k, v), j) == Lookup(d, j) {
      LookupSet(d, k, v, j);
    }
  }

  lemma {:induction false} KeysSet(d: Dict, k: string, v: Json)
    ensures Keys(Set(d, k, v)) == Keys(d) + {k}
  {
    forall j ensures j in Keys(Set(d, k, v)) <==> j in Keys(d) + {k} {
      LookupSet(d, k, v, j);
      LookupKeys(Set(d, k, v), j);
      LookupKeys(d, j);
    }
  }

  lemma {:induction false} LookupRemove(d: Dict, k: string, j: string)
    ensures Lookup(Remove(d, k), j) == if j == k then None else Lookup(d, j)
    decreases |d|
  {
    if d != [] {
      var p := d[..|d| - 1];
      LookupRemove(p, k, j);
      if d[|d| - 1].0 != k {
        assert (Remove(p, k) + [d[|d| - 1]])[..|Remove(p, k)|] == Remove(p, k);
      }
    }
  }

  lemma {:induction false} KeysRemove(d: Dict, k: string)
    ensures Keys(Remove(d, k)) == Keys(d) - {k}
  {
    forall j ensures j in Keys(Remove(d, k)) <==> j in Keys(d) - {k} {
      LookupRemove(d, k, j);
      LookupKeys(Remove(d, k), j);
      LookupKeys(d, j);
    }
  }

  lemma {:induction false} LookupUpdate(d: Dict, e: Dict, j: string)
    ensures Lookup(Update(d, e), j) == if Lookup(e, j).Some? then Lookup(e, j) else Lookup(d, j)
    decreases |e|
  {
    if e != [] {
      var p := e[..|e| - 1];
      LookupUpdate(d, p, j);
      LookupSet(Update(d, p), e[|e| - 1].0, e[|e| - 1].1, j);
    }
  }

  lemma {:induction false} KeysUpdate(d: Dict, e: Dict)
    ensures Keys(Update(d, e)) == Keys(d) + Keys(e)
  {
    forall j ensures j in Keys(Update(d, e)) <==> j in Keys(d) + Keys(e) {
      LookupUpdate(d, e, j);
      LookupKeys(Update(d, e), j);
      LookupKeys(d, j);
      LookupKeys(e, j);
    }
  }

  /** Assigning every member of a dict back into it changes nothing Python can see. */
  lemma {:induction false} UpdateSelf(d: Dict)
    ensures SameDict(Update(d, d), d)
  {
    KeysUpdate(d, d);
    forall k | k in Keys(d) ensures Lookup(Update(d, d), k) == Lookup(d, k) {
      LookupUpdate(d, d, k);
    }
  }
}
