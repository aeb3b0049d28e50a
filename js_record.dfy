/** A JavaScript object used as a dictionary (`Record<string, V>`): an
    ordered list of properties. Assigning `o[k] = v` to a key the object
    already has replaces the value in place; a new key is added last. This is
    the order in which `JSON.stringify` and the spread operator visit keys. */
module JsRecord {
  import opened Wrappers

  type Rec<V> = seq<(string, V)>

  predicate NoDuplicates<T(==)>(s: seq<T>) {
    forall i, j :: 0 <= i < j < |s| ==> s[i] != s[j]
  }

  /** `Object.keys(o)`. */
  function Keys<V>(o: Rec<V>): seq<string> {
    if o == [] then [] else [o[0].0] + Keys(o[1..])
  }

  /** `o[k]`, `None` standing for `undefined`. */
  function Get<V>(o: Rec<V>, k: string): Option<V> {
    if o == [] then None else if o[0].0 == k then Some(o[0].1) else Get(o[1..], k)
  }

  lemma {:induction false} GetIffKey<V>(o: Rec<V>, k: string)
    ensures Get(o, k).Some? <==> k in Keys(o)
  {
    if o != [] {
      GetIffKey(o[1..], k);
    }
  }

  /** `o[k] = v`. */
  function Assign<V>(o: Rec<V>, k: string, v: V): (r: Rec<V>)
    ensures Get(r, k) == Some(v)
    ensures forall k' :: k' != k ==> Get(r, k') == Get(o, k')
  {
    if o == [] then [(k, v)]
    else if o[0].0 == k then [(k, v)] + o[1..]
    else
      var r := [o[0]] + Assign(o[1..], k, v);
      assert r[1..] == Assign(o[1..], k, v);
      r
  }

  /** A key the object has keeps its place; a new key is added last. */
  lemma {:induction false} AssignKeys<V>(o: Rec<V>, k: string, v: V)
    ensures Keys(Assign(o, k, v)) == if k in Keys(o) then Keys(o) else Keys(o) + [k]
  {
    if o != [] && o[0].0 != k {
      AssignKeys(o[1..], k, v);
      assert Assign(o, k, v)[1..] == Assign(o[1..], k, v);
    }
  }

  /** Assigning a key twice leaves only the second value, in the key's place. */
  lemma {:induction false} AssignTwice<V>(o: Rec<V>, k: string, a: V, b: V)
    ensures Assign(Assign(o, k, a), k, b) == Assign(o, k, b)
  {
    if o != [] && o[0].0 != k {
      AssignTwice(o[1..], k, a, b);
      assert Assign(o, k, a)[1..] == Assign(o[1..], k, a);
    }
  }

  /** Re-assigning a key the object already has commutes with assigning
      another key: neither assignment moves the first key. */
  lemma {:induction false} AssignExistingCommutes<V>(o: Rec<V>, k1: string, k2: string, x: V, y: V)
    requires k1 != k2 && k1 in Keys(o)
    ensures Assign(Assign(o, k2, x), k1, y) == Assign(Assign(o, k1, y), k2, x)
  {
    assert o != [];
    if o[0].0 != k1 && o[0].0 != k2 {
      AssignExistingCommutes(o[1..], k1, k2, x, y);
      assert Assign(o, k2, x)[1..] == Assign(o[1..], k2, x);
      assert Assign(o, k1, y)[1..] == Assign(o[1..], k1, y);
    } else if o[0].0 == k2 {
      assert Assign(o, k1, y)[1..] == Assign(o[1..], k1, y);
    } else {
      assert Assign(o, k2, x)[1..] == Assign(o[1..], k2, x);
    }
  }

  /** Assignment never reorders or drops the keys an object already has. */
  lemma AssignKeepsKeyOrder<V>(o: Rec<V>, k: string, v: V)
    ensures |Keys(o)| <= |Keys(Assign(o, k, v))| && Keys(Assign(o, k, v))[..|Keys(o)|] == Keys(o)
  {
    var r := Assign(o, k, v);
    AssignKeys(o, k, v);
    if k !in Keys(o) {
      assert Keys(r) == Keys(o) + [k];
    }
  }

  /** `key(x)` for every item, in order. */
  function KeysOf<T>(items: seq<T>, key: T -> string): seq<string> {
    seq(|items|, i requires 0 <= i < |items| => key(items[i]))
  }

  /** `for (const x of items) o[key(x)] = val(x)`. */
  function AssignEach<T, V>(o: Rec<V>, items: seq<T>, key: T -> string, val: T -> V): Rec<V>
    decreases |items|
  {
    if items == [] then o
    else
      var n := |items| - 1;
      Assign(AssignEach(o, items[..n], key, val), key(items[n]), val(items[n]))
  }

  /** Storing one more item stores it after all the others. */
  lemma AssignEachSnoc<T, V>(o: Rec<V>, items: seq<T>, x: T, key: T -> string, val: T -> V)
    ensures AssignEach(o, items + [x], key, val) == Assign(AssignEach(o, items, key, val), key(x), val(x))
  {
    assert (items + [x])[..|items|] == items;
  }

  lemma NoDuplicatesPrefix<T>(a: seq<T>, b: seq<T>)
    requires NoDuplicates(a + b)
    ensures NoDuplicates(a)
  {
    forall i, j | 0 <= i < j < |a|
      ensures a[i] != a[j]
    {
      assert (a + b)[i] == a[i] && (a + b)[j] == a[j];
    }
  }

  lemma NoDuplicatesSuffix<T>(a: seq<T>, b: seq<T>)
    requires NoDuplicates(a + b)
    ensures NoDuplicates(b)
  {
    forall i, j | 0 <= i < j < |b|
      ensures b[i] != b[j]
    {
      assert (a + b)[|a| + i] == b[i] && (a + b)[|a| + j] == b[j];
    }
  }

  /** No element lies on both sides of a duplicate-free concatenation. */
  lemma NoDuplicatesApart<T>(a: seq<T>, b: seq<T>, x: T)
    requires NoDuplicates(a + b) && x in b
    ensures x !in a
  {
    var j :| 0 <= j < |b| && b[j] == x;
    forall i | 0 <= i < |a|
      ensures a[i] != x
    {
      assert (a + b)[i] == a[i] && (a + b)[|a| + j] == x;
    }
  }

  lemma NoDuplicatesDisjoint<T>(a: seq<T>, b: seq<T>, x: T)
    requires NoDuplicates(a + b) && x in a
    ensures x !in b
  {
    var i :| 0 <= i < |a| && a[i] == x;
    forall j | 0 <= j < |b|
      ensures b[j] != x
    {
      assert (a + b)[i] == x && (a + b)[|a| + j] == b[j];
    }
  }

  /** Fresh, distinct keys are appended in item order. */
  lemma {:induction false} AssignEachKeys<T, V>(o: Rec<V>, items: seq<T>, key: T -> string, val: T -> V)
    requires NoDuplicates(Keys(o) + KeysOf(items, key))
    ensures Keys(AssignEach(o, items, key, val)) == Keys(o) + KeysOf(items, key)
    decreases |items|
  {
    if items != [] {
      var n := |items| - 1;
      var front := KeysOf(items[..n], key);
      assert KeysOf(items, key) == front + [key(items[n])];
      assert Keys(o) + KeysOf(items, key) == (Keys(o) + front) + [key(items[n])];
      NoDuplicatesPrefix(Keys(o) + front, [key(items[n])]);
      AssignEachKeys(o, items[..n], key, val);
      NoDuplicatesApart(Keys(o) + front, [key(items[n])], key(items[n]));
      AssignKeys(AssignEach(o, items[..n], key, val), key(items[n]), val(items[n]));
    }
  }

  /** A key no item maps to keeps its value. */
  lemma {:induction false} AssignEachOther<T, V>(o: Rec<V>, items: seq<T>, key: T -> string, val: T -> V, k: string)
    requires k !in KeysOf(items, key)
    ensures Get(AssignEach(o, items, key, val), k) == Get(o, k)
    decreases |items|
  {
    if items != [] {
      var n := |items| - 1;
      assert KeysOf(items, key) == KeysOf(items[..n], key) + [key(items[n])];
      AssignEachOther(o, items[..n], key, val, k);
    }
  }

  /** With distinct keys, each item's key holds that item's value. */
  lemma {:induction false} AssignEachGet<T, V>(o: Rec<V>, items: seq<T>, key: T -> string, val: T -> V, j: nat)
    requires NoDuplicates(KeysOf(items, key)) && j < |items|
    ensures Get(AssignEach(o, items, key, val), key(items[j])) == Some(val(items[j]))
    decreases |items|
  {
    var n := |items| - 1;
    var front := KeysOf(items[..n], key);
    assert KeysOf(items, key) == front + [key(items[n])];
    if j < n {
      NoDuplicatesPrefix(front, [key(items[n])]);
      assert items[..n][j] == items[j];
      AssignEachGet(o, items[..n], key, val, j);
      assert front[j] == key(items[j]);
      NoDuplicatesDisjoint(front, [key(items[n])], key(items[j]));
    }
  }

  /** Once all items are stored, a key is defined exactly when it was
      defined before or some item maps to it. */
  lemma {:induction false} AssignEachDefined<T, V>(o: Rec<V>, items: seq<T>, key: T -> string, val: T -> V, k: string)
    ensures Get(AssignEach(o, items, key, val), k).Some? <==> Get(o, k).Some? || k in KeysOf(items, key)
    decreases |items|
  {
    if items != [] {
      var n := |items| - 1;
      assert KeysOf(items, key) == KeysOf(items[..n], key) + [key(items[n])];
      AssignEachDefined(o, items[..n], key, val, k);
    }
  }

  /** Every property of `o` satisfies `P`. */
  ghost predicate AllEntries<V>(o: Rec<V>, P: (string, V) -> bool) {
    forall k :: Get(o, k).Some? ==> P(k, Get(o, k).value)
  }

  /** Storing items whose key and value satisfy `P` keeps `P` of every
      property, whatever the items' keys. */
  lemma {:induction false} AssignEachAllEntries<T, V>(o: Rec<V>, items: seq<T>, key: T -> string, val: T -> V,
                                                      P: (string, V) -> bool)
    requires AllEntries(o, P)
    requires forall i :: 0 <= i < |items| ==> P(key(items[i]), val(items[i]))
    ensures AllEntries(AssignEach(o, items, key, val), P)
    decreases |items|
  {
    if items != [] {
      var n := |items| - 1;
      assert forall i :: 0 <= i < n ==> items[..n][i] == items[i];
      AssignEachAllEntries(o, items[..n], key, val, P);
    }
  }
}
