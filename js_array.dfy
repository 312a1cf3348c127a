/**
 * The `Array.prototype` operations the table store is built from, over sequences:
 * `filter`, `findIndex` and `find` on a record's key, and the "keys are unique" property that
 * fresh identifiers give a table.
 */
module JsArray {
  import opened Wrappers

  /** `s.filter(keep)`: the elements that pass, in their original order. */
  function Filter<T>(s: seq<T>, keep: T -> bool): (r: seq<T>)
    ensures |r| <= |s|
    ensures forall i :: 0 <= i < |r| ==> keep(r[i])
    ensures (forall i :: 0 <= i < |s| ==> keep(s[i])) ==> r == s
  {
    if s == [] then [] else (if keep(s[0]) then [s[0]] else []) + Filter(s[1..], keep)
  }

  /** What passes the filter is exactly the elements of `s` that `keep` accepts. */
  lemma {:induction false} FilterMembers<T>(s: seq<T>, keep: T -> bool)
    ensures forall x :: x in Filter(s, keep) <==> x in s && keep(x)
    decreases |s|
  {
    if s != [] {
      FilterMembers(s[1..], keep);
      assert forall x :: x in s <==> x == s[0] || x in s[1..];
    }
  }

  lemma FilterCons<T>(x: T, t: seq<T>, keep: T -> bool)
    ensures Filter([x] + t, keep) == (if keep(x) then [x] else []) + Filter(t, keep)
  {
    assert ([x] + t)[0] == x && ([x] + t)[1..] == t;
  }

  /** Filtering distributes over concatenation, so the survivors keep their relative order. */
  lemma {:induction false} FilterAppend<T>(a: seq<T>, b: seq<T>, keep: T -> bool)
    ensures Filter(a + b, keep) == Filter(a, keep) + Filter(b, keep)
    decreases |a|
  {
    if a != [] {
      assert (a + b)[0] == a[0] && (a + b)[1..] == a[1..] + b;
      FilterAppend(a[1..], b, keep);
      var h := if keep(a[0]) then [a[0]] else [];
      assert Filter(a + b, keep) == h + (Filter(a[1..], keep) + Filter(b, keep));
      assert Filter(a, keep) == h + Filter(a[1..], keep);
    } else {
      assert a + b == b;
    }
  }

  /** Two runs of kept elements pass the filter whole. */
  lemma FilterKeepsBoth<T>(a: seq<T>, b: seq<T>, keep: T -> bool)
    requires forall i :: 0 <= i < |a| ==> keep(a[i])
    requires forall i :: 0 <= i < |b| ==> keep(b[i])
    ensures Filter(a + b, keep) == a + b
  {
    FilterAppend(a, b, keep);
  }

  /** Filtering out a single rejected element between two runs of kept ones just drops it. */
  lemma FilterDropsOne<T>(a: seq<T>, x: T, b: seq<T>, keep: T -> bool)
    requires forall i :: 0 <= i < |a| ==> keep(a[i])
    requires !keep(x)
    requires forall i :: 0 <= i < |b| ==> keep(b[i])
    ensures Filter(a + ([x] + b), keep) == a + b
  {
    assert Filter([x] + b, keep) == b by {
      FilterCons(x, b, keep);
    }
    assert Filter(a, keep) == a;
    FilterAppend(a, [x] + b, keep);
  }

  /** Some element has key `k`. */
  predicate HasKey<T>(s: seq<T>, key: T -> string, k: string) {
    exists i :: 0 <= i < |s| && key(s[i]) == k
  }

  /** No two elements share a key. */
  predicate UniqueKeys<T>(s: seq<T>, key: T -> string) {
    forall i, j :: 0 <= i < j < |s| ==> key(s[i]) != key(s[j])
  }

  /** `s.findIndex(x => key(x) === k)`, with -1 as None: the first index holding key `k`. */
  function IndexOfKey<T>(s: seq<T>, key: T -> string, k: string): (r: Option<nat>)
    ensures r.Some? ==> r.value < |s| && key(s[r.value]) == k
    ensures r.Some? ==> forall j :: 0 <= j < r.value ==> key(s[j]) != k
    ensures r.None? <==> !HasKey(s, key, k)
  {
    if s == [] then None
    else if key(s[0]) == k then Some(0)
    else match IndexOfKey(s[1..], key, k)
      case None => None
      case Some(i) => Some(i + 1)
  }

  /** After appending the first element with key `k`, `findIndex` finds it at the end. */
  lemma IndexOfKeyAppendNew<T>(s: seq<T>, key: T -> string, k: string, x: T)
    requires !HasKey(s, key, k) && key(x) == k
    ensures IndexOfKey(s + [x], key, k) == Some(|s|)
  {
    assert (s + [x])[|s|] == x;
    assert forall m :: 0 <= m < |s| ==> (s + [x])[m] == s[m];
  }

  /** `s.find(x => key(x) === k)`, with `undefined` as None: the first element holding key `k`. */
  function FindByKey<T>(s: seq<T>, key: T -> string, k: string): (r: Option<T>)
    ensures r.Some? ==> exists i :: 0 <= i < |s| && r.value == s[i] && key(s[i]) == k
                                   && forall j :: 0 <= j < i ==> key(s[j]) != k
    ensures r.None? <==> !HasKey(s, key, k)
  {
    match IndexOfKey(s, key, k)
    case None => None
    case Some(i) => Some(s[i])
  }

  /** `s.filter(x => key(x) !== k)`: every element with key `k` is gone, all others stay, in order. */
  function RemoveKey<T>(s: seq<T>, key: T -> string, k: string): (r: seq<T>)
    ensures |r| <= |s|
    ensures forall i :: 0 <= i < |r| ==> r[i] in s && key(r[i]) != k
    ensures forall i :: 0 <= i < |s| && key(s[i]) != k ==> s[i] in r
    ensures !HasKey(r, key, k)
    ensures !HasKey(s, key, k) ==> r == s
  {
    if s == [] then []
    else (if key(s[0]) != k then [s[0]] else []) + RemoveKey(s[1..], key, k)
  }

  /** Removal distributes over concatenation: the relative order of what is left is unchanged. */
  lemma {:induction false} RemoveKeyAppend<T>(a: seq<T>, b: seq<T>, key: T -> string, k: string)
    ensures RemoveKey(a + b, key, k) == RemoveKey(a, key, k) + RemoveKey(b, key, k)
    decreases |a|
  {
    if a != [] {
      assert (a + b)[0] == a[0] && (a + b)[1..] == a[1..] + b;
      RemoveKeyAppend(a[1..], b, key, k);
      var h := if key(a[0]) != k then [a[0]] else [];
      assert RemoveKey(a + b, key, k) == h + (RemoveKey(a[1..], key, k) + RemoveKey(b, key, k));
      assert RemoveKey(a, key, k) == h + RemoveKey(a[1..], key, k);
    } else {
      assert a + b == b;
    }
  }

  /** Removing records cannot make two keys collide. */
  lemma {:induction false} RemoveKeyUnique<T>(s: seq<T>, key: T -> string, k: string)
    requires UniqueKeys(s, key)
    ensures UniqueKeys(RemoveKey(s, key, k), key)
    decreases |s|
  {
    if s != [] {
      var rest := RemoveKey(s[1..], key, k);
      RemoveKeyUnique(s[1..], key, k);
      if key(s[0]) != k {
        forall y | y in rest ensures key(y) != key(s[0]) {
          var m :| 0 <= m < |s[1..]| && s[1..][m] == y;
          assert s[m + 1] == y;
        }
        ConsUnique(s[0], rest, key);
      }
    }
  }

  /** Putting an element in front of unique keys keeps them unique when its key is new. */
  lemma ConsUnique<T>(x: T, s: seq<T>, key: T -> string)
    requires UniqueKeys(s, key) && forall y :: y in s ==> key(y) != key(x)
    ensures UniqueKeys([x] + s, key)
  {
    var r := [x] + s;
    forall i, j | 0 <= i < j < |r| ensures key(r[i]) != key(r[j]) {
      assert r[j] == s[j - 1];
      if i > 0 {
        assert r[i] == s[i - 1];
      }
    }
  }

  /** With unique keys, removing a present key removes exactly one element. */
  lemma {:induction false} RemoveKeyUniqueLength<T>(s: seq<T>, key: T -> string, k: string)
    requires UniqueKeys(s, key) && HasKey(s, key, k)
    ensures |RemoveKey(s, key, k)| == |s| - 1
    decreases |s|
  {
    var rest := RemoveKey(s[1..], key, k);
    if key(s[0]) == k {
      assert !HasKey(s[1..], key, k) by {
        assert forall j :: 0 < j < |s| ==> key(s[j]) != key(s[0]);
      }
      assert RemoveKey(s, key, k) == rest;
    } else {
      var i :| 0 <= i < |s| && key(s[i]) == k;
      assert s[1..][i - 1] == s[i];
      RemoveKeyUniqueLength(s[1..], key, k);
      assert RemoveKey(s, key, k) == [s[0]] + rest;
    }
  }

  lemma FindByKeyCons<T>(x: T, t: seq<T>, key: T -> string, k: string)
    ensures FindByKey([x] + t, key, k) == if key(x) == k then Some(x) else FindByKey(t, key, k)
  {
    assert ([x] + t)[0] == x && ([x] + t)[1..] == t;
  }

  /** Looking up another key after a removal finds what it found before. */
  lemma {:induction false} FindByKeyAfterRemove<T>(s: seq<T>, key: T -> string, k: string, other: string)
    requires other != k
    ensures FindByKey(RemoveKey(s, key, k), key, other) == FindByKey(s, key, other)
    decreases |s|
  {
    if s != [] {
      var x, t := s[0], s[1..];
      var rest := RemoveKey(t, key, k);
      FindByKeyAfterRemove(t, key, k, other);
      assert s == [x] + t;
      FindByKeyCons(x, t, key, other);
      if key(x) != k {
        assert RemoveKey(s, key, k) == [x] + rest;
        FindByKeyCons(x, rest, key, other);
      } else {
        assert RemoveKey(s, key, k) == rest;
        assert key(x) != other;
      }
    }
  }

  /** Appending a record with a key not yet present keeps the keys unique. */
  lemma AppendUnique<T>(s: seq<T>, x: T, key: T -> string)
    requires UniqueKeys(s, key) && !HasKey(s, key, key(x))
    ensures UniqueKeys(s + [x], key)
  {
    var t := s + [x];
    forall i, j | 0 <= i < j < |t| ensures key(t[i]) != key(t[j]) {
      if j == |s| {
        assert t[i] == s[i];
      }
    }
  }
}
