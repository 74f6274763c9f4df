/** Lists of keyed items and their sorted form, as the encoder orders dictionary keys. */
module KeyedSort {
  datatype Keyed<+T> = Keyed(key: string, item: T)

  // The order of code units, which is the byte order on ASCII keys
  predicate Less(a: string, b: string) {
    b != "" && (a == "" || a[0] < b[0] || (a[0] == b[0] && Less(a[1..], b[1..])))
  }

  // The keys agree up to position k, where the first one ends or has the smaller code unit.
  ghost predicate Departs(a: string, b: string, k: nat) {
    k <= |a| && k < |b| && a[..k] == b[..k] && (k == |a| || a[k] < b[k])
  }

  lemma SameHead(a: string, b: string, k: nat)
    requires Departs(a, b, k)
    ensures k > 0 ==> a != "" && b != "" && a[0] == b[0]
  {
    if k > 0 {
      assert a[..k][0] == b[..k][0];
    }
  }

  /** That is the lexicographic order. */
  lemma {:induction false} LessIs(a: string, b: string)
    ensures Less(a, b) <==> exists k: nat :: Departs(a, b, k)
  {
    if a == "" || b == "" || a[0] != b[0] {
      assert b != "" && (a == "" || a[0] < b[0]) ==> Departs(a, b, 0);
      if k: nat :| Departs(a, b, k) {
        SameHead(a, b, k);
      }
    } else {
      LessIs(a[1..], b[1..]);
      if k: nat :| Departs(a[1..], b[1..], k) {
        assert a[..k + 1] == [a[0]] + a[1..][..k] && b[..k + 1] == [b[0]] + b[1..][..k];
        assert Departs(a, b, k + 1);
      }
      if k: nat :| Departs(a, b, k) {
        assert k > 0;
        assert a[1..][..k - 1] == a[..k][1..] && b[1..][..k - 1] == b[..k][1..];
        assert Departs(a[1..], b[1..], k - 1);
      }
    }
  }

  lemma {:induction false} LessTotal(a: string, b: string)
    ensures !(Less(a, b) && Less(b, a)) && (Less(a, b) || Less(b, a) || a == b) && !Less(a, a)
  {
    if a != "" && b != "" {
      LessTotal(a[1..], b[1..]);
      assert a == [a[0]] + a[1..] && b == [b[0]] + b[1..];
    }
    if a != "" { LessTotal(a[1..], a[1..]); }
  }

  lemma {:induction false} LessTransitive(a: string, b: string, c: string)
    requires Less(a, b) && Less(b, c)
    ensures Less(a, c)
  {
    if a != "" && a[0] == b[0] && b[0] == c[0] {
      LessTransitive(a[1..], b[1..], c[1..]);
    }
  }

  ghost predicate Ascending<T>(s: seq<Keyed<T>>) {
    forall i, j :: 0 <= i < j < |s| ==> Less(s[i].key, s[j].key)
  }

  ghost predicate Distinct<T>(s: seq<Keyed<T>>) {
    forall i, j :: 0 <= i < j < |s| ==> s[i].key != s[j].key
  }

  function Insert<T>(x: Keyed<T>, s: seq<Keyed<T>>): (r: seq<Keyed<T>>)
    ensures |r| == |s| + 1 && multiset(r) == multiset{x} + multiset(s)
  {
    if s == [] || Less(x.key, s[0].key) then
      [x] + s
    else
      assert s == [s[0]] + s[1..];
      [s[0]] + Insert(x, s[1..])
  }

  function Sort<T>(s: seq<Keyed<T>>): (r: seq<Keyed<T>>)
    ensures |r| == |s| && multiset(r) == multiset(s)
  {
    if s == [] then []
    else
      assert s == [s[0]] + s[1..];
      Insert(s[0], Sort(s[1..]))
  }

  lemma {:induction false} InsertAscending<T>(x: Keyed<T>, s: seq<Keyed<T>>)
    requires Ascending(s) && forall i :: 0 <= i < |s| ==> s[i].key != x.key
    ensures Ascending(Insert(x, s))
  {
    if s != [] {
      LessTotal(x.key, s[0].key);
      if Less(x.key, s[0].key) {
        forall i | 0 <= i < |s|
          ensures Less(x.key, s[i].key)
        {
          if i > 0 { LessTransitive(x.key, s[0].key, s[i].key); }
        }
      } else {
        var rest := Insert(x, s[1..]);
        InsertAscending(x, s[1..]);
        forall i | 0 <= i < |rest|
          ensures Less(s[0].key, rest[i].key)
        {
          assert rest[i] in multiset(rest);
          assert rest[i] == x || rest[i] in s[1..];
        }
      }
    }
  }

  /** Sorting puts distinct keys in order and loses nothing. */
  lemma {:induction false} SortAscending<T>(s: seq<Keyed<T>>)
    requires Distinct(s)
    ensures Ascending(Sort(s))
  {
    if s != [] {
      SortAscending(s[1..]);
      var rest := Sort(s[1..]);
      forall i | 0 <= i < |rest|
        ensures rest[i].key != s[0].key
      {
        assert rest[i] in multiset(s[1..]);
        var j :| 0 <= j < |s[1..]| && s[1..][j] == rest[i];
        assert s[1..][j] == s[1 + j];
      }
      InsertAscending(s[0], rest);
    }
  }

  lemma {:induction false} SortOfAscending<T>(s: seq<Keyed<T>>)
    requires Ascending(s)
    ensures Sort(s) == s
  {
    if s != [] {
      SortOfAscending(s[1..]);
      if |s| > 1 {
        assert Less(s[0].key, s[1].key);
      }
    }
  }

  // The two lists have the same keys in the same places, and what stands there is related.
  ghost predicate Parallel<T(!new), U(!new)>(s: seq<Keyed<T>>, t: seq<Keyed<U>>, r: (Keyed<T>, Keyed<U>) -> bool) {
    |s| == |t| && forall i :: 0 <= i < |s| ==> s[i].key == t[i].key && r(s[i], t[i])
  }

  lemma {:induction false} InsertParallel<T(!new), U(!new)>(x: Keyed<T>, y: Keyed<U>,
                                                            s: seq<Keyed<T>>, t: seq<Keyed<U>>,
                                                            r: (Keyed<T>, Keyed<U>) -> bool)
    requires Parallel(s, t, r) && x.key == y.key && r(x, y)
    ensures Parallel(Insert(x, s), Insert(y, t), r)
  {
    if s != [] && !Less(x.key, s[0].key) {
      InsertParallel(x, y, s[1..], t[1..], r);
    }
  }

  /** Sorting looks at nothing but the keys. */
  lemma {:induction false} SortParallel<T(!new), U(!new)>(s: seq<Keyed<T>>, t: seq<Keyed<U>>,
                                                          r: (Keyed<T>, Keyed<U>) -> bool)
    requires Parallel(s, t, r)
    ensures Parallel(Sort(s), Sort(t), r)
  {
    if s != [] {
      SortParallel(s[1..], t[1..], r);
      InsertParallel(s[0], t[0], Sort(s[1..]), Sort(t[1..]), r);
    }
  }
}
