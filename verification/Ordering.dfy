/** Lexicographic order on strings and on tuples of strings, and the stable sort
    that the scripts get from `sorted(..., key=...)` and `sort_by_key`. */
module Ordering {

  // A sort key: a tuple of strings, compared component by component.
  type Key = seq<string>

  /** Code-point order, which is also the byte order of the UTF-8 encodings. */
  predicate StrLeq(a: string, b: string) {
    a == "" || (b != "" && (a[0] < b[0] || (a[0] == b[0] && StrLeq(a[1..], b[1..]))))
  }

  predicate KeyLeq(a: Key, b: Key) {
    a == [] || (b != [] && StrLeq(a[0], b[0]) && (a[0] == b[0] ==> KeyLeq(a[1..], b[1..])))
  }

  lemma {:induction false} StrLeqTotal(a: string, b: string)
    ensures StrLeq(a, b) || StrLeq(b, a)
    ensures StrLeq(a, b) && StrLeq(b, a) ==> a == b
  {
    if a != "" && b != "" && a[0] == b[0] {
      StrLeqTotal(a[1..], b[1..]);
      assert a == [a[0]] + a[1..] && b == [b[0]] + b[1..];
    }
  }

  lemma {:induction false} StrLeqTransitive(a: string, b: string, c: string)
    requires StrLeq(a, b) && StrLeq(b, c)
    ensures StrLeq(a, c)
  {
    if a != "" && a[0] == b[0] && b[0] == c[0] {
      StrLeqTransitive(a[1..], b[1..], c[1..]);
    }
  }

  lemma {:induction false} KeyLeqTotal(a: Key, b: Key)
    ensures KeyLeq(a, b) || KeyLeq(b, a)
    ensures KeyLeq(a, b) && KeyLeq(b, a) ==> a == b
  {
    if a != [] && b != [] {
      StrLeqTotal(a[0], b[0]);
      KeyLeqTotal(a[1..], b[1..]);
      assert a == [a[0]] + a[1..] && b == [b[0]] + b[1..];
    }
  }

  lemma {:induction false} KeyLeqTransitive(a: Key, b: Key, c: Key)
    requires KeyLeq(a, b) && KeyLeq(b, c)
    ensures KeyLeq(a, c)
  {
    if a != [] {
      StrLeqTransitive(a[0], b[0], c[0]);
      StrLeqTotal(a[0], b[0]);
      StrLeqTotal(b[0], c[0]);
      if a[0] == c[0] {
        KeyLeqTransitive(a[1..], b[1..], c[1..]);
      }
    }
  }

  ghost predicate SortedBy<T>(s: seq<T>, key: T -> Key) {
    forall i, j :: 0 <= i < j < |s| ==> KeyLeq(key(s[i]), key(s[j]))
  }

  ghost predicate DistinctBy<T>(s: seq<T>, key: T -> Key) {
    forall i, j :: 0 <= i < j < |s| ==> key(s[i]) != key(s[j])
  }

  function Insert<T>(x: T, s: seq<T>, key: T -> Key): (r: seq<T>)
    ensures multiset(r) == multiset{x} + multiset(s)
    ensures SortedBy(s, key) ==> SortedBy(r, key)
  {
    if s == [] then [x]
    else
      KeyLeqTotal(key(x), key(s[0]));
      assert s == [s[0]] + s[1..];
      if KeyLeq(key(x), key(s[0])) then
        InsertFront(x, s, key);
        [x] + s
      else
        var rest := Insert(x, s[1..], key);
        InsertBehind(x, s, rest, key);
        [s[0]] + rest
  }

  lemma InsertFront<T>(x: T, s: seq<T>, key: T -> Key)
    requires s != [] && KeyLeq(key(x), key(s[0]))
    ensures SortedBy(s, key) ==> SortedBy([x] + s, key)
  {
    if SortedBy(s, key) {
      forall j | 0 < j < |s| ensures KeyLeq(key(x), key(s[j])) {
        KeyLeqTransitive(key(x), key(s[0]), key(s[j]));
      }
    }
  }

  lemma InsertBehind<T>(x: T, s: seq<T>, rest: seq<T>, key: T -> Key)
    requires s != [] && KeyLeq(key(s[0]), key(x))
    requires multiset(rest) == multiset{x} + multiset(s[1..])
    requires SortedBy(s[1..], key) ==> SortedBy(rest, key)
    ensures SortedBy(s, key) ==> SortedBy([s[0]] + rest, key)
  {
    if SortedBy(s, key) {
      forall j | 0 <= j < |rest| ensures KeyLeq(key(s[0]), key(rest[j])) {
        assert rest[j] in multiset(rest);
        assert rest[j] == x || rest[j] in s[1..];
      }
    }
  }

  /** The stable sort: of two elements with equal keys, the earlier stays earlier. */
  function SortBy<T>(s: seq<T>, key: T -> Key): (r: seq<T>)
    ensures multiset(r) == multiset(s)
    ensures |r| == |s|
    ensures SortedBy(r, key)
  {
    if s == [] then []
    else
      assert s == [s[0]] + s[1..];
      var r := Insert(s[0], SortBy(s[1..], key), key);
      assert |multiset(r)| == |multiset(s)|;
      r
  }

  lemma {:induction false} SortOfSorted<T>(s: seq<T>, key: T -> Key)
    requires SortedBy(s, key)
    ensures SortBy(s, key) == s
  {
    if s != [] {
      SortOfSorted(s[1..], key);
      assert s == [s[0]] + s[1..];
    }
  }

  lemma SortedHead<T>(a: seq<T>, b: seq<T>, key: T -> Key)
    requires SortedBy(a, key) && SortedBy(b, key) && DistinctBy(a, key)
    requires multiset(a) == multiset(b) && a != [] && b != []
    ensures a[0] == b[0]
  {
    hide KeyLeq;
    assert b[0] in multiset(a) && a[0] in multiset(b);
    var i :| 0 <= i < |a| && a[i] == b[0];
    var j :| 0 <= j < |b| && b[j] == a[0];
    if i > 0 && j > 0 {
      assert key(a[0]) != key(a[i]) && KeyLeq(key(a[0]), key(a[i])) && KeyLeq(key(b[0]), key(b[j]));
      KeyLeqTotal(key(a[0]), key(b[0]));
    }
  }

  lemma TailMultiset<T>(s: seq<T>)
    requires s != []
    ensures multiset(s[1..]) == multiset(s) - multiset{s[0]}
  {
    assert s == [s[0]] + s[1..];
  }

  /** Sorted sequences with distinct keys are determined by their elements. */
  lemma {:induction false} SortedUnique<T>(a: seq<T>, b: seq<T>, key: T -> Key)
    requires SortedBy(a, key) && SortedBy(b, key)
    requires multiset(a) == multiset(b)
    requires DistinctBy(a, key)
    ensures a == b
  {
    hide KeyLeq;
    assert |multiset(a)| == |multiset(b)|;
    if a != [] {
      SortedHead(a, b, key);
      TailMultiset(a);
      TailMultiset(b);
      SortedUnique(a[1..], b[1..], key);
      assert a == [a[0]] + a[1..] && b == [b[0]] + b[1..];
    }
  }

  lemma SortKeepsElements<T>(s: seq<T>, key: T -> Key)
    ensures forall x :: x in SortBy(s, key) <==> x in s
  {
    hide SortBy;
    forall x ensures x in SortBy(s, key) <==> x in s {
      assert x in SortBy(s, key) <==> x in multiset(SortBy(s, key));
      assert x in s <==> x in multiset(s);
    }
  }

  lemma {:induction false} InsertKeepsDistinct<T>(x: T, s: seq<T>, key: T -> Key)
    requires DistinctBy(s, key) && forall j :: 0 <= j < |s| ==> key(s[j]) != key(x)
    ensures DistinctBy(Insert(x, s, key), key)
  {
    hide KeyLeq, SortedBy;
    if s != [] && !KeyLeq(key(x), key(s[0])) {
      InsertKeepsDistinct(x, s[1..], key);
      var rest := Insert(x, s[1..], key);
      forall j | 0 <= j < |rest| ensures key(rest[j]) != key(s[0]) {
        assert rest[j] in multiset(rest);
        assert rest[j] == x || rest[j] in s[1..];
      }
    }
  }

  lemma {:induction false} SortKeepsDistinct<T>(s: seq<T>, key: T -> Key)
    requires DistinctBy(s, key)
    ensures DistinctBy(SortBy(s, key), key)
  {
    hide KeyLeq, SortedBy, Insert;
    if s != [] {
      SortKeepsDistinct(s[1..], key);
      var rest := SortBy(s[1..], key);
      forall j | 0 <= j < |rest| ensures key(rest[j]) != key(s[0]) {
        assert rest[j] in multiset(rest);
        assert rest[j] in s[1..];
        var k :| 0 <= k < |s[1..]| && s[1..][k] == rest[j];
        assert s[k + 1] == rest[j];
      }
      InsertKeepsDistinct(s[0], rest, key);
    }
  }
}
