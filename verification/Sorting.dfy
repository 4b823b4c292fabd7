/** Array.prototype.sort with a numeric key: ascending and stable. */
module Sorting {
  /** Before the entries with an equal key. */
  function Insert<T>(key: T -> int, x: T, s: seq<T>): (r: seq<T>)
    ensures multiset(r) == multiset([x] + s)
  {
    if s == [] || key(x) <= key(s[0]) then [x] + s
    else
      assert s == [s[0]] + s[1..];
      [s[0]] + Insert(key, x, s[1..])
  }

  function Sort<T>(key: T -> int, s: seq<T>): (r: seq<T>)
    ensures multiset(r) == multiset(s)
  {
    if s == [] then []
    else
      assert s == [s[0]] + s[1..];
      Insert(key, s[0], Sort(key, s[1..]))
  }

  ghost predicate Ascending<T>(key: T -> int, s: seq<T>) {
    forall i, j :: 0 <= i < j < |s| ==> key(s[i]) <= key(s[j])
  }

  lemma SameElements<T>(a: seq<T>, b: seq<T>)
    requires multiset(a) == multiset(b)
    ensures |a| == |b| && forall x :: x in a <==> x in b
  {
    assert |a| == |multiset(a)| == |multiset(b)| == |b|;
    forall x ensures x in a <==> x in b {
      assert x in a <==> x in multiset(a);
    }
  }

  lemma PrependAscends<T>(key: T -> int, x: T, t: seq<T>)
    requires Ascending(key, t) && forall y :: y in t ==> key(x) <= key(y)
    ensures Ascending(key, [x] + t)
  {
    forall k | 0 <= k < |t| ensures key(x) <= key(t[k]) {
      assert t[k] in t;
    }
  }

  lemma HeadIsLeast<T>(key: T -> int, s: seq<T>)
    requires Ascending(key, s) && s != []
    ensures Ascending(key, s[1..]) && forall y :: y in s ==> key(s[0]) <= key(y)
  {
  }

  lemma InsertAbove<T>(key: T -> int, low: T, x: T, s: seq<T>)
    requires key(low) <= key(x) && forall y :: y in s ==> key(low) <= key(y)
    ensures forall y :: y in Insert(key, x, s) ==> key(low) <= key(y)
  {
    SameElements(Insert(key, x, s), [x] + s);
  }

  lemma {:induction false} InsertAscends<T>(key: T -> int, x: T, s: seq<T>)
    requires Ascending(key, s)
    ensures Ascending(key, Insert(key, x, s))
  {
    hide Ascending;
    if s == [] {
      assert Insert(key, x, s) == [x];
      OneAscends(key, x);
    } else {
      HeadIsLeast(key, s);
      if key(x) <= key(s[0]) {
        PrependAscends(key, x, s);
      } else {
        var t := Insert(key, x, s[1..]);
        assert Insert(key, x, s) == [s[0]] + t;
        InsertAscends(key, x, s[1..]);
        InsertAbove(key, s[0], x, s[1..]);
        hide Insert;
        PrependAscends(key, s[0], t);
      }
    }
  }

  lemma OneAscends<T>(key: T -> int, x: T)
    ensures Ascending(key, [x])
  {
  }

  lemma {:induction false} SortAscends<T>(key: T -> int, s: seq<T>)
    ensures Ascending(key, Sort(key, s))
  {
    if s != [] {
      SortAscends(key, s[1..]);
      InsertAscends(key, s[0], Sort(key, s[1..]));
    }
  }

  /** After the entries with an equal key. */
  function InsertAfter<T>(key: T -> int, s: seq<T>, x: T): seq<T> {
    if s == [] || key(x) < key(s[0]) then [x] + s else [s[0]] + InsertAfter(key, s[1..], x)
  }

  lemma {:induction false} InsertsCommute<T>(key: T -> int, x: T, s: seq<T>, y: T)
    ensures Insert(key, x, InsertAfter(key, s, y)) == InsertAfter(key, Insert(key, x, s), y)
  {
    if s != [] {
      InsertsCommute(key, x, s[1..], y);
    }
  }

  /** An entry appended before sorting ends up after everything with a key up to its own. */
  lemma {:induction false} SortAppended<T>(key: T -> int, s: seq<T>, y: T)
    ensures Sort(key, s + [y]) == InsertAfter(key, Sort(key, s), y)
  {
    if s != [] {
      assert (s + [y])[1..] == s[1..] + [y];
      SortAppended(key, s[1..], y);
      InsertsCommute(key, s[0], Sort(key, s[1..]), y);
    }
  }
}
