/**
 * Ordering of agenda entries: Python's string comparison (lexicographic by
 * code point) and the stable sort `list.sort(key=...)` performs, written
 * as an insertion sort over a key function.
 */
module AgendaSort {

  /** `a <= b` for Python strings: lexicographic, a proper prefix first. */
  predicate StrLe(a: string, b: string)
    decreases |a|
  {
    if a == [] then true
    else if b == [] then false
    else if a[0] != b[0] then a[0] < b[0]
    else StrLe(a[1..], b[1..])
  }

  lemma {:induction false} StrLeRefl(a: string)
    ensures StrLe(a, a)
    decreases |a|
  {
    if a != [] {
      StrLeRefl(a[1..]);
    }
  }

  lemma {:induction false} StrLeTotal(a: string, b: string)
    ensures StrLe(a, b) || StrLe(b, a)
    decreases |a|
  {
    if a != [] && b != [] && a[0] == b[0] {
      StrLeTotal(a[1..], b[1..]);
    }
  }

  lemma {:induction false} StrLeAntisym(a: string, b: string)
    requires StrLe(a, b) && StrLe(b, a)
    ensures a == b
    decreases |a|
  {
    if a != [] && b != [] {
      StrLeAntisym(a[1..], b[1..]);
      assert a == [a[0]] + a[1..] && b == [b[0]] + b[1..];
    }
  }

  lemma {:induction false} StrLeTrans(a: string, b: string, c: string)
    requires StrLe(a, b) && StrLe(b, c)
    ensures StrLe(a, c)
    decreases |a|
  {
    if a != [] && b != [] && c != [] && a[0] == b[0] && b[0] == c[0] {
      StrLeTrans(a[1..], b[1..], c[1..]);
    }
  }

  /** Every pair of positions is in key order. */
  predicate SortedBy<T>(key: T -> string, s: seq<T>)
  {
    forall i, j :: 0 <= i < j < |s| ==> StrLe(key(s[i]), key(s[j]))
  }

  /** The elements whose key is `t`, in their order in `s`. */
  function WithKey<T>(key: T -> string, t: string, s: seq<T>): (r: seq<T>)
    ensures |r| <= |s|
  {
    if s == [] then []
    else WithKey(key, t, s[..|s| - 1]) + (if key(s[|s| - 1]) == t then [s[|s| - 1]] else [])
  }

  lemma {:induction false} WithKeyAppend<T>(key: T -> string, t: string, s: seq<T>, u: seq<T>)
    ensures WithKey(key, t, s + u) == WithKey(key, t, s) + WithKey(key, t, u)
    decreases |u|
  {
    if u == [] {
      assert s + u == s;
    } else {
      var u' := u[..|u| - 1];
      assert (s + u)[..|s + u| - 1] == s + u';
      WithKeyAppend(key, t, s, u');
    }
  }

  /** Inserts `x` after every element of `s`, from the end, whose key is
      not greater than its own: equal keys keep their arrival order. */
  function Insert<T>(key: T -> string, x: T, s: seq<T>): (r: seq<T>)
    ensures |r| == |s| + 1
  {
    if s == [] then [x]
    else if StrLe(key(s[|s| - 1]), key(x)) then s + [x]
    else Insert(key, x, s[..|s| - 1]) + [s[|s| - 1]]
  }

  /** The stable sort by key. */
  function SortBy<T>(key: T -> string, s: seq<T>): (r: seq<T>)
    ensures |r| == |s|
  {
    if s == [] then []
    else Insert(key, s[|s| - 1], SortBy(key, s[..|s| - 1]))
  }

  lemma {:induction false} InsertPermutes<T>(key: T -> string, x: T, s: seq<T>)
    ensures multiset(Insert(key, x, s)) == multiset(s) + multiset{x}
    decreases |s|
  {
    if s != [] {
      assert s == s[..|s| - 1] + [s[|s| - 1]];
      if !StrLe(key(s[|s| - 1]), key(x)) {
        InsertPermutes(key, x, s[..|s| - 1]);
      }
    }
  }

  /** The sort is a permutation. */
  lemma {:induction false} SortByPermutes<T>(key: T -> string, s: seq<T>)
    ensures multiset(SortBy(key, s)) == multiset(s)
    decreases |s|
  {
    if s != [] {
      assert s == s[..|s| - 1] + [s[|s| - 1]];
      SortByPermutes(key, s[..|s| - 1]);
      InsertPermutes(key, s[|s| - 1], SortBy(key, s[..|s| - 1]));
    }
  }

  /** Inserting into a sorted sequence keeps it sorted; the new element is
      preceded by everything whose key is not greater. */
  lemma {:induction false} InsertSorted<T>(key: T -> string, x: T, s: seq<T>)
    requires SortedBy(key, s)
    ensures SortedBy(key, Insert(key, x, s))
    decreases |s|
  {
    if s != [] {
      var last := s[|s| - 1];
      var r := Insert(key, x, s);
      if StrLe(key(last), key(x)) {
        forall i, j | 0 <= i < j < |r|
          ensures StrLe(key(r[i]), key(r[j]))
        {
          if j == |s| {
            if i < |s| - 1 {
              StrLeTrans(key(s[i]), key(last), key(x));
            }
          }
        }
      } else {
        var s' := s[..|s| - 1];
        var r' := Insert(key, x, s');
        InsertSorted(key, x, s');
        StrLeTotal(key(last), key(x));
        assert r == r' + [last];
        InsertPermutes(key, x, s');
        forall i | 0 <= i < |r'|
          ensures StrLe(key(r'[i]), key(last))
        {
          assert r'[i] in multiset(r');
          if r'[i] == x {
          } else {
            assert r'[i] in multiset(s');
            var k :| 0 <= k < |s'| && s'[k] == r'[i];
            assert s[k] == r'[i];
          }
        }
      }
    }
  }

  lemma {:induction false} SortBySorted<T>(key: T -> string, s: seq<T>)
    ensures SortedBy(key, SortBy(key, s))
    decreases |s|
  {
    if s != [] {
      SortBySorted(key, s[..|s| - 1]);
      InsertSorted(key, s[|s| - 1], SortBy(key, s[..|s| - 1]));
    }
  }

  /** Insertion never reorders elements of one key: `x` lands after all
      the elements that share its key. */
  lemma {:induction false} InsertStable<T>(key: T -> string, t: string, x: T, s: seq<T>)
    ensures WithKey(key, t, Insert(key, x, s)) == WithKey(key, t, s) + WithKey(key, t, [x])
    decreases |s|
  {
    assert [x][..0] == [];
    if s == [] {
    } else {
      var s', last := s[..|s| - 1], s[|s| - 1];
      assert s == s' + [last];
      assert [last][..0] == [];
      if StrLe(key(last), key(x)) {
        WithKeyAppend(key, t, s, [x]);
      } else {
        StrLeRefl(key(x));
        InsertStable(key, t, x, s');
        WithKeyAppend(key, t, Insert(key, x, s'), [last]);
        WithKeyAppend(key, t, s', [last]);
      }
    }
  }

  /** Stability: for every key the sort keeps the elements with that key in
      their original order. */
  lemma {:induction false} SortByStable<T>(key: T -> string, t: string, s: seq<T>)
    ensures WithKey(key, t, SortBy(key, s)) == WithKey(key, t, s)
    decreases |s|
  {
    if s != [] {
      var s', last := s[..|s| - 1], s[|s| - 1];
      SortByStable(key, t, s');
      InsertStable(key, t, last, SortBy(key, s'));
      assert [last][..0] == [];
    }
  }
}
