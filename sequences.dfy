/** Generic sequence facts behind the `Array.prototype` calls the core makes:
    `filter` (on pure predicates), `findIndex`/`find`/`some` by key, and what it
    means for a result to be an order-preserving subsequence. */
module Sequences {
  import opened Wrappers

  /** `a` can be obtained from `b` by deleting elements, keeping the order. */
  ghost predicate Subseq<T>(a: seq<T>, b: seq<T>)
    decreases |b|
  {
    a == [] || (b != [] && ((a[0] == b[0] && Subseq(a[1..], b[1..])) || Subseq(a, b[1..])))
  }

  lemma {:induction false} SubseqRefl<T>(s: seq<T>)
    ensures Subseq(s, s)
    decreases |s|
  {
    if s != [] {
      SubseqRefl(s[1..]);
    }
  }

  /** Deleting from a sequence obtained by deleting is still deleting. */
  lemma {:induction false} SubseqTrans<T>(a: seq<T>, b: seq<T>, c: seq<T>)
    requires Subseq(a, b) && Subseq(b, c)
    ensures Subseq(a, c)
    decreases |c|
  {
    if a != [] {
      if b[0] == c[0] && Subseq(b[1..], c[1..]) {
        if a[0] == b[0] && Subseq(a[1..], b[1..]) {
          SubseqTrans(a[1..], b[1..], c[1..]);
        } else {
          SubseqTrans(a, b[1..], c[1..]);
        }
      } else {
        SubseqTrans(a, b, c[1..]);
      }
    }
  }

  /** `s.filter(p)` for a predicate that reads no mutable state. */
  function Filter<T>(s: seq<T>, p: T -> bool): (r: seq<T>)
    ensures |r| <= |s|
  {
    if s == [] then [] else (if p(s[0]) then [s[0]] else []) + Filter(s[1..], p)
  }

  /** What `filter` keeps: exactly the elements of `s` that satisfy `p`. */
  lemma {:induction false} FilterMembers<T>(s: seq<T>, p: T -> bool, x: T)
    ensures x in Filter(s, p) <==> x in s && p(x)
  {
    if s != [] {
      FilterMembers(s[1..], p, x);
      assert s == [s[0]] + s[1..];
    }
  }

  lemma {:induction false} FilterIsSubseq<T>(s: seq<T>, p: T -> bool)
    ensures Subseq(Filter(s, p), s)
  {
    if s != [] {
      FilterIsSubseq(s[1..], p);
      var r := Filter(s, p);
      if p(s[0]) {
        assert r == [s[0]] + Filter(s[1..], p);
        assert r[0] == s[0] && r[1..] == Filter(s[1..], p);
      } else {
        assert r == Filter(s[1..], p);
      }
    }
  }

  /** Filtering distributes over concatenation. */
  lemma {:induction false} FilterAppend<T>(s: seq<T>, t: seq<T>, p: T -> bool)
    ensures Filter(s + t, p) == Filter(s, p) + Filter(t, p)
    decreases |s|
  {
    if s == [] {
      assert s + t == t;
    } else {
      var u := s + t;
      assert u[0] == s[0];
      assert u[1..] == s[1..] + t;
      var head := if p(s[0]) then [s[0]] else [];
      var rest := Filter(s[1..] + t, p);
      FilterAppend(s[1..], t, p);
      assert rest == Filter(s[1..], p) + Filter(t, p);
      calc {
        Filter(u, p);
        head + Filter(u[1..], p);
        head + rest;
      }
    }
  }

  /** `s.findIndex(x => key(x) == k)`, with -1 rendered as None. */
  function FirstIndex<T, K(==)>(s: seq<T>, key: T -> K, k: K): (r: Option<nat>)
    ensures r.Some? ==> r.value < |s| && key(s[r.value]) == k
    ensures r.Some? ==> forall j | 0 <= j < r.value :: key(s[j]) != k
    ensures r.None? <==> forall j | 0 <= j < |s| :: key(s[j]) != k
  {
    if s == [] then None
    else if key(s[0]) == k then Some(0)
    else match FirstIndex(s[1..], key, k)
      case None => None
      case Some(i) => Some(i + 1)
  }

  /** `findIndex` on `s + t` finds a match in `s` first, and otherwise the first match in `t`. */
  lemma FirstIndexAppend<T, K>(s: seq<T>, t: seq<T>, key: T -> K, k: K)
    ensures FirstIndex(s + t, key, k)
         == match FirstIndex(s, key, k)
            case Some(i) => Some(i)
            case None => (match FirstIndex(t, key, k)
                          case Some(j) => Some(|s| + j)
                          case None => None)
  {
    var u := s + t;
    assert forall j | 0 <= j < |s| :: u[j] == s[j];
    assert forall j | 0 <= j < |t| :: u[|s| + j] == t[j];
    match FirstIndex(t, key, k)
    case Some(j) =>
    case None =>
      if FirstIndex(s, key, k).None? {
        assert forall j | 0 <= j < |u| :: key(u[j]) != k by {
          forall j | 0 <= j < |u| ensures key(u[j]) != k {
            if j >= |s| {
              assert u[j] == t[j - |s|];
            }
          }
        }
      }
  }

  /** Replacing the first match by an element with the same key keeps it the first match;
      for any other key nothing moves. */
  lemma FirstIndexReplace<T, K>(s: seq<T>, key: T -> K, i: nat, x: T, k: K)
    requires i < |s| && FirstIndex(s, key, key(x)) == Some(i)
    ensures FirstIndex(s[i := x], key, key(x)) == Some(i)
    ensures k != key(x) ==> FirstIndex(s[i := x], key, k) == FirstIndex(s, key, k)
  {
    var u := s[i := x];
    assert u[i] == x;
    assert forall m | 0 <= m < i :: u[m] == s[m];
    if k != key(x) {
      match FirstIndex(s, key, k)
      case Some(j) =>
        assert j != i && u[j] == s[j];
        assert forall m | 0 <= m < j :: key(u[m]) != k by {
          forall m | 0 <= m < j ensures key(u[m]) != k {
            if m != i {
              assert u[m] == s[m];
            }
          }
        }
      case None =>
        assert forall m | 0 <= m < |u| :: key(u[m]) != k by {
          forall m | 0 <= m < |u| ensures key(u[m]) != k {
            if m != i {
              assert u[m] == s[m];
            }
          }
        }
    }
  }

  /** `s.splice(i, 1)` leaves every other element, in order. */
  function RemoveAt<T>(s: seq<T>, i: nat): (r: seq<T>)
    requires i < |s|
    ensures |r| == |s| - 1
    ensures forall j | 0 <= j < i :: r[j] == s[j]
    ensures forall j | i <= j < |r| :: r[j] == s[j + 1]
  {
    s[..i] + s[i + 1..]
  }

  /** Removing the first element with key `k` keeps any other element of `s`, and
      the multiset loses exactly that element. */
  lemma RemoveAtMultiset<T>(s: seq<T>, i: nat)
    requires i < |s|
    ensures multiset(RemoveAt(s, i)) == multiset(s) - multiset{s[i]}
  {
    assert s == s[..i] + [s[i]] + s[i + 1..];
    assert multiset(s) == multiset(s[..i]) + multiset{s[i]} + multiset(s[i + 1..]);
  }
}
