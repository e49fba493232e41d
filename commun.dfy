// Shared vocabulary of the maze model: optional values, error results,
// integer coordinates, distinct sequences and the shuffle that stands for
// Python's `random.sample` / `random.shuffle`.

module Commun {

  datatype Option<T> = None | Some(value: T)

  datatype Result<T, E> = Success(value: T) | Failure(error: E)

  /** A cell position (abscissa, ordinate); the ordinate grows downwards. */
  type Coord = (int, int)

  function Ajouter(a: Coord, b: Coord): Coord
  {
    (a.0 + b.0, a.1 + b.1)
  }

  /** No element occurs twice. */
  predicate Distinct<T(==)>(s: seq<T>)
  {
    forall i, j :: 0 <= i < j < |s| ==> s[i] != s[j]
  }

  function Ensemble<T>(s: seq<T>): set<T>
  {
    set x | x in s
  }

  /** A permutation of a sequence without repetition has none either. */
  lemma DistinctPermutation<T>(a: seq<T>, b: seq<T>)
    requires Distinct(a) && multiset(a) == multiset(b)
    ensures Distinct(b)
  {
    forall i, j | 0 <= i < j < |b|
      ensures b[i] != b[j]
    {
      if b[i] == b[j] {
        var x := b[i];
        assert multiset(b)[x] >= 2 by {
          assert b == b[..i] + [x] + b[i + 1..j] + [x] + b[j + 1..];
        }
        MultiplicityDistinct(a, x);
      }
    }
  }

  lemma {:induction false} MultiplicityDistinct<T>(a: seq<T>, x: T)
    requires Distinct(a)
    ensures multiset(a)[x] <= 1
  {
    if a != [] {
      assert a == [a[0]] + a[1..];
      assert Distinct(a[1..]) by {
        forall i, j | 0 <= i < j < |a[1..]| ensures a[1..][i] != a[1..][j] {
          assert a[1..][i] == a[i + 1] && a[1..][j] == a[j + 1];
        }
      }
      MultiplicityDistinct(a[1..], x);
      if a[0] == x {
        assert x !in a[1..] by {
          forall k | 0 <= k < |a[1..]| ensures a[1..][k] != x { assert a[1..][k] == a[k + 1]; }
        }
      }
    }
  }

  /** Removing one element from a sequence (Python's `list.remove` of an element
      that occurs once). */
  function Retirer<T(==)>(s: seq<T>, x: T): (r: seq<T>)
    ensures forall y :: y in r ==> y in s
  {
    if s == [] then []
    else
      assert s == [s[0]] + s[1..];
      if s[0] == x then s[1..] else [s[0]] + Retirer(s[1..], x)
  }

  /** `remove` takes away one occurrence of the element, and nothing else. */
  lemma {:induction false} RetirerMultiset<T>(s: seq<T>, x: T)
    ensures multiset(Retirer(s, x)) == multiset(s) - multiset{x}
  {
    if s != [] {
      assert s == [s[0]] + s[1..];
      RetirerMultiset(s[1..], x);
    }
  }

  /** Removing an element from a list without repetition removes exactly
      that element and keeps the list without repetition. */
  lemma {:induction false} RetirerDistinct<T>(s: seq<T>, x: T)
    requires Distinct(s)
    ensures Distinct(Retirer(s, x))
    ensures forall y :: y in Retirer(s, x) <==> y in s && y != x
    ensures |Retirer(s, x)| == if x in s then |s| - 1 else |s|
  {
    if s != [] {
      assert Distinct(s[1..]) by {
        forall i, j | 0 <= i < j < |s[1..]| ensures s[1..][i] != s[1..][j] {
          assert s[1..][i] == s[i + 1] && s[1..][j] == s[j + 1];
        }
      }
      assert s[0] !in s[1..] by {
        forall k | 0 <= k < |s[1..]| ensures s[1..][k] != s[0] { assert s[1..][k] == s[k + 1]; }
      }
      RetirerDistinct(s[1..], x);
      assert forall y :: y in s <==> y == s[0] || y in s[1..] by {
        assert s == [s[0]] + s[1..];
      }
      if s[0] != x {
        var r := Retirer(s[1..], x);
        assert Retirer(s, x) == [s[0]] + r;
        forall i, j | 0 <= i < j < |[s[0]] + r| ensures ([s[0]] + r)[i] != ([s[0]] + r)[j] {
          if i > 0 {
            assert ([s[0]] + r)[i] == r[i - 1];
          }
          assert ([s[0]] + r)[j] == r[j - 1];
        }
      }
    }
  }

  /** Listing the elements of a finite set, in some order (iterating over a
      dictionary's keys). */
  method Enumerer<T>(s: set<T>) returns (r: seq<T>)
    ensures Ensemble(r) == s && Distinct(r)
  {
    var reste := s;
    r := [];
    while reste != {}
      invariant Ensemble(r) + reste == s && Ensemble(r) !! reste && Distinct(r)
      decreases |reste|
    {
      var x :| x in reste;
      r := r + [x];
      reste := reste - {x};
    }
  }

  /** `random.sample(s, len(s))` and `random.shuffle(s)`: an arbitrary
      permutation, built by Fisher-Yates with an arbitrary index at each step. */
  method Melanger<T>(s: seq<T>) returns (r: seq<T>)
    ensures multiset(r) == multiset(s)
  {
    var reste := s;
    r := [];
    while reste != []
      invariant multiset(r) + multiset(reste) == multiset(s)
      decreases |reste|
    {
      var i :| 0 <= i < |reste|;
      assert reste == reste[..i] + [reste[i]] + reste[i + 1..];
      r := r + [reste[i]];
      reste := reste[..i] + reste[i + 1..];
    }
  }
}
