/**
 * The integer side of `cluster_text_chunks` in blog_generator.py: the
 * empty-input error, the number of clusters and the ascending sort of the
 * representative indices. k-means training and the nearest-neighbour search
 * work on floating point and are one parameter, `search`, which receives the
 * vectors and the cluster count and returns the index of the vector nearest
 * each centroid (or the error the library raised).
 */
module Clustering {
  import opened PyValues

  const MaxClusters: int := 10

  const NoEmbeddings: PyError := PyError(ValueError, "No valid embeddings to process.")

  /** `min(num_points // 3, 10)`. */
  function ClusterCount(n: nat): (k: nat)
    ensures k <= MaxClusters && 3 * k <= n
    ensures k == MaxClusters || n < 3 * (k + 1)
    ensures k == 0 <==> n < 3
  {
    if n / 3 <= MaxClusters then n / 3 else MaxClusters
  }

  predicate Sorted(s: seq<int>) {
    forall i, j :: 0 <= i < j < |s| ==> s[i] <= s[j]
  }

  /** `x` placed before the first element not smaller than it. */
  function Insert(x: int, s: seq<int>): seq<int>
    decreases |s|
  {
    if s == [] || x <= s[0] then [x] + s else [s[0]] + Insert(x, s[1..])
  }

  /** Inserting into a sorted list keeps it sorted, adds exactly `x`, and puts the smaller of `x` and the old head first. */
  lemma InsertFacts(x: int, s: seq<int>)
    requires Sorted(s)
    ensures Sorted(Insert(x, s))
    ensures multiset(Insert(x, s)) == multiset(s) + multiset{x}
    ensures |Insert(x, s)| == |s| + 1
    ensures Insert(x, s)[0] == (if s == [] || x <= s[0] then x else s[0])
  {
    InsertSorted(x, s);
    InsertPerm(x, s);
  }

  lemma {:induction false} InsertSorted(x: int, s: seq<int>)
    requires Sorted(s)
    ensures |Insert(x, s)| == |s| + 1
    ensures Sorted(Insert(x, s))
    ensures Insert(x, s)[0] == (if s == [] || x <= s[0] then x else s[0])
    decreases |s|
  {
    if s != [] && x > s[0] {
      var t := Insert(x, s[1..]);
      assert Sorted(s[1..]) by {
        forall i, j | 0 <= i < j < |s[1..]| ensures s[1..][i] <= s[1..][j] {
          assert s[1..][i] == s[i + 1] && s[1..][j] == s[j + 1];
        }
      }
      InsertSorted(x, s[1..]);
      assert s[0] <= t[0] by {
        if s[1..] != [] { assert s[1..][0] == s[1]; }
      }
      var r := [s[0]] + t;
      assert Insert(x, s) == r;
      forall i, j | 0 <= i < j < |r| ensures r[i] <= r[j] {
        if i == 0 {
          assert t[0] <= t[j - 1];
        } else {
          assert r[i] == t[i - 1] && r[j] == t[j - 1];
        }
      }
    }
  }

  lemma {:induction false} InsertPerm(x: int, s: seq<int>)
    ensures multiset(Insert(x, s)) == multiset(s) + multiset{x}
    decreases |s|
  {
    if s != [] && x > s[0] {
      InsertPerm(x, s[1..]);
      assert s == [s[0]] + s[1..];
      assert Insert(x, s) == [s[0]] + Insert(x, s[1..]);
    }
  }

  /** `np.sort`: the same values in ascending order. */
  function Sort(s: seq<int>): (r: seq<int>)
    ensures Sorted(r) && multiset(r) == multiset(s)
    decreases |s|
  {
    if s == [] then []
    else
      assert s == [s[0]] + s[1..];
      InsertFacts(s[0], Sort(s[1..]));
      Insert(s[0], Sort(s[1..]))
  }

  /** A sorted permutation is unique: sorting is determined by the multiset of values. */
  lemma {:induction false} SortedUnique(a: seq<int>, b: seq<int>)
    requires Sorted(a) && Sorted(b) && multiset(a) == multiset(b)
    ensures a == b
    decreases |a|
  {
    if a != [] {
      assert |b| == |a| by { assert |multiset(a)| == |multiset(b)|; }
      assert a[0] == b[0] by {
        assert a[0] in multiset(b);
        assert b[0] in multiset(a);
        var i :| 0 <= i < |b| && b[i] == a[0];
        var j :| 0 <= j < |a| && a[j] == b[0];
        assert b[0] <= b[i] && a[0] <= a[j];
      }
      assert a == [a[0]] + a[1..];
      assert b == [b[0]] + b[1..];
      assert multiset(a) == multiset{a[0]} + multiset(a[1..]);
      assert multiset(b) == multiset{b[0]} + multiset(b[1..]);
      var ma, mb := multiset(a[1..]), multiset(b[1..]);
      forall v ensures ma[v] == mb[v] {
        assert multiset(a)[v] == multiset{a[0]}[v] + ma[v];
        assert multiset(b)[v] == multiset{a[0]}[v] + mb[v];
      }
      assert ma == mb;
      SortedUnique(a[1..], b[1..]);
    }
  }

  /** Sorting an already sorted list changes nothing, so sorting twice is sorting once. */
  lemma SortIdempotent(s: seq<int>)
    ensures Sort(Sort(s)) == Sort(s)
  {
    SortedUnique(Sort(Sort(s)), Sort(s));
  }

  /** `cluster_text_chunks`: reject no input, then sort the representatives the search returns. */
  function ClusterTextChunks(embeddings: seq<seq<real>>, search: (seq<seq<real>>, nat) -> Result<seq<int>>): (r: Result<seq<int>>)
    ensures embeddings == [] ==> r == Err(NoEmbeddings)
    ensures embeddings != [] && search(embeddings, ClusterCount(|embeddings|)).Err? ==>
      r == search(embeddings, ClusterCount(|embeddings|))
    ensures embeddings != [] && search(embeddings, ClusterCount(|embeddings|)).Ok? ==>
      r.Ok? && Sorted(r.value) && multiset(r.value) == multiset(search(embeddings, ClusterCount(|embeddings|)).value)
  {
    if embeddings == [] then Err(NoEmbeddings)
    else
      match search(embeddings, ClusterCount(|embeddings|))
      case Err(e) => Err(e)
      case Ok(nearest) => Ok(Sort(nearest))
  }
}
