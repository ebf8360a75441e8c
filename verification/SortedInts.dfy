/** Sorting a finite set of integers, as sort.Ints over map keys does. */
module SortedInts {
  lemma {:induction false} Pick<T>(keys: set<T>) returns (k: T)
    requires keys != {}
    ensures k in keys
  {
    k :| k in keys;
  }

  lemma {:induction false} LeastExists(keys: set<int>)
    requires keys != {}
    ensures exists m :: m in keys && forall k :: k in keys ==> m <= k
    decreases |keys|
  {
    var k := Pick(keys);
    if keys - {k} != {} {
      LeastExists(keys - {k});
      var m :| m in keys - {k} && forall j :: j in keys - {k} ==> m <= j;
      assert forall j :: j in keys ==> j == k || j in keys - {k};
      var least := if k < m then k else m;
      assert least in keys && forall j :: j in keys ==> least <= j;
    } else {
      assert forall j :: j in keys ==> j == k || j in keys - {k};
      assert k in keys && forall j :: j in keys ==> k <= j;
    }
  }

  /** The least element. */
  ghost function Least(keys: set<int>): (m: int)
    requires keys != {}
    ensures m in keys && forall k :: k in keys ==> m <= k
  {
    LeastExists(keys);
    var m :| m in keys && forall k :: k in keys ==> m <= k;
    m
  }

  ghost predicate Increasing(xs: seq<int>) {
    forall i, j :: 0 <= i < j < |xs| ==> xs[i] < xs[j]
  }

  /** The elements in increasing order. */
  ghost function SortedKeys(keys: set<int>): seq<int>
    decreases |keys|
  {
    if keys == {} then [] else [Least(keys)] + SortedKeys(keys - {Least(keys)})
  }

  lemma {:induction false} InFront(m: int, rest: seq<int>, k: int)
    ensures k in [m] + rest <==> k == m || k in rest
  {
  }

  lemma {:induction false} FrontIncreases(m: int, rest: seq<int>)
    requires Increasing(rest) && forall k :: k in rest ==> m < k
    ensures Increasing([m] + rest)
  {
    forall i, j | 0 <= i < j < |[m] + rest|
      ensures ([m] + rest)[i] < ([m] + rest)[j]
    {
      assert rest[j - 1] in rest;
    }
  }

  /** It is increasing and lists exactly the keys. */
  lemma {:induction false} SortedIsListing(keys: set<int>)
    ensures Increasing(SortedKeys(keys)) && forall k :: k in keys <==> k in SortedKeys(keys)
    decreases |keys|
  {
    if keys == {} {
      assert SortedKeys(keys) == [];
    } else {
      var m := Least(keys);
      var others, rest := keys - {m}, SortedKeys(keys - {m});
      SortedIsListing(others);
      assert SortedKeys(keys) == [m] + rest;
      hide Increasing, SortedKeys;
      forall k | k in rest
        ensures m < k
      {
        assert k in others;
      }
      FrontIncreases(m, rest);
      forall k
        ensures k in keys <==> k in [m] + rest
      {
        InFront(m, rest, k);
        assert k in rest <==> k in others;
      }
    }
  }

  /** Any increasing sequence of the keys is the sorted one. */
  lemma {:induction false} SortedIsUnique(keys: set<int>, xs: seq<int>)
    requires Increasing(xs) && forall k :: k in keys <==> k in xs
    ensures SortedKeys(keys) == xs
    decreases |xs|
  {
    assert |xs| > 0 ==> xs[0] in xs;
    if keys == {} {
    } else {
      assert Least(keys) in xs;
      assert xs[0] in xs;
      assert Least(keys) == xs[0];
      assert forall k :: k in keys - {xs[0]} <==> k in xs[1..] by {
        forall k
          ensures k in keys - {xs[0]} <==> k in xs[1..]
        {
          assert k in xs <==> k == xs[0] || k in xs[1..];
        }
      }
      SortedIsUnique(keys - {xs[0]}, xs[1..]);
    }
  }
}
