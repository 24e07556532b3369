/** Python list operations the modelled code relies on. */
module Lists {
  import opened Wrappers

  /** The position of the first element equal to `x`, as `list.index` finds it. */
  function IndexOf<T(==)>(s: seq<T>, x: T): (i: nat)
    requires x in s
    ensures i < |s| && s[i] == x
    ensures forall j :: 0 <= j < i ==> s[j] != x
  {
    if s[0] == x then 0 else 1 + IndexOf(s[1..], x)
  }

  /**
   * `list.remove(x)`: drops the first element equal to `x`; raises ValueError when there is none.
   */
  function RemoveFirst<T(==)>(s: seq<T>, x: T): (r: Result<seq<T>>)
    ensures r.Err? <==> x !in s
    ensures r.Err? ==> r.error == ValueError("list.remove(x): x not in list")
    ensures r.Ok? ==> var i := IndexOf(s, x); r.value == s[..i] + s[i + 1..]
  {
    if x in s then
      var i := IndexOf(s, x);
      Ok(s[..i] + s[i + 1..])
    else
      Err(ValueError("list.remove(x): x not in list"))
  }

  /** Removing one occurrence takes exactly one copy of `x` out of the multiset of elements. */
  lemma RemoveFirstMultiset<T>(s: seq<T>, x: T)
    requires x in s
    ensures RemoveFirst(s, x).Ok?
    ensures multiset(RemoveFirst(s, x).value) == multiset(s) - multiset{x}
    ensures |RemoveFirst(s, x).value| == |s| - 1
  {
    var i := IndexOf(s, x);
    assert s == s[..i] + [s[i]] + s[i + 1..];
  }

  /** All pieces joined end to end. */
  function Flatten<T>(pieces: seq<seq<T>>): (r: seq<T>)
    ensures pieces == [] ==> r == []
  {
    if pieces == [] then [] else Flatten(pieces[..|pieces| - 1]) + pieces[|pieces| - 1]
  }

  lemma {:induction false} FlattenAppend<T>(a: seq<seq<T>>, b: seq<seq<T>>)
    ensures Flatten(a + b) == Flatten(a) + Flatten(b)
    decreases |b|
  {
    if b == [] {
      assert a + b == a;
    } else {
      assert (a + b)[..|a + b| - 1] == a + b[..|b| - 1];
      FlattenAppend(a, b[..|b| - 1]);
    }
  }

  lemma FlattenCons<T>(p: seq<T>, rest: seq<seq<T>>)
    ensures Flatten([p] + rest) == p + Flatten(rest)
  {
    FlattenAppend([p], rest);
    assert [p][..0] == [];
  }

  predicate SortedBy<T>(s: seq<T>, key: T -> int) {
    forall i, j :: 0 <= i < j < |s| ==> key(s[i]) <= key(s[j])
  }

  /** Insert after every element whose key is not larger, so equal keys keep their order. */
  function InsertBy<T>(s: seq<T>, x: T, key: T -> int): (r: seq<T>)
    requires SortedBy(s, key)
    ensures SortedBy(r, key) && multiset(r) == multiset(s) + multiset{x}
  {
    if s == [] then [x]
    else if key(x) < key(s[0]) then [x] + s
    else
      var rest := InsertBy(s[1..], x, key);
      assert s == [s[0]] + s[1..];
      assert SortedBy([s[0]] + rest, key) by {
        forall i | 0 <= i < |rest|
          ensures key(s[0]) <= key(rest[i])
        {
          assert rest[i] in multiset(rest);
          if rest[i] != x {
            assert rest[i] in multiset(s[1..]);
            var j :| 0 <= j < |s[1..]| && s[1..][j] == rest[i];
            assert s[j + 1] == rest[i];
          }
        }
        ConsSorted(s[0], rest, key);
      }
      [s[0]] + rest
  }

  /** A sorted sequence stays sorted under a head whose key is no larger than any of its elements'. */
  lemma ConsSorted<T>(h: T, rest: seq<T>, key: T -> int)
    requires SortedBy(rest, key) && forall i :: 0 <= i < |rest| ==> key(h) <= key(rest[i])
    ensures SortedBy([h] + rest, key)
  {
    forall i, j | 0 <= i < j < |[h] + rest|
      ensures key(([h] + rest)[i]) <= key(([h] + rest)[j])
    {
      if i > 0 {
        assert ([h] + rest)[i] == rest[i - 1];
      }
      assert ([h] + rest)[j] == rest[j - 1];
    }
  }

  /** `list.sort(key=...)`: ascending keys, as a rearrangement of the input. */
  function SortBy<T>(s: seq<T>, key: T -> int): (r: seq<T>)
    ensures SortedBy(r, key) && multiset(r) == multiset(s)
  {
    if s == [] then []
    else
      var r := InsertBy(SortBy(s[..|s| - 1], key), s[|s| - 1], key);
      assert s == s[..|s| - 1] + [s[|s| - 1]];
      r
  }

  /** The last `maxEntries` elements, or all of them when there are no more than that. */
  function KeepLast<T>(s: seq<T>, maxEntries: nat): (r: seq<T>)
    ensures |r| <= maxEntries || r == s
    ensures |s| <= maxEntries ==> r == s
    ensures |s| > maxEntries ==> |r| == maxEntries && forall i :: 0 <= i < |r| ==> r[i] == s[|s| - maxEntries + i]
  {
    if |s| <= maxEntries then s else s[|s| - maxEntries..]
  }

  /** Positions that all index a sequence of length `n`. */
  predicate IndicesWithin(idx: seq<int>, n: int) {
    forall k :: 0 <= k < |idx| ==> 0 <= idx[k] < n
  }

  predicate StrictlyIncreasing(idx: seq<int>) {
    forall j, k :: 0 <= j < k < |idx| ==> idx[j] < idx[k]
  }

  /** `s[indices]` as numpy indexes an array by a list: the elements at the given positions, in the given order. */
  function Select<T>(s: seq<T>, idx: seq<int>): (r: seq<T>)
    requires IndicesWithin(idx, |s|)
    ensures |r| == |idx| && forall k :: 0 <= k < |idx| ==> r[k] == s[idx[k]]
  {
    if idx == [] then [] else [s[idx[0]]] + Select(s, idx[1..])
  }

  /** `list(range(n))`. */
  function Range(n: nat): (r: seq<int>)
    ensures |r| == n && forall i :: 0 <= i < n ==> r[i] == i
  {
    if n == 0 then [] else Range(n - 1) + [n - 1]
  }

  /** A sequence is its part before position i, the element there, and the part after. */
  lemma SplitAround<T>(s: seq<T>, i: nat)
    requires i < |s|
    ensures s == s[..i] + [s[i]] + s[i + 1..]
  {
  }

  /** The prefix one longer is the prefix followed by the next element. */
  lemma PrefixNext<T>(s: seq<T>, i: nat)
    requires i < |s|
    ensures s[..i + 1] == s[..i] + [s[i]]
  {
  }

  lemma InMiddle<T>(a: seq<T>, x: T, b: seq<T>)
    ensures x in a + [x] + b
  {
    assert (a + [x] + b)[|a|] == x;
  }
}
