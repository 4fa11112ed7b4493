/** `ORDER BY key DESC` on rows whose key is an id: an insertion sort on
    sequences, proved to return a descending permutation of its input. */
module Sorting {
  import opened Strings

  /** No row has a larger key than a row before it. */
  ghost predicate SortedDesc<T>(s: seq<T>, key: T -> string)
  {
    forall i, j :: 0 <= i < j < |s| ==> !Less(key(s[i]), key(s[j]))
  }

  /** A row no smaller than any row of a sorted sequence may go first. */
  lemma ConsSorted<T>(y: T, s: seq<T>, key: T -> string)
    requires SortedDesc(s, key)
    requires forall i :: 0 <= i < |s| ==> !Less(key(y), key(s[i]))
    ensures SortedDesc([y] + s, key)
  {
    var r := [y] + s;
    forall i, j | 0 <= i < j < |r| ensures !Less(key(r[i]), key(r[j])) {
      assert r[j] == s[j - 1];
      if i > 0 {
        assert r[i] == s[i - 1];
      }
    }
  }

  /** A row larger than the first row of a sorted sequence is larger than
      each of its rows. */
  lemma AboveHead<T>(x: T, s: seq<T>, key: T -> string)
    requires SortedDesc(s, key) && s != [] && Less(key(s[0]), key(x))
    ensures forall j :: 0 <= j < |s| ==> !Less(key(x), key(s[j]))
  {
    forall j | 0 <= j < |s| ensures !Less(key(x), key(s[j])) {
      if Less(key(x), key(s[j])) {
        LessTransitive(key(s[0]), key(x), key(s[j]));
        if j == 0 { LessIrreflexive(key(s[0])); }
      }
    }
  }

  function InsertDesc<T>(x: T, s: seq<T>, key: T -> string): (r: seq<T>)
    requires SortedDesc(s, key)
    ensures SortedDesc(r, key)
    ensures multiset(r) == multiset(s) + multiset{x}
    ensures |r| == |s| + 1
    ensures forall i :: 0 <= i < |r| ==> r[i] == x || r[i] in s
  {
    if s == [] then [x]
    else if Less(key(s[0]), key(x)) then
      AboveHead(x, s, key);
      ConsSorted(x, s, key);
      [x] + s
    else
      assert SortedDesc(s[1..], key);
      var rest := InsertDesc(x, s[1..], key);
      assert forall i :: 0 <= i < |rest| ==> !Less(key(s[0]), key(rest[i])) by {
        forall i | 0 <= i < |rest| ensures !Less(key(s[0]), key(rest[i])) {
          if rest[i] != x {
            var j :| 0 <= j < |s[1..]| && s[1..][j] == rest[i];
            assert s[j + 1] == rest[i];
          }
        }
      }
      ConsSorted(s[0], rest, key);
      assert s == [s[0]] + s[1..];
      [s[0]] + rest
  }

  /** The rows ordered by key, largest first. */
  function SortDesc<T>(s: seq<T>, key: T -> string): (r: seq<T>)
    ensures SortedDesc(r, key)
    ensures multiset(r) == multiset(s)
    ensures |r| == |s|
    ensures forall i :: 0 <= i < |r| ==> r[i] in s
  {
    if s == [] then []
    else
      assert s == [s[0]] + s[1..];
      InsertDesc(s[0], SortDesc(s[1..], key), key)
  }

  /** `LIMIT n`: the first `n` rows, or all of them. */
  function Take<T>(s: seq<T>, n: nat): (r: seq<T>)
    ensures |r| == if n < |s| then n else |s|
    ensures r == s[..|r|]
    ensures forall i :: 0 <= i < |r| ==> r[i] == s[i]
  {
    if n < |s| then s[..n] else s
  }

  /** `OFFSET n`: the rows after the first `n`. */
  function Drop<T>(s: seq<T>, n: nat): (r: seq<T>)
    ensures |r| == if n < |s| then |s| - n else 0
    ensures r == s[|s| - |r|..]
  {
    if n < |s| then s[n..] else []
  }

  /** A page of a sorted listing is sorted. */
  lemma SortedPage<T>(s: seq<T>, offset: nat, limit: nat, key: T -> string)
    requires SortedDesc(s, key)
    ensures SortedDesc(Take(Drop(s, offset), limit), key)
  {
    var page := Drop(s, offset);
    var r := Take(page, limit);
    var lo := |s| - |page|;
    forall i, j | 0 <= i < j < |r| ensures !Less(key(r[i]), key(r[j])) {
      assert r[i] == s[lo + i] && r[j] == s[lo + j];
    }
  }
}
