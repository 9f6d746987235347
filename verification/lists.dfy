/**
 * The array operations the stores are written with: `filter`, `find` by a key,
 * and `map` that swaps the elements with a given key.  A key is a named
 * function such as `Models.ProductId`.
 */
module Lists {
  import opened Wrappers

  /** `s.filter(keep)`. */
  function Filter<T>(s: seq<T>, keep: T -> bool): (r: seq<T>)
    ensures |r| <= |s|
    ensures forall x :: x in r ==> x in s && keep(x)
    ensures forall x :: x in s && keep(x) ==> x in r
  {
    if s == [] then []
    else if keep(s[0]) then [s[0]] + Filter(s[1..], keep)
    else Filter(s[1..], keep)
  }

  /** Filtering keeps each kept element as often as it occurs, and drops the others entirely. */
  lemma {:induction false} FilterCounts<T>(s: seq<T>, keep: T -> bool)
    ensures forall i :: 0 <= i < |s| ==>
              multiset(Filter(s, keep))[s[i]] == if keep(s[i]) then multiset(s)[s[i]] else 0
  {
    if s != [] {
      var rest := Filter(s[1..], keep);
      FilterCounts(s[1..], keep);
      assert s == [s[0]] + s[1..];
      assert multiset(s) == multiset{s[0]} + multiset(s[1..]);
      if keep(s[0]) {
        assert Filter(s, keep) == [s[0]] + rest;
        assert multiset(Filter(s, keep)) == multiset{s[0]} + multiset(rest);
      } else {
        assert Filter(s, keep) == rest;
      }
      forall i | 0 <= i < |s|
        ensures multiset(Filter(s, keep))[s[i]] == if keep(s[i]) then multiset(s)[s[i]] else 0
      {
        if s[i] !in s[1..] {
          assert s[i] == s[0];
          assert multiset(s[1..])[s[i]] == 0;
          assert multiset(rest)[s[i]] == 0;
        } else {
          var j :| 0 <= j < |s[1..]| && s[1..][j] == s[i];
        }
      }
    }
  }

  /** Filtering keeps the relative order: it works piece by piece. */
  lemma {:induction false} FilterAppend<T>(a: seq<T>, b: seq<T>, keep: T -> bool)
    ensures Filter(a + b, keep) == Filter(a, keep) + Filter(b, keep)
  {
    if a == [] {
      assert a + b == b;
    } else {
      var c := a + b;
      assert c != [] && c[0] == a[0] && c[1..] == a[1..] + b;
      FilterAppend(a[1..], b, keep);
      if keep(a[0]) {
        assert Filter(c, keep) == [a[0]] + Filter(a[1..] + b, keep);
        assert Filter(a, keep) == [a[0]] + Filter(a[1..], keep);
      } else {
        assert Filter(c, keep) == Filter(a[1..] + b, keep);
        assert Filter(a, keep) == Filter(a[1..], keep);
      }
    }
  }

  /** When every element is kept, filtering changes nothing. */
  lemma {:induction false} FilterKeepsAll<T>(s: seq<T>, keep: T -> bool)
    requires forall i :: 0 <= i < |s| ==> keep(s[i])
    ensures Filter(s, keep) == s
  {
    if s != [] {
      FilterKeepsAll(s[1..], keep);
    }
  }

  /** `s.find(x => key(x) === k)`: the first element whose key is `k`. */
  function FindKey<T>(s: seq<T>, key: T -> string, k: string): (r: Option<T>)
    ensures r.None? <==> forall i :: 0 <= i < |s| ==> key(s[i]) != k
    ensures r.Some? ==> r.value in s && key(r.value) == k
    ensures forall i :: 0 <= i < |s| && key(s[i]) == k && (forall j :: 0 <= j < i ==> key(s[j]) != k)
              ==> r == Some(s[i])
  {
    if s == [] then None
    else if key(s[0]) == k then Some(s[0])
    else
      var r := FindKey(s[1..], key, k);
      assert forall i :: 1 <= i < |s| ==> s[1..][i - 1] == s[i];
      r
  }

  /** `s.map(x => key(x) === k ? v : x)`: every entry with the key becomes `v`, the others stay in place. */
  function ReplaceKey<T>(s: seq<T>, key: T -> string, k: string, v: T): (r: seq<T>)
    ensures |r| == |s|
    ensures forall i :: 0 <= i < |s| && key(s[i]) != k ==> r[i] == s[i]
    ensures forall i :: 0 <= i < |s| && key(s[i]) == k ==> r[i] == v
  {
    seq(|s|, i requires 0 <= i < |s| => if key(s[i]) == k then v else s[i])
  }

  /** Replacing a key nobody has leaves the list as it was. */
  lemma ReplaceAbsentKey<T>(s: seq<T>, key: T -> string, k: string, v: T)
    requires forall i :: 0 <= i < |s| ==> key(s[i]) != k
    ensures ReplaceKey(s, key, k, v) == s
  {
  }

  /**
   * After replacing the elements with key `k` by `v` (which has that key),
   * looking `k` up finds `v`, provided it was there to replace.
   */
  lemma FindAfterReplace<T>(s: seq<T>, key: T -> string, k: string, v: T)
    requires key(v) == k
    ensures FindKey(ReplaceKey(s, key, k, v), key, k)
            == if FindKey(s, key, k).Some? then Some(v) else None
  {
    var r := ReplaceKey(s, key, k, v);
    if FindKey(s, key, k).Some? {
      var i :| 0 <= i < |s| && key(s[i]) == k;
      var first := FirstIndexOf(s, key, k, i);
      assert r[first] == v;
      assert forall j :: 0 <= j < first ==> r[j] == s[j];
      assert forall j :: 0 <= j < first ==> key(r[j]) != k;
    } else {
      ReplaceAbsentKey(s, key, k, v);
    }
  }

  /** The index of the first element with key `k`, given that `i` has it. */
  function FirstIndexOf<T>(s: seq<T>, key: T -> string, k: string, i: nat): (f: nat)
    requires i < |s| && key(s[i]) == k
    ensures f <= i && key(s[f]) == k
    ensures forall j :: 0 <= j < f ==> key(s[j]) != k
  {
    if key(s[0]) == k then 0
    else 1 + FirstIndexOf(s[1..], key, k, i - 1)
  }

  /** `s.filter(x => key(x) !== k)`. */
  function RemoveKey<T>(s: seq<T>, key: T -> string, k: string): (r: seq<T>)
    ensures forall i :: 0 <= i < |r| ==> key(r[i]) != k
    ensures forall x :: x in r ==> x in s
    ensures forall x :: x in s && key(x) != k ==> x in r
  {
    var r := Filter(s, x => key(x) != k);
    assert forall i :: 0 <= i < |r| ==> r[i] in r;
    r
  }

  /** After removing the key `k`, finding `k` gives nothing. */
  lemma FindAfterRemove<T>(s: seq<T>, key: T -> string, k: string)
    ensures FindKey(RemoveKey(s, key, k), key, k) == None
  {
  }

  /** Appending an element whose key is new makes it the one found for that key. */
  lemma FindAppended<T>(s: seq<T>, key: T -> string, x: T)
    requires forall i :: 0 <= i < |s| ==> key(s[i]) != key(x)
    ensures FindKey(s + [x], key, key(x)) == Some(x)
  {
    var t := s + [x];
    assert t[|s|] == x;
    assert forall j :: 0 <= j < |s| ==> t[j] == s[j];
  }

  /** Prepending puts the element first in line for its key. */
  lemma FindPrepended<T>(s: seq<T>, key: T -> string, x: T)
    ensures FindKey([x] + s, key, key(x)) == Some(x)
  {
    assert ([x] + s)[0] == x;
  }

  /** `s.filter((_, i) => i !== index)`: drops position `index` when there is one. */
  function RemoveAt<T>(s: seq<T>, index: int): (r: seq<T>)
    ensures 0 <= index < |s| ==> |r| == |s| - 1
    ensures 0 <= index < |s| ==> forall i :: 0 <= i < index ==> r[i] == s[i]
    ensures 0 <= index < |s| ==> forall i :: index <= i < |r| ==> r[i] == s[i + 1]
    ensures !(0 <= index < |s|) ==> r == s
  {
    if 0 <= index < |s| then s[..index] + s[index + 1..] else s
  }

  /** Removing position `index` leaves the parts before and after it, joined. */
  lemma RemoveAtSplits<T>(s: seq<T>, index: int)
    requires 0 <= index < |s|
    ensures s == s[..index] + [s[index]] + s[index + 1..]
    ensures RemoveAt(s, index) == s[..index] + s[index + 1..]
  {
    assert s == s[..index] + s[index..];
    assert s[index..] == [s[index]] + s[index + 1..];
  }
}
