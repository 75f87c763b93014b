/** Small sequence helpers shared by every part of the model. */
module Seqs {

  datatype Option<T> = None | Some(value: T)

  /** Array.prototype.filter: the elements that `keep` accepts, in their original order
      (`FilterIsSublist` states that order and multiplicity exactly). */
  function Filter<T>(s: seq<T>, keep: T -> bool): (r: seq<T>)
    ensures |r| <= |s|
    ensures forall i :: 0 <= i < |r| ==> r[i] in s && keep(r[i])
    ensures forall i :: 0 <= i < |s| && keep(s[i]) ==> s[i] in r
    decreases |s|
  {
    if s == [] then []
    else (if keep(s[0]) then [s[0]] else []) + Filter(s[1..], keep)
  }

  /** The positions from `lo` on whose elements `keep` accepts, in increasing order. */
  function KeptFrom<T>(s: seq<T>, keep: T -> bool, lo: nat): (idx: seq<nat>)
    requires lo <= |s|
    ensures forall i :: 0 <= i < |idx| ==> lo <= idx[i] < |s| && keep(s[idx[i]])
    ensures forall i, j :: 0 <= i < j < |idx| ==> idx[i] < idx[j]
    decreases |s| - lo
  {
    if lo == |s| then []
    else (if keep(s[lo]) then [lo] else []) + KeptFrom(s, keep, lo + 1)
  }

  /** The positions of `s` whose elements `keep` accepts, in increasing order (`KeptCovers`: every
      such position is there). */
  function Kept<T>(s: seq<T>, keep: T -> bool): (idx: seq<nat>)
    ensures forall i :: 0 <= i < |idx| ==> idx[i] < |s| && keep(s[idx[i]])
    ensures forall i, j :: 0 <= i < j < |idx| ==> idx[i] < idx[j]
  {
    KeptFrom(s, keep, 0)
  }

  lemma {:induction false} KeptFromCovers<T>(s: seq<T>, keep: T -> bool, lo: nat)
    requires lo <= |s|
    ensures forall k :: lo <= k < |s| && keep(s[k]) ==> k in KeptFrom(s, keep, lo)
    decreases |s| - lo
  {
    if lo < |s| {
      KeptFromCovers(s, keep, lo + 1);
    }
  }

  /** No accepted position is missed: together with the ensures of `Kept`, its result is exactly
      the accepted positions, each once, in increasing order. */
  lemma KeptCovers<T>(s: seq<T>, keep: T -> bool)
    ensures forall k :: 0 <= k < |s| && keep(s[k]) ==> k in Kept(s, keep)
  {
    KeptFromCovers(s, keep, 0);
  }

  /** The filter is the order-preserving sublist of `s` at the positions `Kept` selects: as many
      elements as accepted positions, the i-th being the element at the i-th such position. */
  lemma FilterIsSublist<T>(s: seq<T>, keep: T -> bool)
    ensures |Filter(s, keep)| == |Kept(s, keep)|
    ensures forall i :: 0 <= i < |Filter(s, keep)| ==> Filter(s, keep)[i] == s[Kept(s, keep)[i]]
  {
    assert s[0..] == s;
    FilterFrom(s, keep, 0);
  }

  lemma {:induction false} FilterFrom<T>(s: seq<T>, keep: T -> bool, lo: nat)
    requires lo <= |s|
    ensures var r := Filter(s[lo..], keep);
            var idx := KeptFrom(s, keep, lo);
            |r| == |idx| && forall i :: 0 <= i < |r| ==> r[i] == s[idx[i]]
    decreases |s| - lo
  {
    if lo < |s| {
      assert s[lo..][0] == s[lo];
      assert s[lo..][1..] == s[lo + 1..];
      FilterFrom(s, keep, lo + 1);
    }
  }

  /** Filtering distributes over concatenation, so the kept elements keep their relative order. */
  lemma {:induction false} FilterAppend<T>(a: seq<T>, b: seq<T>, keep: T -> bool)
    ensures Filter(a + b, keep) == Filter(a, keep) + Filter(b, keep)
    decreases |a|
  {
    if a == [] {
      assert a + b == b;
    } else {
      assert (a + b)[0] == a[0];
      assert (a + b)[1..] == a[1..] + b;
      FilterAppend(a[1..], b, keep);
    }
  }

  /** When `keep` accepts every element, the filter returns the sequence unchanged. */
  lemma {:induction false} FilterKeepsAll<T>(s: seq<T>, keep: T -> bool)
    requires forall i :: 0 <= i < |s| ==> keep(s[i])
    ensures Filter(s, keep) == s
    decreases |s|
  {
    if s != [] {
      FilterKeepsAll(s[1..], keep);
    }
  }

  /** When `keep` rejects every element, the filter is empty. */
  lemma {:induction false} FilterKeepsNone<T>(s: seq<T>, keep: T -> bool)
    requires forall i :: 0 <= i < |s| ==> !keep(s[i])
    ensures Filter(s, keep) == []
    decreases |s|
  {
    if s != [] {
      FilterKeepsNone(s[1..], keep);
    }
  }

  /** `Array.prototype.filter((_, i) => i !== index)`: drops the element at `index`; any other index changes nothing. */
  function RemoveAt<T>(s: seq<T>, index: int): (r: seq<T>)
    ensures 0 <= index < |s| ==> r == s[..index] + s[index + 1..]
    ensures !(0 <= index < |s|) ==> r == s
    decreases |s|
  {
    if s == [] then []
    else (if index == 0 then [] else [s[0]]) + RemoveAt(s[1..], index - 1)
  }
}
