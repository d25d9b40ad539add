/** The few JavaScript array and string primitives the storefront relies on
    (`filter`, `findIndex`, `includes`), each specified once here so that
    the modules of the source files can state their properties in terms of
    them. */
module Seqs {

  /** `r` keeps some of the elements of `s`, in their original order. */
  predicate IsSubsequence<T(==)>(r: seq<T>, s: seq<T>)
    decreases |s|
  {
    if r == [] then true
    else if s == [] then false
    else (r[0] == s[0] && IsSubsequence(r[1..], s[1..])) || IsSubsequence(r, s[1..])
  }

  /** `Array.prototype.filter`: the elements of `s` satisfying `p`, in order. */
  function Filter<T(==)>(p: T -> bool, s: seq<T>): (r: seq<T>)
    ensures |r| <= |s|
    ensures forall i :: 0 <= i < |r| ==> r[i] in s && p(r[i])
    ensures forall i :: 0 <= i < |s| && p(s[i]) ==> s[i] in r
    ensures IsSubsequence(r, s)
    ensures (forall i :: 0 <= i < |s| ==> p(s[i])) ==> r == s
  {
    if s == [] then []
    else
      var rest := Filter(p, s[1..]);
      if p(s[0]) then
        assert IsSubsequence(([s[0]] + rest)[1..], s[1..]) by {
          assert ([s[0]] + rest)[1..] == rest;
        }
        [s[0]] + rest
      else rest
  }

  /** Filtering keeps every passing element as often as it occurs, and
      no other. */
  lemma {:induction false} FilterCounts<T(!new)>(p: T -> bool, s: seq<T>)
    ensures forall x :: multiset(Filter(p, s))[x] == if p(x) then multiset(s)[x] else 0
  {
    if s != [] {
      FilterCounts(p, s[1..]);
      assert s == [s[0]] + s[1..];
      if p(s[0]) {
        assert Filter(p, s) == [s[0]] + Filter(p, s[1..]);
      }
    }
  }

  /** Filtering twice with the same predicate changes nothing more. */
  lemma {:induction false} FilterIdempotent<T>(p: T -> bool, s: seq<T>)
    ensures Filter(p, Filter(p, s)) == Filter(p, s)
  {
    if s != [] {
      FilterIdempotent(p, s[1..]);
      if p(s[0]) {
        assert ([s[0]] + Filter(p, s[1..]))[1..] == Filter(p, s[1..]);
      }
    }
  }

  /** Filtering distributes over concatenation. */
  lemma {:induction false} FilterAppend<T>(p: T -> bool, a: seq<T>, b: seq<T>)
    ensures Filter(p, a + b) == Filter(p, a) + Filter(p, b)
  {
    if a == [] {
      assert a + b == b;
    } else {
      assert (a + b)[1..] == a[1..] + b;
      FilterAppend(p, a[1..], b);
    }
  }

  /** Two filters in a row keep what the conjunction keeps. */
  lemma {:induction false} FilterFilter<T>(p: T -> bool, q: T -> bool, both: T -> bool, s: seq<T>)
    requires forall x :: both(x) == (p(x) && q(x))
    ensures Filter(q, Filter(p, s)) == Filter(both, s)
  {
    if s != [] {
      FilterFilter(p, q, both, s[1..]);
      if p(s[0]) {
        assert ([s[0]] + Filter(p, s[1..]))[1..] == Filter(p, s[1..]);
      }
    }
  }

  /** The index `Array.prototype.slice` uses for a bound `i` on a list of
      length `n`: a negative bound counts from the end, and the result is
      clamped to 0..n. */
  function SliceBound(i: int, n: nat): (b: nat)
    ensures b <= n
    ensures 0 <= i <= n ==> b == i
    ensures i > n ==> b == n
  {
    if i < 0 then (if n + i < 0 then 0 else n + i)
    else if i > n then n
    else i
  }

  /** `s.slice(start, end)`. */
  function Slice<T>(s: seq<T>, start: int, end: int): seq<T> {
    var a, b := SliceBound(start, |s|), SliceBound(end, |s|);
    if a < b then s[a..b] else []
  }

  /** `Array.prototype.findIndex`: the first index whose element satisfies
      `p`, or -1 when there is none. */
  function FirstIndex<T>(p: T -> bool, s: seq<T>): (r: int)
    ensures -1 <= r < |s|
    ensures r == -1 <==> forall i :: 0 <= i < |s| ==> !p(s[i])
    ensures 0 <= r ==> p(s[r]) && forall j :: 0 <= j < r ==> !p(s[j])
  {
    if s == [] then -1
    else if p(s[0]) then 0
    else
      var k := FirstIndex(p, s[1..]);
      if k == -1 then -1 else k + 1
  }

  /** `String.prototype.length`: the number of UTF-16 code units, so a
      character beyond the Basic Multilingual Plane counts twice. */
  function Utf16Length(s: string): (n: nat)
    ensures |s| <= n <= 2 * |s|
    ensures (forall i :: 0 <= i < |s| ==> s[i] as int <= 0xFFFF) ==> n == |s|
  {
    if s == [] then 0
    else (if s[0] as int > 0xFFFF then 2 else 1) + Utf16Length(s[1..])
  }

  predicate IsPrefix<T(==)>(needle: seq<T>, hay: seq<T>) {
    |needle| <= |hay| && hay[..|needle|] == needle
  }

  /** `needle` occurs in `hay` starting at index `i`. */
  predicate OccursAt<T(==)>(hay: seq<T>, needle: seq<T>, i: int) {
    0 <= i && i + |needle| <= |hay| && hay[i..i + |needle|] == needle
  }

  /** `String.prototype.includes`: `needle` occurs in `hay` as a contiguous run. */
  function Includes<T(==)>(hay: seq<T>, needle: seq<T>): (r: bool)
    ensures r <==> exists i :: OccursAt(hay, needle, i)
  {
    if IsPrefix(needle, hay) then
      assert OccursAt(hay, needle, 0);
      true
    else if hay == [] then false
    else
      var rest := Includes(hay[1..], needle);
      if rest then
        var i :| OccursAt(hay[1..], needle, i);
        assert hay[i + 1..i + 1 + |needle|] == hay[1..][i..i + |needle|];
        assert OccursAt(hay, needle, i + 1);
        true
      else
        assert forall i :: OccursAt(hay, needle, i) ==> OccursAt(hay[1..], needle, i - 1) by {
          forall i | OccursAt(hay, needle, i) ensures OccursAt(hay[1..], needle, i - 1) {
            if i == 0 {
              assert false;
            } else {
              assert hay[1..][i - 1..i - 1 + |needle|] == hay[i..i + |needle|];
            }
          }
        }
        false
  }
}
