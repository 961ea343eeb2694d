/**
 * What the front-end store's reducers have in common: the array
 * operations they apply to `items` (`findIndex`, replace at that index,
 * `filter`), the pagination record and the rejected-thunk error message.
 */
module Reducers {
  import opened Outcomes
  import Paging

  /** `findIndex`: the first position whose element satisfies `p`, or -1. */
  function FindIndex<T>(s: seq<T>, p: T -> bool): (r: int)
    ensures -1 <= r < |s|
    ensures r == -1 <==> forall i :: 0 <= i < |s| ==> !p(s[i])
    ensures r >= 0 ==> p(s[r]) && forall j :: 0 <= j < r ==> !p(s[j])
    decreases |s|
  {
    if s == [] then -1
    else if p(s[0]) then 0
    else
      var k := FindIndex(s[1..], p);
      assert forall j :: 1 <= j < |s| ==> s[j] == s[1..][j - 1];
      if k == -1 then -1 else k + 1
  }

  /** Put `x` in place of the first element satisfying `p`; without one nothing changes. */
  function ReplaceFirst<T>(s: seq<T>, p: T -> bool, x: T): (r: seq<T>)
    ensures |r| == |s|
    ensures (forall i :: 0 <= i < |s| ==> !p(s[i])) ==> r == s
    ensures (exists i :: 0 <= i < |s| && p(s[i])) ==>
      exists k :: 0 <= k < |s| && p(s[k]) && (forall j :: 0 <= j < k ==> !p(s[j])) && r == s[k := x]
  {
    var k := FindIndex(s, p);
    if k == -1 then s else s[k := x]
  }

  /** `filter` with the negation of `p`: drop every element satisfying `p`, keeping the rest in order. */
  function FilterOut<T>(s: seq<T>, p: T -> bool): (r: seq<T>)
    ensures |r| <= |s|
    ensures forall i :: 0 <= i < |r| ==> r[i] in s && !p(r[i])
    ensures forall i :: 0 <= i < |s| && !p(s[i]) ==> s[i] in r
    decreases |s|
  {
    if s == [] then []
    else (if p(s[0]) then [] else [s[0]]) + FilterOut(s[1..], p)
  }

  /** Filtering works piece by piece, so the survivors keep their relative order. */
  lemma {:induction false} FilterOutAppend<T>(a: seq<T>, b: seq<T>, p: T -> bool)
    ensures FilterOut(a + b, p) == FilterOut(a, p) + FilterOut(b, p)
    decreases |a|
  {
    if a == [] {
      assert a + b == b;
    } else {
      var t := a[1..];
      var head := if p(a[0]) then [] else [a[0]];
      assert (a + b)[0] == a[0] && (a + b)[1..] == t + b;
      calc {
        FilterOut(a + b, p);
        head + FilterOut(t + b, p);
        { FilterOutAppend(t, b, p); }
        head + (FilterOut(t, p) + FilterOut(b, p));
        (head + FilterOut(t, p)) + FilterOut(b, p);
        FilterOut(a, p) + FilterOut(b, p);
      }
    }
  }

  /** With nothing to drop, filtering is the identity. */
  lemma {:induction false} FilterOutNothing<T>(s: seq<T>, p: T -> bool)
    requires forall i :: 0 <= i < |s| ==> !p(s[i])
    ensures FilterOut(s, p) == s
    decreases |s|
  {
    if s != [] {
      FilterOutNothing(s[1..], p);
    }
  }

  /** `state.pagination`: the six page fields of a page response. */
  datatype PaginationInfo = PaginationInfo(page: int, size: int, totalElements: int, totalPages: int, first: bool, last: bool)

  function PaginationOf<T>(r: Paging.PageResponse<T>): (info: PaginationInfo)
    ensures info.page == r.page && info.size == r.size && info.totalElements == r.totalElements
    ensures info.totalPages == r.totalPages && info.first == r.first && info.last == r.last
  {
    PaginationInfo(r.page, r.size, r.totalElements, r.totalPages, r.first, r.last)
  }

  /** `action.error.message || fallback`: a missing or empty message falls back. */
  function ErrorMessage(message: Option<string>, fallback: string): (e: string)
    ensures message.Some? && message.value != "" ==> e == message.value
    ensures message.None? || message.value == "" ==> e == fallback
  {
    if message.Some? && message.value != "" then message.value else fallback
  }
}
