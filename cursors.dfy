/** A stand-in for the driver's find cursor: the documents a query matches,
    in store order, and the `skip`/`limit` options chained onto it. The store
    applies skip first and then limit; here both act as sequence slicing. */
module Cursors {
  import opened Wrappers

  /** `s` without its first `n` elements (all of them when `n` is larger). */
  function Drop<T>(s: seq<T>, n: nat): (r: seq<T>)
    ensures |r| == if n <= |s| then |s| - n else 0
    ensures forall i :: 0 <= i < |r| ==> n + i < |s| && r[i] == s[n + i]
  {
    if n <= |s| then s[n..] else []
  }

  /** The first `n` elements of `s` (all of them when `n` is larger). */
  function Take<T>(s: seq<T>, n: nat): (r: seq<T>)
    ensures |r| == if n <= |s| then n else |s|
    ensures forall i :: 0 <= i < |r| ==> r[i] == s[i]
  {
    if n <= |s| then s[..n] else s
  }

  /** One page of `s`: skip `offset` elements, then keep at most `limit`
      of them, or all that remain when there is no limit. */
  function Page<T>(s: seq<T>, offset: nat, limit: Option<nat>): seq<T> {
    var rest := Drop(s, offset);
    if limit.Some? then Take(rest, limit.value) else rest
  }

  /** A page holds exactly the elements of `s` from `offset` on, in order,
      and no more than the limit allows. */
  lemma PageContents<T>(s: seq<T>, offset: nat, limit: Option<nat>)
    ensures var p := Page(s, offset, limit);
      && |p| == (var rest := if offset <= |s| then |s| - offset else 0;
                 if limit.Some? && limit.value < rest then limit.value else rest)
      && forall i :: 0 <= i < |p| ==> offset + i < |s| && p[i] == s[offset + i]
  {
  }

  /** A view over the documents a find matched, with the options chained
      onto it so far. */
  datatype FindView<T> = FindView(docs: seq<T>, skip: Option<nat>, limit: Option<nat>) {

    /** `view.skip(n)`. */
    function Skip(n: nat): (v: FindView<T>)
      ensures v.docs == docs && v.skip == Some(n) && v.limit == limit
    {
      this.(skip := Some(n))
    }

    /** `view.limit(n)`. */
    function Limit(n: nat): (v: FindView<T>)
      ensures v.docs == docs && v.skip == skip && v.limit == Some(n)
    {
      this.(limit := Some(n))
    }

    /** `view.to_a`: the documents the store returns for this view. */
    function ToA(): seq<T> {
      Page(docs, skip.GetOr(0), limit)
    }

    /** `view.count`: how many documents the view returns. */
    function Count(): nat {
      |ToA()|
    }
  }

  /** A fresh view over everything a find matched: no skip, no limit. */
  function OpenView<T>(docs: seq<T>): (v: FindView<T>)
    ensures v.ToA() == docs
  {
    FindView(docs, None, None)
  }
}
