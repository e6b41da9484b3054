/** Per-customer identifier allocation: read the latest identifier in a
    customer's scope and add one. The store has no auto-increment; the latest
    record is the one with the greatest identifier. */
module Identifiers {
  import opened Failures
  import opened Models

  /** The greatest element of a non-empty set of identifiers. */
  ghost function Max(s: set<int32>): (m: int32)
    requires s != {}
    ensures m in s
    ensures forall k :: k in s ==> k <= m
  {
    var x :| x in s;
    if s == {x} then x
    else
      var y := Max(s - {x});
      assert forall k :: k in s ==> k == x || k in s - {x};
      if x < y then y else x
  }

  /** The identifier of the latest record in a scope, if the scope has any. */
  ghost function LatestKey(scope: set<int32>): (r: Option<int32>)
    ensures r.None? <==> scope == {}
    ensures r.Some? ==> r.value in scope && forall k :: k in scope ==> k <= r.value
  {
    if scope == {} then None else Some(Max(scope))
  }

  /** C#'s unchecked `x + 1` on `int`: two's-complement wrap-around at the top. */
  function Increment(x: int32): (r: int32)
    ensures (r as int - x as int - 1) % 0x1_0000_0000 == 0
    ensures x != MaxInt32 ==> r as int == x as int + 1
  {
    if x == MaxInt32 then MinInt32 else x + 1
  }

  /** `(latest?.Id ?? 0) + 1`. */
  function NextId(latest: Option<int32>): (r: int32)
    ensures latest.None? ==> r == 1
    ensures latest.Some? ==> (r as int - latest.value as int - 1) % 0x1_0000_0000 == 0
  {
    Increment(match latest case None => 0 case Some(n) => n)
  }

  /** The identifier allocated for a scope is 1 for an empty scope and
      otherwise exceeds every identifier in the scope, unless the latest one is
      Int32.MaxValue, where the addition wraps to Int32.MinValue. */
  lemma AllocatedIdExceedsScope(scope: set<int32>)
    ensures scope == {} ==> NextId(LatestKey(scope)) == 1
    ensures scope != {} && Max(scope) != MaxInt32 ==>
      NextId(LatestKey(scope)) as int == Max(scope) as int + 1 &&
      forall k :: k in scope ==> k < NextId(LatestKey(scope))
    ensures scope != {} && Max(scope) == MaxInt32 ==> NextId(LatestKey(scope)) == MinInt32
  {
  }
}
