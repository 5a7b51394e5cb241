/** Ordered checks: a handler that runs a fixed sequence of checks and returns at the first
    that fails is described, independently of its nested `if`s, by the position of the first
    failing check in that sequence. */
module Precedence {
  import opened Wrappers

  /** The position of the first check of `order` that is in `failing`, or `|order|` when none is. */
  function FirstFailingIndex<C(==)>(order: seq<C>, failing: set<C>): (i: nat)
    ensures i <= |order|
    ensures forall j :: 0 <= j < i ==> order[j] !in failing
    ensures i < |order| ==> order[i] in failing
  {
    if |order| == 0 then 0
    else if order[0] in failing then 0
    else 1 + FirstFailingIndex(order[1..], failing)
  }

  /** The first check of `order` that fails, if any. */
  function FirstFailing<C(==)>(order: seq<C>, failing: set<C>): (r: Option<C>)
    ensures r.None? <==> forall j :: 0 <= j < |order| ==> order[j] !in failing
    ensures r.Some? ==> r.value in failing
    ensures forall j :: 0 <= j < |order| && order[j] in failing ==> r.Some?
  {
    var i := FirstFailingIndex(order, failing);
    if i < |order| then Some(order[i]) else None
  }
}
