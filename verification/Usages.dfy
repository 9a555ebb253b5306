/** Token and cost accounting (usage.rs): each signal independently known or not. */
module Usages {
  import opened Wrappers

  datatype Usage = Usage(
    inputTokens: Option<nat>,
    outputTokens: Option<nat>,
    cacheReadTokens: Option<nat>,
    cacheWriteTokens: Option<nat>,
    costUsd: Option<real>)

  const NONE := Usage(None, None, None, None, None)

  predicate IsEmpty(u: Usage) {
    && u.inputTokens.None? && u.outputTokens.None? && u.cacheReadTokens.None? && u.cacheWriteTokens.None?
    && u.costUsd.None?
  }

  /** One signal of `Usage::add`: what was not reported adds nothing, not even a zero. */
  function Added(total: Option<nat>, more: Option<nat>): Option<nat> {
    match more
    case None => total
    case Some(v) => Some((if total.Some? then total.value else 0) + v)
  }

  function AddedCost(total: Option<real>, more: Option<real>): Option<real> {
    match more
    case None => total
    case Some(v) => Some((if total.Some? then total.value else 0.0) + v)
  }

  /** `Usage::add`, as the value the total becomes. */
  function Plus(total: Usage, other: Usage): Usage {
    Usage(Added(total.inputTokens, other.inputTokens),
          Added(total.outputTokens, other.outputTokens),
          Added(total.cacheReadTokens, other.cacheReadTokens),
          Added(total.cacheWriteTokens, other.cacheWriteTokens),
          AddedCost(total.costUsd, other.costUsd))
  }

  function PlusReported(total: Usage, reported: Option<Usage>): Usage {
    if reported.None? then total else Plus(total, reported.value)
  }

  /** `(!usage.is_empty()).then_some(usage)` */
  function Reported(total: Usage): Option<Usage> {
    if IsEmpty(total) then None else Some(total)
  }

  /** What a run of calls reported, in call order. */
  function Total(calls: seq<Option<Usage>>): Usage {
    if calls == [] then NONE else PlusReported(Total(calls[..|calls| - 1]), calls[|calls| - 1])
  }

  lemma PlusLaws(a: Usage, b: Usage, c: Usage)
    ensures Plus(NONE, a) == a && Plus(a, NONE) == a
    ensures Plus(a, b) == Plus(b, a)
    ensures Plus(Plus(a, b), c) == Plus(a, Plus(b, c))
  {
  }

  /** A total does not depend on how the calls are grouped, nor on whose came first: two parties'
      calls accumulated apart sum to the same as accumulated as they came. */
  lemma {:induction false} TotalConcat(a: seq<Option<Usage>>, b: seq<Option<Usage>>)
    ensures Total(a + b) == Plus(Total(a), Total(b)) == Total(b + a)
  {
    TotalSplits(a, b);
    TotalSplits(b, a);
    PlusLaws(Total(a), Total(b), NONE);
  }

  lemma {:induction false} TotalSplits(a: seq<Option<Usage>>, b: seq<Option<Usage>>)
    ensures Total(a + b) == Plus(Total(a), Total(b))
  {
    if b == [] {
      assert a + b == a;
      PlusLaws(Total(a), NONE, NONE);
    } else {
      var most, last := b[..|b| - 1], b[|b| - 1];
      assert (a + b)[..|a + b| - 1] == a + most;
      TotalSplits(a, most);
      if last.Some? { PlusLaws(Total(a), Total(most), last.value); }
    }
  }

  /** A total reports nothing exactly when no call did. */
  lemma {:induction false} TotalEmpty(calls: seq<Option<Usage>>)
    ensures Reported(Total(calls)).None?
            <==> forall i :: 0 <= i < |calls| ==> calls[i].None? || IsEmpty(calls[i].value)
  {
    if calls != [] {
      var most := calls[..|calls| - 1];
      TotalEmpty(most);
      forall i | 0 <= i < |most| ensures most[i] == calls[i] {}
    }
  }
}
