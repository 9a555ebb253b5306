/** Folding one run's invocations into its telemetry (telemetry.rs). */
module Telemetries {
  import opened Wrappers
  import opened Picking
  import opened Usages

  const U64_MAX: nat := 0xFFFF_FFFF_FFFF_FFFF

  datatype Side = Agent | Judge

  /** One provider invocation. */
  datatype Invocation = Invocation(
    role: Option<Side>,
    modelMs: Option<nat>,
    toolMs: Option<nat>,
    firstTokenMs: Option<nat>,
    usage: Usage,
    sessionId: Option<string>,
    startedAt: Option<string>,
    finishedAt: Option<string>,
    candidates: seq<string>)

  datatype SessionLink = SessionLink(sessionId: string, role: Side, turnIndex: nat, startedAt: string,
                                     finishedAt: Option<string>)

  datatype Attribution = Attribution(role: Side, turnIndex: nat, candidates: seq<string>)

  datatype Party = Party(modelMs: Option<nat>, toolMs: Option<nat>, firstTokenMs: Option<nat>, usage: Option<Usage>,
                         sessionIds: seq<string>)

  const NO_PARTY := Party(None, None, None, None, [])

  datatype Telemetry = Telemetry(wallMs: nat, agent: Party, judge: Party, orchestrationMs: nat,
                                 sessions: seq<SessionLink>, attribution: seq<Attribution>)

  // ---------------------------------------------------------------- sums

  /** `strict_sum_u64`: no total unless every record reports its share. */
  function StrictSum(values: seq<Option<nat>>): Option<nat> {
    if values == [] then Some(0)
    else match (StrictSum(values[..|values| - 1]), values[|values| - 1])
         case (Some(total), Some(more)) => Some(total + more)
         case _ => None
  }

  function StrictCost(values: seq<Option<real>>): Option<real> {
    if values == [] then Some(0.0)
    else match (StrictCost(values[..|values| - 1]), values[|values| - 1])
         case (Some(total), Some(more)) => Some(total + more)
         case _ => None
  }

  /** The share each record reports, or nothing. */
  function Shares(values: seq<Option<nat>>): nat {
    if values == [] then 0
    else Shares(values[..|values| - 1]) + match values[|values| - 1] case None => 0 case Some(v) => v
  }

  lemma {:induction false} StrictSumIs(values: seq<Option<nat>>)
    ensures StrictSum(values).Some? <==> forall i :: 0 <= i < |values| ==> values[i].Some?
    ensures StrictSum(values).Some? ==> StrictSum(values).value == Shares(values)
  {
    if values != [] {
      var most := values[..|values| - 1];
      StrictSumIs(most);
      forall i | 0 <= i < |most| ensures most[i] == values[i] {}
    }
  }

  function Costs(values: seq<Option<real>>): real {
    if values == [] then 0.0
    else Costs(values[..|values| - 1]) + match values[|values| - 1] case None => 0.0 case Some(v) => v
  }

  lemma {:induction false} StrictCostIs(values: seq<Option<real>>)
    ensures StrictCost(values).Some? <==> forall i :: 0 <= i < |values| ==> values[i].Some?
    ensures StrictCost(values).Some? ==> StrictCost(values).value == Costs(values)
  {
    if values != [] {
      var most := values[..|values| - 1];
      StrictCostIs(most);
      forall i | 0 <= i < |most| ensures most[i] == values[i] {}
    }
  }

  function ModelMs(records: seq<Invocation>): seq<Option<nat>> {
    seq(|records|, i requires 0 <= i < |records| => records[i].modelMs)
  }

  function ToolMs(records: seq<Invocation>): seq<Option<nat>> {
    seq(|records|, i requires 0 <= i < |records| => records[i].toolMs)
  }

  function UsageOf(records: seq<Invocation>): Usage {
    Usage(StrictSum(seq(|records|, i requires 0 <= i < |records| => records[i].usage.inputTokens)),
          StrictSum(seq(|records|, i requires 0 <= i < |records| => records[i].usage.outputTokens)),
          StrictSum(seq(|records|, i requires 0 <= i < |records| => records[i].usage.cacheReadTokens)),
          StrictSum(seq(|records|, i requires 0 <= i < |records| => records[i].usage.cacheWriteTokens)),
          StrictCost(seq(|records|, i requires 0 <= i < |records| => records[i].usage.costUsd)))
  }

  function FirstToken(records: seq<Invocation>): Option<nat> {
    if records == [] then None
    else if records[0].firstTokenMs.Some? then records[0].firstTokenMs
    else FirstToken(records[1..])
  }

  datatype Kind = Input | Output | CacheRead | CacheWrite

  function TokensOf(usage: Usage, kind: Kind): Option<nat> {
    match kind
    case Input => usage.inputTokens
    case Output => usage.outputTokens
    case CacheRead => usage.cacheReadTokens
    case CacheWrite => usage.cacheWriteTokens
  }

  function Tokens(records: seq<Invocation>, kind: Kind): (tokens: seq<Option<nat>>)
    ensures |tokens| == |records| && forall i :: 0 <= i < |records| ==> tokens[i] == TokensOf(records[i].usage, kind)
  {
    seq(|records|, i requires 0 <= i < |records| => TokensOf(records[i].usage, kind))
  }

  function CostsOf(records: seq<Invocation>): (costs: seq<Option<real>>)
    ensures |costs| == |records| && forall i :: 0 <= i < |records| ==> costs[i] == records[i].usage.costUsd
  {
    seq(|records|, i requires 0 <= i < |records| => records[i].usage.costUsd)
  }

  /** Each signal of `usage` is there exactly when every record reports it, and is then their sum. */
  ghost predicate SumsUsage(records: seq<Invocation>, usage: Usage) {
    && (forall kind ::
          && (TokensOf(usage, kind).Some? <==>
                forall i :: 0 <= i < |records| ==> TokensOf(records[i].usage, kind).Some?)
          && (TokensOf(usage, kind).Some? ==> TokensOf(usage, kind).value == Shares(Tokens(records, kind))))
    && (usage.costUsd.Some? <==> forall i :: 0 <= i < |records| ==> records[i].usage.costUsd.Some?)
    && (usage.costUsd.Some? ==> usage.costUsd.value == Costs(CostsOf(records)))
  }

  lemma UsageSums(records: seq<Invocation>)
    ensures SumsUsage(records, UsageOf(records))
  {
    hide StrictSum, StrictCost, Shares, Costs;
    var usage := UsageOf(records);
    forall kind
      ensures TokensOf(usage, kind).Some? <==> forall i :: 0 <= i < |records| ==> TokensOf(records[i].usage, kind).Some?
      ensures TokensOf(usage, kind).Some? ==> TokensOf(usage, kind).value == Shares(Tokens(records, kind))
    {
      StrictSumIs(Tokens(records, kind));
      UsageAt(records, kind);
    }
    StrictCostIs(CostsOf(records));
    assert usage.costUsd == StrictCost(CostsOf(records));
  }

  lemma UsageAt(records: seq<Invocation>, kind: Kind)
    ensures TokensOf(UsageOf(records), kind) == StrictSum(Tokens(records, kind))
  {
    hide StrictSum, StrictCost;
    match kind
    case Input =>
      assert Tokens(records, kind) == seq(|records|, i requires 0 <= i < |records| => records[i].usage.inputTokens);
    case Output =>
      assert Tokens(records, kind) == seq(|records|, i requires 0 <= i < |records| => records[i].usage.outputTokens);
    case CacheRead =>
      assert Tokens(records, kind) == seq(|records|, i requires 0 <= i < |records| => records[i].usage.cacheReadTokens);
    case CacheWrite =>
      assert Tokens(records, kind)
             == seq(|records|, i requires 0 <= i < |records| => records[i].usage.cacheWriteTokens);
  }

  /** The first of the records that reports one. */
  ghost predicate FirstReported(records: seq<Invocation>, first: Option<nat>) {
    match first
    case None => forall i :: 0 <= i < |records| ==> records[i].firstTokenMs.None?
    case Some(_) =>
      exists k :: 0 <= k < |records| && records[k].firstTokenMs == first
                  && forall i :: 0 <= i < k ==> records[i].firstTokenMs.None?
  }

  lemma {:induction false} FirstTokenIs(records: seq<Invocation>)
    ensures FirstReported(records, FirstToken(records))
  {
    if records != [] && records[0].firstTokenMs.None? {
      var rest := records[1..];
      FirstTokenIs(rest);
      forall i | 0 < i < |records| ensures records[i] == rest[i - 1] {}
      if FirstToken(rest).Some? {
        var k :| 0 <= k < |rest| && rest[k].firstTokenMs == FirstToken(rest)
                 && forall i :: 0 <= i < k ==> rest[i].firstTokenMs.None?;
        assert records[k + 1] == rest[k];
      }
    }
  }

  function SessionIds(records: seq<Invocation>): (ids: seq<Option<string>>)
    ensures |ids| == |records|
  {
    seq(|records|, i requires 0 <= i < |records| => records[i].sessionId)
  }

  // ---------------------------------------------------------------- sessions, each once

  /** `ids` is what there is of `all`, each once, in the order it was first seen. */
  ghost predicate Deduplicates(all: seq<Option<string>>, ids: seq<string>) {
    && (forall id :: id in ids <==> Some(id) in all)
    && (forall i, j :: 0 <= i < j < |ids| ==> ids[i] != ids[j])
    && (forall i, j :: 0 <= i < j < |ids| ==> SeenBefore(all, ids[i], ids[j]))
  }

  /** `a` is seen in `all` before `b` ever is. */
  ghost predicate SeenBefore(all: seq<Option<string>>, a: string, b: string) {
    exists k :: 0 <= k < |all| && all[k] == Some(a) && Some(b) !in all[..k]
  }

  lemma SeenStays(all: seq<Option<string>>, a: string, b: string, more: Option<string>)
    requires SeenBefore(all, a, b)
    ensures SeenBefore(all + [more], a, b)
  {
    var k :| 0 <= k < |all| && all[k] == Some(a) && Some(b) !in all[..k];
    assert (all + [more])[..k] == all[..k] && (all + [more])[k] == all[k];
  }

  lemma SeenFirst(all: seq<Option<string>>, a: string, b: string)
    requires Some(a) in all && Some(b) !in all
    ensures SeenBefore(all + [Some(b)], a, b)
  {
    var k :| 0 <= k < |all| && all[k] == Some(a);
    assert (all + [Some(b)])[..k] == all[..k] && (all + [Some(b)])[k] == all[k];
  }

  lemma Deduplicated(all: seq<Option<string>>, ids: seq<string>, one: Option<string>)
    requires Deduplicates(all, ids)
    ensures Deduplicates(all + [one], if one.None? || one.value in ids then ids else ids + [one.value])
  {
    hide SeenBefore;
    var more := all + [one];
    var ids' := if one.None? || one.value in ids then ids else ids + [one.value];
    assert more[|all|] == one;
    forall id ensures id in ids' <==> Some(id) in more {
      if id in ids { assert Some(id) in all; }
    }
    forall i, j | 0 <= i < j < |ids'| ensures SeenBefore(more, ids'[i], ids'[j]) {
      if j < |ids| { SeenStays(all, ids[i], ids[j], one); } else { SeenFirst(all, ids[i], one.value); }
    }
  }

  /** `summarize` */
  method Summarize(records: seq<Invocation>) returns (party: Party)
    ensures records == [] ==> party == NO_PARTY
    ensures records != [] ==>
              && party.modelMs == StrictSum(ModelMs(records)) && party.toolMs == StrictSum(ToolMs(records))
              && party.firstTokenMs == FirstToken(records)
              && party.usage == Reported(UsageOf(records))
    ensures Deduplicates(SessionIds(records), party.sessionIds)
  {
    hide StrictSum, UsageOf, FirstToken, Deduplicates;
    var all := SessionIds(records);
    NothingSeen();
    if records == [] {
      assert all == [];
      return NO_PARTY;
    }
    var sessionIds: seq<string> := [];
    assert all[..0] == [];
    for i := 0 to |records|
      invariant Deduplicates(all[..i], sessionIds)
    {
      var id := records[i].sessionId;
      Deduplicated(all[..i], sessionIds, id);
      assert all[..i + 1] == all[..i] + [id];
      if id.Some? && id.value !in sessionIds {
        sessionIds := sessionIds + [id.value];
      }
    }
    assert all[..|records|] == all;
    party := Party(StrictSum(ModelMs(records)), StrictSum(ToolMs(records)), FirstToken(records),
                   Reported(UsageOf(records)), sessionIds);
  }

  lemma NothingSeen()
    ensures Deduplicates([], [])
  {
  }

  // ---------------------------------------------------------------- turns

  /** How many of the first `n` records are of `role`. */
  function CountOf(records: seq<Invocation>, role: Side, n: nat): nat
    requires n <= |records|
  {
    if n == 0 then 0 else CountOf(records, role, n - 1) + if records[n - 1].role == Some(role) then 1 else 0
  }

  /** A record's place among those of its own role, from one. */
  function TurnIndex(records: seq<Invocation>, i: nat): nat
    requires i < |records| && records[i].role.Some?
  {
    CountOf(records, records[i].role.value, i + 1)
  }

  lemma {:induction false} CountGrows(records: seq<Invocation>, role: Side, a: nat, b: nat)
    requires a <= b <= |records|
    ensures CountOf(records, role, a) <= CountOf(records, role, b)
  {
    if a < b { CountGrows(records, role, a, b - 1); }
  }

  /** A role and a turn index name one record. */
  lemma TurnNamesOne(records: seq<Invocation>, i: nat, j: nat)
    requires i < |records| && j < |records| && records[i].role.Some? && records[i].role == records[j].role
    ensures TurnIndex(records, i) == TurnIndex(records, j) <==> i == j
    ensures i < j ==> TurnIndex(records, i) < TurnIndex(records, j)
  {
    var role := records[i].role.value;
    if i < j { CountGrows(records, role, i + 1, j); }
    if j < i { CountGrows(records, role, j + 1, i); }
  }

  function LinkOf(records: seq<Invocation>, i: nat): Option<SessionLink>
    requires i < |records|
  {
    var r := records[i];
    if r.role.Some? && r.sessionId.Some? && r.startedAt.Some?
    then Some(SessionLink(r.sessionId.value, r.role.value, TurnIndex(records, i), r.startedAt.value, r.finishedAt))
    else None
  }

  function AttributionOf(records: seq<Invocation>, i: nat): Option<Attribution>
    requires i < |records|
  {
    var r := records[i];
    if r.role.Some? && r.candidates != [] then Some(Attribution(r.role.value, TurnIndex(records, i), r.candidates))
    else None
  }

  function Links(records: seq<Invocation>): (parts: seq<Option<SessionLink>>)
    ensures |parts| == |records|
  {
    seq(|records|, i requires 0 <= i < |records| => LinkOf(records, i))
  }

  function Attributions(records: seq<Invocation>): (parts: seq<Option<Attribution>>)
    ensures |parts| == |records|
  {
    seq(|records|, i requires 0 <= i < |records| => AttributionOf(records, i))
  }

  /** A session and an attribution that carry the same role and turn are of the same invocation. */
  lemma JoinIsOneRecord(records: seq<Invocation>, link: SessionLink, attribution: Attribution)
    requires link in Present(Links(records)) && attribution in Present(Attributions(records))
    requires link.role == attribution.role && link.turnIndex == attribution.turnIndex
    ensures exists i :: 0 <= i < |records| && LinkOf(records, i) == Some(link)
                        && AttributionOf(records, i) == Some(attribution)
  {
    hide Present;
    var p := PresentPicks(Links(records));
    var q := PresentPicks(Attributions(records));
    var k :| 0 <= k < |Present(Links(records))| && Present(Links(records))[k] == link;
    var m :| 0 <= m < |Present(Attributions(records))| && Present(Attributions(records))[m] == attribution;
    assert LinkOf(records, p[k]) == Links(records)[p[k]] == Some(link);
    assert AttributionOf(records, q[m]) == Attributions(records)[q[m]] == Some(attribution);
    TurnNamesOne(records, p[k], q[m]);
  }

  // ---------------------------------------------------------------- the whole

  function OfRole(records: seq<Invocation>, role: Side): seq<Invocation> {
    if records == [] then []
    else OfRole(records[..|records| - 1], role)
         + if records[|records| - 1].role == Some(role) then [records[|records| - 1]] else []
  }

  /** `some` are the records of that role, each once and in order; `places` says where they stand. */
  ghost predicate RoleAt(records: seq<Invocation>, role: Side, some: seq<Invocation>, places: seq<nat>) {
    && |some| == |places|
    && (forall i :: 0 <= i < |records| ==> (records[i].role == Some(role) <==> i in places))
    && (forall k :: 0 <= k < |places| ==> places[k] < |records| && records[places[k]] == some[k])
    && (forall k, l :: 0 <= k < l < |places| ==> places[k] < places[l])
  }

  lemma {:induction false} OfRoleAt(records: seq<Invocation>, role: Side) returns (places: seq<nat>)
    ensures RoleAt(records, role, OfRole(records, role), places)
  {
    places := [];
    if records != [] {
      var n := |records| - 1;
      places := OfRoleAt(records[..n], role);
      RoleMore(records[..n], role, OfRole(records[..n], role), places, records[n]);
      assert records[..n] + [records[n]] == records;
      if records[n].role == Some(role) {
        places := places + [n];
      } else {
        assert OfRole(records[..n], role) + [] == OfRole(records[..n], role);
      }
    }
  }

  lemma RoleMore(records: seq<Invocation>, role: Side, some: seq<Invocation>, places: seq<nat>, one: Invocation)
    requires RoleAt(records, role, some, places)
    ensures if one.role == Some(role) then RoleAt(records + [one], role, some + [one], places + [|records|])
            else RoleAt(records + [one], role, some, places)
  {
    if one.role == Some(role) {
      var more := places + [|records|];
      assert more[|places|] == |records|;
      forall i | i in places ensures i in more {}
    }
  }

  /** A party's telemetry is that of the records of its role. */
  ghost predicate SumsRole(records: seq<Invocation>, role: Side, party: Party) {
    exists some: seq<Invocation>, places: seq<nat> :: RoleAt(records, role, some, places) && Summarizes(some, party)
  }

  function OrZero(v: Option<nat>): nat { if v.Some? then v.value else 0 }

  /** `saturating_add` */
  function SaturatingAdd(a: nat, b: nat): nat { if a + b > U64_MAX then U64_MAX else a + b }

  /** `saturating_sub` */
  function SaturatingSub(a: nat, b: nat): nat { if b > a then 0 else a - b }

  function Remainder(wallMs: nat, a: nat, b: nat, c: nat, d: nat): nat {
    SaturatingSub(wallMs, SaturatingAdd(SaturatingAdd(SaturatingAdd(a, b), c), d))
  }

  /** Saturating loses nothing a 64-bit wall clock could tell. */
  lemma RemainderIsTrue(wallMs: nat, a: nat, b: nat, c: nat, d: nat)
    requires wallMs <= U64_MAX
    ensures Remainder(wallMs, a, b, c, d) == if a + b + c + d >= wallMs then 0 else wallMs - (a + b + c + d)
  {
  }

  /** The loop over the records, with one counter a role. */
  method Join(records: seq<Invocation>) returns (sessions: seq<SessionLink>, attribution: seq<Attribution>)
    ensures sessions == Present(Links(records)) && attribution == Present(Attributions(records))
  {
    sessions, attribution := [], [];
    var agentTurn, judgeTurn := 0, 0;
    for i := 0 to |records|
      invariant agentTurn == CountOf(records, Agent, i) && judgeTurn == CountOf(records, Judge, i)
      invariant sessions == Present(Links(records)[..i]) && attribution == Present(Attributions(records)[..i])
    {
      var r := records[i];
      assert Links(records)[..i + 1][..i] == Links(records)[..i];
      assert Attributions(records)[..i + 1][..i] == Attributions(records)[..i];
      if r.role.Some? {
        var turnIndex: nat;
        if r.role.value == Agent {
          agentTurn := agentTurn + 1;
          turnIndex := agentTurn;
        } else {
          judgeTurn := judgeTurn + 1;
          turnIndex := judgeTurn;
        }
        if r.sessionId.Some? && r.startedAt.Some? {
          sessions := sessions
                      + [SessionLink(r.sessionId.value, r.role.value, turnIndex, r.startedAt.value, r.finishedAt)];
        }
        if r.candidates != [] {
          attribution := attribution + [Attribution(r.role.value, turnIndex, r.candidates)];
        }
      }
    }
    assert Links(records)[..|records|] == Links(records);
    assert Attributions(records)[..|records|] == Attributions(records);
  }

  /** `aggregate` */
  method Aggregate(wallMs: nat, records: seq<Invocation>) returns (telemetry: Option<Telemetry>)
    requires wallMs <= U64_MAX
    ensures telemetry.None? <==> records == []
    ensures telemetry.Some? ==>
              var t := telemetry.value;
              var attributed := OrZero(t.agent.modelMs) + OrZero(t.agent.toolMs)
                                + OrZero(t.judge.modelMs) + OrZero(t.judge.toolMs);
              && t.wallMs == wallMs
              && t.orchestrationMs == (if attributed >= wallMs then 0 else wallMs - attributed)
              && t.sessions == Present(Links(records)) && t.attribution == Present(Attributions(records))
              && SumsRole(records, Agent, t.agent) && SumsRole(records, Judge, t.judge)
  {
    hide Links, Attributions, OfRole, Summarizes, Present, RoleAt;
    if records == [] {
      return None;
    }
    var agent := Summarize(OfRole(records, Agent));
    var judge := Summarize(OfRole(records, Judge));
    SummarizesIs(OfRole(records, Agent), agent);
    SummarizesIs(OfRole(records, Judge), judge);
    ghost var agents := OfRoleAt(records, Agent);
    ghost var judges := OfRoleAt(records, Judge);
    var sessions, attribution := Join(records);
    RemainderIsTrue(wallMs, OrZero(agent.modelMs), OrZero(agent.toolMs), OrZero(judge.modelMs), OrZero(judge.toolMs));
    telemetry := Some(Telemetry(wallMs, agent, judge,
                                Remainder(wallMs, OrZero(agent.modelMs), OrZero(agent.toolMs), OrZero(judge.modelMs),
                                          OrZero(judge.toolMs)),
                                sessions, attribution));
  }

  /** A party's totals are true sums, each there exactly when every one of its records reports it. */
  ghost predicate Summarizes(records: seq<Invocation>, party: Party) {
    && (party.modelMs.Some? <==> records != [] && forall i :: 0 <= i < |records| ==> records[i].modelMs.Some?)
    && (party.toolMs.Some? <==> records != [] && forall i :: 0 <= i < |records| ==> records[i].toolMs.Some?)
    && (party.modelMs.Some? ==> party.modelMs.value == Shares(ModelMs(records)))
    && (party.toolMs.Some? ==> party.toolMs.value == Shares(ToolMs(records)))
    && Deduplicates(SessionIds(records), party.sessionIds)
    && (records != [] ==>
          && FirstReported(records, party.firstTokenMs)
          && exists usage :: SumsUsage(records, usage) && party.usage == Reported(usage))
    && (records == [] ==> party == NO_PARTY)
  }

  lemma SummarizesIs(records: seq<Invocation>, party: Party)
    requires records == [] ==> party == NO_PARTY
    requires records != [] ==> party.firstTokenMs == FirstToken(records) && party.usage == Reported(UsageOf(records))
    requires records != [] ==>
               party.modelMs == StrictSum(ModelMs(records)) && party.toolMs == StrictSum(ToolMs(records))
    requires Deduplicates(SessionIds(records), party.sessionIds)
    ensures Summarizes(records, party)
  {
    hide Deduplicates, Shares, StrictSum, FirstToken, UsageOf, SumsUsage, FirstReported;
    FirstTokenIs(records);
    UsageSums(records);
    StrictSumIs(ModelMs(records));
    StrictSumIs(ToolMs(records));
    forall i | 0 <= i < |records|
      ensures ModelMs(records)[i] == records[i].modelMs && ToolMs(records)[i] == records[i].toolMs
    {
    }
  }
}
