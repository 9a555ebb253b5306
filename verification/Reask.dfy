/** Asking a supervisor again while its answer is unusable (provider.rs). */
module Reask {
  import opened Wrappers
  import opened Text
  import opened Usages
  import opened Providers

  const SUPERVISOR_REASK_LIMIT: nat := 2

  datatype Reason = NoNextInstruction | DidNotParse

  datatype Ask = Ask(attempt: nat, reask: Option<Reason>)

  /** A supervisor: any function of what it is asked, the attempt's number included. */
  type Supervisor = Ask -> Result<SupervisorTurn, ProviderError>

  predicate Usable(outcome: SupervisorOutcome) {
    outcome.Completed? || outcome.Continue?
  }

  function ReasonFor(outcome: SupervisorOutcome): Reason {
    if outcome.Unparseable? then DidNotParse else NoNextInstruction
  }

  /** Answered, but with nothing that can be acted on. */
  predicate Unusable(answer: Result<SupervisorTurn, ProviderError>) {
    answer.Ok? && !Usable(answer.value.outcome)
  }

  /** The ask that follows `before`: numbered by its place, and giving the last answer's fault. */
  ghost predicate Follows(supervisor: Supervisor, before: seq<Ask>, ask: Ask) {
    && ask.attempt == |before|
    && if before == [] then ask.reask.None?
       else var last := supervisor(before[|before| - 1]);
            Unusable(last) && ask.reask == Some(ReasonFor(last.value.outcome))
  }

  /** `asks` is the first asks of one decision. */
  ghost predicate Chained(supervisor: Supervisor, asks: seq<Ask>) {
    asks == [] || (Chained(supervisor, asks[..|asks| - 1]) && Follows(supervisor, asks[..|asks| - 1], asks[|asks| - 1]))
  }

  function UsagesOf(supervisor: Supervisor, asks: seq<Ask>): (usages: seq<Option<Usage>>)
    ensures |usages| == |asks|
  {
    if asks == [] then []
    else UsagesOf(supervisor, asks[..|asks| - 1])
         + [match supervisor(asks[|asks| - 1]) case Ok(turn) => turn.usage case Err(_) => None]
  }

  lemma Unasked(supervisor: Supervisor)
    ensures Chained(supervisor, []) && Total(UsagesOf(supervisor, [])) == NONE
  {
  }

  lemma OneMoreAsk(supervisor: Supervisor, asks: seq<Ask>, ask: Ask)
    ensures Follows(supervisor, asks, ask) && Chained(supervisor, asks) ==> Chained(supervisor, asks + [ask])
    ensures supervisor(ask).Ok? ==>
              Total(UsagesOf(supervisor, asks + [ask]))
              == PlusReported(Total(UsagesOf(supervisor, asks)), supervisor(ask).value.usage)
  {
    hide Follows, PlusReported;
    assert (asks + [ask])[..|asks|] == asks;
    var usages := UsagesOf(supervisor, asks + [ask]);
    assert usages[..|usages| - 1] == UsagesOf(supervisor, asks);
  }

  /** One supervisor is asked the same things in the same order, however often. */
  lemma {:induction false} ChainedUnique(supervisor: Supervisor, a: seq<Ask>, b: seq<Ask>)
    requires Chained(supervisor, a) && Chained(supervisor, b) && |a| <= |b|
    ensures a <= b
    decreases |a| + |b|
  {
    if |a| == |b| {
      if a != [] {
        var n := |a| - 1;
        ChainedUnique(supervisor, a[..n], b[..n]);
        assert a == a[..n] + [a[n]] && b == b[..n] + [b[n]];
      }
    } else {
      ChainedUnique(supervisor, a, b[..|b| - 1]);
    }
  }

  /** What asking `asks` came to: the first failure is fatal, the first usable answer is the decision, and
      the last of three unusable ones is returned as it stands; every attempt is paid for. */
  ghost predicate ComesTo(supervisor: Supervisor, asks: seq<Ask>, turn: Result<SupervisorTurn, ProviderError>) {
    && Chained(supervisor, asks) && 1 <= |asks| <= SUPERVISOR_REASK_LIMIT + 1
    && var last := supervisor(asks[|asks| - 1]);
       match last
       case Err(_) => turn == last
       case Ok(answer) =>
         && (Usable(answer.outcome) || |asks| == SUPERVISOR_REASK_LIMIT + 1)
         && turn == Ok(SupervisorTurn(answer.outcome, Reported(Total(UsagesOf(supervisor, asks)))))
  }

  /** A supervisor is asked one way, and comes to one answer. */
  lemma ComesToOne(supervisor: Supervisor, a: seq<Ask>, b: seq<Ask>, x: Result<SupervisorTurn, ProviderError>,
                   y: Result<SupervisorTurn, ProviderError>)
    requires ComesTo(supervisor, a, x) && ComesTo(supervisor, b, y)
    ensures a == b && x == y
  {
    hide Chained, Total, UsagesOf, Reported;
    if |a| <= |b| { NoneAfter(supervisor, a, b); } else { NoneAfter(supervisor, b, a); }
  }

  /** Nothing is asked after a failure or a usable answer. */
  lemma NoneAfter(supervisor: Supervisor, a: seq<Ask>, b: seq<Ask>)
    requires Chained(supervisor, a) && Chained(supervisor, b) && 1 <= |a| <= |b|
    ensures a <= b
    ensures |a| < |b| ==> Unusable(supervisor(a[|a| - 1]))
    decreases |b|
  {
    ChainedUnique(supervisor, a, b);
    if |a| < |b| {
      if |a| + 1 < |b| {
        NoneAfter(supervisor, a, b[..|b| - 1]);
      }
    }
  }

  /** `supervise_with_reask` */
  method SuperviseWithReask(supervisor: Supervisor) returns (turn: Result<SupervisorTurn, ProviderError>)
    ensures exists asks :: ComesTo(supervisor, asks, turn)
  {
    hide Chained, UsagesOf, Total;
    Unasked(supervisor);
    var usage := NONE;
    var unusable := NoInstruction("");
    var reask: Option<Reason> := None;
    ghost var asks: seq<Ask> := [];
    for attempt := 0 to SUPERVISOR_REASK_LIMIT + 1
      invariant Chained(supervisor, asks) && |asks| == attempt
      invariant usage == Total(UsagesOf(supervisor, asks))
      invariant if attempt == 0 then reask.None?
                else var last := supervisor(asks[attempt - 1]);
                     Unusable(last) && unusable == last.value.outcome && reask == Some(ReasonFor(unusable))
    {
      var ask := Ask(attempt, reask);
      OneMoreAsk(supervisor, asks, ask);
      asks := asks + [ask];
      var answer := supervisor(ask);
      if answer.Err? {
        assert ComesTo(supervisor, asks, answer);
        return answer;
      }
      usage := PlusReported(usage, answer.value.usage);
      match answer.value.outcome
      case NoInstruction(_) =>
        reask, unusable := Some(NoNextInstruction), answer.value.outcome;
      case Unparseable(_, _) =>
        reask, unusable := Some(DidNotParse), answer.value.outcome;
      case _ =>
        turn := Ok(SupervisorTurn(answer.value.outcome, Reported(usage)));
        assert ComesTo(supervisor, asks, turn);
        return;
    }
    turn := Ok(SupervisorTurn(unusable, Reported(usage)));
    assert ComesTo(supervisor, asks, turn);
  }

  // ---------------------------------------------------------------- what an answer says

  /** What the supervisor's JSON object holds, as far as it is read; `None` when there is none. */
  datatype Answer = Answer(completion: Option<bool>, reason: Option<string>, message: Option<string>)

  /** `parse_supervisor`, past its JSON. */
  function ParseSupervisor(text: string, json: Option<Answer>): SupervisorOutcome {
    if json.None? then Unparseable("not a JSON object", text)
    else if json.value.completion.None? then Unparseable("needs boolean `completion`", text)
    else
      var reason := if json.value.reason.Some? then Trimmed(json.value.reason.value) else "";
      var message := json.value.message;
      if json.value.completion.value then
        if reason == "" || message.Some?
        then Unparseable("a completed response requires non-empty `reason` and forbids `message`", text)
        else Completed(reason)
      else if message.Some? && Trimmed(message.value) != "" then Continue(message.value, reason)
      else NoInstruction(reason)
  }

  /** `text` less the whitespace around it. */
  ghost predicate IsTrim(text: string, trimmed: string) {
    && (trimmed == "" || (!IsWhitespace(trimmed[0]) && !IsWhitespace(trimmed[|trimmed| - 1])))
    && exists i, j :: 0 <= i <= j <= |text| && text[i..j] == trimmed && Blank(text[..i]) && Blank(text[j..])
  }

  /** What an object means: it completes when it says so and gives a reason and no message; it instructs when it
      says not and gives a message; it says only that the work is incomplete when the message is missing. */
  ghost predicate Means(text: string, json: Option<Answer>, outcome: SupervisorOutcome) {
    var completion := if json.Some? then json.value.completion else None;
    var message := if json.Some? then json.value.message else None;
    var reason := if json.Some? && json.value.reason.Some? then json.value.reason.value else "";
    && (outcome.Completed? <==> completion == Some(true) && message.None? && !Blank(reason))
    && (outcome.Completed? ==> IsTrim(reason, outcome.reason) && outcome.reason != "")
    && (outcome.Continue? <==> completion == Some(false) && message.Some? && !Blank(message.value))
    && (outcome.Continue? ==> outcome.message == message.value && IsTrim(reason, outcome.reason))
    && (outcome.NoInstruction? <==> completion == Some(false) && (message.None? || Blank(message.value)))
    && (outcome.NoInstruction? ==> IsTrim(reason, outcome.reason))
    && (outcome.Unparseable? <==>
          completion.None? || (completion == Some(true) && (message.Some? || Blank(reason))))
    && (outcome.Unparseable? ==> outcome.answer == text)
  }

  lemma ParsedSpeaks(text: string, json: Option<Answer>)
    ensures Means(text, json, ParseSupervisor(text, json))
  {
    if json.Some? && json.value.completion.Some? {
      if json.value.completion.value { ParsedDone(text, json.value); } else { ParsedOpen(text, json.value); }
    }
  }

  lemma ParsedDone(text: string, answer: Answer)
    requires answer.completion == Some(true)
    ensures Means(text, Some(answer), ParseSupervisor(text, Some(answer)))
  {
    hide IsTrim, Blank, Trimmed;
    NothingToTrim();
    if answer.reason.Some? {
      TrimmedIs(answer.reason.value);
      TrimmedBlank(answer.reason.value);
    }
  }

  lemma ParsedOpen(text: string, answer: Answer)
    requires answer.completion == Some(false)
    ensures Means(text, Some(answer), ParseSupervisor(text, Some(answer)))
  {
    hide IsTrim, Blank, Trimmed;
    NothingToTrim();
    TrimmedIs(if answer.reason.Some? then answer.reason.value else "");
    if answer.message.Some? { TrimmedBlank(answer.message.value); }
  }

  lemma NothingToTrim()
    ensures Trimmed("") == "" && Blank("")
  {
  }

  lemma TrimmedIs(text: string)
    ensures IsTrim(text, Trimmed(text))
  {
    var i, j := TrimmedOuter(text);
  }

  // ---------------------------------------------------------------- the two legacy calls as one

  datatype Legacy = Legacy(verdict: Result<(bool, string, Option<Usage>), ProviderError>,
                           user: Result<(string, Option<Usage>), ProviderError>)

  /** One attempt of the default `supervise`: judge, and then a simulated user. */
  function LegacyTurn(calls: Legacy): Result<SupervisorTurn, ProviderError> {
    match calls.verdict
    case Err(error) => Err(error)
    case Ok((holds, reason, spent)) =>
      if holds then Ok(SupervisorTurn(Completed(reason), spent))
      else match calls.user
           case Err(error) => Err(error)
           case Ok((message, paid)) =>
             Ok(SupervisorTurn(if Trimmed(message) == "" then NoInstruction(reason) else Continue(message, reason),
                               paid))
  }

  /** It completes exactly when the verdict holds, for its reason; instructs when the user it then simulates has
      something to say, verbatim; and fails as the call that did. */
  lemma LegacyMeans(calls: Legacy)
    ensures match LegacyTurn(calls)
            case Err(error) =>
              || calls.verdict == Err(error)
              || (calls.verdict.Ok? && !calls.verdict.value.0 && calls.user == Err(error))
            case Ok(turn) =>
              && calls.verdict.Ok? && (turn.outcome.Completed? <==> calls.verdict.value.0)
              && !turn.outcome.Unparseable? && turn.outcome.reason == calls.verdict.value.1
              && (!turn.outcome.Completed? ==>
                    && calls.user.Ok? && (turn.outcome.Continue? <==> !Blank(calls.user.value.0))
                    && (turn.outcome.Continue? ==> turn.outcome.message == calls.user.value.0))
  {
    hide Blank, Trimmed;
    if calls.user.Ok? { TrimmedBlank(calls.user.value.0); }
  }

  function LegacySupervisor(calls: nat -> Legacy): Supervisor {
    (ask: Ask) => LegacyTurn(calls(ask.attempt))
  }

  /** What one attempt's two calls cost. */
  function SpentOn(calls: Legacy): Usage {
    match calls.verdict
    case Err(_) => NONE
    case Ok((holds, _, spent)) =>
      if holds then PlusReported(NONE, spent)
      else PlusReported(PlusReported(NONE, spent),
                        match calls.user case Ok((_, paid)) => paid case Err(_) => None)
  }

  /** The share of it the attempt reports, if it is answered. */
  function ReportedBy(calls: Legacy): Usage {
    match LegacyTurn(calls) case Ok(turn) => PlusReported(NONE, turn.usage) case Err(_) => NONE
  }

  /** The share of it that no attempt reports: the verdict that did not complete. */
  function Dropped(calls: Legacy): Usage {
    match calls.verdict
    case Err(_) => NONE
    case Ok((holds, _, spent)) => if holds then NONE else PlusReported(NONE, spent)
  }

  datatype Share = Spent | Told | Untold

  function Part(share: Share, calls: Legacy): Usage {
    match share
    case Spent => SpentOn(calls)
    case Told => ReportedBy(calls)
    case Untold => Dropped(calls)
  }

  function Sum(share: Share, calls: nat -> Legacy, n: nat): Usage {
    if n == 0 then NONE else Plus(Sum(share, calls, n - 1), Part(share, calls(n - 1)))
  }

  /** What a decision carries of what it cost: nothing, when it failed. */
  function Carried(turn: Result<SupervisorTurn, ProviderError>): Usage {
    match turn case Ok(answer) => PlusReported(NONE, answer.usage) case Err(_) => NONE
  }

  lemma {:induction false} SpentIs(calls: nat -> Legacy, n: nat)
    ensures Sum(Spent, calls, n) == Plus(Sum(Told, calls, n), Sum(Untold, calls, n))
  {
    hide Plus, SpentOn, ReportedBy, Dropped;
    if n == 0 {
      PlusLaws(NONE, NONE, NONE);
    } else {
      SpentIs(calls, n - 1);
      OneAttempt(calls(n - 1));
      Laws(Sum(Told, calls, n - 1), Sum(Untold, calls, n - 1), Dropped(calls(n - 1)), ReportedBy(calls(n - 1)));
      PlusLaws(ReportedBy(calls(n - 1)), Dropped(calls(n - 1)), NONE);
    }
  }

  lemma OneAttempt(calls: Legacy)
    ensures SpentOn(calls) == Plus(ReportedBy(calls), Dropped(calls))
  {
  }

  lemma Laws(a: Usage, b: Usage, c: Usage, d: Usage)
    ensures Plus(Plus(a, b), Plus(c, d)) == Plus(Plus(a, d), Plus(b, c))
  {
    hide Plus;
    PlusLaws(Plus(a, b), c, d);
    PlusLaws(a, b, c);
    PlusLaws(a, Plus(b, c), d);
    PlusLaws(Plus(b, c), d, NONE);
    PlusLaws(a, d, Plus(b, c));
  }

  lemma {:induction false} AttemptsReport(calls: nat -> Legacy, asks: seq<Ask>)
    requires Chained(LegacySupervisor(calls), asks)
    ensures Total(UsagesOf(LegacySupervisor(calls), asks)) == Sum(Told, calls, |asks|)
  {
    hide Plus, LegacyTurn;
    var supervisor := LegacySupervisor(calls);
    var usages := UsagesOf(supervisor, asks);
    if asks != [] {
      var n := |asks| - 1;
      AttemptsReport(calls, asks[..n]);
      assert usages[..n] == UsagesOf(supervisor, asks[..n]);
      var total := Total(usages[..n]);
      if usages[n].Some? { PlusLaws(usages[n].value, NONE, NONE); }
      PlusLaws(total, NONE, NONE);
    }
  }

  lemma CarriesTotal(supervisor: Supervisor, asks: seq<Ask>, turn: Result<SupervisorTurn, ProviderError>)
    requires ComesTo(supervisor, asks, turn)
    ensures turn.Ok? ==> Carried(turn) == Total(UsagesOf(supervisor, asks))
    ensures turn.Err? ==> Carried(turn) == NONE
  {
    hide Plus, UsagesOf, Total;
    PlusLaws(Total(UsagesOf(supervisor, asks)), NONE, NONE);
  }

  /** A decision of the default `supervise` carries what it spent less the verdicts that did not complete;
      one that fails carries nothing. */
  lemma LegacyAccount(calls: nat -> Legacy, asks: seq<Ask>, turn: Result<SupervisorTurn, ProviderError>)
    requires ComesTo(LegacySupervisor(calls), asks, turn)
    ensures turn.Ok? ==> Sum(Spent, calls, |asks|) == Plus(Carried(turn), Sum(Untold, calls, |asks|))
    ensures turn.Err? ==> Carried(turn) == NONE
  {
    hide Plus, UsagesOf, Total, Sum, Chained, LegacySupervisor;
    CarriesTotal(LegacySupervisor(calls), asks, turn);
    AttemptsReport(calls, asks);
    SpentIs(calls, |asks|);
  }

  // ---------------------------------------------------------------- when nothing is lost

  datatype Signal = InputTokens | OutputTokens | CacheReads | CacheWrites | Cost

  function Counted(tokens: Option<nat>): Option<real> {
    match tokens case None => None case Some(n) => Some(n as real)
  }

  function At(u: Usage, signal: Signal): Option<real> {
    match signal
    case InputTokens => Counted(u.inputTokens)
    case OutputTokens => Counted(u.outputTokens)
    case CacheReads => Counted(u.cacheReadTokens)
    case CacheWrites => Counted(u.cacheWriteTokens)
    case Cost => u.costUsd
  }

  lemma SignalsTell(a: Usage, b: Usage)
    ensures a == b <==> forall signal :: At(a, signal) == At(b, signal)
  {
    if forall signal :: At(a, signal) == At(b, signal) {
      assert At(a, InputTokens) == At(b, InputTokens) && At(a, OutputTokens) == At(b, OutputTokens);
      assert At(a, CacheReads) == At(b, CacheReads) && At(a, CacheWrites) == At(b, CacheWrites);
      assert At(a, Cost) == At(b, Cost);
    }
  }

  lemma PlusAt(a: Usage, b: Usage, signal: Signal)
    ensures At(Plus(a, b), signal) == AddedCost(At(a, signal), At(b, signal))
  {
  }

  /** One signal of one attempt's share. */
  function SignalOf(share: Share, calls: nat -> Legacy, k: nat, signal: Signal): Option<real> {
    At(Part(share, calls(k)), signal)
  }

  /** No attempt reports a negative cost. */
  ghost predicate NonNegative(share: Share, calls: nat -> Legacy, n: nat) {
    forall k: nat, signal :: k < n ==>
      SignalOf(share, calls, k, signal).None? || SignalOf(share, calls, k, signal).value >= 0.0
  }

  ghost predicate SomeTells(share: Share, calls: nat -> Legacy, n: nat, signal: Signal) {
    exists k: nat :: k < n && SignalOf(share, calls, k, signal).Some?
  }

  ghost predicate AllZero(share: Share, calls: nat -> Legacy, n: nat, signal: Signal) {
    forall k: nat :: k < n ==> SignalOf(share, calls, k, signal) in {None, Some(0.0)}
  }

  /** A sum has a signal exactly when some of its attempts has it. */
  lemma {:induction false} SumTells(share: Share, calls: nat -> Legacy, n: nat, signal: Signal)
    ensures At(Sum(share, calls, n), signal).Some? <==> SomeTells(share, calls, n, signal)
  {
    if n > 0 {
      hide Plus, At;
      SumTells(share, calls, n - 1, signal);
      PlusAt(Sum(share, calls, n - 1), Part(share, calls(n - 1)), signal);
      assert SignalOf(share, calls, n - 1, signal) == At(Part(share, calls(n - 1)), signal);
    } else {
      NoSignal(signal);
    }
  }

  function Amount(reported: Option<real>): real {
    if reported.None? then 0.0 else reported.value
  }

  /** It is never negative, and is nothing or zero exactly when each of theirs is. */
  lemma {:induction false} SumIsZero(share: Share, calls: nat -> Legacy, n: nat, signal: Signal)
    requires NonNegative(share, calls, n)
    ensures Amount(At(Sum(share, calls, n), signal)) >= 0.0
    ensures Amount(At(Sum(share, calls, n), signal)) == 0.0 <==> AllZero(share, calls, n, signal)
  {
    if n > 0 {
      hide Plus, At, Part;
      SumIsZero(share, calls, n - 1, signal);
      PlusAt(Sum(share, calls, n - 1), Part(share, calls(n - 1)), signal);
      assert SignalOf(share, calls, n - 1, signal) == At(Part(share, calls(n - 1)), signal);
      ZeroSoFar(share, calls, n, signal);
    } else {
      NoSignal(signal);
    }
  }

  lemma ZeroSoFar(share: Share, calls: nat -> Legacy, n: nat, signal: Signal)
    requires n > 0
    ensures AllZero(share, calls, n, signal)
            <==> AllZero(share, calls, n - 1, signal) && Amount(SignalOf(share, calls, n - 1, signal)) == 0.0
  {
    hide SignalOf;
    if AllZero(share, calls, n - 1, signal) && Amount(SignalOf(share, calls, n - 1, signal)) == 0.0 {
      forall k: nat | k < n ensures SignalOf(share, calls, k, signal) in {None, Some(0.0)} {
        if k < n - 1 {}
      }
    }
  }

  /** What attempt `k` drops of a signal does not show: nothing, or a zero on one that some attempt reports. */
  ghost predicate Unnoticed(calls: nat -> Legacy, n: nat, k: nat, signal: Signal) {
    || SignalOf(Untold, calls, k, signal).None?
    || (SignalOf(Untold, calls, k, signal) == Some(0.0) && SomeTells(Told, calls, n, signal))
  }

  /** Nothing of the signal is dropped that shows, at any attempt. */
  ghost predicate Kept(calls: nat -> Legacy, n: nat, signal: Signal) {
    forall k: nat :: k < n ==> Unnoticed(calls, n, k, signal)
  }

  lemma KeptIs(calls: nat -> Legacy, n: nat, signal: Signal)
    ensures Kept(calls, n, signal)
            <==> !SomeTells(Untold, calls, n, signal)
                 || (AllZero(Untold, calls, n, signal) && SomeTells(Told, calls, n, signal))
  {
    hide SignalOf;
    if Kept(calls, n, signal) {
      forall k: nat | k < n ensures SignalOf(Untold, calls, k, signal) in {None, Some(0.0)} {
        assert Unnoticed(calls, n, k, signal);
      }
      if k: nat :| k < n && SignalOf(Untold, calls, k, signal).Some? {
        assert Unnoticed(calls, n, k, signal);
      }
    }
  }

  lemma SignalKept(calls: nat -> Legacy, n: nat, signal: Signal)
    requires NonNegative(Untold, calls, n)
    ensures At(Sum(Spent, calls, n), signal) == At(Sum(Told, calls, n), signal) <==> Kept(calls, n, signal)
  {
    hide Plus, At, Sum, SignalOf, Kept, AllZero, SomeTells, NonNegative;
    SpentIs(calls, n);
    PlusAt(Sum(Told, calls, n), Sum(Untold, calls, n), signal);
    SumTells(Told, calls, n, signal);
    SumTells(Untold, calls, n, signal);
    SumIsZero(Untold, calls, n, signal);
    KeptIs(calls, n, signal);
  }

  ghost predicate NoneSpent(calls: nat -> Legacy, n: nat) {
    forall k: nat, signal :: k < n ==> SignalOf(Spent, calls, k, signal).None?
  }

  lemma NothingSpent(calls: nat -> Legacy, n: nat)
    ensures Sum(Spent, calls, n) == NONE <==> NoneSpent(calls, n)
  {
    hide At, Sum, SignalOf;
    SignalsTell(Sum(Spent, calls, n), NONE);
    forall signal
      ensures At(NONE, signal).None?
      ensures At(Sum(Spent, calls, n), signal).Some? <==> SomeTells(Spent, calls, n, signal)
    {
      NoSignal(signal);
      SumTells(Spent, calls, n, signal);
    }
    if Sum(Spent, calls, n) == NONE {
      forall k: nat, signal | k < n ensures SignalOf(Spent, calls, k, signal).None? {
        assert !SomeTells(Spent, calls, n, signal);
      }
    }
  }

  lemma NoSignal(signal: Signal)
    ensures At(NONE, signal).None?
  {
  }

  /** A decision carries all it spent exactly when, attempt by attempt: it came back, and every verdict that
      did not complete reports each signal not at all, or as a zero on one that some attempt reports; or it
      failed, and no attempt reported anything. */
  lemma LegacyReportsAll(calls: nat -> Legacy, asks: seq<Ask>, turn: Result<SupervisorTurn, ProviderError>)
    requires ComesTo(LegacySupervisor(calls), asks, turn) && NonNegative(Untold, calls, |asks|)
    ensures Carried(turn) == Sum(Spent, calls, |asks|)
            <==> if turn.Ok? then forall signal :: Kept(calls, |asks|, signal) else NoneSpent(calls, |asks|)
  {
    hide At, Sum, Kept, UsagesOf, Total, Chained, NonNegative, NoneSpent, LegacySupervisor;
    CarriesTotal(LegacySupervisor(calls), asks, turn);
    if turn.Ok? {
      AttemptsReport(calls, asks);
      SignalsTell(Carried(turn), Sum(Spent, calls, |asks|));
      forall signal
        ensures At(Sum(Spent, calls, |asks|), signal) == At(Sum(Told, calls, |asks|), signal)
                <==> Kept(calls, |asks|, signal)
      {
        SignalKept(calls, |asks|, signal);
      }
    } else {
      NothingSpent(calls, |asks|);
    }
  }

  const TEN := Usage(Some(10), None, None, None, None)

  /** A first verdict that cost ten tokens and did not complete, and a second that did. */
  function TwoAttempts(attempt: nat): Legacy {
    if attempt == 0 then Legacy(Ok((false, "", Some(TEN))), Ok(("", None)))
    else Legacy(Ok((true, "done", None)), Ok(("", None)))
  }

  /** Those ten tokens are spent, and the decision carries none of them. */
  lemma LegacyUndercounts()
    ensures var turn := Ok(SupervisorTurn(Completed("done"), None));
            && ComesTo(LegacySupervisor(TwoAttempts), [Ask(0, None), Ask(1, Some(NoNextInstruction))], turn)
            && Carried(turn) == NONE && Sum(Spent, TwoAttempts, 2) == TEN
  {
    var supervisor := LegacySupervisor(TwoAttempts);
    assert supervisor(Ask(0, None)) == LegacyTurn(TwoAttempts(0)) == Ok(SupervisorTurn(NoInstruction(""), None));
    assert supervisor(Ask(1, Some(NoNextInstruction))) == LegacyTurn(TwoAttempts(1))
           == Ok(SupervisorTurn(Completed("done"), None));
    AskedTwice(supervisor);
    assert Sum(Spent, TwoAttempts, 1) == TEN;
  }

  /** A blank message that cost ten tokens, and then a judge that fails. */
  function ThenFails(attempt: nat): Legacy {
    if attempt == 0 then Legacy(Ok((false, "", None)), Ok(("", Some(TEN))))
    else Legacy(Err(ProviderError("judge", "", None)), Ok(("", None)))
  }

  /** A failure carries nothing of what was spent before it, though the attempt reported it. */
  lemma FailureLosesAll()
    ensures var turn := Err(ProviderError("judge", "", None));
            && ComesTo(LegacySupervisor(ThenFails), [Ask(0, None), Ask(1, Some(NoNextInstruction))], turn)
            && Carried(turn) == NONE && Sum(Spent, ThenFails, 2) == TEN
  {
    var supervisor := LegacySupervisor(ThenFails);
    assert supervisor(Ask(0, None)) == LegacyTurn(ThenFails(0)) == Ok(SupervisorTurn(NoInstruction(""), Some(TEN)));
    assert supervisor(Ask(1, Some(NoNextInstruction))) == LegacyTurn(ThenFails(1))
           == Err(ProviderError("judge", "", None));
    AskedTwice(supervisor);
    assert Sum(Spent, ThenFails, 1) == TEN;
  }

  lemma AskedTwice(supervisor: Supervisor)
    requires supervisor(Ask(0, None)).Ok? && supervisor(Ask(0, None)).value.outcome == NoInstruction("")
    ensures var asks := [Ask(0, None), Ask(1, Some(NoNextInstruction))];
            && Chained(supervisor, asks)
            && (supervisor(asks[1]).Ok? ==>
                  Total(UsagesOf(supervisor, asks))
                  == PlusReported(PlusReported(NONE, supervisor(asks[0]).value.usage), supervisor(asks[1]).value.usage))
  {
    hide Chained, UsagesOf, Total, PlusReported;
    var first, second := Ask(0, None), Ask(1, Some(NoNextInstruction));
    Unasked(supervisor);
    OneMoreAsk(supervisor, [], first);
    OneMoreAsk(supervisor, [first], second);
    assert [] + [first] == [first] && [first] + [second] == [first, second];
  }
}
