/** Which answer a sender hears, by how its note reached a party: read off the run's own actions. */
module NoteAnswers {
  import opened Wrappers
  import opened Notes
  import opened LiveTurn
  import opened NoteDelivery
  import opened NoteBalance
  import opened NoteDecisions

  /** How a note left the inbox for a party: confirmed into its live turn, or taken by a drain. */
  datatype Way = IntoTurn(party: Party) | ByDrain(drain: Drain)

  /** The way, if any, that step `a` from `s` sends note `id`. */
  function WayOf(s: State, a: Action, id: nat): seq<Way> {
    match a
    case Confirmed =>
      if s.watch.Some? && s.watch.value.pc == Presenting(id) then [IntoTurn(s.watch.value.party)] else []
    case TakeNext =>
      if s.phase.Draining? && s.channel.queue != [] && s.channel.queue[0] == id then [ByDrain(s.phase.drain)] else []
    case _ => []
  }

  /** Every way note `id` was sent, in order. */
  function Ways(actions: seq<Action>, id: nat): seq<Way>
    requires Execute(Init(), actions).Some?
    decreases |actions|
  {
    if actions == [] then []
    else
      var most := actions[..|actions| - 1];
      Ways(most, id) + WayOf(Execute(Init(), most).value, actions[|actions| - 1], id)
  }

  /** The `k`-th action sends note `id` that way. */
  ghost predicate GoesAt(actions: seq<Action>, k: nat, id: nat, way: Way)
    requires k < |actions|
  {
    var before := Execute(Init(), actions[..k]);
    before.Some? &&
    match way
    case IntoTurn(party) =>
      && actions[k] == Confirmed && before.value.watch.Some?
      && before.value.watch.value.party == party && before.value.watch.value.pc == Presenting(id)
    case ByDrain(drain) =>
      && actions[k] == TakeNext && before.value.phase.Draining? && before.value.phase.drain == drain
      && before.value.channel.queue != [] && before.value.channel.queue[0] == id
  }

  /** Some step of the run sends it that way. */
  ghost predicate Went(actions: seq<Action>, id: nat, way: Way) {
    exists k: nat :: k < |actions| && GoesAt(actions, k, id, way)
  }

  lemma {:induction false} WaysAre(actions: seq<Action>, id: nat, way: Way)
    requires Execute(Init(), actions).Some?
    ensures way in Ways(actions, id) <==> Went(actions, id, way)
    decreases |actions|
  {
    hide Next;
    if actions != [] {
      var n := |actions| - 1;
      var most := actions[..n];
      WaysAre(most, id, way);
      forall k: nat | k < n ensures GoesAt(actions, k, id, way) <==> GoesAt(most, k, id, way) {
        assert actions[..k] == most[..k];
      }
      LastGoes(actions, id, way);
      if Went(actions, id, way) {
        var k: nat :| k < |actions| && GoesAt(actions, k, id, way);
        if k < n { assert GoesAt(most, k, id, way); }
      }
      if Went(most, id, way) {
        var k: nat :| k < |most| && GoesAt(most, k, id, way);
        assert GoesAt(actions, k, id, way);
      }
    }
  }

  lemma LastGoes(actions: seq<Action>, id: nat, way: Way)
    requires actions != [] && Execute(Init(), actions).Some?
    ensures var n := |actions| - 1;
            way in WayOf(Execute(Init(), actions[..n]).value, actions[n], id) <==> GoesAt(actions, n, id, way)
  {
    hide Next;
  }

  // ---------------------------------------------------------------- what each container says of it

  /** What a sender may be told of a note that went these ways, whatever was decided. */
  predicate Told(accepted: Accepted, ways: seq<Way>) {
    match accepted
    case Queued => ways == [ByDrain(LoopTop)]
    case Interrupted(party) => ways == [IntoTurn(party)]
    case AtTurnEnd(party) => ways == [ByDrain(if party == Worker then ReplyEnd else DecisionEnd)]
    case JudgedWith(_) => ways == [IntoTurn(Supervisor)] || ways == [ByDrain(DecisionEnd)]
  }

  predicate ToldAll(xs: seq<Answer>, id: nat, ways: seq<Way>) {
    forall i :: 0 <= i < |xs| && xs[i].id == id ==> Told(xs[i].accepted, ways)
  }

  /** Held for a decision, it would otherwise be told how it reached the judge. */
  predicate HeldAll(xs: seq<Answer>, id: nat, ways: seq<Way>) {
    forall i :: 0 <= i < |xs| && xs[i].id == id ==>
      Told(xs[i].accepted, ways) && (ways == [IntoTurn(Supervisor)] || ways == [ByDrain(DecisionEnd)])
  }

  predicate PhaseKnows(p: Phase, id: nat, ways: seq<Way>) {
    match p
    case Draining(drain, taken) => id in taken ==> ways == [ByDrain(drain)]
    case Handing(rest, accepted) =>
      (accepted == Queued || accepted == AtTurnEnd(Worker)) && (id in rest ==> Told(accepted, ways))
    case Joined(redirects) => id in redirects ==> ways == [IntoTurn(Supervisor)]
    case Recording(party, pending) => id in pending ==> ways == [IntoTurn(party)]
    case Rehanding(rest) => id in rest ==> ways == [ByDrain(DecisionEnd)]
    case _ => true
  }

  predicate WatchKnows(w: Option<WatchState>, id: nat, ways: seq<Way>) {
    w.Some? ==>
      && (w.value.pc == Presenting(id) ==> ways == [])
      && (id in RedirectIds(w.value.redirected) ==> ways == [IntoTurn(w.value.party)])
  }

  predicate ChannelKnows(c: Channel, id: nat, ways: seq<Way>) {
    (id in c.queue || id >= |c.sent| || id in c.withdrawn || id in c.refused) ==> ways == []
  }

  /** A note that went to a party this way is on record as handed to it. */
  predicate RecordedFor(party: Party, ways: seq<Way>) {
    || ways == [IntoTurn(party)]
    || (party == Supervisor && ways == [ByDrain(DecisionEnd)])
    || (party == Worker && (ways == [ByDrain(LoopTop)] || ways == [ByDrain(ReplyEnd)]))
  }

  predicate RecordedAll(xs: seq<Recorded>, id: nat, ways: seq<Way>) {
    forall i :: 0 <= i < |xs| && xs[i].id == id ==> RecordedFor(xs[i].party, ways)
  }

  predicate BooksKnow(b: Books, id: nat, ways: seq<Way>) {
    ToldAll(b.answers, id, ways) && HeldAll(b.awaiting, id, ways) && RecordedAll(b.recorded, id, ways)
  }

  /** Wherever note `id` is, it is there the way it went. */
  predicate Knows(s: State, id: nat, ways: seq<Way>) {
    && ChannelKnows(s.channel, id, ways) && WatchKnows(s.watch, id, ways) && PhaseKnows(s.phase, id, ways)
    && BooksKnow(s.books, id, ways)
  }

  // ---------------------------------------------------------------- what every step keeps

  /** A note that is nowhere yet but with the inbox or before a party is in no container past it. */
  lemma Nowhere(s: State, id: nat)
    requires BalancedAt(s, id) && WatchFits(s)
    requires Times(s.channel.queue, id) + Times(InFlight(s.watch), id) >= 1
    ensures id < |s.channel.sent|
    ensures id !in AnswerIds(s.books.answers) && id !in AnswerIds(s.books.awaiting) && id !in Taken(s.phase)
    ensures Times(s.channel.queue, id) + Times(InFlight(s.watch), id) <= 1
    ensures id !in Unrecorded(s.phase, s.watch, Supervisor) && id !in Unrecorded(s.phase, s.watch, Worker)
    ensures id !in s.channel.withdrawn && id !in s.channel.refused && id !in RecordedIds(s.books.recorded)
  {
    hide Taken, InFlight, Unrecorded;
    Occurs(RecordedIds(s.books.recorded), id);
    Occurs(AnswerIds(s.books.answers), id);
    Occurs(AnswerIds(s.books.awaiting), id);
    Occurs(Taken(s.phase), id);
    Occurs(Unrecorded(s.phase, s.watch, Supervisor), id);
    Occurs(Unrecorded(s.phase, s.watch, Worker), id);
    Occurs(s.channel.withdrawn, id);
    Occurs(s.channel.refused, id);
  }

  lemma SenderKnows(s: State, a: Action, id: nat, ways: seq<Way>)
    requires Knows(s, id, ways) && SenderStep(s, a).Some?
    ensures Knows(SenderStep(s, a).value, id, ways)
  {
    hide PhaseKnows, WatchKnows, BooksKnow;
  }

  lemma ClaimKnows(s: State, a: Action, id: nat, ways: seq<Way>)
    requires Knows(s, id, ways) && BalancedAt(s, id) && (a.Claims? || a.Refused?) && ClaimStep(s, a).Some?
    ensures Knows(ClaimStep(s, a).value, id, ways)
  {
    hide PhaseKnows, BooksKnow, BalancedAt, Claimable;
  }

  lemma ConfirmKnows(s: State, id: nat, ways: seq<Way>)
    requires Knows(s, id, ways) && BalancedAt(s, id) && WatchFits(s) && ClaimStep(s, Confirmed).Some?
    ensures Knows(ClaimStep(s, Confirmed).value, id, ways + WayOf(s, Confirmed, id))
  {
    hide BalancedAt;
    var w := s.watch.value;
    if w.pc.id == id {
      TimesOne(id, id);
      Nowhere(s, id);
      ConfirmsOne(s, id);
    } else {
      assert ways + [] == ways;
      ConfirmsOther(s, id, ways);
    }
  }

  lemma ConfirmsOne(s: State, id: nat)
    requires s.watch.Some? && s.watch.value.pc == Presenting(id)
    requires Times(s.channel.queue, id) + Times(InFlight(s.watch), id) <= 1
    requires id < |s.channel.sent| && Times([id], id) == 1
    requires id !in AnswerIds(s.books.answers) && id !in AnswerIds(s.books.awaiting) && id !in Taken(s.phase)
    requires s.phase.Live? || s.phase.Ending?
    requires id !in s.channel.withdrawn && id !in s.channel.refused && id !in RecordedIds(s.books.recorded)
    ensures Knows(ClaimStep(s, Confirmed).value, id, [IntoTurn(s.watch.value.party)])
  {
    hide Times;
    Occurs(s.channel.queue, id);
    var way := [IntoTurn(s.watch.value.party)];
    NoneTold(s.books.answers, id, way);
    NoneTold(s.books.awaiting, id, way);
    NoneRecorded(s.books.recorded, id, way);
  }

  /** Nothing is said of a note that is not there. */
  lemma NoneTold(xs: seq<Answer>, id: nat, ways: seq<Way>)
    requires id !in AnswerIds(xs)
    ensures ToldAll(xs, id, ways) && HeldAll(xs, id, ways)
  {
    forall i | 0 <= i < |xs| ensures xs[i].id != id {
      assert AnswerIds(xs)[i] == xs[i].id;
    }
  }

  lemma NoneRecorded(xs: seq<Recorded>, id: nat, ways: seq<Way>)
    requires id !in RecordedIds(xs)
    ensures RecordedAll(xs, id, ways)
  {
    forall i | 0 <= i < |xs| ensures xs[i].id != id {
      assert RecordedIds(xs)[i] == xs[i].id;
    }
  }

  lemma ConfirmsOther(s: State, id: nat, ways: seq<Way>)
    requires Knows(s, id, ways) && ClaimStep(s, Confirmed).Some? && s.watch.value.pc.id != id
    ensures Knows(ClaimStep(s, Confirmed).value, id, ways)
  {
    hide PhaseKnows, ChannelKnows;
    var w := s.watch.value;
    var one := Redirected(w.pc.id, w.presented, w.observed);
    assert RedirectIds(w.redirected + [one]) == RedirectIds(w.redirected) + [one.id];
  }

  lemma WatchAside(s: State, a: Action, id: nat, ways: seq<Way>)
    requires Knows(s, id, ways) && WatchStep(s, a).Some?
    ensures Knows(WatchStep(s, a).value, id, ways)
  {
    hide PhaseKnows, ChannelKnows, BooksKnow;
  }

  lemma TurnKnows(s: State, a: Action, id: nat, ways: seq<Way>)
    requires Knows(s, id, ways) && WatchFits(s) && TurnStep(s, a).Some?
    ensures Knows(TurnStep(s, a).value, id, ways)
  {
    hide ChannelKnows, BooksKnow;
  }

  lemma PlainKnows(s: State, a: Action, id: nat, ways: seq<Way>)
    requires Knows(s, id, ways) && PlainStep(s, a).Some?
    ensures Knows(PlainStep(s, a).value, id, ways)
  {
    hide ChannelKnows, BooksKnow, WatchKnows;
  }

  lemma TakeKnows(s: State, id: nat, ways: seq<Way>)
    requires Knows(s, id, ways) && BalancedAt(s, id) && WatchFits(s) && BookStep(s, TakeNext).Some?
    ensures Knows(BookStep(s, TakeNext).value, id, ways + WayOf(s, TakeNext, id))
  {
    hide BalancedAt;
    var queue := s.channel.queue;
    if queue[0] == id {
      TimesFirst(queue, id);
      Nowhere(s, id);
      TakesOne(s, id);
    } else {
      assert ways + [] == ways;
      TakesOther(s, id, ways);
    }
  }

  lemma TakesOne(s: State, id: nat)
    requires s.phase.Draining? && s.channel.queue != [] && s.channel.queue[0] == id && s.watch.None?
    requires Times(s.channel.queue, id) == 1 + Times(s.channel.queue[1..], id) <= 1
    requires id < |s.channel.sent| && id !in Taken(s.phase)
    requires id !in AnswerIds(s.books.answers) && id !in AnswerIds(s.books.awaiting)
    requires id !in s.channel.withdrawn && id !in s.channel.refused && id !in RecordedIds(s.books.recorded)
    ensures Knows(BookStep(s, TakeNext).value, id, [ByDrain(s.phase.drain)])
  {
    hide Times;
    Occurs(s.channel.queue[1..], id);
    NoneTold(s.books.answers, id, [ByDrain(s.phase.drain)]);
    NoneTold(s.books.awaiting, id, [ByDrain(s.phase.drain)]);
    NoneRecorded(s.books.recorded, id, [ByDrain(s.phase.drain)]);
  }

  lemma TakesOther(s: State, id: nat, ways: seq<Way>)
    requires Knows(s, id, ways) && BookStep(s, TakeNext).Some? && s.channel.queue[0] != id
    ensures Knows(BookStep(s, TakeNext).value, id, ways)
  {
    hide BooksKnow, WatchKnows;
  }

  lemma AnswerKnows(s: State, a: Action, id: nat, ways: seq<Way>)
    requires Knows(s, id, ways) && (a.SettleNext? || a.DropNext?) && BookStep(s, a).Some?
    ensures Knows(BookStep(s, a).value, id, ways)
  {
    hide ChannelKnows, WatchKnows;
  }

  lemma BookKnows(s: State, a: Action, id: nat, ways: seq<Way>)
    requires Knows(s, id, ways) && BookStep(s, a).Some?
    requires a.HandNext? || a.HistoryStop? || a.RecordNext? || a.RehandNext? || a.Close?
    ensures Knows(BookStep(s, a).value, id, ways)
  {
    hide WatchKnows;
  }

  lemma NextKnows(s: State, a: Action, id: nat, ways: seq<Way>)
    requires Knows(s, id, ways) && BalancedAt(s, id) && WatchFits(s) && Next(s, a).Some?
    ensures Knows(Next(s, a).value, id, ways + WayOf(s, a, id))
  {
    hide SenderStep, ClaimStep, WatchStep, TurnStep, BookStep, PlainStep, Knows, BalancedAt, WatchFits;
    if a.Confirmed? {
      ConfirmKnows(s, id, ways);
    } else if a.TakeNext? {
      TakeKnows(s, id, ways);
    } else {
      assert ways + [] == ways;
      AsideKnows(s, a, id, ways);
    }
  }

  /** Every other step leaves the note's ways as they were. */
  lemma AsideKnows(s: State, a: Action, id: nat, ways: seq<Way>)
    requires Knows(s, id, ways) && BalancedAt(s, id) && WatchFits(s) && Next(s, a).Some?
    requires !a.Confirmed? && !a.TakeNext?
    ensures Knows(Next(s, a).value, id, ways)
  {
    hide SenderStep, ClaimStep, WatchStep, TurnStep, BookStep, PlainStep, Knows, BalancedAt, WatchFits;
    if a.Send? || a.Withdraw? {
      SenderKnows(s, a, id, ways);
    } else if a.Claims? || a.Refused? {
      ClaimKnows(s, a, id, ways);
    } else if a.SocketUp? || a.SeesEnd? || a.Blocks? || a.TimesOut? || a.SawTool? || a.SawText? {
      WatchAside(s, a, id, ways);
    } else if a.OpenTurn? || a.CallReturns? || a.Join? {
      TurnKnows(s, a, id, ways);
    } else if a.SettleNext? || a.DropNext? {
      AnswerKnows(s, a, id, ways);
    } else if a.HandNext? || a.HistoryStop? || a.RecordNext? || a.RehandNext? || a.Close? {
      BookKnows(s, a, id, ways);
    } else {
      PlainKnows(s, a, id, ways);
    }
  }

  lemma {:induction false} RunKnows(actions: seq<Action>, id: nat)
    requires Execute(Init(), actions).Some?
    ensures Knows(Execute(Init(), actions).value, id, Ways(actions, id))
    decreases |actions|
  {
    if actions != [] {
      hide Knows, WatchFits, BalancedAt, Next, WayOf;
      var most := actions[..|actions| - 1];
      RunKnows(most, id);
      RunBalances(most, id);
      NextKnows(Execute(Init(), most).value, actions[|actions| - 1], id, Ways(most, id));
    }
  }

  // ---------------------------------------------------------------- what a sender is told

  /** What a sender heard of note `id` is how the note reached a party, of all the ways it may; or that a
      decision it reached the judge for completed the conversation. */
  ghost predicate HeardAsWent(actions: seq<Action>, id: nat, accepted: Accepted) {
    && (!accepted.JudgedWith? ==>
          && (forall party :: accepted == Interrupted(party) <==> Went(actions, id, IntoTurn(party)))
          && (accepted == AtTurnEnd(Worker) <==> Went(actions, id, ByDrain(ReplyEnd)))
          && (accepted == AtTurnEnd(Supervisor) <==> Went(actions, id, ByDrain(DecisionEnd)))
          && (accepted == Queued <==> Went(actions, id, ByDrain(LoopTop))))
    && (accepted.JudgedWith? ==>
          && (Went(actions, id, IntoTurn(Supervisor)) <==> !Went(actions, id, ByDrain(DecisionEnd)))
          && !Went(actions, id, IntoTurn(Worker))
          && !Went(actions, id, ByDrain(ReplyEnd)) && !Went(actions, id, ByDrain(LoopTop)))
  }

  /** In every run, every sender answered is told how its note went: redirected into the turn of the party
      whose watch presented it, or taken at the drain that took it; unless the decision it reached the judge
      for completed. */
  lemma AnsweredAsDelivered(actions: seq<Action>, i: nat)
    requires Execute(Init(), actions).Some? && i < |Execute(Init(), actions).value.books.answers|
    ensures var one := Execute(Init(), actions).value.books.answers[i];
            HeardAsWent(actions, one.id, one.accepted)
  {
    hide Execute, Went, Ways, Knows;
    var s := Execute(Init(), actions).value;
    var one := s.books.answers[i];
    RunKnows(actions, one.id);
    KnowsTold(s, one.id, Ways(actions, one.id), i);
    forall way ensures way in Ways(actions, one.id) <==> Went(actions, one.id, way) {
      WaysAre(actions, one.id, way);
    }
    ToldIs(actions, one.id, one.accepted);
  }

  /** And the record names the party it went to: the supervisor for a redirect of its turn and for what the drain
      after its decision took, the worker for the rest. */
  lemma RecordedAsDelivered(actions: seq<Action>, i: nat)
    requires Execute(Init(), actions).Some? && i < |Execute(Init(), actions).value.books.recorded|
    ensures var one := Execute(Init(), actions).value.books.recorded[i];
            one.party == Supervisor <==>
              Went(actions, one.id, IntoTurn(Supervisor)) || Went(actions, one.id, ByDrain(DecisionEnd))
  {
    hide Execute, Went, Ways;
    var one := Execute(Init(), actions).value.books.recorded[i];
    RunKnows(actions, one.id);
    WaysAre(actions, one.id, IntoTurn(Supervisor));
    WaysAre(actions, one.id, ByDrain(DecisionEnd));
  }

  lemma KnowsTold(s: State, id: nat, ways: seq<Way>, i: nat)
    requires Knows(s, id, ways) && i < |s.books.answers| && s.books.answers[i].id == id
    ensures Told(s.books.answers[i].accepted, ways)
  {
  }

  lemma ToldIs(actions: seq<Action>, id: nat, accepted: Accepted)
    requires Execute(Init(), actions).Some? && Told(accepted, Ways(actions, id))
    requires forall way :: way in Ways(actions, id) <==> Went(actions, id, way)
    ensures HeardAsWent(actions, id, accepted)
  {
    hide Execute, Went, Ways;
    assert forall party :: Went(actions, id, IntoTurn(party)) <==> IntoTurn(party) in Ways(actions, id);
    assert forall drain :: Went(actions, id, ByDrain(drain)) <==> ByDrain(drain) in Ways(actions, id);
  }

  // ---------------------------------------------------------------- what was decided

  predicate DecidedAs(p: Phase, actions: seq<Action>) {
    p.Settling? || p.Acting? ==> Decide(p.decision) in actions
  }

  predicate JudgedAs(xs: seq<Answer>, actions: seq<Action>) {
    forall i :: 0 <= i < |xs| && xs[i].accepted.JudgedWith? ==>
      Decide(Completes(xs[i].accepted.completionReason)) in actions
  }

  lemma JudgedGrows(xs: seq<Answer>, actions: seq<Action>, a: Action)
    requires JudgedAs(xs, actions)
    ensures JudgedAs(xs, actions + [a])
  {
  }

  lemma PlainJudged(s: State, a: Action, actions: seq<Action>)
    requires DecidedAs(s.phase, actions) && PlainStep(s, a).Some?
    ensures DecidedAs(PlainStep(s, a).value.phase, actions + [a])
    ensures PlainStep(s, a).value.books == s.books
  {
    assert (actions + [a])[|actions|] == a;
  }

  lemma BookJudged(s: State, a: Action, actions: seq<Action>)
    requires DecidedAs(s.phase, actions) && JudgedAs(s.books.answers, actions)
    requires AllOtherwise(s.books.awaiting) && (s.phase.Handing? ==> !s.phase.accepted.JudgedWith?)
    requires BookStep(s, a).Some?
    ensures DecidedAs(BookStep(s, a).value.phase, actions)
    ensures JudgedAs(BookStep(s, a).value.books.answers, actions)
  {
  }

  lemma OtherJudged(s: State, a: Action, actions: seq<Action>)
    requires DecidedAs(s.phase, actions) && JudgedAs(s.books.answers, actions)
    ensures SenderStep(s, a).Some? ==>
              SenderStep(s, a).value.phase == s.phase && SenderStep(s, a).value.books == s.books
    ensures WatchStep(s, a).Some? ==>
              WatchStep(s, a).value.phase == s.phase && WatchStep(s, a).value.books == s.books
    ensures ClaimStep(s, a).Some? ==>
              ClaimStep(s, a).value.phase == s.phase && JudgedAs(ClaimStep(s, a).value.books.answers, actions)
    ensures TurnStep(s, a).Some? ==>
              DecidedAs(TurnStep(s, a).value.phase, actions) && TurnStep(s, a).value.books == s.books
  {
    hide WatchMoves, Claimable;
  }

  lemma NextJudged(s: State, a: Action, actions: seq<Action>, all: seq<Action>)
    requires DecisionInvariant(s) && DecidedAs(s.phase, actions) && JudgedAs(s.books.answers, actions)
    requires Next(s, a).Some? && all == actions + [a]
    ensures DecidedAs(Next(s, a).value.phase, all) && JudgedAs(Next(s, a).value.books.answers, all)
  {
    hide SenderStep, ClaimStep, WatchStep, TurnStep, BookStep, PlainStep, JudgedAs, Shows, Abandons, AllOtherwise;
    OtherJudged(s, a, actions);
    if BookAction(a) {
      BookJudged(s, a, actions);
    } else if a.Decide? || !(a.Send? || a.Withdraw? || a.SocketUp? || a.SeesEnd? || a.Blocks? || a.TimesOut?
                             || a.SawTool? || a.SawText? || a.Claims? || a.Confirmed? || a.Refused? || a.OpenTurn?
                             || a.CallReturns? || a.Join?) {
      PlainJudged(s, a, actions);
    }
    JudgedGrows(Next(s, a).value.books.answers, actions, a);
  }

  /** No sender is told of a completion that no decision of the run gave, nor of another reason than it gave. */
  lemma {:induction false} RunJudged(actions: seq<Action>)
    requires Execute(Init(), actions).Some?
    ensures DecidedAs(Execute(Init(), actions).value.phase, actions)
    ensures JudgedAs(Execute(Init(), actions).value.books.answers, actions)
    decreases |actions|
  {
    if actions != [] {
      hide DecisionInvariant, Next, DecidedAs, JudgedAs;
      var n := |actions| - 1;
      RunJudged(actions[..n]);
      RunDecides(actions[..n]);
      NextJudged(Execute(Init(), actions[..n]).value, actions[n], actions[..n], actions);
    }
  }
}
