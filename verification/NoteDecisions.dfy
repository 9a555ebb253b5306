/** What a decision block owes: the notes its query was shown, the senders held for it, and the
    answers they are given. */
module NoteDecisions {
  import opened Wrappers
  import opened Notes
  import opened LiveTurn
  import opened NoteDelivery
  import opened NoteBalance

  /** The phases of the decision loop, from its opening to the decision that leaves it. */
  predicate InBlock(p: Phase) {
    match p
    case Querying => true
    case Live(party) => party == Supervisor
    case Ending(party) => party == Supervisor
    case Joined(_) => true
    case Recording(party, _) => party == Supervisor
    case Attempted => true
    case Draining(drain, _) => drain == DecisionEnd
    case Rehanding(_) => true
    case Deciding => true
    case _ => false
  }

  predicate OtherwiseAnswer(accepted: Accepted) {
    accepted == Interrupted(Supervisor) || accepted == AtTurnEnd(Supervisor)
  }

  predicate AllOtherwise(xs: seq<Answer>) {
    forall i :: 0 <= i < |xs| ==> OtherwiseAnswer(xs[i].accepted)
  }

  predicate AllTo(xs: seq<Recorded>, party: Party) {
    forall i :: 0 <= i < |xs| ==> xs[i].party == party
  }

  /** Settled answers say completion exactly when the decision was. */
  predicate SettledAs(xs: seq<Answer>, decision: Decision) {
    forall i :: 0 <= i < |xs| ==>
      if decision.Completes? then xs[i].accepted == JudgedWith(decision.reason)
      else OtherwiseAnswer(xs[i].accepted)
  }

  predicate NoneJudged(xs: seq<Answer>) {
    forall i :: 0 <= i < |xs| ==> !xs[i].accepted.JudgedWith?
  }

  /** The senders held are exactly those of the notes recorded since the block opened; and while
      it is being settled, the ones answered and the ones still held are, in order. */
  predicate Held(p: Phase, b: Books, k: Block) {
    && AllOtherwise(b.awaiting)
    && k.start <= |b.recorded|
    && (InBlock(p) ==>
          && AnswerIds(b.awaiting) == RecordedIds(b.recorded[k.start..])
          && AllTo(b.recorded[k.start..], Supervisor))
    && (p.Settling? || p.Acting? ==>
          && k.settleStart <= |b.answers|
          && AnswerIds(b.answers[k.settleStart..]) + AnswerIds(b.awaiting) == RecordedIds(b.recorded[k.start..])
          && AllTo(b.recorded[k.start..], Supervisor)
          && SettledAs(b.answers[k.settleStart..], p.decision)
          && NoneJudged(b.answers[..k.settleStart]))
    && (!InBlock(p) && !p.Settling? && !p.Finishing? ==> b.awaiting == [])
  }

  /** Whether a completion may already have been decided. */
  predicate MayBeJudged(p: Phase) {
    match p
    case Settling(decision) => decision.Completes?
    case Acting(decision) => decision.Completes?
    case Finishing(exit) => exit.Completed? || exit.Stopped?
    case Over(exit) => exit.Completed? || exit.Stopped?
    case Closed(exit) => exit.Completed? || exit.Stopped?
    case _ => false
  }

  predicate Judged(p: Phase, b: Books) {
    && (MayBeJudged(p) || NoneJudged(b.answers))
    && (p.Handing? ==> !p.accepted.JudgedWith?)
  }

  /** What the running query was shown, against what has been recorded since. */
  predicate Shows(p: Phase, b: Books, k: Block) {
    && k.snapshot <= |b.recorded|
    && (InBlock(p) && !p.Querying? && !p.Rehanding? ==> k.start <= k.snapshot)
    && (InBlock(p) && (p.Live? || p.Ending? || p.Joined?) ==> k.snapshot == |b.recorded|)
    && (p.Joined? ==> p.redirects == k.redirected)
    && (p.Recording? && p.party == Supervisor ==>
          RecordedIds(b.recorded[k.snapshot..]) + p.pending == k.redirected)
    && (p.Attempted? || p.Deciding? || (p.Draining? && p.drain == DecisionEnd) ==>
          RecordedIds(b.recorded[k.snapshot..]) == k.redirected)
  }

  predicate StoppedInHistory(p: Phase) {
    (p.Finishing? || p.Over? || p.Closed?) && p.exit == HistoryStopped
  }

  /** Only a history stop drops redirects, and it drops exactly the ones just confirmed. */
  predicate Abandons(p: Phase, b: Books, k: Block) {
    b.abandoned == if StoppedInHistory(p) then k.redirected else []
  }

  predicate DecisionInvariant(s: State) {
    && Held(s.phase, s.books, s.block)
    && Judged(s.phase, s.books)
    && Shows(s.phase, s.books, s.block)
    && Abandons(s.phase, s.books, s.block)
  }

  lemma IdsOfSuffixGrow(xs: seq<Recorded>, k: nat, x: Recorded)
    requires k <= |xs|
    ensures RecordedIds((xs + [x])[k..]) == RecordedIds(xs[k..]) + [x.id]
  {
    assert (xs + [x])[k..] == xs[k..] + [x];
  }

  /** The moves of the decision loop and of the run's end. */
  predicate Closing(a: Action) {
    a.DecisionTaken? || a.RehandDone? || a.SettleDone? || a.Act? || a.End? || a.DropDone?
  }

  lemma ClosingHolds(p: Phase, a: Action, b: Books, k: Block, queued: bool)
    requires Closing(a) && Held(p, b, k) && PhaseMoves(p, a, queued, b.awaiting != []).Some?
    ensures Held(PhaseMoves(p, a, queued, b.awaiting != []).value, b, k)
  {
    hide AllOtherwise, AllTo, SettledAs, NoneJudged;
  }

  lemma OpeningHolds(p: Phase, a: Action, b: Books, k: Block, queued: bool)
    requires !Closing(a) && Held(p, b, k) && PhaseMoves(p, a, queued, b.awaiting != []).Some?
    ensures Held(PhaseMoves(p, a, queued, b.awaiting != []).value, b, k)
  {
    hide AllOtherwise, AllTo, SettledAs, NoneJudged;
  }

  lemma MovesHold(p: Phase, a: Action, b: Books, k: Block, queued: bool)
    requires Held(p, b, k) && PhaseMoves(p, a, queued, b.awaiting != []).Some?
    ensures Held(PhaseMoves(p, a, queued, b.awaiting != []).value, b, k)
  {
    hide Held, PhaseMoves;
    if Closing(a) { ClosingHolds(p, a, b, k, queued); } else { OpeningHolds(p, a, b, k, queued); }
  }

  lemma PlainHolds(s: State, a: Action)
    requires Held(s.phase, s.books, s.block) && Judged(s.phase, s.books) && PlainStep(s, a).Some?
    ensures var s' := PlainStep(s, a).value; Held(s'.phase, s'.books, s'.block)
  {
    if a.Decide? {
      assert s.books.answers[..|s.books.answers|] == s.books.answers;
    } else if !a.OpenBlock? {
      MovesHold(s.phase, a, s.books, s.block, s.channel.queue != []);
    }
  }

  lemma MovesJudge(p: Phase, a: Action, b: Books, queued: bool)
    requires Judged(p, b) && PhaseMoves(p, a, queued, b.awaiting != []).Some?
    ensures Judged(PhaseMoves(p, a, queued, b.awaiting != []).value, b)
  {
  }

  lemma MovesAbandon(p: Phase, a: Action, b: Books, k: Block, queued: bool)
    requires Abandons(p, b, k) && PhaseMoves(p, a, queued, b.awaiting != []).Some?
    ensures Abandons(PhaseMoves(p, a, queued, b.awaiting != []).value, b, k)
  {
  }

  lemma MovesShow(p: Phase, a: Action, b: Books, k: Block, queued: bool)
    requires Held(p, b, k) && Shows(p, b, k)
    requires PhaseMoves(p, a, queued, b.awaiting != []).Some?
    ensures Shows(PhaseMoves(p, a, queued, b.awaiting != []).value, b, k)
  {
  }

  lemma PlainShows(s: State, a: Action)
    requires DecisionInvariant(s) && PlainStep(s, a).Some?
    ensures var s' := PlainStep(s, a).value;
            && Judged(s'.phase, s'.books)
            && Shows(s'.phase, s'.books, s'.block)
            && Abandons(s'.phase, s'.books, s'.block)
  {
    if !a.OpenBlock? && !a.Decide? {
      hide PhaseMoves, Held, Judged, Shows, Abandons;
      MovesJudge(s.phase, a, s.books, s.channel.queue != []);
      MovesAbandon(s.phase, a, s.books, s.block, s.channel.queue != []);
      MovesShow(s.phase, a, s.books, s.block, s.channel.queue != []);
    }
  }

  lemma TurnDecides(s: State, a: Action)
    requires DecisionInvariant(s) && TurnStep(s, a).Some?
    ensures DecisionInvariant(TurnStep(s, a).value)
  {
  }

  lemma BookHolds(s: State, a: Action)
    requires DecisionInvariant(s) && BookStep(s, a).Some?
    requires !a.SettleNext? && !a.RecordNext? && !a.RehandNext?
    ensures var s' := BookStep(s, a).value; Held(s'.phase, s'.books, s'.block)
  {
  }

  lemma RecordingHolds(s: State, a: Action)
    requires DecisionInvariant(s) && BookStep(s, a).Some?
    requires a.RecordNext? || a.RehandNext?
    ensures var s' := BookStep(s, a).value; Held(s'.phase, s'.books, s'.block)
  {
    var id := if a.RecordNext? then s.phase.pending[0] else s.phase.rest[0];
    var party := if a.RecordNext? then s.phase.party else Supervisor;
    IdsOfSuffixGrow(s.books.recorded, s.block.start, Recorded(id, party));
  }

  lemma SuffixGrows(xs: seq<Answer>, k: nat, x: Answer)
    requires k <= |xs|
    ensures (xs + [x])[k..] == xs[k..] + [x] && (xs + [x])[..k] == xs[..k]
    ensures AnswerIds((xs + [x])[k..]) == AnswerIds(xs[k..]) + [x.id]
  {
  }

  lemma AnswersHead(xs: seq<Answer>)
    requires xs != []
    ensures AnswerIds(xs) == [xs[0].id] + AnswerIds(xs[1..])
  {
  }

  lemma Reassociate(a: seq<nat>, x: nat, b: seq<nat>)
    ensures (a + [x]) + b == a + ([x] + b)
  {
  }

  lemma SettlingOne(b: Books, decision: Decision, start: nat)
    requires b.awaiting != [] && start <= |b.answers|
    ensures var b' := Answered(b, decision);
            && b'.answers[start..] == b.answers[start..] + [b'.answers[|b.answers|]]
            && b'.answers[..start] == b.answers[..start]
            && AnswerIds(b'.answers[start..]) + AnswerIds(b'.awaiting)
               == AnswerIds(b.answers[start..]) + AnswerIds(b.awaiting)
  {
    var x := Answered(b, decision).answers[|b.answers|];
    SuffixGrows(b.answers, start, x);
    AnswersHead(b.awaiting);
    Reassociate(AnswerIds(b.answers[start..]), x.id, AnswerIds(b.awaiting[1..]));
  }

  lemma SettlingHolds(s: State)
    requires Held(s.phase, s.books, s.block) && BookStep(s, SettleNext).Some?
    ensures var s' := BookStep(s, SettleNext).value; Held(s'.phase, s'.books, s'.block)
  {
    SettlingOne(s.books, s.phase.decision, s.block.settleStart);
  }

  lemma BookJudges(s: State, a: Action)
    requires DecisionInvariant(s) && BookStep(s, a).Some?
    ensures var s' := BookStep(s, a).value; Judged(s'.phase, s'.books)
  {
  }

  lemma BookShows(s: State, a: Action)
    requires DecisionInvariant(s) && BookStep(s, a).Some?
    ensures var s' := BookStep(s, a).value;
            Shows(s'.phase, s'.books, s'.block) && Abandons(s'.phase, s'.books, s'.block)
  {
  }

  lemma ClaimDecides(s: State, a: Action)
    requires DecisionInvariant(s) && ClaimStep(s, a).Some?
    requires s.phase.Live? || s.phase.Ending?
    ensures DecisionInvariant(ClaimStep(s, a).value)
  {
  }

  /** Senders, and the watch between claims, touch nothing of a decision. */
  lemma AsideDecides(s: State, a: Action)
    requires DecisionInvariant(s)
    ensures SenderStep(s, a).Some? ==> DecisionInvariant(SenderStep(s, a).value)
    ensures WatchStep(s, a).Some? ==> DecisionInvariant(WatchStep(s, a).value)
  {
    hide Held, Judged, Shows, Abandons;
  }

  lemma BookDecides(s: State, a: Action)
    requires DecisionInvariant(s) && BookStep(s, a).Some?
    ensures DecisionInvariant(BookStep(s, a).value)
  {
    hide BookStep, Held, Judged, Shows, Abandons;
    if a.SettleNext? {
      SettlingHolds(s);
    } else if a.RecordNext? || a.RehandNext? {
      RecordingHolds(s, a);
    } else {
      BookHolds(s, a);
    }
    BookJudges(s, a);
    BookShows(s, a);
  }

  lemma PlainDecides(s: State, a: Action)
    requires DecisionInvariant(s) && PlainStep(s, a).Some?
    ensures DecisionInvariant(PlainStep(s, a).value)
  {
    hide PlainStep, Held, Judged, Shows, Abandons;
    PlainHolds(s, a);
    PlainShows(s, a);
  }

  lemma NextDecides(s: State, a: Action)
    requires WatchFits(s) && DecisionInvariant(s) && Next(s, a).Some?
    ensures DecisionInvariant(Next(s, a).value)
  {
    hide SenderStep, ClaimStep, WatchStep, TurnStep, BookStep, PlainStep, DecisionInvariant;
    if a.Send? || a.Withdraw? || a.SocketUp? || a.SeesEnd? || a.Blocks? || a.TimesOut? || a.SawTool? || a.SawText? {
      AsideDecides(s, a);
    } else if a.Claims? || a.Confirmed? || a.Refused? {
      ClaimNeedsWatch(s, a);
      ClaimDecides(s, a);
    } else if a.OpenTurn? || a.CallReturns? || a.Join? {
      TurnDecides(s, a);
    } else if BookAction(a) {
      BookDecides(s, a);
    } else {
      PlainDecides(s, a);
    }
  }

  lemma ClaimNeedsWatch(s: State, a: Action)
    requires ClaimStep(s, a).Some?
    ensures s.watch.Some?
  {
  }

  predicate BookAction(a: Action) {
    a.TakeNext? || a.HandNext? || a.HistoryStop? || a.RecordNext? || a.RehandNext? || a.SettleNext? || a.DropNext?
    || a.Close?
  }

  lemma {:induction false} RunDecides(actions: seq<Action>)
    requires Execute(Init(), actions).Some?
    ensures DecisionInvariant(Execute(Init(), actions).value)
    decreases |actions|
  {
    if actions != [] {
      hide DecisionInvariant, WatchFits, BalancedAt, Next;
      var most := actions[..|actions| - 1];
      RunDecides(most);
      RunBalances(most, 0);
      NextDecides(Execute(Init(), most).value, actions[|actions| - 1]);
    }
  }
}
