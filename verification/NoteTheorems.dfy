/** What the protocol promises, over every interleaving of senders, watch and engine. */
module NoteTheorems {
  import opened Wrappers
  import opened Notes
  import opened LiveTurn
  import opened NoteDelivery
  import opened NoteBalance
  import opened NoteDecisions
  import opened NoteWatch
  import opened NoteAnswers

  /** In every interleaving each note sent is in exactly one place, is recorded at most once, and
      its sender hears exactly one of an answer, a refusal or a withdrawal, at most once. */
  lemma EachNoteInOnePlace(s: State, id: nat)
    requires Reachable(s)
    ensures Places(s, id) == if id < |s.channel.sent| then 1 else 0
    ensures Times(RecordedIds(s.books.recorded), id) <= 1
    ensures Times(AnswerIds(s.books.answers), id) + Times(s.channel.refused, id)
            + Times(s.channel.withdrawn, id) <= 1
  {
    hide Execute, Times, Places;
    var actions :| Execute(Init(), actions) == Some(s);
    RunBalances(actions, id);
    OnePlace(s, id);
  }

  lemma OnePlace(s: State, id: nat)
    requires BalancedAt(s, id)
    ensures Places(s, id) == if id < |s.channel.sent| then 1 else 0
    ensures Times(RecordedIds(s.books.recorded), id) <= 1
    ensures Times(AnswerIds(s.books.answers), id) + Times(s.channel.refused, id)
            + Times(s.channel.withdrawn, id) <= 1
  {
    hide Times, Taken, InFlight;
    NotBoth(s, id);
  }

  /** What a worker was shown and is not on record yet is answered already. */
  lemma NotBoth(s: State, id: nat)
    requires BalancedAt(s, id)
    ensures Times(RecordedIds(s.books.recorded), id)
            <= Times(AnswerIds(s.books.answers), id) + Times(AnswerIds(s.books.awaiting), id)
  {
    hide Times, Places;
  }

  /** Once the channel is closed nothing is left in doubt: every note was answered, refused,
      withdrawn or dropped with a history stop; what was answered is exactly what was recorded;
      and what a party was shown is exactly what was recorded plus what was dropped. */
  lemma NothingLeftInDoubt(s: State, id: nat)
    requires Reachable(s) && s.phase.Closed?
    ensures id < |s.channel.sent| ==>
              Times(AnswerIds(s.books.answers), id) + Times(s.channel.refused, id)
              + Times(s.channel.withdrawn, id) + Times(s.books.abandoned, id) == 1
    ensures Times(RecordedIds(s.books.recorded), id) == Times(AnswerIds(s.books.answers), id)
    ensures Times(s.books.handed, id)
            == Times(RecordedIds(s.books.recorded), id) + Times(s.books.abandoned, id)
  {
    hide Execute, BalancedAt, DecisionInvariant, ClosesEmpty, WatchFits;
    var actions :| Execute(Init(), actions) == Some(s);
    RunBalances(actions, id);
    RunDecides(actions);
    RunCloses(actions);
    ClosedAccounts(s, id);
  }

  lemma ClosedAccounts(s: State, id: nat)
    requires s.phase.Closed? && WatchFits(s) && BalancedAt(s, id) && DecisionInvariant(s) && ClosesEmpty(s)
    ensures id < |s.channel.sent| ==>
              Times(AnswerIds(s.books.answers), id) + Times(s.channel.refused, id)
              + Times(s.channel.withdrawn, id) + Times(s.books.abandoned, id) == 1
    ensures Times(RecordedIds(s.books.recorded), id) == Times(AnswerIds(s.books.answers), id)
    ensures Times(s.books.handed, id)
            == Times(RecordedIds(s.books.recorded), id) + Times(s.books.abandoned, id)
  {
    hide Times, Shows, Judged, Abandons;
    TimesNone(id);
    assert AnswerIds(s.books.awaiting) == [];
  }

  predicate ClosesEmpty(s: State) {
    s.phase.Closed? ==> s.channel.queue == []
  }

  lemma {:induction false} RunCloses(actions: seq<Action>)
    requires Execute(Init(), actions).Some?
    ensures ClosesEmpty(Execute(Init(), actions).value)
    decreases |actions|
  {
    if actions != [] {
      hide ClosesEmpty, WatchFits, BalancedAt, Next;
      var most := actions[..|actions| - 1];
      RunCloses(most);
      RunBalances(most, 0);
      NextCloses(Execute(Init(), most).value, actions[|actions| - 1]);
    }
  }

  lemma NextCloses(s: State, a: Action)
    requires WatchFits(s) && ClosesEmpty(s) && Next(s, a).Some?
    ensures ClosesEmpty(Next(s, a).value)
  {
    hide SenderStep, ClaimStep, WatchStep, TurnStep, BookStep, PlainStep, ClosesEmpty, WatchFits;
    if a.Send? || a.Withdraw? {
      SenderCloses(s, a);
    } else if a.Claims? || a.Confirmed? || a.Refused? {
      ClaimCloses(s, a);
    } else if BookAction(a) {
      BookCloses(s, a);
    } else {
      OtherCloses(s, a);
    }
  }

  lemma SenderCloses(s: State, a: Action)
    requires ClosesEmpty(s) && SenderStep(s, a).Some?
    ensures ClosesEmpty(SenderStep(s, a).value)
  {
  }

  lemma ClaimCloses(s: State, a: Action)
    requires WatchFits(s) && ClaimStep(s, a).Some?
    ensures ClosesEmpty(ClaimStep(s, a).value)
  {
    hide Claimable;
  }

  lemma BookCloses(s: State, a: Action)
    requires ClosesEmpty(s) && BookStep(s, a).Some?
    ensures ClosesEmpty(BookStep(s, a).value)
  {
  }

  lemma OtherCloses(s: State, a: Action)
    requires ClosesEmpty(s)
    ensures WatchStep(s, a).Some? ==> ClosesEmpty(WatchStep(s, a).value)
    ensures TurnStep(s, a).Some? ==> ClosesEmpty(TurnStep(s, a).value)
    ensures PlainStep(s, a).Some? ==> ClosesEmpty(PlainStep(s, a).value)
  {
    hide PhaseMoves, WatchMoves;
    if !a.OpenBlock? && !a.Decide? && PlainStep(s, a).Some? {
      MovesNotToClosed(s.phase, a, s.channel.queue != [], s.books.awaiting != []);
    }
  }

  lemma MovesNotToClosed(p: Phase, a: Action, queued: bool, awaiting: bool)
    requires PhaseMoves(p, a, queued, awaiting).Some?
    ensures !PhaseMoves(p, a, queued, awaiting).value.Closed?
  {
  }

  /** Every note a party was shown has been recorded and its sender answered, unless, and only
      unless, the run was stopped by a history observation of a supervisor turn that a note had
      redirected. */
  lemma HandedMeansAnswered(s: State)
    requires Reachable(s) && s.phase.Closed?
    ensures (forall id :: id in s.books.handed ==>
               id in RecordedIds(s.books.recorded) && id in AnswerIds(s.books.answers))
            <==> !(s.phase.exit == HistoryStopped && s.block.redirected != [])
  {
    var actions :| Execute(Init(), actions) == Some(s);
    RunDecides(actions);
    forall id: nat
      ensures id in s.books.handed && id !in s.books.abandoned ==>
                id in RecordedIds(s.books.recorded) && id in AnswerIds(s.books.answers)
      ensures id in s.books.abandoned ==> id in s.books.handed && id !in AnswerIds(s.books.answers)
    {
      NothingLeftInDoubt(s, id);
      EachNoteInOnePlace(s, id);
      Occurs(s.books.handed, id);
      Occurs(s.books.abandoned, id);
      Occurs(RecordedIds(s.books.recorded), id);
      Occurs(AnswerIds(s.books.answers), id);
    }
    if s.books.abandoned != [] {
      assert s.books.abandoned[0] in s.books.abandoned;
    }
  }

  // ---------------------------------------------------------------- decisions

  /** The framing a redirected turn last opened with is every redirect confirmed into it. */
  predicate FramesWhole(s: State) {
    s.block.framed == s.block.redirected
  }

  lemma NextFrames(s: State, a: Action)
    requires WatchFits(s) && Watched(s) && FramesWhole(s) && Next(s, a).Some?
    ensures FramesWhole(Next(s, a).value)
  {
    hide SenderStep, ClaimStep, WatchStep, TurnStep, BookStep, PlainStep, FramesWhole, WatchFits, Watched;
    if a.OpenTurn? || a.CallReturns? || a.Join? {
      TurnFrames(s, a);
    } else {
      AsideFrames(s, a);
      OtherFrames(s, a);
    }
  }

  lemma TurnFrames(s: State, a: Action)
    requires Watched(s) && FramesWhole(s) && TurnStep(s, a).Some?
    ensures FramesWhole(TurnStep(s, a).value)
  {
    hide Monotone, Known, Passes, ClaimsFit, Late;
    assert RedirectIds([]) == [];
    if a.Join? && s.watch.Some? {
      var rs := s.watch.value.redirected;
      assert RedirectIds(rs)[..|rs|] == RedirectIds(rs);
    }
  }

  lemma AsideFrames(s: State, a: Action)
    requires FramesWhole(s)
    ensures SenderStep(s, a).Some? ==> FramesWhole(SenderStep(s, a).value)
    ensures ClaimStep(s, a).Some? ==> FramesWhole(ClaimStep(s, a).value)
    ensures WatchStep(s, a).Some? ==> FramesWhole(WatchStep(s, a).value)
  {
    hide Claimable, WatchMoves;
  }

  lemma OtherFrames(s: State, a: Action)
    requires FramesWhole(s)
    ensures BookStep(s, a).Some? ==> FramesWhole(BookStep(s, a).value)
    ensures PlainStep(s, a).Some? ==> FramesWhole(PlainStep(s, a).value)
  {
    hide PhaseMoves;
  }

  lemma {:induction false} RunFrames(actions: seq<Action>)
    requires Execute(Init(), actions).Some?
    ensures FramesWhole(Execute(Init(), actions).value)
    decreases |actions|
  {
    if actions != [] {
      hide FramesWhole, Watched, WatchFits, BalancedAt, Next;
      var most := actions[..|actions| - 1];
      RunFrames(most);
      RunBalances(most, 0);
      RunWatched(most);
      NextFrames(Execute(Init(), most).value, actions[|actions| - 1]);
    }
  }

  /** The engine's record as the judge and `Criteria::compose` read it. */
  function RecordOf(sent: seq<Note>, recorded: seq<Recorded>): seq<DeliveredNote>
    requires forall i :: 0 <= i < |recorded| ==> recorded[i].id < |sent|
  {
    seq(|recorded|, i requires 0 <= i < |recorded| => DeliveredNote(sent[recorded[i].id], recorded[i].party))
  }

  /** What `supervisor_redirect` frames: the presented notes, as delivered to the supervisor. */
  function Presented(sent: seq<Note>, ids: seq<nat>): seq<DeliveredNote>
    requires forall i :: 0 <= i < |ids| ==> ids[i] < |sent|
  {
    seq(|ids|, i requires 0 <= i < |ids| => DeliveredNote(sent[ids[i]], Supervisor))
  }

  lemma RecordedWereSent(s: State)
    requires Reachable(s)
    ensures forall i :: 0 <= i < |s.books.recorded| ==> s.books.recorded[i].id < |s.channel.sent|
  {
    var actions :| Execute(Init(), actions) == Some(s);
    forall i | 0 <= i < |s.books.recorded| ensures s.books.recorded[i].id < |s.channel.sent| {
      var id := s.books.recorded[i].id;
      RunBalances(actions, id);
      assert RecordedIds(s.books.recorded)[i] == id;
      Occurs(RecordedIds(s.books.recorded), id);
    }
  }

  lemma RecordSplits(sent: seq<Note>, recorded: seq<Recorded>, k: nat, framed: seq<nat>)
    requires forall i :: 0 <= i < |recorded| ==> recorded[i].id < |sent|
    requires k <= |recorded| && RecordedIds(recorded[k..]) == framed && AllTo(recorded[k..], Supervisor)
    ensures forall i :: 0 <= i < |framed| ==> framed[i] < |sent|
    ensures RecordOf(sent, recorded) == RecordOf(sent, recorded[..k]) + Presented(sent, framed)
  {
    assert |framed| == |recorded| - k;
    forall i | 0 <= i < |framed|
      ensures framed[i] == recorded[k + i].id && recorded[k + i].party == Supervisor
    {
      assert recorded[k..][i] == recorded[k + i];
    }
  }

  lemma DecisionShown(s: State)
    requires Reachable(s) && s.phase == Draining(DecisionEnd, [])
    ensures s.block.snapshot <= |s.books.recorded|
    ensures RecordedIds(s.books.recorded[s.block.snapshot..]) == s.block.framed
    ensures AllTo(s.books.recorded[s.block.snapshot..], Supervisor)
  {
    hide Execute, Judged, Abandons;
    var actions :| Execute(Init(), actions) == Some(s);
    RunDecides(actions);
    RunFrames(actions);
    var recorded, k, start := s.books.recorded, s.block.snapshot, s.block.start;
    assert recorded[k..] == recorded[start..][k - start..];
  }

  /** A decision leaves its loop only when the inbox is empty and every note recorded was in its
      hands: shown to its query, or framed into the turn that took it; so the criteria the query
      was composed with, and the ones that framing carried, are every criterion in force. */
  lemma DecisionHasEveryNote(s: State, configured: Option<string>)
    requires Reachable(s) && s.phase == Draining(DecisionEnd, []) && Next(s, TakeDone).Some?
    ensures Next(s, TakeDone).value.phase == Deciding
    ensures s.channel.queue == []
    ensures s.block.snapshot <= |s.books.recorded|
    ensures forall i :: 0 <= i < |s.books.recorded| ==> s.books.recorded[i].id < |s.channel.sent|
    ensures forall i :: 0 <= i < |s.block.framed| ==> s.block.framed[i] < |s.channel.sent|
    ensures var shown := RecordOf(s.channel.sent, s.books.recorded[..s.block.snapshot]);
            var framed := Presented(s.channel.sent, s.block.framed);
            && RecordOf(s.channel.sent, s.books.recorded) == shown + framed
            && Compose(configured, shown + framed).bound
               == Compose(configured, shown).bound + Compose(None, framed).bound
  {
    hide Execute, DecisionInvariant, Reachable, Bound;
    DecisionShown(s);
    RecordedWereSent(s);
    var recorded, k := s.books.recorded, s.block.snapshot;
    RecordSplits(s.channel.sent, recorded, k, s.block.framed);
    ComposeConcat(configured, RecordOf(s.channel.sent, recorded[..k]), Presented(s.channel.sent, s.block.framed));
  }

  /** Once a decision the engine took is settled, the answers given for it are, in order, exactly one to each
      note recorded since its block opened, all of them supervisor notes: `JudgedWith` its reason when it
      completed, and otherwise how that note reached the judge. */
  lemma SettlesExactlyItsBlock(actions: seq<Action>)
    requires Execute(Init(), actions).Some? && Execute(Init(), actions).value.phase.Acting?
    ensures var s := Execute(Init(), actions).value;
            && s.block.start <= |s.books.recorded| && s.block.settleStart <= |s.books.answers|
            && Decide(s.phase.decision) in actions
    ensures var s := Execute(Init(), actions).value;
            var notes := s.books.recorded[s.block.start..];
            var answers := s.books.answers[s.block.settleStart..];
            && AnswerIds(answers) == RecordedIds(notes)
            && AllTo(notes, Supervisor)
            && (forall i :: 0 <= i < |answers| ==> Settles(actions, answers[i], s.phase.decision))
            && NoneJudged(s.books.answers[..s.block.settleStart])
  {
    hide Execute, NoteDecisions.Shows, Abandons, HeardAsWent, Went;
    var s := Execute(Init(), actions).value;
    RunDecides(actions);
    RunJudged(actions);
    assert AnswerIds(s.books.awaiting) == [];
    var answers := s.books.answers[s.block.settleStart..];
    forall i | 0 <= i < |answers| ensures Settles(actions, answers[i], s.phase.decision) {
      AnsweredAsDelivered(actions, s.block.settleStart + i);
      SettlesAs(actions, answers[i], s.phase.decision);
    }
  }

  /** What a settled decision tells the sender of a note. */
  ghost predicate Settles(actions: seq<Action>, one: Answer, decision: Decision) {
    one.accepted
    == if decision.Completes? then JudgedWith(decision.reason)
       else if Went(actions, one.id, IntoTurn(Supervisor)) then Interrupted(Supervisor)
       else AtTurnEnd(Supervisor)
  }

  lemma SettlesAs(actions: seq<Action>, one: Answer, decision: Decision)
    requires HeardAsWent(actions, one.id, one.accepted)
    requires if decision.Completes? then one.accepted == JudgedWith(decision.reason) else OtherwiseAnswer(one.accepted)
    ensures Settles(actions, one, decision)
  {
    hide Went;
  }

  /** No sender hears `JudgedWith` before a decision has completed the conversation. */
  lemma JudgedOnlyOnCompletion(s: State, i: nat)
    requires Reachable(s) && i < |s.books.answers| && s.books.answers[i].accepted.JudgedWith?
    ensures match s.phase
            case Settling(decision) => decision.Completes?
            case Acting(decision) => decision.Completes?
            case Finishing(exit) => exit.Completed? || exit.Stopped?
            case Over(exit) => exit.Completed? || exit.Stopped?
            case Closed(exit) => exit.Completed? || exit.Stopped?
            case _ => false
  {
    hide Execute, Shows, Abandons, Held;
    var actions :| Execute(Init(), actions) == Some(s);
    RunDecides(actions);
  }

  // ---------------------------------------------------------------- the watch

  /** Whatever else runs: a watch has presented exactly its confirmed redirects, in order, each
      under a framing of everything confirmed so far; what it measured only grows; it takes only
      interrupt notes to its party, none twice; and at most one after its turn has ended. */
  lemma WatchPresentsWhatItConfirms(s: State)
    requires Reachable(s) && s.watch.Some?
    ensures var w := s.watch.value;
            && w.presented == RedirectIds(w.redirected) + InFlight(s.watch)
            && (forall i :: 0 <= i < |w.redirected| ==> w.redirected[i].framed == w.presented[..i + 1])
            && (forall i, j :: 0 <= i <= j < |w.redirected| ==> NoLater(w.redirected[i].at, w.redirected[j].at))
            && NoDuplicates(w.claims)
            && (forall id :: id in w.claims ==> id < |s.channel.sent| && Interrupts(s.channel.sent[id], w.party))
            && w.lateClaims <= 1
  {
    var actions :| Execute(Init(), actions) == Some(s);
    RunWatched(actions);
  }

  /** The tool uses seen since the last turn opened. */
  function ToolsSince(actions: seq<Action>): nat {
    if actions == [] then 0
    else match actions[|actions| - 1]
         case OpenTurn(_) => 0
         case SawTool => ToolsSince(actions[..|actions| - 1]) + 1
         case _ => ToolsSince(actions[..|actions| - 1])
  }

  /** The texts seen since then, in order. */
  function TextsSince(actions: seq<Action>): seq<string> {
    if actions == [] then []
    else match actions[|actions| - 1]
         case OpenTurn(_) => []
         case SawText(text) => TextsSince(actions[..|actions| - 1]) + [text]
         case _ => TextsSince(actions[..|actions| - 1])
  }

  function SeenSince(actions: seq<Action>): Observed {
    Observed(ToolsSince(actions), TextsSince(actions))
  }

  /** The redirect is the `k`-th step's: its note was in front of the party, and it was measured with all that
      had been seen of the turn. */
  ghost predicate ConfirmsAt(actions: seq<Action>, k: nat, one: Redirected)
    requires k < |actions|
  {
    var before := Execute(Init(), actions[..k]);
    && actions[k] == Confirmed && before.Some? && before.value.watch.Some?
    && before.value.watch.value.pc == Presenting(one.id) && before.value.watch.value.presented == one.framed
    && one.at == SeenSince(actions[..k])
  }

  ghost predicate ConfirmedOnce(actions: seq<Action>, one: Redirected) {
    exists k: nat :: k < |actions| && ConfirmsAt(actions, k, one)
  }

  predicate Resembles(w: WatchState, w': WatchState, a: Action) {
    && w'.observed == (match a
                       case SawTool => w.observed.(tools := w.observed.tools + 1)
                       case SawText(text) => w.observed.(texts := w.observed.texts + [text])
                       case _ => w.observed)
    && (a.Confirmed? ==> w.pc.Presenting?)
    && w'.redirected == (if a.Confirmed? then w.redirected + [Redirected(w.pc.id, w.presented, w.observed)]
                         else w.redirected)
  }

  lemma WatchResembles(s: State, a: Action)
    requires !a.OpenTurn? && Next(s, a).Some? && Next(s, a).value.watch.Some?
    ensures s.watch.Some? && Resembles(s.watch.value, Next(s, a).value.watch.value, a)
  {
    hide SenderStep, ClaimStep, WatchStep, TurnStep, BookStep, PlainStep;
    if a.Claims? || a.Confirmed? || a.Refused? {
      ClaimResembles(s, a);
    } else if a.CallReturns? || a.Join? {
      TurnResembles(s, a);
    } else if a.SocketUp? || a.SeesEnd? || a.Blocks? || a.TimesOut? || a.SawTool? || a.SawText? {
      MoveResembles(s, a);
    } else {
      LeftAlone(s, a);
    }
  }

  lemma ClaimResembles(s: State, a: Action)
    requires ClaimStep(s, a).Some?
    ensures s.watch.Some? && ClaimStep(s, a).value.watch.Some?
    ensures Resembles(s.watch.value, ClaimStep(s, a).value.watch.value, a)
  {
    hide Claimable, Released;
  }

  lemma TurnResembles(s: State, a: Action)
    requires (a.CallReturns? || a.Join?) && TurnStep(s, a).Some? && TurnStep(s, a).value.watch.Some?
    ensures s.watch.Some? && Resembles(s.watch.value, TurnStep(s, a).value.watch.value, a)
  {
  }

  lemma MoveResembles(s: State, a: Action)
    requires !a.Confirmed? && WatchStep(s, a).Some?
    ensures s.watch.Some? && WatchStep(s, a).value.watch.Some?
    ensures Resembles(s.watch.value, WatchStep(s, a).value.watch.value, a)
  {
  }

  /** The other threads' steps leave the watch alone. */
  lemma LeftAlone(s: State, a: Action)
    ensures SenderStep(s, a).Some? ==> SenderStep(s, a).value.watch == s.watch
    ensures BookStep(s, a).Some? ==> BookStep(s, a).value.watch == s.watch
    ensures PlainStep(s, a).Some? ==> PlainStep(s, a).value.watch == s.watch
  {
    hide PhaseMoves, Answered, HeldFor, NoteDelivery.Delivered, Offered;
  }

  lemma TurnOpensFresh(s: State, a: Action)
    requires a.OpenTurn? && Next(s, a).Some? && Next(s, a).value.watch.Some?
    ensures var w := Next(s, a).value.watch.value; w.observed == Observed(0, []) && w.redirected == []
  {
  }

  lemma ConfirmedBefore(actions: seq<Action>, one: Redirected)
    requires actions != [] && ConfirmedOnce(actions[..|actions| - 1], one)
    ensures ConfirmedOnce(actions, one)
  {
    var most := actions[..|actions| - 1];
    var k: nat :| k < |most| && ConfirmsAt(most, k, one);
    assert most[..k] == actions[..k];
    assert ConfirmsAt(actions, k, one);
  }

  /** In every run a watch has observed what was seen of its turn, neither more nor less, and each redirect it
      confirmed was measured with all that had been seen by then. */
  lemma {:induction false} MeasuredWhenConfirmed(actions: seq<Action>)
    requires Execute(Init(), actions).Some? && Execute(Init(), actions).value.watch.Some?
    ensures var w := Execute(Init(), actions).value.watch.value;
            w.observed == SeenSince(actions) && forall one :: one in w.redirected ==> ConfirmedOnce(actions, one)
    decreases |actions|
  {
    hide Next, ConfirmedOnce;
    var n := |actions| - 1;
    var most, a := actions[..n], actions[n];
    var s := Execute(Init(), most).value;
    if a.OpenTurn? {
      TurnOpensFresh(s, a);
    } else {
      WatchResembles(s, a);
      MeasuredWhenConfirmed(most);
      MeasuresOn(actions, s);
    }
  }

  lemma MeasuresOn(actions: seq<Action>, s: State)
    requires actions != [] && !actions[|actions| - 1].OpenTurn?
    requires Execute(Init(), actions[..|actions| - 1]) == Some(s) && s.watch.Some?
    requires Next(s, actions[|actions| - 1]).Some? && Next(s, actions[|actions| - 1]).value.watch.Some?
    requires var w := s.watch.value;
             && w.observed == SeenSince(actions[..|actions| - 1])
             && (forall one :: one in w.redirected ==> ConfirmedOnce(actions[..|actions| - 1], one))
             && Resembles(w, Next(s, actions[|actions| - 1]).value.watch.value, actions[|actions| - 1])
    ensures var w := Next(s, actions[|actions| - 1]).value.watch.value;
            w.observed == SeenSince(actions) && forall one :: one in w.redirected ==> ConfirmedOnce(actions, one)
  {
    hide Next, Execute;
    var n := |actions| - 1;
    var w, w' := s.watch.value, Next(s, actions[n]).value.watch.value;
    forall one | one in w'.redirected ensures ConfirmedOnce(actions, one) {
      if one in w.redirected {
        ConfirmedBefore(actions, one);
      } else {
        assert ConfirmsAt(actions, n, one);
      }
    }
  }

  /** A note handed back is in no framing of that turn, no note equal to it is presented after it,
      and it stays unclaimable while the watch runs. */
  lemma ReleasedStaysOut(s: State, p: nat, i: nat)
    requires Reachable(s) && s.watch.Some?
    requires p < |s.watch.value.passedOver| && i < |s.watch.value.redirected|
    ensures var w := s.watch.value;
            var id := w.passedOver[p].id;
            && id < |s.channel.sent| && w.redirected[i].id < |s.channel.sent|
            && id !in w.redirected[i].framed
            && (w.passedOver[p].after <= i ==> s.channel.sent[w.redirected[i].id] != s.channel.sent[id])
            && !Claimable(s.channel, w, id)
  {
    var actions :| Execute(Init(), actions) == Some(s);
    RunWatched(actions);
    var w := s.watch.value;
    assert w.redirected[i].framed == RedirectIds(w.redirected)[..i + 1];
    assert s.channel.sent[w.passedOver[p].id] == s.channel.sent[w.passedOver[p].id];
  }

  // ---------------------------------------------------------------- the one exception

  lemma After(s: State, a: Action, s': State)
    requires Reachable(s) && Next(s, a) == Some(s')
    ensures Reachable(s')
  {
    var actions :| Execute(Init(), actions) == Some(s);
    assert (actions + [a])[..|actions|] == actions;
    assert Execute(Init(), actions + [a]) == Some(s');
  }

  /** A state in which no note has been sent, but for its phase and its watch. */
  function Idle(p: Phase, w: Option<WatchState>): State {
    Init().(phase := p, watch := w)
  }

  lemma StartReached()
    ensures Reachable(Idle(Draining(LoopTop, []), None))
  {
    assert Execute(Init(), []) == Some(Idle(Draining(LoopTop, []), None));
  }

  /** A run that reaches the end of its first worker turn. */
  lemma FirstTurn()
    ensures Reachable(Idle(WorkerEnded, None))
  {
    hide Execute;
    StartReached();
    After(Idle(Draining(LoopTop, []), None), TakeDone, Idle(WorkerOpening, None));
    assert RedirectIds([]) == [];
    After(Idle(WorkerOpening, None), OpenTurn(false), Idle(Live(Worker), None));
    After(Idle(Live(Worker), None), CallReturns, Idle(Ending(Worker), None));
    After(Idle(Ending(Worker), None), Join, Idle(Phase.Recording(Worker, []), None));
    After(Idle(Phase.Recording(Worker, []), None), RecordDone, Idle(WorkerEnded, None));
  }

  /** A run whose first supervisor query is live, with a watch beside it. */
  lemma FirstQuery()
    ensures Reachable(Idle(Live(Supervisor), Some(Opened(Supervisor))))
  {
    hide Execute;
    FirstTurn();
    After(Idle(WorkerEnded, None), ReplyKept, Idle(Draining(ReplyEnd, []), None));
    After(Idle(Draining(ReplyEnd, []), None), TakeDone, Idle(SupervisorOpening, None));
    After(Idle(SupervisorOpening, None), OpenBlock, Idle(Querying, None));
    After(Idle(Querying, None), OpenTurn(true), Idle(Live(Supervisor), Some(Opened(Supervisor))));
  }

  /** The run the witness below follows, from the note it sends. */
  function OneNote(p: Phase, w: Option<WatchState>, queue: seq<nat>, books: Books, redirected: seq<nat>): State {
    State(Channel([Note(ToSupervisor, "n", None, Interrupt)], queue, [], []), books,
          Block(0, 0, redirected, redirected, 0), p, w)
  }

  /** Its watch, with the note in front of the judge and then confirmed. */
  const PRESENTING := Claiming(Opened(Supervisor).(pc := Blocking), 0)
  const CONFIRMED := Confirming(PRESENTING)

  lemma FirstSend()
    ensures Reachable(OneNote(Live(Supervisor), Some(Opened(Supervisor).(pc := Blocking)), [0], Init().books, []))
  {
    hide Execute;
    FirstQuery();
    var n := Note(ToSupervisor, "n", None, Interrupt);
    var w := Opened(Supervisor);
    var live := Live(Supervisor);
    assert [] + [n] == [n] && [] + [0] == [0];
    After(Idle(live, Some(w)), Send(n), OneNote(live, Some(w), [0], Init().books, []));
    After(OneNote(live, Some(w), [0], Init().books, []), SocketUp,
          OneNote(live, Some(w.(pc := Checking)), [0], Init().books, []));
    After(OneNote(live, Some(w.(pc := Checking)), [0], Init().books, []), Blocks,
          OneNote(live, Some(w.(pc := Blocking)), [0], Init().books, []));
  }

  /** A claim that lands after the turn has ended: the call returns while the watch is waiting for a note,
      and one is there. */
  lemma LateClaim() returns (s: State)
    ensures Reachable(s) && s.watch.Some?
    ensures s.watch.value.ended && s.watch.value.lateClaims == 1 && s.watch.value.claims == [0]
  {
    hide Execute;
    FirstSend();
    var waiting := Opened(Supervisor).(pc := Blocking);
    var over := waiting.(ended := true);
    assert Remove([0], 0) == [];
    After(OneNote(Live(Supervisor), Some(waiting), [0], Init().books, []), CallReturns,
          OneNote(Ending(Supervisor), Some(over), [0], Init().books, []));
    s := OneNote(Ending(Supervisor), Some(Claiming(over, 0)), [], Init().books, []);
    After(OneNote(Ending(Supervisor), Some(over), [0], Init().books, []), Claims(0), s);
  }

  lemma FirstClaim()
    ensures Reachable(OneNote(Live(Supervisor), Some(PRESENTING), [], Init().books, []))
  {
    hide Execute;
    FirstSend();
    assert Remove([0], 0) == [];
    After(OneNote(Live(Supervisor), Some(Opened(Supervisor).(pc := Blocking)), [0], Init().books, []), Claims(0),
          OneNote(Live(Supervisor), Some(PRESENTING), [], Init().books, []));
  }

  lemma FirstRedirect()
    ensures Reachable(OneNote(Live(Supervisor), Some(CONFIRMED), [], SHOWN, []))
  {
    hide Execute;
    FirstClaim();
    assert [] + [0] == [0];
    After(OneNote(Live(Supervisor), Some(PRESENTING), [], Init().books, []), Confirmed,
          OneNote(Live(Supervisor), Some(CONFIRMED), [], SHOWN, []));
  }

  const SHOWN := Init().books.(handed := [0])
  const ENDED := CONFIRMED.(ended := true)

  lemma FirstReturn()
    ensures Reachable(OneNote(Ending(Supervisor), Some(ENDED.(pc := Returned)), [], SHOWN, []))
  {
    hide Execute;
    FirstRedirect();
    After(OneNote(Live(Supervisor), Some(CONFIRMED), [], SHOWN, []), CallReturns,
          OneNote(Ending(Supervisor), Some(ENDED), [], SHOWN, []));
    After(OneNote(Ending(Supervisor), Some(ENDED), [], SHOWN, []), SeesEnd,
          OneNote(Ending(Supervisor), Some(ENDED.(pc := Returned)), [], SHOWN, []));
  }

  lemma FirstJoin()
    ensures Reachable(OneNote(Joined([0]), None, [], SHOWN, [0]))
  {
    hide Execute;
    FirstReturn();
    var back := ENDED.(pc := Returned);
    assert PRESENTING.presented == [0];
    assert back.redirected == [Redirected(0, PRESENTING.presented, Observed(0, []))];
    assert RedirectIds(back.redirected) == [0] && LastFrame(back.redirected) == [0];
    After(OneNote(Ending(Supervisor), Some(back), [], SHOWN, []), Join, OneNote(Joined([0]), None, [], SHOWN, [0]));
  }

  const LOST := Init().books.(handed := [0], abandoned := [0])

  lemma FirstStop()
    ensures Reachable(OneNote(Over(HistoryStopped), None, [], LOST, [0]))
  {
    hide Execute;
    FirstJoin();
    var none: seq<nat> := [];
    assert none + [0] == [0];
    After(OneNote(Joined([0]), None, [], SHOWN, [0]), HistoryStop,
          OneNote(Finishing(HistoryStopped), None, [], LOST, [0]));
    After(OneNote(Finishing(HistoryStopped), None, [], LOST, [0]), DropDone,
          OneNote(Over(HistoryStopped), None, [], LOST, [0]));
  }

  /** A history observation that stops the run after a note redirected the judge's turn: the party
      was shown the note, and it is neither recorded nor answered. */
  lemma HistoryStopDropsARedirect() returns (s: State)
    ensures Reachable(s) && s.phase == Closed(HistoryStopped)
    ensures s.books.handed == [0] && s.books.recorded == [] && s.books.answers == []
    ensures s.channel.queue == s.channel.refused == s.channel.withdrawn == []
  {
    hide Execute;
    FirstStop();
    var none: seq<nat> := [];
    assert none + none == none;
    s := OneNote(Closed(HistoryStopped), None, [], LOST, [0]);
    After(OneNote(Over(HistoryStopped), None, [], LOST, [0]), Close, s);
  }
}
