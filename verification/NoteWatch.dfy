/** What one watch presents, releases and measures, whatever the other threads do meanwhile. */
module NoteWatch {
  import opened Wrappers
  import opened Notes
  import opened LiveTurn
  import opened NoteDelivery
  import opened NoteBalance

  /** What was presented is what was confirmed, and each framing is everything confirmed so far. */
  predicate Framed(w: WatchState) {
    && w.presented == RedirectIds(w.redirected) + InFlight(Some(w))
    && forall i :: 0 <= i < |w.redirected| ==>
         w.redirected[i].framed == RedirectIds(w.redirected)[..i + 1]
  }

  predicate Monotone(w: WatchState) {
    && (forall i, j :: 0 <= i <= j < |w.redirected| ==> NoLater(w.redirected[i].at, w.redirected[j].at))
    && (forall i :: 0 <= i < |w.redirected| ==> NoLater(w.redirected[i].at, w.observed))
  }

  predicate Known(sent: seq<Note>, w: WatchState) {
    && (forall i :: 0 <= i < |w.redirected| ==> w.redirected[i].id < |sent|)
    && (forall i :: 0 <= i < |w.passedOver| ==> w.passedOver[i].id < |sent|)
    && (w.pc.Presenting? ==> w.pc.id < |sent|)
    && (forall i :: 0 <= i < |w.claims| ==> w.claims[i] < |sent|)
  }

  /** A note handed back is never presented after it, nor is one equal to it; and it was never
      among the redirects. */
  predicate Passes(sent: seq<Note>, w: WatchState)
    requires Known(sent, w)
  {
    forall p :: 0 <= p < |w.passedOver| ==>
      && w.passedOver[p].after <= |w.redirected|
      && w.passedOver[p].id !in RedirectIds(w.redirected)
      && (forall i :: w.passedOver[p].after <= i < |w.redirected| ==>
            sent[w.redirected[i].id] != sent[w.passedOver[p].id])
      && (w.pc.Presenting? ==> sent[w.pc.id] != sent[w.passedOver[p].id])
  }

  predicate NoDuplicates(ids: seq<nat>) {
    forall i, j :: 0 <= i < j < |ids| ==> ids[i] != ids[j]
  }

  /** Everything taken was an interrupt note to this party, was taken once, and went one way. */
  predicate ClaimsFit(sent: seq<Note>, w: WatchState)
    requires Known(sent, w)
  {
    && NoDuplicates(w.claims)
    && |w.claims| == |w.redirected| + |w.passedOver| + |InFlight(Some(w))|
    && forall i :: 0 <= i < |w.claims| ==>
         && Interrupts(sent[w.claims[i]], w.party)
         && (w.claims[i] in RedirectIds(w.redirected) || w.claims[i] in PassedIds(w.passedOver)
             || w.claims[i] in InFlight(Some(w)))
  }

  predicate Late(w: WatchState) {
    w.lateClaims <= (if w.ended && w.pc != Blocking then 1 else 0)
  }

  predicate WatchInvariant(sent: seq<Note>, w: WatchState) {
    Framed(w) && Monotone(w) && Known(sent, w) && Passes(sent, w) && ClaimsFit(sent, w) && Late(w)
  }

  predicate Watched(s: State) {
    s.watch.Some? ==> WatchInvariant(s.channel.sent, s.watch.value)
  }

  lemma WatchStarts(sent: seq<Note>, party: Party)
    ensures WatchInvariant(sent, Opened(party))
  {
  }

  lemma MovesWatch(sent: seq<Note>, w: WatchState, a: Action, live: bool)
    requires WatchInvariant(sent, w) && WatchMoves(w, a, live).Some?
    ensures WatchInvariant(sent, WatchMoves(w, a, live).value)
  {
  }

  lemma EndsWatch(sent: seq<Note>, w: WatchState)
    requires WatchInvariant(sent, w) && !w.ended
    ensures WatchInvariant(sent, w.(ended := true))
  {
  }

  lemma SendsWatch(sent: seq<Note>, note: Note, w: WatchState)
    requires WatchInvariant(sent, w)
    ensures WatchInvariant(sent + [note], w)
  {
  }

  lemma ClaimsWatch(c: Channel, w: WatchState, id: nat)
    requires WatchInvariant(c.sent, w) && w.pc == Blocking && Claimable(c, w, id)
    requires id !in RedirectIds(w.redirected)
    ensures WatchInvariant(c.sent, Claiming(w, id))
  {
  }

  lemma ConfirmsFramed(w: WatchState)
    requires Framed(w) && Monotone(w) && w.pc.Presenting?
    ensures Framed(Confirming(w)) && Monotone(Confirming(w))
  {
    var w' := Confirming(w);
    assert RedirectIds(w'.redirected) == RedirectIds(w.redirected) + [w.pc.id];
  }

  lemma ConfirmsClaims(sent: seq<Note>, w: WatchState)
    requires Known(sent, w) && Passes(sent, w) && ClaimsFit(sent, w) && w.pc.Presenting?
    ensures Known(sent, Confirming(w)) && Passes(sent, Confirming(w)) && ClaimsFit(sent, Confirming(w))
  {
    var w' := Confirming(w);
    assert RedirectIds(w'.redirected) == RedirectIds(w.redirected) + [w.pc.id];
    assert w.pc.id in RedirectIds(w'.redirected) by {
      assert RedirectIds(w'.redirected)[|w.redirected|] == w.pc.id;
    }
  }

  lemma ConfirmsWatch(sent: seq<Note>, w: WatchState)
    requires WatchInvariant(sent, w) && w.pc.Presenting?
    ensures WatchInvariant(sent, Confirming(w))
  {
    hide Framed, Monotone, Known, Passes, ClaimsFit;
    ConfirmsFramed(w);
    ConfirmsClaims(sent, w);
  }

  lemma RefusalReleases(sent: seq<Note>, w: WatchState)
    requires Known(sent, w) && ClaimsFit(sent, w) && w.pc.Presenting?
    ensures Known(sent, Refusing(w)) && ClaimsFit(sent, Refusing(w))
  {
    var w' := Refusing(w);
    assert PassedIds(w'.passedOver) == PassedIds(w.passedOver) + [w.pc.id];
    assert PassedIds(w'.passedOver)[|w.passedOver|] == w.pc.id;
  }

  lemma RefusesWatch(sent: seq<Note>, w: WatchState)
    requires WatchInvariant(sent, w) && w.pc.Presenting? && w.pc.id !in RedirectIds(w.redirected)
    ensures WatchInvariant(sent, Refusing(w))
  {
    RefusalReleases(sent, w);
  }

  /** A note the watch confirmed is not also queued or in flight. */
  lemma ConfirmedIsElsewhere(s: State, id: nat)
    requires WatchFits(s) && BalancedAt(s, id) && s.watch.Some?
    requires id in RedirectIds(s.watch.value.redirected)
    ensures id !in s.channel.queue && id !in InFlight(s.watch)
  {
    Occurs(RedirectIds(s.watch.value.redirected), id);
    Occurs(s.channel.queue, id);
    Occurs(InFlight(s.watch), id);
  }

  lemma ClaimWatched(s: State, a: Action)
    requires WatchFits(s) && Watched(s) && ClaimStep(s, a).Some?
    requires forall id: nat :: BalancedAt(s, id)
    ensures Watched(ClaimStep(s, a).value)
  {
    var w := s.watch.value;
    var id := if a.Claims? then s.channel.queue[a.at] else w.pc.id;
    if id in RedirectIds(w.redirected) { ConfirmedIsElsewhere(s, id); }
    match a
    case Claims(_) => ClaimsWatch(s.channel, w, id);
    case Confirmed => ConfirmsWatch(s.channel.sent, w);
    case Refused(_, _) => RefusesWatch(s.channel.sent, w);
  }

  lemma TurnWatched(s: State, a: Action)
    requires WatchFits(s) && Watched(s) && TurnStep(s, a).Some?
    ensures Watched(TurnStep(s, a).value)
  {
    var sent := s.channel.sent;
    WatchStarts(sent, Worker);
    WatchStarts(sent, Supervisor);
    if a.CallReturns? && s.watch.Some? { EndsWatch(sent, s.watch.value); }
  }

  /** Every other step but a sender's leaves the watch and what was sent alone. */
  lemma OthersWatch(s: State, a: Action)
    requires Watched(s)
    ensures BookStep(s, a).Some? ==> Watched(BookStep(s, a).value)
    ensures PlainStep(s, a).Some? ==> Watched(PlainStep(s, a).value)
  {
    hide WatchInvariant, PhaseMoves;
  }

  lemma SenderWatched(s: State, a: Action)
    requires Watched(s) && SenderStep(s, a).Some?
    ensures Watched(SenderStep(s, a).value)
  {
    hide WatchInvariant;
    if a.Send? && s.watch.Some? { SendsWatch(s.channel.sent, a.note, s.watch.value); }
  }

  lemma WatchWatched(s: State, a: Action)
    requires Watched(s) && WatchStep(s, a).Some?
    ensures Watched(WatchStep(s, a).value)
  {
    hide WatchInvariant, WatchMoves;
    MovesWatch(s.channel.sent, s.watch.value, a, s.phase.Live?);
  }

  lemma NextWatched(s: State, a: Action)
    requires WatchFits(s) && Watched(s) && Next(s, a).Some?
    requires forall id: nat :: BalancedAt(s, id)
    ensures Watched(Next(s, a).value)
  {
    hide SenderStep, ClaimStep, WatchStep, TurnStep, BookStep, PlainStep, Watched, WatchFits, BalancedAt;
    if a.Claims? || a.Confirmed? || a.Refused? {
      ClaimWatched(s, a);
    } else if a.OpenTurn? || a.CallReturns? || a.Join? {
      TurnWatched(s, a);
    } else if a.Send? || a.Withdraw? {
      SenderWatched(s, a);
    } else if a.SocketUp? || a.SeesEnd? || a.Blocks? || a.TimesOut? || a.SawTool? || a.SawText? {
      WatchWatched(s, a);
    } else {
      OthersWatch(s, a);
    }
  }

  lemma {:induction false} RunWatched(actions: seq<Action>)
    requires Execute(Init(), actions).Some?
    ensures Watched(Execute(Init(), actions).value)
    decreases |actions|
  {
    if actions != [] {
      hide Watched, WatchFits, BalancedAt, Next;
      var most := actions[..|actions| - 1];
      RunWatched(most);
      forall id: nat ensures WatchFits(Execute(Init(), most).value) && BalancedAt(Execute(Init(), most).value, id) {
        RunBalances(most, id);
      }
      RunBalances(most, 0);
      NextWatched(Execute(Init(), most).value, actions[|actions| - 1]);
    }
  }
}
