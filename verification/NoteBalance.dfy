/** Where every note is, at every moment of every interleaving. */
module NoteBalance {
  import opened Wrappers
  import opened Notes
  import opened LiveTurn
  import opened NoteDelivery

  function Taken(p: Phase): seq<nat> {
    match p
    case Draining(_, taken) => taken
    case Handing(rest, _) => rest
    case Rehanding(rest) => rest
    case _ => []
  }

  function InFlight(w: Option<WatchState>): seq<nat> {
    if w.Some? && w.value.pc.Presenting? then [w.value.pc.id] else []
  }

  /** Redirects a watch confirmed into `party`'s turn that the engine has not recorded yet. */
  function Unrecorded(p: Phase, w: Option<WatchState>, party: Party): seq<nat> {
    if w.Some? then
      if w.value.party == party then RedirectIds(w.value.redirected) else []
    else if p.Recording? && p.party == party then p.pending
    else if p.Joined? && party == Supervisor then p.redirects
    else []
  }

  /** How often `id` occurs in `s`. */
  function Times(s: seq<nat>, id: nat): nat {
    if s == [] then 0 else (if s[0] == id then 1 else 0) + Times(s[1..], id)
  }

  function InChannel(c: Channel, id: nat): nat {
    Times(c.queue, id) + Times(c.withdrawn, id) + Times(c.refused, id)
  }

  function InBooks(b: Books, id: nat): nat {
    Times(AnswerIds(b.awaiting), id) + Times(AnswerIds(b.answers), id) + Times(b.abandoned, id)
  }

  /** How many places note `id` is in. */
  function Places(s: State, id: nat): nat {
    InChannel(s.channel, id) + InBooks(s.books, id) + Times(Taken(s.phase), id)
    + Times(InFlight(s.watch), id) + Times(Unrecorded(s.phase, s.watch, Supervisor), id)
  }

  /** A watch runs only beside the turn it watches. */
  predicate WatchFits(s: State) {
    s.watch.Some? ==> (s.phase.Live? || s.phase.Ending?) && s.phase.party == s.watch.value.party
                      && (s.watch.value.ended <==> s.phase.Ending?)
  }

  /** A note sent is in exactly one place; recorded and answered differ only by what is on its
      way from one to the other; and everything a party was shown is recorded, on its way to the
      record, or was abandoned. */
  predicate BalancedAt(s: State, id: nat) {
    var worker := Times(Unrecorded(s.phase, s.watch, Worker), id);
    var supervisor := Times(Unrecorded(s.phase, s.watch, Supervisor), id);
    var recorded := Times(RecordedIds(s.books.recorded), id);
    && Places(s, id) == (if id < |s.channel.sent| then 1 else 0)
    && recorded + worker == Times(AnswerIds(s.books.answers), id) + Times(AnswerIds(s.books.awaiting), id)
    && Times(s.books.handed, id) == recorded + worker + supervisor + Times(s.books.abandoned, id)
  }


  lemma {:induction false} TimesConcat(a: seq<nat>, b: seq<nat>, id: nat)
    ensures Times(a + b, id) == Times(a, id) + Times(b, id)
  {
    if a == [] {
      assert a + b == b;
    } else {
      assert (a + b)[1..] == a[1..] + b;
      TimesConcat(a[1..], b, id);
    }
  }

  function One(x: nat, id: nat): nat { if x == id then 1 else 0 }

  lemma TimesOne(x: nat, id: nat)
    ensures Times([x], id) == One(x, id)
  {
    assert [x][1..] == [];
  }

  lemma TimesPush(s: seq<nat>, x: nat, id: nat)
    ensures Times(s + [x], id) == Times(s, id) + One(x, id)
  {
    TimesConcat(s, [x], id);
  }

  lemma TimesRemove(s: seq<nat>, k: nat, id: nat)
    requires k < |s|
    ensures Times(s, id) == Times(Remove(s, k), id) + One(s[k], id)
  {
    assert s == s[..k] + ([s[k]] + s[k+1..]);
    TimesConcat(s[..k], [s[k]] + s[k+1..], id);
    TimesConcat(s[..k], s[k+1..], id);
  }

  lemma TimesInsert(s: seq<nat>, k: nat, x: nat, id: nat)
    ensures Times(Insert(s, k, x), id) == Times(s, id) + One(x, id)
  {
    if k <= |s| {
      assert s == s[..k] + s[k..];
      TimesConcat(s[..k], s[k..], id);
      assert Insert(s, k, x) == s[..k] + ([x] + s[k..]);
      TimesConcat(s[..k], [x] + s[k..], id);
    } else {
      TimesPush(s, x, id);
    }
  }

  lemma {:induction false} Occurs(s: seq<nat>, id: nat)
    ensures Times(s, id) > 0 <==> id in s
  {
    if s != [] { Occurs(s[1..], id); }
  }

  lemma AnswerGrows(xs: seq<Answer>, x: Answer, id: nat)
    ensures Times(AnswerIds(xs + [x]), id) == Times(AnswerIds(xs), id) + One(x.id, id)
  {
    assert AnswerIds(xs + [x]) == AnswerIds(xs) + [x.id];
    TimesPush(AnswerIds(xs), x.id, id);
  }

  lemma AnswerShrinks(xs: seq<Answer>, id: nat)
    requires xs != []
    ensures Times(AnswerIds(xs), id) == One(xs[0].id, id) + Times(AnswerIds(xs[1..]), id)
  {
    assert AnswerIds(xs)[1..] == AnswerIds(xs[1..]);
  }

  lemma RecordGrows(xs: seq<Recorded>, x: Recorded, id: nat)
    ensures Times(RecordedIds(xs + [x]), id) == Times(RecordedIds(xs), id) + One(x.id, id)
  {
    assert RecordedIds(xs + [x]) == RecordedIds(xs) + [x.id];
    TimesPush(RecordedIds(xs), x.id, id);
  }

  lemma RedirectGrows(xs: seq<Redirected>, x: Redirected, id: nat)
    ensures Times(RedirectIds(xs + [x]), id) == Times(RedirectIds(xs), id) + One(x.id, id)
  {
    assert RedirectIds(xs + [x]) == RedirectIds(xs) + [x.id];
    TimesPush(RedirectIds(xs), x.id, id);
  }

  lemma TimesNone(id: nat)
    ensures Times([], id) == 0
  {
  }

  /** What moves no note keeps the balance. */
  lemma Unmoved(s: State, t: State, id: nat)
    requires BalancedAt(s, id) && t.channel == s.channel && t.books == s.books
    requires Taken(t.phase) == Taken(s.phase) && InFlight(t.watch) == InFlight(s.watch)
    requires Unrecorded(t.phase, t.watch, Worker) == Unrecorded(s.phase, s.watch, Worker)
    requires Unrecorded(t.phase, t.watch, Supervisor) == Unrecorded(s.phase, s.watch, Supervisor)
    ensures BalancedAt(t, id)
  {
    hide Times;
  }

  lemma SenderBalances(s: State, a: Action, id: nat)
    requires WatchFits(s) && BalancedAt(s, id) && SenderStep(s, a).Some?
    ensures WatchFits(SenderStep(s, a).value) && BalancedAt(SenderStep(s, a).value, id)
  {
    hide Times, Unrecorded, InBooks;
    var c := s.channel;
    match a
    case Send(note) =>
      TimesPush(c.queue, |c.sent|, id);
      TimesPush(c.refused, |c.sent|, id);
    case Withdraw(k) =>
      TimesRemove(c.queue, k, id);
      TimesPush(c.withdrawn, c.queue[k], id);
  }

  lemma ClaimBalances(s: State, a: Action, id: nat)
    requires WatchFits(s) && BalancedAt(s, id) && !a.Confirmed? && ClaimStep(s, a).Some?
    ensures WatchFits(ClaimStep(s, a).value) && BalancedAt(ClaimStep(s, a).value, id)
  {
    hide Times, InBooks, Claimable;
    TimesNone(id);
    match a
    case Claims(k) =>
      TimesRemove(s.channel.queue, k, id);
      TimesOne(s.channel.queue[k], id);
    case Refused(expired, k) =>
      TimesOne(s.watch.value.pc.id, id);
      TimesInsert(s.channel.queue, k, s.watch.value.pc.id, id);
      TimesPush(s.channel.withdrawn, s.watch.value.pc.id, id);
  }

  lemma ConfirmBalances(s: State, id: nat)
    requires WatchFits(s) && BalancedAt(s, id) && ClaimStep(s, Confirmed).Some?
    ensures WatchFits(ClaimStep(s, Confirmed).value) && BalancedAt(ClaimStep(s, Confirmed).value, id)
  {
    hide Times;
    var w := s.watch.value;
    TimesNone(id);
    TimesOne(w.pc.id, id);
    RedirectGrows(w.redirected, Redirected(w.pc.id, w.presented, w.observed), id);
    TimesPush(s.books.handed, w.pc.id, id);
    if w.party == Worker {
      AnswerGrows(s.books.answers, Answer(w.pc.id, Interrupted(Worker)), id);
    }
  }

  lemma WatchBalances(s: State, a: Action, id: nat)
    requires WatchFits(s) && BalancedAt(s, id) && WatchStep(s, a).Some?
    ensures WatchFits(WatchStep(s, a).value) && BalancedAt(WatchStep(s, a).value, id)
  {
    hide BalancedAt;
    Unmoved(s, WatchStep(s, a).value, id);
  }

  lemma OpenBalances(s: State, watched: bool, id: nat)
    requires WatchFits(s) && BalancedAt(s, id) && TurnStep(s, OpenTurn(watched)).Some?
    ensures WatchFits(TurnStep(s, OpenTurn(watched)).value) && BalancedAt(TurnStep(s, OpenTurn(watched)).value, id)
  {
    hide BalancedAt;
    assert RedirectIds([]) == [];
    Unmoved(s, TurnStep(s, OpenTurn(watched)).value, id);
  }

  lemma ReturnBalances(s: State, id: nat)
    requires WatchFits(s) && BalancedAt(s, id) && TurnStep(s, CallReturns).Some?
    ensures WatchFits(TurnStep(s, CallReturns).value) && BalancedAt(TurnStep(s, CallReturns).value, id)
  {
    hide BalancedAt;
    Unmoved(s, TurnStep(s, CallReturns).value, id);
  }

  lemma JoinBalances(s: State, id: nat)
    requires WatchFits(s) && BalancedAt(s, id) && TurnStep(s, Join).Some?
    ensures WatchFits(TurnStep(s, Join).value) && BalancedAt(TurnStep(s, Join).value, id)
  {
    hide BalancedAt;
    assert RedirectIds([]) == [];
    Unmoved(s, TurnStep(s, Join).value, id);
  }

  /** A bare change of phase moves no note and runs beside no watch. */
  lemma PhaseMovesNothing(p: Phase, a: Action, queued: bool, awaiting: bool)
    requires PhaseMoves(p, a, queued, awaiting).Some?
    ensures var p' := PhaseMoves(p, a, queued, awaiting).value;
            && !p.Live? && !p.Ending? && !p'.Live? && !p'.Ending?
            && Taken(p') == Taken(p)
            && Unrecorded(p', None, Worker) == Unrecorded(p, None, Worker)
            && Unrecorded(p', None, Supervisor) == Unrecorded(p, None, Supervisor)
  {
  }

  lemma PlainBalances(s: State, a: Action, id: nat)
    requires WatchFits(s) && BalancedAt(s, id) && PlainStep(s, a).Some?
    ensures WatchFits(PlainStep(s, a).value) && BalancedAt(PlainStep(s, a).value, id)
  {
    hide BalancedAt, PhaseMoves;
    if !a.OpenBlock? && !a.Decide? {
      PhaseMovesNothing(s.phase, a, s.channel.queue != [], s.books.awaiting != []);
    }
    Unmoved(s, PlainStep(s, a).value, id);
  }

  /** One note moves from `rest` (or from the queue, or out of `awaiting`) at a time. */
  lemma TakeBalances(s: State, id: nat)
    requires WatchFits(s) && BalancedAt(s, id) && BookStep(s, TakeNext).Some?
    ensures WatchFits(BookStep(s, TakeNext).value) && BalancedAt(BookStep(s, TakeNext).value, id)
  {
    hide Times, InBooks;
    TimesRemove(s.channel.queue, 0, id);
    assert Remove(s.channel.queue, 0) == s.channel.queue[1..];
    TimesPush(s.phase.taken, s.channel.queue[0], id);
  }

  lemma StopBalances(s: State, id: nat)
    requires WatchFits(s) && BalancedAt(s, id) && BookStep(s, HistoryStop).Some?
    ensures WatchFits(BookStep(s, HistoryStop).value) && BalancedAt(BookStep(s, HistoryStop).value, id)
  {
    hide Times, InChannel;
    TimesNone(id);
    TimesConcat(s.books.abandoned, s.phase.redirects, id);
  }

  lemma CloseBalances(s: State, id: nat)
    requires WatchFits(s) && BalancedAt(s, id) && BookStep(s, Close).Some?
    ensures WatchFits(BookStep(s, Close).value) && BalancedAt(BookStep(s, Close).value, id)
  {
    hide Times, InBooks;
    TimesNone(id);
    TimesConcat(s.channel.refused, s.channel.queue, id);
  }

  lemma TimesFirst(s: seq<nat>, id: nat)
    requires s != []
    ensures Times(s, id) == One(s[0], id) + Times(s[1..], id)
  {
  }

  lemma HandBalances(s: State, id: nat)
    requires WatchFits(s) && BalancedAt(s, id) && BookStep(s, HandNext).Some?
    ensures WatchFits(BookStep(s, HandNext).value) && BalancedAt(BookStep(s, HandNext).value, id)
  {
    hide Times, InChannel;
    var x := s.phase.rest[0];
    TimesFirst(s.phase.rest, id);
    RecordGrows(s.books.recorded, Recorded(x, Worker), id);
    AnswerGrows(s.books.answers, Answer(x, s.phase.accepted), id);
    TimesPush(s.books.handed, x, id);
  }

  lemma RecordBalances(s: State, id: nat)
    requires WatchFits(s) && BalancedAt(s, id) && BookStep(s, RecordNext).Some?
    ensures WatchFits(BookStep(s, RecordNext).value) && BalancedAt(BookStep(s, RecordNext).value, id)
  {
    hide Times, InChannel;
    var x := s.phase.pending[0];
    TimesFirst(s.phase.pending, id);
    RecordGrows(s.books.recorded, Recorded(x, s.phase.party), id);
    AnswerGrows(s.books.awaiting, Answer(x, Interrupted(Supervisor)), id);
  }

  lemma RehandBalances(s: State, id: nat)
    requires WatchFits(s) && BalancedAt(s, id) && BookStep(s, RehandNext).Some?
    ensures WatchFits(BookStep(s, RehandNext).value) && BalancedAt(BookStep(s, RehandNext).value, id)
  {
    hide Times, InChannel;
    var x := s.phase.rest[0];
    TimesFirst(s.phase.rest, id);
    RecordGrows(s.books.recorded, Recorded(x, Supervisor), id);
    AnswerGrows(s.books.awaiting, Answer(x, AtTurnEnd(Supervisor)), id);
    TimesPush(s.books.handed, x, id);
  }

  lemma AnswerBalances(s: State, a: Action, id: nat)
    requires WatchFits(s) && BalancedAt(s, id) && BookStep(s, a).Some?
    requires a.SettleNext? || a.DropNext?
    ensures WatchFits(BookStep(s, a).value) && BalancedAt(BookStep(s, a).value, id)
  {
    hide Times, InChannel;
    var decision := if a.SettleNext? then s.phase.decision else Settles;
    AnswerShrinks(s.books.awaiting, id);
    AnswerGrows(s.books.answers, Answered(s.books, decision).answers[|s.books.answers|], id);
  }

  /** Every step of every thread keeps the balance. */
  lemma NextBalances(s: State, a: Action, id: nat)
    requires WatchFits(s) && BalancedAt(s, id) && Next(s, a).Some?
    ensures WatchFits(Next(s, a).value) && BalancedAt(Next(s, a).value, id)
  {
    hide SenderStep, ClaimStep, WatchStep, TurnStep, BookStep, PlainStep, BalancedAt, WatchFits;
    match a
    case Send(_) => SenderBalances(s, a, id);
    case Withdraw(_) => SenderBalances(s, a, id);
    case Claims(_) => ClaimBalances(s, a, id);
    case Refused(_, _) => ClaimBalances(s, a, id);
    case Confirmed => ConfirmBalances(s, id);
    case OpenTurn(watched) => OpenBalances(s, watched, id);
    case CallReturns => ReturnBalances(s, id);
    case Join => JoinBalances(s, id);
    case TakeNext => TakeBalances(s, id);
    case HistoryStop => StopBalances(s, id);
    case Close => CloseBalances(s, id);
    case HandNext => HandBalances(s, id);
    case RecordNext => RecordBalances(s, id);
    case RehandNext => RehandBalances(s, id);
    case SettleNext => AnswerBalances(s, a, id);
    case DropNext => AnswerBalances(s, a, id);
    case SocketUp => WatchBalances(s, a, id);
    case SeesEnd => WatchBalances(s, a, id);
    case Blocks => WatchBalances(s, a, id);
    case TimesOut => WatchBalances(s, a, id);
    case SawTool => WatchBalances(s, a, id);
    case SawText(_) => WatchBalances(s, a, id);
    case _ => PlainBalances(s, a, id);
  }

  lemma {:induction false} RunBalances(actions: seq<Action>, id: nat)
    requires Execute(Init(), actions).Some?
    ensures WatchFits(Execute(Init(), actions).value) && BalancedAt(Execute(Init(), actions).value, id)
    decreases |actions|
  {
    if actions != [] {
      hide BalancedAt, WatchFits, Next;
      var most := actions[..|actions| - 1];
      RunBalances(most, id);
      NextBalances(Execute(Init(), most).value, actions[|actions| - 1], id);
    }
  }
}
