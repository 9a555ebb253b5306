/** The note-delivery protocol as a small-step machine: senders, the watch thread of the
    live turn and the engine thread, interleaved one atomic step at a time.

    A note is named by its position in `sent`. Everything that must still be answered is held
    by exactly one of the state's containers, so the protocol's promises become two balance
    equations over multisets of names: `Holdings` (where every note is) and `Ledger` (what was
    recorded against what was answered). */
module NoteDelivery {
  import opened Wrappers
  import opened Notes
  import opened LiveTurn

  /** A confirmed redirect: `framed` is what its framing was rendered from. */
  datatype Redirected = Redirected(id: nat, framed: seq<nat>, at: Observed)

  /** A note handed back, and how many redirects had been confirmed by then. */
  datatype Passed = Passed(id: nat, after: nat)

  datatype WatchPc = AwaitingSocket | Checking | Blocking | Presenting(id: nat) | Returned

  /** The watch over one live turn. `claims` and `lateClaims` are its history: what it took
      from the inbox, and how many of those claims came after `end()`. */
  datatype WatchState = WatchState(
    party: Party,
    ended: bool,
    observed: Observed,
    pc: WatchPc,
    presented: seq<nat>,
    passedOver: seq<Passed>,
    redirected: seq<Redirected>,
    claims: seq<nat>,
    lateClaims: nat)

  datatype Answer = Answer(id: nat, accepted: Accepted)

  datatype Recorded = Recorded(id: nat, party: Party)

  /** What a settled decision was. */
  datatype Decision = Completes(reason: string) | Continues | Settles

  datatype Exit = Completed(reason: string) | Stopped | HistoryStopped | SettledOn | Failed

  /** Where `take_notes` is called from. */
  datatype Drain = LoopTop | ReplyEnd | DecisionEnd

  datatype Phase =
    | Draining(drain: Drain, taken: seq<nat>)
    | Handing(rest: seq<nat>, accepted: Accepted)
    | WorkerOpening
    | Live(party: Party)
    | Ending(party: Party)
    | Joined(redirects: seq<nat>)
    | Recording(party: Party, pending: seq<nat>)
    | WorkerEnded
    | SupervisorOpening
    | Querying
    | Attempted
    | Rehanding(rest: seq<nat>)
    | Deciding
    | Settling(decision: Decision)
    | Acting(decision: Decision)
    | Finishing(exit: Exit)
    | Over(exit: Exit)
    | Closed(exit: Exit)

  /** The inbox. A note that expires while queued is withdrawn by the bus. */
  datatype Channel = Channel(sent: seq<Note>, queue: seq<nat>, withdrawn: seq<nat>, refused: seq<nat>)

  /** The engine's own account: the `delivered` record, the senders held for a decision, every
      answer given, the redirects dropped unrecorded, and every note a party was shown. */
  datatype Books = Books(
    recorded: seq<Recorded>,
    awaiting: seq<Answer>,
    answers: seq<Answer>,
    abandoned: seq<nat>,
    handed: seq<nat>)

  /** The decision block being taken: how long `recorded` was when it opened and when its running
      query was composed, the redirects confirmed into the last turn to end and the framing its
      last replacement turn opened with, and how many answers had been given when it was settled. */
  datatype Block = Block(start: nat, snapshot: nat, redirected: seq<nat>, framed: seq<nat>, settleStart: nat)

  datatype State = State(channel: Channel, books: Books, block: Block, phase: Phase, watch: Option<WatchState>)

  datatype Action =
    // any sender, at any time
    | Send(note: Note)
    | Withdraw(at: nat)
    // the watch thread
    | SocketUp
    | SeesEnd
    | Blocks
    | TimesOut
    | Claims(at: nat)
    | Confirmed
    | Refused(expired: bool, at: nat)
    // the live turn's own events
    | SawTool
    | SawText(text: string)
    // the engine thread
    | TakeNext
    | TakeDone
    | HandNext
    | HandDone
    | OpenTurn(watched: bool)
    | CallReturns
    | Join
    | HistoryStop
    | GoOn
    | RecordNext
    | RecordDone
    | LostContinue
    | ReplyKept
    | OpenBlock
    | DecisionTaken
    | RehandNext
    | RehandDone
    | Decide(decision: Decision)
    | SettleNext
    | SettleDone
    | Act
    | End(exit: Exit)
    | DropNext
    | DropDone
    | Close

  function RedirectIds(rs: seq<Redirected>): (ids: seq<nat>)
    ensures |ids| == |rs| && forall i :: 0 <= i < |rs| ==> ids[i] == rs[i].id
  {
    seq(|rs|, i requires 0 <= i < |rs| => rs[i].id)
  }

  function PassedIds(ps: seq<Passed>): (ids: seq<nat>)
    ensures |ids| == |ps| && forall i :: 0 <= i < |ps| ==> ids[i] == ps[i].id
  {
    seq(|ps|, i requires 0 <= i < |ps| => ps[i].id)
  }

  function AnswerIds(xs: seq<Answer>): (ids: seq<nat>)
    ensures |ids| == |xs| && forall i :: 0 <= i < |xs| ==> ids[i] == xs[i].id
  {
    seq(|xs|, i requires 0 <= i < |xs| => xs[i].id)
  }

  function RecordedIds(xs: seq<Recorded>): (ids: seq<nat>)
    ensures |ids| == |xs| && forall i :: 0 <= i < |xs| ==> ids[i] == xs[i].id
  {
    seq(|xs|, i requires 0 <= i < |xs| => xs[i].id)
  }

  // ---------------------------------------------------------------- transitions

  function Init(): State {
    State(Channel([], [], [], []), Books([], [], [], [], []), Block(0, 0, [], [], 0), Draining(LoopTop, []), None)
  }

  function Opened(party: Party): WatchState {
    WatchState(party, false, Observed(0, []), AwaitingSocket, [], [], [], [], 0)
  }

  /** `passed_over.contains(note)`: by value, so an equal note is passed over too. */
  predicate InPassed(note: Note, sent: seq<Note>, passedOver: seq<Passed>) {
    exists i :: 0 <= i < |passedOver| && passedOver[i].id < |sent| && sent[passedOver[i].id] == note
  }

  predicate Claimable(c: Channel, w: WatchState, id: nat) {
    id < |c.sent| && Interrupts(c.sent[id], w.party) && !InPassed(c.sent[id], c.sent, w.passedOver)
  }

  function Remove(s: seq<nat>, k: nat): seq<nat>
    requires k < |s|
  {
    s[..k] + s[k+1..]
  }

  function Insert(s: seq<nat>, k: nat, id: nat): seq<nat> {
    if k <= |s| then s[..k] + [id] + s[k..] else s + [id]
  }

  function Offered(c: Channel, note: Note, closed: bool): Channel {
    if closed
    then c.(sent := c.sent + [note], refused := c.refused + [|c.sent|])
    else c.(sent := c.sent + [note], queue := c.queue + [|c.sent|])
  }

  function TakenBack(c: Channel, k: nat): Channel
    requires k < |c.queue|
  {
    c.(queue := Remove(c.queue, k), withdrawn := c.withdrawn + [c.queue[k]])
  }

  /** `Delivered::release`: back into the queue, at whatever place, or expired. */
  function Released(c: Channel, id: nat, expired: bool, k: nat): Channel {
    if expired then c.(withdrawn := c.withdrawn + [id]) else c.(queue := Insert(c.queue, k, id))
  }

  function Recording(b: Books, id: nat, party: Party): Books {
    b.(recorded := b.recorded + [Recorded(id, party)])
  }

  /** `deliver`: record the note and answer its sender. */
  function Delivered(b: Books, id: nat, accepted: Accepted): Books {
    b.(recorded := b.recorded + [Recorded(id, Worker)],
       answers := b.answers + [Answer(id, accepted)],
       handed := b.handed + [id])
  }

  /** `AwaitingDecision::redirected` and `at_turn_end`, with the record beside them. */
  function HeldFor(b: Books, id: nat, otherwise: Accepted): Books {
    b.(recorded := b.recorded + [Recorded(id, Supervisor)],
       awaiting := b.awaiting + [Answer(id, otherwise)])
  }

  /** `AwaitingDecision::settle` and its `Drop`, one sender at a time. */
  function Answered(b: Books, decision: Decision): Books
    requires b.awaiting != []
  {
    var accepted := if decision.Completes? then JudgedWith(decision.reason) else b.awaiting[0].accepted;
    b.(awaiting := b.awaiting[1..], answers := b.answers + [Answer(b.awaiting[0].id, accepted)])
  }

  /** What a redirect's confirmation adds: the party was shown the note, and a worker's sender is
      answered at once. */
  function Shown(b: Books, id: nat, party: Party): Books {
    if party == Worker
    then b.(handed := b.handed + [id], answers := b.answers + [Answer(id, Interrupted(Worker))])
    else b.(handed := b.handed + [id])
  }

  /** One step of a sender: offer a note, or take one back while it is still queued. */
  function SenderStep(s: State, a: Action): Option<State> {
    match a
    case Send(note) => Some(s.(channel := Offered(s.channel, note, s.phase.Closed?)))
    case Withdraw(k) =>
      if k < |s.channel.queue| then Some(s.(channel := TakenBack(s.channel, k))) else None
    case _ => None
  }

  /** The watch's own state after a step that touches nothing else. */
  function WatchMoves(w: WatchState, a: Action, live: bool): Option<WatchState> {
    match a
    case SocketUp => if w.pc.AwaitingSocket? then Some(w.(pc := Checking)) else None
    case SeesEnd =>
      if (w.pc.AwaitingSocket? || w.pc.Checking?) && w.ended then Some(w.(pc := Returned)) else None
    case Blocks => if w.pc.Checking? && !w.ended then Some(w.(pc := Blocking)) else None
    case TimesOut => if w.pc.Blocking? then Some(w.(pc := Checking)) else None
    case SawTool => if live then Some(w.(observed := w.observed.(tools := w.observed.tools + 1))) else None
    case SawText(text) =>
      if live then Some(w.(observed := w.observed.(texts := w.observed.texts + [text]))) else None
    case _ => None
  }

  function Claiming(w: WatchState, id: nat): WatchState {
    w.(pc := Presenting(id), presented := w.presented + [id], claims := w.claims + [id],
       lateClaims := w.lateClaims + if w.ended then 1 else 0)
  }

  function Confirming(w: WatchState): WatchState
    requires w.pc.Presenting?
  {
    w.(pc := Checking, redirected := w.redirected + [Redirected(w.pc.id, w.presented, w.observed)])
  }

  function Refusing(w: WatchState): WatchState
    requires w.pc.Presenting?
  {
    w.(pc := Checking,
       presented := if w.presented == [] then [] else w.presented[..|w.presented| - 1],
       passedOver := w.passedOver + [Passed(w.pc.id, |w.redirected|)])
  }

  /** A step of the watch that takes a note, presents it, or hands it back. */
  function ClaimStep(s: State, a: Action): Option<State> {
    if s.watch.None? then None else
    var w := s.watch.value;
    var c := s.channel;
    match a
    case Claims(k) =>
      if w.pc == Blocking && k < |c.queue| && Claimable(c, w, c.queue[k])
      then Some(s.(channel := c.(queue := Remove(c.queue, k)), watch := Some(Claiming(w, c.queue[k]))))
      else None
    case Confirmed =>
      if w.pc.Presenting?
      then Some(s.(books := Shown(s.books, w.pc.id, w.party), watch := Some(Confirming(w))))
      else None
    case Refused(expired, k) =>
      if w.pc.Presenting?
      then Some(s.(channel := Released(c, w.pc.id, expired, k), watch := Some(Refusing(w))))
      else None
    case _ => None
  }

  /** A step of the watch that touches nothing else, or one event its turn lets it see. */
  function WatchStep(s: State, a: Action): Option<State> {
    if s.watch.None? then None else
    var w := WatchMoves(s.watch.value, a, s.phase.Live?);
    if w.Some? then Some(s.(watch := w)) else None
  }

  /** What `take_notes` leads to, once it has found the inbox empty. */
  function Drained(drain: Drain, taken: seq<nat>): Phase {
    match drain
    case LoopTop => if taken == [] then WorkerOpening else Handing(taken, Queued)
    case ReplyEnd => if taken == [] then SupervisorOpening else Handing(taken, AtTurnEnd(Worker))
    case DecisionEnd => if taken == [] then Deciding else Rehanding(taken)
  }

  function Acted(decision: Decision): Phase {
    match decision
    case Completes(reason) => Finishing(Completed(reason))
    case Continues => Draining(LoopTop, [])
    case Settles => Finishing(SettledOn)
  }

  /** Which way the run may end from here. */
  predicate MayEnd(p: Phase, exit: Exit) {
    match p
    case WorkerOpening => exit == Stopped
    case WorkerEnded => exit != HistoryStopped
    case SupervisorOpening => exit == Stopped
    case Attempted => exit == Stopped || exit == Failed
    case Acting(_) => exit == Stopped
    case _ => false
  }

  /** Where the engine goes without touching the inbox, the books or a watch. */
  function PhaseMoves(p: Phase, a: Action, queued: bool, awaiting: bool): Option<Phase> {
    match a
    case TakeDone => if p.Draining? && !queued then Some(Drained(p.drain, p.taken)) else None
    case HandDone =>
      if p.Handing? && p.rest == []
      then Some(if p.accepted == Queued then WorkerOpening else Draining(LoopTop, []))
      else None
    case GoOn => if p.Joined? then Some(Phase.Recording(Supervisor, p.redirects)) else None
    case RecordDone =>
      if p.Recording? && p.pending == []
      then Some(if p.party == Worker then WorkerEnded else Attempted)
      else None
    case LostContinue => if p.WorkerEnded? then Some(Draining(LoopTop, [])) else None
    case ReplyKept => if p.WorkerEnded? then Some(Draining(ReplyEnd, [])) else None
    case DecisionTaken => if p.Attempted? then Some(Draining(DecisionEnd, [])) else None
    case RehandDone => if p.Rehanding? && p.rest == [] then Some(Querying) else None
    case SettleDone => if p.Settling? && !awaiting then Some(Acting(p.decision)) else None
    case Act => if p.Acting? then Some(Acted(p.decision)) else None
    case End(exit) => if MayEnd(p, exit) then Some(Finishing(exit)) else None
    case DropDone => if p.Finishing? && !awaiting then Some(Over(p.exit)) else None
    case _ => None
  }

  function LastFrame(rs: seq<Redirected>): seq<nat> {
    if rs == [] then [] else rs[|rs| - 1].framed
  }

  /** The provider call, from its opening to the watch's join. */
  function TurnStep(s: State, a: Action): Option<State> {
    var p := s.phase;
    match a
    case OpenTurn(watched) =>
      if p.WorkerOpening? then
        Some(s.(phase := Live(Worker), watch := if watched then Some(Opened(Worker)) else None))
      else if p.Querying? then
        Some(s.(phase := Live(Supervisor), watch := if watched then Some(Opened(Supervisor)) else None,
                block := s.block.(snapshot := |s.books.recorded|)))
      else None
    case CallReturns =>
      if p.Live? then
        Some(s.(phase := Ending(p.party),
                watch := if s.watch.Some? then Some(s.watch.value.(ended := true)) else None))
      else None
    case Join =>
      if p.Ending? && (s.watch.Some? ==> s.watch.value.pc == Returned) then
        var redirects := if s.watch.Some? then s.watch.value.redirected else [];
        var ids := RedirectIds(redirects);
        Some(s.(watch := None,
                block := s.block.(redirected := ids, framed := LastFrame(redirects)),
                phase := if p.party == Worker then Phase.Recording(Worker, ids) else Joined(ids)))
      else None
    case _ => None
  }

  /** What the engine does with the notes it holds, outside a live turn. */
  function BookStep(s: State, a: Action): Option<State> {
    var p := s.phase;
    var c := s.channel;
    match a
    case TakeNext =>
      if p.Draining? && c.queue != []
      then Some(s.(channel := c.(queue := c.queue[1..]), phase := Draining(p.drain, p.taken + [c.queue[0]])))
      else None
    case HandNext =>
      if p.Handing? && p.rest != []
      then Some(s.(phase := Handing(p.rest[1..], p.accepted), books := Delivered(s.books, p.rest[0], p.accepted)))
      else None
    case HistoryStop =>
      if p.Joined?
      then Some(s.(phase := Finishing(HistoryStopped),
                   books := s.books.(abandoned := s.books.abandoned + p.redirects)))
      else None
    case RecordNext =>
      if p.Recording? && p.pending != []
      then Some(s.(phase := Phase.Recording(p.party, p.pending[1..]),
                   books := if p.party == Worker then Recording(s.books, p.pending[0], Worker)
                            else HeldFor(s.books, p.pending[0], Interrupted(Supervisor))))
      else None
    case RehandNext =>
      if p.Rehanding? && p.rest != []
      then Some(s.(phase := Rehanding(p.rest[1..]),
                   books := HeldFor(s.books.(handed := s.books.handed + [p.rest[0]]),
                                    p.rest[0], AtTurnEnd(Supervisor))))
      else None
    case SettleNext =>
      if p.Settling? && s.books.awaiting != [] then Some(s.(books := Answered(s.books, p.decision))) else None
    case DropNext =>
      if p.Finishing? && s.books.awaiting != [] then Some(s.(books := Answered(s.books, Settles))) else None
    case Close =>
      if p.Over?
      then Some(s.(phase := Closed(p.exit), channel := c.(queue := [], refused := c.refused + c.queue)))
      else None
    case _ => None
  }

  /** The engine's bookkeeping of the decision block, and every bare change of phase. */
  function PlainStep(s: State, a: Action): Option<State> {
    match a
    case OpenBlock =>
      if s.phase.SupervisorOpening?
      then Some(s.(phase := Querying, block := s.block.(start := |s.books.recorded|)))
      else None
    case Decide(decision) =>
      if s.phase.Deciding?
      then Some(s.(phase := Settling(decision), block := s.block.(settleStart := |s.books.answers|)))
      else None
    case _ =>
      var p := PhaseMoves(s.phase, a, s.channel.queue != [], s.books.awaiting != []);
      if p.Some? then Some(s.(phase := p.value)) else None
  }

  function Next(s: State, a: Action): Option<State> {
    if a.Send? || a.Withdraw? then SenderStep(s, a)
    else if a.Claims? || a.Confirmed? || a.Refused? then ClaimStep(s, a)
    else if a.SocketUp? || a.SeesEnd? || a.Blocks? || a.TimesOut? || a.SawTool? || a.SawText? then WatchStep(s, a)
    else if a.OpenTurn? || a.CallReturns? || a.Join? then TurnStep(s, a)
    else if a.TakeNext? || a.HandNext? || a.HistoryStop? || a.RecordNext? || a.RehandNext? || a.SettleNext?
            || a.DropNext? || a.Close? then BookStep(s, a)
    else PlainStep(s, a)
  }

  /** Run `actions` from `s`; `None` when one of them is not enabled. */
  function Execute(s: State, actions: seq<Action>): Option<State>
    decreases |actions|
  {
    if actions == [] then Some(s)
    else
      var before := Execute(s, actions[..|actions| - 1]);
      if before.None? then None else Next(before.value, actions[|actions| - 1])
  }

  ghost predicate Reachable(s: State) {
    exists actions :: Execute(Init(), actions) == Some(s)
  }
}
