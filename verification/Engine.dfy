/** The turn loop (engine.rs `drive`), over one provider, one inbox and one observer, each any
    function of how often or with what it was asked. Its `history` and `asked` are ghosts that say
    what was appended and asked, so that every field can be tied to the world's own account. */
module Engine {
  import opened Wrappers
  import opened Notes
  import opened LiveTurn
  import opened Transcripts
  import opened Noop
  import opened Redirects
  import opened Usages
  import opened Providers
  import opened Observations
  import opened Histories
  import opened Traces

  datatype Settings = Settings(maxTurns: nat, settleOnNoop: bool)

  /** `doneWhen` reaches the loop only through the criteria of its queries. */
  datatype SimulatedUser = SimulatedUser(doneWhen: Option<string>, maxTurns: Option<nat>)

  datatype Conversation = Conversation(input: string, user: Option<SimulatedUser>)

  /** Why a run settled without a completion decision. */
  datatype SettledReason =
    | NoopRepeated
    | NoNextInstruction(reason: string)
    | AnswerUnparsed(problem: string, answer: string)

  datatype Outcome = Outcome(
    messages: seq<Message>,
    usage: Option<Usage>,
    stoppedEarly: bool,
    completionReason: Option<string>,
    settledReason: Option<SettledReason>,
    judgeDecisions: seq<JudgedTurn>)

  datatype Ending = Returned(outcome: Outcome) | Failed(error: ProviderError) | Panicked

  /** Whether the loop goes round again. */
  datatype Flow = Again | Ended(ending: Ending)

  /** What the decision loop was left with. */
  datatype Ruling = Ruled(outcome: SupervisorOutcome) | Broken | Fails(error: ProviderError)

  /** Whether worker turn `n` may be observed to open. */
  predicate MayOpen(s: Stage, n: nat) {
    (s.Resting? && s.least <= n) || (s.Replied? && s.turn < n)
  }

  /** The events of a reply cannot be cut where its redirects were recorded. */
  ghost predicate CannotCut(call: WorkerCall) {
    call.result.Ok? && Cuts(call.redirects, 0, |call.result.value.events|).None?
  }

  /** What a run leaves behind: its transcript opens with the input, alternates and is what the
      history says; every reply is in it once, in call order; and the cap bought no more. */
  ghost predicate RunFits(world: World, conversation: Conversation, cap: nat, history: seq<Entry>,
                          messages: seq<Message>, workerCalls: nat) {
    && messages != [] && messages[0] == FromUser(conversation.input) && Recounts(history, messages[1..])
    && messages == [FromUser(conversation.input)] + Rendered(history) && Alternates(messages)
    && CallsOf(history) == Replies(world, workerCalls)
    && AssistantTurns(messages)
       <= Max(1, cap) + if CallsOf(history) == [] then 0
                        else |world.worker(CallsOf(history)[|CallsOf(history)| - 1]).redirects|
  }

  /** `cap` is the turn cap of such a run: the simulated user's own where it gives one, and otherwise the settings'. */
  predicate InForce(settings: Settings, conversation: Conversation, cap: nat) {
    match conversation.user
    case None => cap == settings.maxTurns
    case Some(user) => cap == if user.maxTurns.Some? then user.maxTurns.value else settings.maxTurns
  }

  /** Whether a lost turn ends the run: nobody takes it, or there is nobody to ask. */
  predicate LossesEnd(world: World, conversation: Conversation) {
    !world.supervisesLostTurns || conversation.user.None?
  }

  /** The cap bounds the calls that replied, and those that were lost only where a loss ends the run. */
  ghost predicate CallsCapped(world: World, conversation: Conversation, cap: nat, workerCalls: nat) {
    && |Replies(world, workerCalls)| <= Max(1, cap)
    && workerCalls <= Max(1, cap) + Losses(world, workerCalls)
    && (LossesEnd(world, conversation) ==> workerCalls <= Max(1, cap))
  }

  /** No worker call follows the last: the observer broke; or the call replied; or it was lost, and nobody
      was asked about it or the judge side had no instruction for it. */
  ghost predicate LastCall(world: World, conversation: Conversation, workerCalls: nat, judgeCalls: nat, broke: bool) {
    || broke
    || (workerCalls > 0
        && match world.worker(workerCalls - 1).result
           case Ok(_) => true
           case Err(error) =>
             || LossesEnd(world, conversation) || error.kind.None?
             || (judgeCalls > 0 && !Instructs(world.judge(judgeCalls - 1))))
  }

  /** One user message more, which tells an instruction and the notes that go beside it. */
  ghost predicate InstructedBy(before: seq<Message>, after: seq<Message>, relayed: seq<DeliveredNote>,
                               message: string) {
    && |after| == |before| + 1 && after[..|before|] == before
    && after[|before|].role == User && Tells(after[|before|].content, relayed, message)
  }

  /** One user message more, which holds notes. */
  ghost predicate HandedBy(before: seq<Message>, after: seq<Message>, notes: seq<DeliveredNote>) {
    && |after| == |before| + 1 && after[..|before|] == before
    && after[|before|].role == User && HoldsNotes(after[|before|].content, notes)
  }

  predicate Instructs(call: JudgeCall) { call.result.Ok? && call.result.value.outcome.Continue? }

  /** Every worker call opened on a prefix of the transcript ending in the instruction it is measured
      on, with no note of the supervisor's owed to it; and those notes reached the worker once each,
      beside an instruction, or not at all. */
  ghost predicate OpeningsFit(asked: seq<Asked>, messages: seq<Message>, delivered: seq<DeliveredNote>,
                              history: seq<Entry>, unrelayed: seq<DeliveredNote>) {
    && (forall i :: 0 <= i < |asked| ==>
          && asked[i].messages <= messages && EndsInUser(asked[i].messages) && asked[i].owed == []
          && LatestUserMessage(asked[i].messages) == Some(asked[i].instruction))
    && ReachedBy(delivered, Supervisor) == Relayed(history) + unrelayed
  }

  /** No turn is left open. */
  predicate Between(s: Stage) { s.Resting? || s.Replied? }

  /** The trace keeps the grammar, nothing follows what the observer broke on, a run it broke ends as
      stopped or failed and is reported as stopped only then, and any other leaves no turn open. */
  ghost predicate TraceFits(breaks: seq<Observation> -> bool, seen: seq<Observation>, ending: Ending) {
    && Walk(seen).Some? && BreakIsFinal(breaks, seen)
    && (ending.Returned? ==> (ending.outcome.stoppedEarly <==> seen != [] && breaks(seen)))
    && (ending.Returned? && !ending.outcome.stoppedEarly ==> Between(Walk(seen).value))
  }

  /** What a ruling makes of a run whose observer did not break on it. */
  predicate ActsOn(outcome: SupervisorOutcome, flow: Flow) {
    match outcome
    case Completed(reason) => Returns(flow, Some(reason), None)
    case Continue(_, _) => flow == Again
    case NoInstruction(reason) => Returns(flow, None, Some(NoNextInstruction(reason)))
    case Unparseable(problem, answer) => Returns(flow, None, Some(AnswerUnparsed(problem, answer)))
  }

  /** What it makes of one whose worker was lost with `error`. */
  predicate ResumesOn(outcome: SupervisorOutcome, error: ProviderError, flow: Flow) {
    match outcome
    case Completed(reason) => Returns(flow, Some(reason), None)
    case Continue(_, _) => flow == Again
    case _ => flow == Ended(Failed(error))
  }

  predicate Returns(flow: Flow, completionReason: Option<string>, settledReason: Option<SettledReason>) {
    && flow.Ended? && flow.ending.Returned? && !flow.ending.outcome.stoppedEarly
    && flow.ending.outcome.completionReason == completionReason
    && flow.ending.outcome.settledReason == settledReason
  }

  class Engine {
    const world: World
    const settings: Settings
    const conversation: Conversation
    const streaming: bool
    const transcript: Transcript
    const sink: Sink
    const noop: NoopStreak

    var delivered: seq<DeliveredNote>
    var judgeDecisions: seq<JudgedTurn>
    var totals: Usage
    var forWorker: seq<DeliveredNote>
    /** How often each party has been called, the inbox looked at, and judge decisions drained. */
    var workerCalls: nat
    var judgeCalls: nat
    var drains: nat
    var judgeDrains: nat
    /** The completion criterion in force at the last decision asked for, and the notes it was
        composed from and shown. */
    var criteria: Criteria
    ghost var considered: seq<DeliveredNote>
    /** Every note taken from the inbox, and every one a watch confirmed, as it was recorded. */
    ghost var taken: seq<DeliveredNote>
    ghost var interrupted: seq<DeliveredNote>
    /** The worker call that each judge call heard out was about. */
    ghost var heard: seq<nat>
    ghost var history: seq<Entry>
    ghost var asked: seq<Asked>

    constructor (world: World, settings: Settings, conversation: Conversation, streaming: bool,
                 breaks: seq<Observation> -> bool)
      ensures fresh(this) && fresh(transcript) && fresh(sink) && fresh(noop)
      ensures this.world == world && this.settings == settings && this.conversation == conversation
      ensures this.streaming == streaming && sink.breaks == breaks
      ensures New()
    {
      this.world := world;
      this.settings := settings;
      this.conversation := conversation;
      this.streaming := streaming;
      transcript := new Transcript.FromInput(conversation.input);
      sink := new Sink(breaks);
      noop := new NoopStreak();
      delivered, judgeDecisions, totals, forWorker := [], [], NONE, [];
      workerCalls, judgeCalls, drains, judgeDrains := 0, 0, 0, 0;
      criteria, considered := Compose(None, []), [];
      history, asked, taken, interrupted, heard := [], [], [], [], [];
    }

    /** Nothing has happened yet. */
    ghost predicate New()
      reads this, transcript, sink, noop
    {
      && transcript.messages == [FromUser(conversation.input)]
      && noop.Valid() && noop.exchanges == []
      && sink.Valid() && sink.seen == [] && sink.stage == Resting(1) && !sink.broke
      && heard == []
      && delivered == forWorker == taken == interrupted == [] && judgeDecisions == [] && totals == NONE
      && workerCalls == judgeCalls == drains == judgeDrains == 0 && history == [] && asked == []
    }

    /** A new engine stands at the top of its loop. */
    lemma NewAtTop()
      requires New()
      ensures Top()
    {
      hide TranscriptFits, CallsFit, AskedFits, ExchangesFit, JudgedFits, NotesFit, SpentFits, ReachedBy, Relayed,
           AssistantTurns, CallsOf, IsStreak, Walk, BreakIsFinal;
      Beginning(world, conversation.input);
    }

    /** The turn cap in force. */
    function Cap(): nat {
      if conversation.user.Some? && conversation.user.value.maxTurns.Some?
      then conversation.user.value.maxTurns.value
      else settings.maxTurns
    }

    // -------------------------------------------------------------- what always holds

    ghost predicate TranscriptSound()
      reads this`history, this`workerCalls, this`asked, transcript
    {
      && TranscriptFits(conversation.input, history, transcript.messages)
      && CallsFit(world, history, workerCalls)
      && AskedFits(asked, transcript.messages)
      && |asked| == workerCalls
    }

    /** The supervisor's notes the worker was relayed, and those still owed to it, are exactly the
        notes the supervisor was handed. */
    ghost predicate RelaySound()
      reads this`delivered, this`history, this`forWorker
    {
      ReachedBy(delivered, Supervisor) == Relayed(history) + forWorker
    }

    /** Every note taken or confirmed is on record, and nothing else is. */
    ghost predicate NotesSound()
      reads this`delivered, this`taken, this`interrupted, this`heard, this`history, this`drains, this`workerCalls
    {
      NotesFit(world, delivered, taken, interrupted, heard, history, drains, workerCalls)
    }

    /** Every judge call was heard out, and what it decided drained, but one that the observer broke. */
    ghost predicate HeardSound()
      reads this`heard, this`judgeDrains, this`judgeCalls, this`workerCalls, sink
    {
      && HeardFit(world, heard, workerCalls)
      && |heard| == judgeDrains && judgeCalls == judgeDrains + if sink.halted then 1 else 0
    }

    ghost predicate NoopSound()
      reads this`asked, noop
    {
      noop.Valid() && ExchangesFit(world, noop.exchanges, asked)
    }

    ghost predicate JudgedSound()
      reads this`judgeDecisions, this`judgeDrains, transcript
    {
      JudgedFits(world, judgeDecisions, judgeDrains, AssistantTurns(transcript.messages) + 1)
    }

    ghost predicate Sound()
      reads this, transcript, sink, noop
    {
      && TranscriptSound() && RelaySound() && NotesSound() && NoopSound() && JudgedSound() && HeardSound()
      && sink.Valid()
    }

    /** Where a loss ends the run, there have been no more calls than the cap buys. */
    ghost predicate LossesSpared()
      reads this`workerCalls
    {
      LossesEnd(world, conversation) ==> workerCalls <= Max(1, Cap())
    }

    /** Where a loss ends the run, none has happened yet. */
    ghost predicate NothingLost()
      reads this`workerCalls, this`history
    {
      LossesEnd(world, conversation) ==> workerCalls == |CallsOf(history)|
    }

    /** Whether the no-op rule would settle on what it has been shown. */
    ghost predicate WouldSettle()
      reads noop
    {
      settings.settleOnNoop && Settled(noop.exchanges)
    }

    /** Nothing has ended the run yet. */
    ghost predicate Standing()
      reads this, transcript, sink, noop
    {
      && Sound() && !WouldSettle() && LossesSpared()
      && (CallsOf(history) != [] ==> conversation.user.Some? && AssistantTurns(transcript.messages) < Cap())
    }

    ghost predicate Accounted()
      reads this`totals, this`workerCalls, this`judgeCalls
    {
      SpentFits(world, totals, workerCalls, judgeCalls)
    }

    /** The loop stands at its top. */
    ghost predicate Top()
      reads this, transcript, sink, noop
    {
      && Standing() && Accounted() && NothingLost() && AwaitsWorker(history) && forWorker == []
      && !sink.broke && MayOpen(sink.stage, AssistantTurns(transcript.messages) + 1)
    }

    // -------------------------------------------------------------- how a run ends

    /** The redirects of the last call that replied. */
    ghost function LastRedirects(): nat
      reads this`history
    {
      var calls := CallsOf(history);
      if calls == [] then 0 else |world.worker(calls[|calls| - 1]).redirects|
    }

    /** However many notes arrived, no reply was bought past the cap. */
    ghost predicate Bounded()
      reads this`history, this`workerCalls, transcript
    {
      && |CallsOf(history)| <= Max(1, Cap()) && LossesSpared()
      && AssistantTurns(transcript.messages) <= Max(1, Cap()) + LastRedirects()
    }

    /** The last exchange repeated the one before, and neither done nor the cap came first. */
    ghost predicate NoopEnds()
      reads transcript, sink, noop
    {
      && !sink.broke && conversation.user.Some? && WouldSettle() && NoopLast(false)
      && AssistantTurns(transcript.messages) < Cap()
    }

    ghost predicate OutcomeFits(o: Outcome)
      reads this, transcript, sink, noop
    {
      && o.messages == transcript.messages && o.judgeDecisions == judgeDecisions
      && o.stoppedEarly == sink.broke
      && (o.stoppedEarly ==> o.completionReason.None? && o.settledReason.None?)
      && (o.completionReason.None? || o.settledReason.None?)
      && (!o.stoppedEarly ==> Between(sink.stage))
      && o.usage == Reported(totals)
      && (!o.stoppedEarly ==> SpentFits(world, totals, workerCalls, judgeCalls))
      && (o.completionReason.Some? ==> Decided(Completed(o.completionReason.value)) && EveryNoteConsidered())
      && (o.settledReason == Some(NoopRepeated) <==> NoopEnds())
    }

    ghost predicate Finished(ending: Ending)
      reads this, transcript, sink, noop
    {
      match ending
      case Panicked =>
        && workerCalls > 0 && CannotCut(world.worker(workerCalls - 1)) && sink.Valid()
        && |Replies(world, workerCalls)| <= Max(1, Cap()) && LossesSpared()
      case Failed(error) => Sound() && Bounded() && WasLast() && Raised(error) && judgeDrains == judgeCalls
      case Returned(o) => Sound() && Bounded() && WasLast() && OutcomeFits(o)
    }

    ghost predicate WasLast()
      reads this`workerCalls, this`judgeCalls, sink
    {
      LastCall(world, conversation, workerCalls, judgeCalls, sink.broke)
    }

    /** The last worker call replied. */
    ghost predicate HasReplied()
      reads this`workerCalls
    {
      workerCalls > 0 && world.worker(workerCalls - 1).result.Ok?
    }

    /** A failure is one the last call of either party returned. */
    ghost predicate Raised(error: ProviderError)
      reads this`workerCalls, this`judgeCalls
    {
      || (workerCalls > 0 && world.worker(workerCalls - 1).result == Err(error))
      || (judgeCalls > 0 && world.judge(judgeCalls - 1).result == Err(error))
    }

    /** The notes the watch confirmed into the supervisor's last turn. */
    ghost function Redirected(): seq<DeliveredNote>
      requires judgeCalls > 0
      reads this`judgeCalls
    {
      DeliveredTo(NotesOf(world.judge(judgeCalls - 1).redirects), Supervisor)
    }

    /** The last decision was asked for with every note on record, and with every criterion they
        bind, but those confirmed into that very turn: and none are into one about a lost turn. */
    ghost predicate EveryNoteConsidered()
      reads this`delivered, this`considered, this`criteria, this`judgeCalls, this`workerCalls
    {
      && judgeCalls > 0 && workerCalls > 0 && conversation.user.Some?
      && criteria == Compose(conversation.user.value.doneWhen, considered)
      && delivered == if HasReplied() then considered + Redirected() else considered
    }

    /** The judge side's last decision. */
    ghost predicate Decided(outcome: SupervisorOutcome)
      reads this`judgeCalls
    {
      && judgeCalls > 0 && world.judge(judgeCalls - 1).result.Ok?
      && world.judge(judgeCalls - 1).result.value.outcome == outcome
    }

    /** A run still standing has bought no reply past the cap. */
    lemma StandingBounded()
      requires Standing()
      ensures Bounded()
      ensures |CallsOf(history)| <= AssistantTurns(transcript.messages)
      ensures CallsOf(history) == [] ==> AssistantTurns(transcript.messages) == 0
    {
      hide CallsFit, AskedFits, ExchangesFit, JudgedFits, IsStreak, Settled, ReachedBy, Relayed, Walk, CallsOf,
           AssistantTurns, NotesFit;
      RepliesCount(conversation.input, history);
    }

    /** What `Finished` says of a run that did not panic, spelled out over the run's own data. */
    lemma FinishedRun(ending: Ending)
      requires Finished(ending) && !ending.Panicked?
      ensures RunFits(world, conversation, Cap(), history, transcript.messages, workerCalls)
      ensures OpeningsFit(asked, transcript.messages, delivered, history, forWorker)
      ensures NotesFit(world, delivered, taken, interrupted, heard, history, drains, workerCalls)
      ensures HeardFit(world, heard, workerCalls) && |heard| == judgeDrains
      ensures judgeCalls == judgeDrains + if sink.broke && EndsOpening(sink.seen) then 1 else 0
      ensures Flat(judgeDecisions) == Drained(world, judgeDrains) && Increasing(judgeDecisions)
    {
      hide Rendered, CallsOf, AssistantTurns, Relayed, ReachedBy, ExchangesFit, SpentFits, IsStreak, Settled, Walk,
           Replies, Alternates, Flat, Drained, LatestUserMessage, WellFormed, BreakIsFinal, NotesFit, HeardFit,
           LastCall, Recounts;
      RenderedRecounts(history);
      assert transcript.messages[1..] == Rendered(history);
      TranscriptShape(conversation.input, history, transcript.messages);
    }

    /** What it says of any run. */
    lemma FinishedCalls(ending: Ending)
      requires Finished(ending)
      ensures CallsCapped(world, conversation, Cap(), workerCalls) && WasLast()
      ensures TraceFits(sink.breaks, sink.seen, ending) && sink.Valid()
    {
      hide Rendered, AssistantTurns, RelaySound, NotesSound, NoopSound, JudgedSound, HeardSound, SpentFits, Settled,
           Walk, Replies, Losses, TranscriptFits, AskedFits, BreakIsFinal, Cuts;
      RepliedOrLost(world, workerCalls);
    }

    /** `finish` */
    method Finish(stoppedEarly: bool, completionReason: Option<string>, settledReason: Option<SettledReason>)
      returns (o: Outcome)
      ensures o == Outcome(transcript.messages, Reported(totals), stoppedEarly, completionReason, settledReason,
                           judgeDecisions)
    {
      o := Outcome(transcript.messages, Reported(totals), stoppedEarly, completionReason, settledReason,
                   judgeDecisions);
    }

    /** The observer stopped the run. */
    method Stop() returns (flow: Flow)
      requires Sound() && Bounded() && sink.broke
      ensures flow.Ended? && flow.ending.Returned? && flow.ending.outcome.stoppedEarly && Finished(flow.ending)
    {
      hide TranscriptSound, RelaySound, NotesSound, NoopSound, JudgedSound, HeardSound, Walk, Settled, Reported;
      var o := Finish(true, None, None);
      flow := Ended(Returned(o));
    }

    /** The judge side passed the work. */
    method Complete(reason: string) returns (flow: Flow)
      requires Standing() && Bounded() && WasLast() && Accounted() && !sink.broke
      requires Decided(Completed(reason)) && EveryNoteConsidered()
      requires Between(sink.stage)
      ensures Returns(flow, Some(reason), None) && Finished(flow.ending)
    {
      hide TranscriptSound, RelaySound, NotesSound, NoopSound, JudgedSound, HeardSound, Walk, Settled, Reported,
           SpentFits;
      var o := Finish(false, Some(reason), None);
      flow := Ended(Returned(o));
    }

    /** The run settled on the work it has. */
    method Settle(reason: Option<SettledReason>) returns (flow: Flow)
      requires Sound() && Bounded() && WasLast() && Accounted() && !sink.broke && Between(sink.stage)
      requires reason == Some(NoopRepeated) <==> NoopEnds()
      ensures Returns(flow, None, reason) && Finished(flow.ending)
    {
      hide TranscriptSound, RelaySound, NotesSound, NoopSound, JudgedSound, HeardSound, Walk, Settled, Reported,
           SpentFits;
      var o := Finish(false, None, reason);
      flow := Ended(Returned(o));
    }

    // -------------------------------------------------------------- notes

    /** `take_notes` */
    method TakeNotes() returns (notes: seq<Note>)
      modifies this`drains
      ensures notes == world.arrivals(old(drains)) && drains == old(drains) + 1
    {
      notes := world.arrivals(drains);
      drains := drains + 1;
    }

    /** `record` */
    method Record(note: Note, party: Party) returns (handed: DeliveredNote)
      modifies this`delivered
      ensures handed == DeliveredNote(note, party) && delivered == old(delivered) + [handed]
      ensures ReachedBy(delivered, Supervisor)
              == ReachedBy(old(delivered), Supervisor) + if party == Supervisor then [handed] else []
    {
      handed := DeliveredNote(note, party);
      ghost var before := delivered;
      delivered := delivered + [handed];
      assert delivered[..|delivered| - 1] == before;
    }

    /** Record every one of `notes`, in order, as handed to `party`. */
    method RecordAll(notes: seq<Note>, party: Party) returns (handed: seq<DeliveredNote>)
      modifies this`delivered
      ensures handed == DeliveredTo(notes, party) && delivered == old(delivered) + handed
      ensures ReachedBy(delivered, Supervisor)
              == ReachedBy(old(delivered), Supervisor) + if party == Supervisor then handed else []
    {
      handed := [];
      for i := 0 to |notes|
        invariant handed == DeliveredTo(notes, party)[..i] && delivered == old(delivered) + handed
        invariant ReachedBy(delivered, Supervisor)
                  == ReachedBy(old(delivered), Supervisor) + if party == Supervisor then handed else []
      {
        var one := Record(notes[i], party);
        handed := handed + [one];
      }
    }

    /** `deliver(…, Party::Worker, …)`, and the user message it becomes. */
    method HandOver(notes: seq<Note>)
      requires TranscriptSound() && RelaySound()
      requires drains > 0 && notes == world.arrivals(drains - 1)
      requires NotesFit(world, delivered, taken, interrupted, heard, history, drains - 1, workerCalls)
      modifies this`delivered, this`taken, this`history, transcript
      ensures TranscriptSound() && RelaySound() && NotesSound() && AwaitsWorker(history)
      ensures history == old(history) + [Handed(DeliveredTo(notes, Worker))]
      ensures AssistantTurns(transcript.messages) == old(AssistantTurns(transcript.messages))
      ensures CallsOf(history) == CallsOf(old(history))
      ensures HandedBy(old(transcript.messages), transcript.messages, DeliveredTo(notes, Worker))
    {
      hide CallsFit, TranscriptFits, AskedFits, ReachedBy, NotesFit, DeliveredTo, WorkerBlock, Relayed, CallsOf,
           AssistantTurns, HoldsNotes;
      NotesTaken(world, delivered, taken, interrupted, heard, history, drains - 1, workerCalls, Worker);
      var handed := RecordAll(notes, Worker);
      taken := taken + handed;
      CallsKept(world, history, Handed(handed), workerCalls);
      AskedGrows(asked, transcript.messages, MessagesOf(Handed(handed)));
      Append(Handed(handed));
      BlockHolds(handed);
      transcript.Push(FromUser(WorkerBlock(handed)));
    }

    /** What appending `e` is about to make of the history. */
    ghost method Append(e: Entry)
      requires TranscriptFits(conversation.input, history, transcript.messages)
      requires e.Answered? ==> AwaitsWorker(history) && ReplyShape(e.turns)
      modifies this`history
      ensures history == old(history) + [e]
      ensures TranscriptFits(conversation.input, history, transcript.messages + MessagesOf(e))
      ensures AssistantTurns(transcript.messages + MessagesOf(e))
              == AssistantTurns(transcript.messages) + if e.Answered? then AssistantTurns(e.turns) else 0
      ensures CallsOf(history) == CallsOf(old(history)) + if e.Answered? then [e.call] else []
      ensures Relayed(history) == Relayed(old(history)) + if e.Instructed? then e.relayed else []
    {
      Appends(conversation.input, history, transcript.messages, e);
      AppendsTurns(transcript.messages, e);
      Snoc(history, e);
      history := history + [e];
    }

    // -------------------------------------------------------------- the worker's turn

    /** What is in the inbox at the top of the loop is handed to the worker before its turn opens. */
    method HandQueued()
      requires Top()
      modifies this`drains, this`delivered, this`taken, this`history, transcript
      ensures Top() && drains == old(drains) + 1
      ensures CallsOf(history) == CallsOf(old(history))
      ensures AssistantTurns(transcript.messages) == old(AssistantTurns(transcript.messages))
    {
      hide TranscriptFits, CallsFit, AskedFits, ExchangesFit, JudgedFits, SpentFits, IsStreak, Settled, AssistantTurns,
           CallsOf, Relayed, ReachedBy, Walk, Advance, NotesFit;
      var queued := TakeNotes();
      if queued == [] {
        NoneTaken(world, delivered, taken, interrupted, heard, history, drains - 1, workerCalls);
      } else {
        HandOver(queued);
      }
    }

    /** The top of the loop, up to the worker turn's opening. */
    method OpenWorker() returns (turn: nat, instruction: string, stop: bool)
      requires Top()
      modifies this`drains, this`delivered, this`taken, this`history, transcript, sink
      ensures Standing() && Accounted() && AwaitsWorker(history) && forWorker == []
      ensures NothingLost() && !sink.halted
      ensures CallsOf(history) == CallsOf(old(history)) && drains == old(drains) + 1
      ensures turn == AssistantTurns(transcript.messages) + 1 == old(AssistantTurns(transcript.messages)) + 1
      ensures EndsInUser(transcript.messages) && LatestUserMessage(transcript.messages) == Some(instruction)
      ensures sink.broke == stop && sink.stage == WorkerOpen(turn)
    {
      hide TranscriptFits, CallsFit, AskedFits, ExchangesFit, JudgedFits, SpentFits, IsStreak, Settled, AssistantTurns,
           CallsOf, Relayed, ReachedBy, Walk, NotesFit;
      HandQueued();
      turn := transcript.Turns();
      turn := turn + 1;
      TranscriptShape(conversation.input, history, transcript.messages);
      instruction := transcript.messages[|transcript.messages| - 1].content;
      stop := sink.Observe(TurnOpened(turn, Assistant, instruction));
    }

    /** The provider reporting one event of its turn: tool activity first, then the whole of it. */
    method ObserveEvent(turn: nat, event: HarnessEvent) returns (stop: bool)
      requires sink.Valid() && !sink.broke && sink.stage == WorkerOpen(turn)
      modifies sink
      ensures sink.Valid() && stop == sink.broke && (!stop ==> sink.stage == WorkerOpen(turn)) && !sink.halted
      ensures Shows(old(sink.seen), sink.seen, EventTrace(turn, event), stop)
    {
      hide Walk;
      match event
      case Begun(id) => stop := sink.Observe(HistoryBegun(turn, Assistant, id));
      case Acted(tool, text) =>
        stop := false;
        if tool.Some? {
          stop := sink.Observe(Tool(turn, tool.value));
        }
        if !stop {
          stop := sink.Observe(Action(turn, tool, text));
        }
    }

    /** The provider reporting its turn to the observer, until it is told to break. */
    method ObserveWorker(turn: nat, events: seq<HarnessEvent>)
      requires sink.Valid() && !sink.broke && sink.stage == WorkerOpen(turn)
      modifies sink
      ensures sink.Valid() && (!sink.broke ==> sink.stage == WorkerOpen(turn)) && !sink.halted
      ensures Shows(old(sink.seen), sink.seen, WorkerTrace(turn, events), sink.broke)
      ensures ShowsEach(turn, events, WorkerTrace(turn, events))
    {
      hide Walk, Advance, EventTrace, Shows, ShowsEach;
      WorkerTraceShows(turn, events);
      var i := 0;
      NothingShown(sink.seen);
      while i < |events|
        invariant 0 <= i <= |events| && sink.Valid() && !sink.broke && sink.stage == WorkerOpen(turn)
        invariant Shows(old(sink.seen), sink.seen, WorkerTrace(turn, events[..i]), false)
      {
        ghost var before := sink.seen;
        var broke := ObserveEvent(turn, events[i]);
        ShowsMore(old(sink.seen), before, sink.seen, WorkerTrace(turn, events[..i]), EventTrace(turn, events[i]),
                  broke);
        i := i + 1;
        assert events[..i][..i - 1] == events[..i - 1];
        if broke {
          var rest := WorkerTraceSplits(turn, events, i);
          ShowsLess(old(sink.seen), sink.seen, WorkerTrace(turn, events[..i]), rest);
          return;
        }
      }
      assert events[..i] == events;
    }

    /** The worker call itself: its openings and actions observed, its redirects recorded. */
    method CallWorker(turn: nat, instruction: string) returns (call: WorkerCall)
      requires TranscriptSound() && RelaySound() && NotesSound() && forWorker == []
      requires EndsInUser(transcript.messages) && LatestUserMessage(transcript.messages) == Some(instruction)
      requires sink.Valid() && !sink.broke && sink.stage == WorkerOpen(turn)
      modifies this`workerCalls, this`asked, this`delivered, this`interrupted, sink
      ensures call == world.worker(old(workerCalls)) && workerCalls == old(workerCalls) + 1
      ensures asked == old(asked) + [Asked(transcript.messages, instruction, [])]
      ensures AskedFits(asked, transcript.messages) && |asked| == workerCalls
      ensures RelaySound() && NotesSound()
      ensures sink.Valid() && (!sink.broke ==> sink.stage == WorkerOpen(turn)) && !sink.halted
      ensures Shows(old(sink.seen), sink.seen, if streaming then WorkerTrace(turn, call.events) else [], sink.broke)
    {
      hide NotesFit, ReachedBy, Relayed, Walk, Advance, Shows, WorkerTrace, AskedFits, TranscriptFits, CallsFit,
           LatestUserMessage;
      NothingShown(sink.seen);
      AskedOpens(asked, transcript.messages, instruction);
      NotesInterrupt(world, delivered, taken, interrupted, heard, history, drains, workerCalls);
      asked := asked + [Asked(transcript.messages, instruction, forWorker)];
      call := world.worker(workerCalls);
      workerCalls := workerCalls + 1;
      if streaming {
        ObserveWorker(turn, call.events);
      }
      var handed := RecordAll(NotesOf(call.redirects), Worker);
      interrupted := interrupted + handed;
    }

    /** The reply's own observations, unless the observer has already stopped the run. */
    method CloseWorker(turn: nat, message: string) returns (stop: bool)
      requires sink.Valid() && (!sink.broke ==> sink.stage == WorkerOpen(turn)) && !sink.halted
      modifies sink
      ensures sink.Valid() && stop == sink.broke && (!stop ==> sink.stage == Replied(turn)) && !sink.halted
      ensures Shows(old(sink.seen), sink.seen, [Said(turn, Assistant, message), TurnClosed(turn, Assistant)], stop)
      ensures old(sink.broke) ==> sink.seen == old(sink.seen)
    {
      hide Walk;
      stop := sink.Stopped();
      if !stop {
        stop := sink.Observe(Said(turn, Assistant, message));
      }
      if !stop {
        stop := sink.Observe(TurnClosed(turn, Assistant));
      }
    }

    /** The call that just replied, appended as the turns it was. */
    method AppendReply(call: WorkerCall) returns (panicked: bool)
      requires workerCalls > 0 && call == world.worker(workerCalls - 1) && call.result.Ok?
      requires TranscriptFits(conversation.input, history, transcript.messages) && AwaitsWorker(history)
      requires CallsFit(world, history, workerCalls - 1)
      requires AskedFits(asked, transcript.messages) && |asked| == workerCalls && NotesSound()
      modifies this`history, transcript
      ensures panicked <==> CannotCut(call)
      ensures !panicked ==>
                && TranscriptSound() && NotesSound() && !AwaitsWorker(history)
                && CallsOf(history) == CallsOf(old(history)) + [workerCalls - 1]
                && Relayed(history) == Relayed(old(history))
                && AssistantTurns(transcript.messages)
                   == old(AssistantTurns(transcript.messages)) + |call.redirects| + 1
    {
      hide TranscriptFits, CallsFit, AskedFits, Appended, Cuts, NotesFit;
      var reply := call.result.value;
      ghost var before := transcript.messages;
      panicked := PushRedirected(transcript, call.redirects, reply.message, reply.events);
      if !panicked {
        ghost var turns := Appended(call.redirects, 0, 0, reply.message, reply.events).value;
        ghost var entry := Answered(workerCalls - 1, turns);
        AnswerShape(world, entry);
        NotesKept(world, delivered, taken, interrupted, heard, history, drains, workerCalls, entry);
        CallsJoined(world, history, workerCalls - 1, turns);
        AskedGrows(asked, before, turns);
        Appends(conversation.input, history, before, entry);
        AppendsTurns(before, entry);
        Snoc(history, entry);
        history := history + [entry];
      }
    }

    /** A reply, from its accounting to the transcript. */
    method KeepReply(turn: nat, instruction: string, call: WorkerCall)
      returns (stop: bool, settles: bool, panicked: bool)
      requires workerCalls > 0 && call == world.worker(workerCalls - 1) && call.result.Ok?
      requires TranscriptFits(conversation.input, history, transcript.messages) && AwaitsWorker(history)
      requires CallsFit(world, history, workerCalls - 1)
      requires AskedFits(asked, transcript.messages) && |asked| == workerCalls
      requires noop.Valid() && ExchangesFit(world, noop.exchanges, asked[..workerCalls - 1])
      requires asked[workerCalls - 1].instruction == instruction
      requires SpentFits(world, totals, workerCalls - 1, judgeCalls)
      requires turn == AssistantTurns(transcript.messages) + 1 && NotesSound()
      requires sink.Valid() && (!sink.broke ==> sink.stage == WorkerOpen(turn)) && !sink.halted
      modifies this`totals, this`history, noop, sink, transcript
      ensures SpentFits(world, totals, workerCalls, judgeCalls) && NoopSound() && sink.Valid()
      ensures settles == WouldSettle() && NoopLast(call.result.value.done)
      ensures stop == sink.broke && (!stop ==> sink.stage == Replied(turn)) && !sink.halted
      ensures panicked <==> CannotCut(call)
      ensures !panicked ==>
                && TranscriptSound() && NotesSound() && !AwaitsWorker(history)
                && CallsOf(history) == CallsOf(old(history)) + [workerCalls - 1]
                && Relayed(history) == Relayed(old(history))
                && AssistantTurns(transcript.messages) == turn + |call.redirects|
    {
      hide TranscriptFits, CallsFit, AskedFits, ExchangesFit, SpentFits, IsStreak, Settled, AssistantTurns,
           CallsOf, Relayed, NotesFit;
      var reply := call.result.value;
      ghost var opening := asked[workerCalls - 1];
      WorkerSpends(world, totals, workerCalls - 1, judgeCalls);
      ExchangeJoins(world, noop.exchanges, asked[..workerCalls - 1], opening);
      assert asked[..workerCalls - 1] + [opening] == asked;
      totals := PlusReported(totals, reply.usage);
      var repeated := noop.Observe(Exchange(instruction, reply.message, reply.events, reply.done));
      settles := repeated && settings.settleOnNoop;
      stop := CloseWorker(turn, reply.message);
      panicked := AppendReply(call);
    }

    /** Whether the last exchange came with the worker declaring itself done. */
    ghost predicate NoopLast(done: bool)
      reads noop
    {
      noop.exchanges != [] && noop.exchanges[|noop.exchanges| - 1].done == done
    }

    // -------------------------------------------------------------- judges

    /** `record_judge_decisions` */
    method RecordJudgeDecisions(turn: nat) returns (decided: seq<JudgeDecision>)
      requires JudgedFits(world, judgeDecisions, judgeDrains, turn)
      modifies this`judgeDecisions, this`judgeDrains
      ensures decided == world.judge(old(judgeDrains)).decisions && judgeDrains == old(judgeDrains) + 1
      ensures JudgedFits(world, judgeDecisions, judgeDrains, turn)
    {
      JudgingFits(world, judgeDecisions, judgeDrains, turn);
      decided := world.judge(judgeDrains).decisions;
      if decided != [] {
        var last := |judgeDecisions| - 1;
        if judgeDecisions != [] && judgeDecisions[last].turn == turn {
          judgeDecisions := judgeDecisions[..last] + [JudgedTurn(turn, judgeDecisions[last].decisions + decided)];
        } else {
          judgeDecisions := judgeDecisions + [JudgedTurn(turn, decided)];
        }
      }
      judgeDrains := judgeDrains + 1;
    }

    /** One judge call, on everything delivered so far. */
    method AskJudge(user: SimulatedUser) returns (call: JudgeCall)
      modifies this`judgeCalls, this`criteria, this`considered
      ensures call == world.judge(old(judgeCalls)) && judgeCalls == old(judgeCalls) + 1
      ensures criteria == Compose(user.doneWhen, delivered) && considered == delivered
    {
      criteria, considered := Compose(user.doneWhen, delivered), delivered;
      call := world.judge(judgeCalls);
      judgeCalls := judgeCalls + 1;
    }

    method ObserveTools(turn: nat, judge: string, events: seq<ToolEvent>) returns (stop: bool)
      requires sink.Valid() && !sink.broke && sink.stage == SupervisorOpen(turn, false)
      modifies sink
      ensures sink.Valid() && stop == sink.broke && (!stop ==> sink.stage == SupervisorOpen(turn, false))
      ensures !sink.halted
      ensures Shows(old(sink.seen), sink.seen, ToolsTrace(turn, judge, events), stop)
    {
      hide Walk;
      stop := false;
      var i := 0;
      while i < |events| && !stop
        invariant 0 <= i <= |events| && sink.Valid() && stop == sink.broke && !sink.halted
        invariant !stop ==> sink.stage == SupervisorOpen(turn, false)
        invariant sink.seen == old(sink.seen) + ToolsTrace(turn, judge, events)[..i]
      {
        stop := sink.Observe(JudgeTool(turn, judge, events[i]));
        i := i + 1;
      }
      assert ToolsTrace(turn, judge, events)[..|events|] == ToolsTrace(turn, judge, events);
    }

    /** What a bare provider's judges did. */
    method ObserveBare(turn: nat, bare: seq<JudgeTools>) returns (stop: bool)
      requires sink.Valid() && !sink.broke && sink.stage == SupervisorOpen(turn, false)
      modifies sink
      ensures sink.Valid() && stop == sink.broke && (!stop ==> sink.stage == SupervisorOpen(turn, false))
      ensures !sink.halted
      ensures Shows(old(sink.seen), sink.seen, BareTrace(turn, bare), stop)
    {
      hide Walk, Advance, Shows, ToolsTrace;
      NothingShown(sink.seen);
      for i := 0 to |bare|
        invariant sink.Valid() && !sink.broke && sink.stage == SupervisorOpen(turn, false)
        invariant Shows(old(sink.seen), sink.seen, BareTrace(turn, bare[..i]), false)
      {
        ghost var before := sink.seen;
        stop := ObserveTools(turn, bare[i].judge, bare[i].events);
        ghost var more := ToolsTrace(turn, bare[i].judge, bare[i].events);
        ShowsMore(old(sink.seen), before, sink.seen, BareTrace(turn, bare[..i]), more, stop);
        assert bare[..i + 1][..i] == bare[..i];
        if stop {
          var rest := BareTraceSplits(turn, bare, i + 1);
          ShowsLess(old(sink.seen), sink.seen, BareTrace(turn, bare[..i + 1]), rest);
          return;
        }
      }
      assert bare[..|bare|] == bare;
      stop := false;
    }

    /** One panel judge's events, and right after them its decision. */
    method ObserveDecision(turn: nat, decision: JudgeDecision) returns (stop: bool)
      requires sink.Valid() && !sink.broke && sink.stage == SupervisorOpen(turn, false)
      modifies sink
      ensures sink.Valid() && stop == sink.broke && (!stop ==> sink.stage == SupervisorOpen(turn, false))
      ensures !sink.halted
      ensures Shows(old(sink.seen), sink.seen, DecisionTrace(turn, decision), stop)
    {
      hide Walk;
      stop := ObserveTools(turn, decision.judge, decision.events);
      if !stop {
        stop := sink.Observe(JudgeDecided(turn, decision));
      }
    }

    method ObserveDecided(turn: nat, decided: seq<JudgeDecision>) returns (stop: bool)
      requires sink.Valid() && !sink.broke && sink.stage == SupervisorOpen(turn, false)
      modifies sink
      ensures sink.Valid() && stop == sink.broke && (!stop ==> sink.stage == SupervisorOpen(turn, false))
      ensures !sink.halted
      ensures Shows(old(sink.seen), sink.seen, DecidedTrace(turn, decided), stop)
    {
      hide Walk, Advance, Shows, DecisionTrace;
      NothingShown(sink.seen);
      for i := 0 to |decided|
        invariant sink.Valid() && !sink.broke && sink.stage == SupervisorOpen(turn, false)
        invariant Shows(old(sink.seen), sink.seen, DecidedTrace(turn, decided[..i]), false)
      {
        ghost var before := sink.seen;
        stop := ObserveDecision(turn, decided[i]);
        ShowsMore(old(sink.seen), before, sink.seen, DecidedTrace(turn, decided[..i]),
                  DecisionTrace(turn, decided[i]), stop);
        assert decided[..i + 1][..i] == decided[..i];
        if stop {
          var rest := DecidedTraceSplits(turn, decided, i + 1);
          ShowsLess(old(sink.seen), sink.seen, DecidedTrace(turn, decided[..i + 1]), rest);
          return;
        }
      }
      assert decided[..|decided|] == decided;
      stop := false;
    }

    /** A bare provider's judge events, then each panel judge's right before its decision. */
    method ObserveJudges(turn: nat, bare: seq<JudgeTools>, decided: seq<JudgeDecision>) returns (stop: bool)
      requires sink.Valid() && !sink.broke && sink.stage == SupervisorOpen(turn, false)
      modifies sink
      ensures sink.Valid() && stop == sink.broke && (!stop ==> sink.stage == SupervisorOpen(turn, false))
      ensures !sink.halted
      ensures Shows(old(sink.seen), sink.seen, BareTrace(turn, bare) + DecidedTrace(turn, decided), stop)
    {
      hide Walk, Advance, Shows, BareTrace, DecidedTrace;
      stop := ObserveBare(turn, bare);
      if stop {
        ShowsLess(old(sink.seen), sink.seen, BareTrace(turn, bare), DecidedTrace(turn, decided));
        return;
      }
      ghost var before := sink.seen;
      stop := ObserveDecided(turn, decided);
      ShowsMore(old(sink.seen), before, sink.seen, BareTrace(turn, bare), DecidedTrace(turn, decided), stop);
    }

    method ObserveOpenings(turn: nat, openings: seq<string>) returns (stop: bool)
      requires sink.Valid() && !sink.broke && sink.stage == SupervisorOpen(turn, false)
      modifies sink
      ensures sink.Valid() && stop == sink.broke && (!stop ==> sink.stage == SupervisorOpen(turn, false))
      ensures sink.halted == stop
      ensures Shows(old(sink.seen), sink.seen, OpeningsTrace(turn, openings), stop)
    {
      hide Walk;
      stop := false;
      var i := 0;
      while i < |openings| && !stop
        invariant 0 <= i <= |openings| && sink.Valid() && stop == sink.broke == sink.halted
        invariant !stop ==> sink.stage == SupervisorOpen(turn, false)
        invariant sink.seen == old(sink.seen) + OpeningsTrace(turn, openings)[..i]
      {
        stop := sink.Observe(HistoryBegun(turn, User, openings[i]));
        i := i + 1;
      }
      assert OpeningsTrace(turn, openings)[..|openings|] == OpeningsTrace(turn, openings);
    }

    // -------------------------------------------------------------- the supervisor's decision

    /** Notes that reached the judge's live turn, from the inbox or from its own watch: on record now, and owed
        to the worker. */
    method Owe(notes: seq<Note>, ghost fromInbox: bool)
      requires RelaySound()
      requires fromInbox ==> drains > 0 && notes == world.arrivals(drains - 1)
      requires !fromInbox ==> HasReplied() && notes == NotesOf(world.judge(|heard|).redirects)
      requires NotesFit(world, delivered, taken, interrupted, heard, history, if fromInbox then drains - 1 else drains,
                        workerCalls)
      modifies this`delivered, this`forWorker, this`taken, this`interrupted, this`heard
      ensures RelaySound() && NotesSound() && delivered == old(delivered) + DeliveredTo(notes, Supervisor)
      ensures heard == if fromInbox then old(heard) else old(heard) + [workerCalls - 1]
    {
      hide ReachedBy, Relayed, NotesFit, NotesOf;
      if fromInbox {
        NotesTaken(world, delivered, taken, interrupted, heard, history, drains - 1, workerCalls, Supervisor);
      } else {
        NotesHeard(world, delivered, taken, interrupted, heard, history, drains, workerCalls, workerCalls - 1);
        heard := heard + [workerCalls - 1];
      }
      var handed := RecordAll(notes, Supervisor);
      forWorker := forWorker + handed;
      if fromInbox {
        taken := taken + handed;
      } else {
        interrupted := interrupted + handed;
      }
    }

    /** Notes that arrived while the decision was taken, handed to the judge for the next one. */
    method OweArrived() returns (any: bool)
      requires RelaySound() && NotesSound()
      modifies this`delivered, this`forWorker, this`taken, this`interrupted, this`heard, this`drains
      ensures RelaySound() && NotesSound() && drains == old(drains) + 1 && heard == old(heard)
      ensures any <==> world.arrivals(old(drains)) != []
      ensures delivered == old(delivered) + DeliveredTo(world.arrivals(old(drains)), Supervisor)
    {
      hide ReachedBy, Relayed, NotesFit;
      var arrived := TakeNotes();
      any := arrived != [];
      if any {
        Owe(arrived, true);
      } else {
        NoneTaken(world, delivered, taken, interrupted, heard, history, drains - 1, workerCalls);
        assert delivered + [] == delivered;
      }
    }

    /** What came of one judge call, whichever way it ended: its redirects, its decisions, and what
        the observer is shown of them. */
    method Hear(turn: nat, call: JudgeCall) returns (stop: bool)
      requires call == world.judge(judgeDrains) && judgeDrains == |heard| && HasReplied()
      requires RelaySound() && NotesSound() && JudgedFits(world, judgeDecisions, judgeDrains, turn)
      requires sink.Valid() && !sink.broke && sink.stage == SupervisorOpen(turn, false)
      modifies this`judgeDrains, this`judgeDecisions, this`delivered, this`forWorker, this`taken, this`interrupted,
               this`heard, sink
      ensures RelaySound() && NotesSound() && JudgedFits(world, judgeDecisions, judgeDrains, turn)
      ensures judgeDrains == old(judgeDrains) + 1 && heard == old(heard) + [workerCalls - 1]
      ensures delivered == old(delivered) + DeliveredTo(NotesOf(call.redirects), Supervisor)
      ensures sink.Valid() && stop == sink.broke && (!stop ==> sink.stage == SupervisorOpen(turn, false))
      ensures !sink.halted
      ensures Shows(old(sink.seen), sink.seen, BareTrace(turn, call.tools) + DecidedTrace(turn, call.decisions), stop)
    {
      hide JudgedFits, Walk, Advance, ReachedBy, Relayed, DeliveredTo, NotesOf, NotesFit, Shows, BareTrace,
           DecidedTrace;
      Owe(NotesOf(call.redirects), false);
      var decided := RecordJudgeDecisions(turn);
      stop := ObserveJudges(turn, call.tools, decided);
    }

    /** The judge's call, and the openings it reports while it runs. */
    method AskObserving(turn: nat, user: SimulatedUser) returns (call: JudgeCall, stop: bool)
      requires sink.Valid() && !sink.broke && sink.stage == SupervisorOpen(turn, false)
      modifies this`judgeCalls, this`criteria, this`considered, sink
      ensures call == world.judge(old(judgeCalls)) && judgeCalls == old(judgeCalls) + 1
      ensures criteria == Compose(user.doneWhen, delivered) && considered == delivered
      ensures sink.Valid() && stop == sink.broke && (!stop ==> sink.stage == SupervisorOpen(turn, false))
      ensures sink.halted == stop
      ensures Shows(old(sink.seen), sink.seen, if streaming then OpeningsTrace(turn, call.openings) else [], stop)
    {
      hide Walk, Advance, Compose, Shows, OpeningsTrace;
      NothingShown(sink.seen);
      call := AskJudge(user);
      stop := false;
      if streaming {
        stop := ObserveOpenings(turn, call.openings);
      }
    }

    /** One round of the decision: `None` when notes arrived meanwhile, so that it is re-taken. */
    method Query(turn: nat, user: SimulatedUser) returns (ruling: Option<Ruling>)
      requires conversation.user == Some(user)
      requires Accounted() && RelaySound() && NotesSound() && JudgedFits(world, judgeDecisions, judgeDrains, turn)
      requires HeardSound() && HasReplied()
      requires sink.Valid() && !sink.broke && sink.stage == SupervisorOpen(turn, false)
      modifies this`totals, this`judgeCalls, this`judgeDrains, this`judgeDecisions, this`criteria, this`considered,
               this`delivered, this`forWorker, this`taken, this`interrupted, this`heard, this`drains, sink
      ensures RelaySound() && NotesSound() && JudgedFits(world, judgeDecisions, judgeDrains, turn) && sink.Valid()
      ensures HeardSound()
      ensures judgeCalls == old(judgeCalls) + 1
      ensures match ruling
              case None =>
                && Accounted() && !sink.broke && sink.stage == SupervisorOpen(turn, false)
                && drains == old(drains) + 1 && world.arrivals(old(drains)) != []
              case Some(Ruled(outcome)) =>
                && Accounted() && !sink.broke && sink.stage == SupervisorOpen(turn, false)
                && Decided(outcome) && EveryNoteConsidered()
                && drains == old(drains) + 1 && world.arrivals(old(drains)) == []
              case Some(Broken) => sink.broke
              case Some(Fails(error)) => Raised(error) && judgeDrains == judgeCalls
    {
      hide JudgedFits, SpentFits, Walk, Advance, ReachedBy, Relayed, DeliveredTo, NotesOf, Compose, PlusReported,
           NotesFit, Shows, OpeningsTrace;
      JudgeSpends(world, totals, workerCalls, judgeCalls);
      HeardAgain(world, heard, workerCalls);
      var call, stop := AskObserving(turn, user);
      if stop {
        return Some(Broken);
      }
      stop := Hear(turn, call);
      if call.result.Err? {
        return Some(Fails(call.result.error));
      }
      if stop {
        return Some(Broken);
      }
      totals := PlusReported(totals, call.result.value.usage);
      ghost var before := delivered;
      var again := OweArrived();
      assert before + [] == before;
      ruling := if again then None else Some(Ruled(call.result.value.outcome));
    }

    /** The decision, re-taken for as long as notes keep arriving while it is taken. */
    method Decide(turn: nat, user: SimulatedUser, ghost noteBound: nat) returns (ruling: Ruling)
      requires conversation.user == Some(user)
      requires forall k :: k >= noteBound ==> world.arrivals(k) == []
      requires Accounted() && RelaySound() && NotesSound() && JudgedFits(world, judgeDecisions, judgeDrains, turn)
      requires HeardSound() && HasReplied()
      requires sink.Valid() && !sink.broke && sink.stage == SupervisorOpen(turn, false)
      modifies this`totals, this`judgeCalls, this`judgeDrains, this`judgeDecisions, this`criteria, this`considered,
               this`delivered, this`forWorker, this`taken, this`interrupted, this`heard, this`drains, sink
      ensures RelaySound() && NotesSound() && JudgedFits(world, judgeDecisions, judgeDrains, turn) && sink.Valid()
      ensures HeardSound()
      ensures match ruling
              case Ruled(outcome) =>
                && Accounted() && !sink.broke && sink.stage == SupervisorOpen(turn, false)
                && Decided(outcome) && EveryNoteConsidered()
                && drains > old(drains) && world.arrivals(drains - 1) == []
              case Broken => sink.broke
              case Fails(error) => Raised(error) && judgeDrains == judgeCalls
      ensures judgeCalls > old(judgeCalls)
    {
      hide JudgedFits, SpentFits, Walk, ReachedBy, Relayed, NotesFit;
      while true
        invariant Accounted() && RelaySound() && NotesSound() && JudgedFits(world, judgeDecisions, judgeDrains, turn)
        invariant HeardSound()
        invariant sink.Valid() && !sink.broke && sink.stage == SupervisorOpen(turn, false)
        invariant drains >= old(drains) && judgeCalls >= old(judgeCalls)
        decreases noteBound - drains
      {
        var attempt := Query(turn, user);
        if attempt.Some? {
          return attempt.value;
        }
      }
    }

    // -------------------------------------------------------------- lost turns

    /** The last worker call was lost, and nothing has been done about it yet. */
    ghost predicate Lost(turn: nat)
      reads this, transcript, sink, noop
    {
      && Standing() && Accounted() && AwaitsWorker(history) && forWorker == []
      && workerCalls > 0 && world.worker(workerCalls - 1).result.Err?
      && turn == AssistantTurns(transcript.messages) + 1
      && (!sink.broke ==> sink.stage == WorkerOpen(turn))
      && HeardFit(world, heard, workerCalls - 1) && !sink.halted
    }

    /** The supervisor's own words, if it gave any, and the close of its turn. */
    method CloseSupervisor(turn: nat, outcome: SupervisorOutcome, ghost lost: bool) returns (stop: bool)
      requires sink.Valid() && !sink.broke && sink.stage == SupervisorOpen(turn, lost)
      modifies sink
      ensures sink.Valid() && stop == sink.broke && (!stop ==> sink.stage == AfterSupervisor(turn, lost))
      ensures !sink.halted
      ensures Shows(old(sink.seen), sink.seen,
                    (if outcome.Continue? then [Said(turn, User, outcome.message)] else [])
                    + [TurnClosed(turn, User)], stop)
    {
      hide Walk;
      stop := false;
      if outcome.Continue? {
        stop := sink.Observe(Said(turn, User, outcome.message));
      }
      if !stop {
        stop := sink.Observe(TurnClosed(turn, User));
      }
    }

    /** The recovery turn opens, unless the observer has already stopped the run. */
    method OpenRecovery(turn: nat) returns (stop: bool)
      requires sink.Valid() && (!sink.broke ==> sink.stage == WorkerOpen(turn)) && !sink.halted
      modifies sink
      ensures sink.Valid() && stop == sink.broke && (!stop ==> sink.stage == SupervisorOpen(turn, true)) && !sink.halted
      ensures old(sink.broke) ==> sink.seen == old(sink.seen) && stop
      ensures !old(sink.broke) ==> sink.seen == old(sink.seen) + [TurnOpened(turn, User, "")]
    {
      hide Walk;
      stop := sink.Stopped();
      if !stop {
        stop := sink.Observe(TurnOpened(turn, User, ""));
      }
    }

    /** The judge side asked about a turn the worker lost; `None` when it was not, or did not answer. */
    method ConsultOnLost(turn: nat, error: ProviderError) returns (decided: Option<SupervisorOutcome>)
      requires sink.Valid() && (!sink.broke ==> sink.stage == WorkerOpen(turn)) && !sink.halted
      requires workerCalls > 0 && world.worker(workerCalls - 1).result == Err(error)
      requires HeardSound() && HeardFit(world, heard, workerCalls - 1) && NotesSound()
      requires Accounted() && JudgedFits(world, judgeDecisions, judgeDrains, turn)
      modifies this`totals, this`judgeCalls, this`judgeDrains, this`judgeDecisions, this`criteria, this`considered,
               this`heard, sink
      ensures sink.Valid() && JudgedFits(world, judgeDecisions, judgeDrains, turn) && HeardSound() && NotesSound()
      ensures judgeDrains == judgeCalls
      ensures judgeCalls == old(judgeCalls) || judgeCalls == old(judgeCalls) + 1
      ensures judgeCalls > old(judgeCalls) ==>
                !LossesEnd(world, conversation) && error.kind.Some? && !old(sink.broke)
      ensures decided.None? ==> WasLast()
      ensures decided.Some? ==>
                && judgeCalls > old(judgeCalls)
                && Accounted() && Decided(decided.value) && EveryNoteConsidered()
                && !sink.broke && sink.stage == SupervisorOpen(turn, true)
    {
      hide JudgedFits, SpentFits, Walk, Advance, Compose, PlusReported, DeliveredTo, NotesOf, NotesFit, HeardFit;
      if !world.supervisesLostTurns || error.kind.None? || conversation.user.None? {
        return None;
      }
      var stop := OpenRecovery(turn);
      if stop {
        return None;
      }
      var call := AskJudge(conversation.user.value);
      JudgeSpends(world, totals, workerCalls, judgeCalls - 1);
      var _ := RecordJudgeDecisions(turn);
      HearNothing();
      if call.result.Err? {
        return None;
      }
      totals := PlusReported(totals, call.result.value.usage);
      decided := Some(call.result.value.outcome);
    }

    /** A judge call about a lost turn is heard out without a watch. */
    ghost method HearNothing()
      requires workerCalls > 0 && world.worker(workerCalls - 1).result.Err?
      requires HeardFit(world, heard, workerCalls - 1) && NotesSound()
      modifies this`heard
      ensures heard == old(heard) + [workerCalls - 1] && HeardFit(world, heard, workerCalls) && NotesSound()
    {
      hide HeardFit, NotesFit;
      HeardLater(world, heard, workerCalls - 1);
      NotesHeard(world, delivered, taken, interrupted, heard, history, drains, workerCalls, workerCalls - 1);
      assert delivered + [] == delivered && interrupted + [] == interrupted;
      heard := heard + [workerCalls - 1];
    }

    /** What the judge side said of a lost turn, acted on. */
    method Resume(turn: nat, error: ProviderError, outcome: SupervisorOutcome) returns (flow: Flow)
      requires Standing() && Accounted() && AwaitsWorker(history) && forWorker == []
      requires Raised(error) && Decided(outcome) && EveryNoteConsidered()
      requires !LossesEnd(world, conversation) && workerCalls > 0 && world.worker(workerCalls - 1).result == Err(error)
      requires turn == AssistantTurns(transcript.messages) + 1
      requires !sink.broke && sink.stage == SupervisorOpen(turn, true)
      modifies this`history, transcript, sink
      ensures match flow
              case Again => Top() && AssistantTurns(transcript.messages) == old(AssistantTurns(transcript.messages))
              case Ended(ending) => Finished(ending) && history == old(history)
      ensures !sink.broke ==> ResumesOn(outcome, error, flow)
      ensures flow.Again? ==>
                && outcome.Continue? && history == old(history) + [Instructed([], outcome.message)]
                && InstructedBy(old(transcript.messages), transcript.messages, [], outcome.message)
    {
      hide InstructedBy, HandedBy, TranscriptFits, CallsFit, AskedFits, ExchangesFit, JudgedFits, SpentFits, IsStreak,
           Settled, AssistantTurns, CallsOf, Relayed, ReachedBy, Walk, Advance, DeliveredTo, Compose, NotesFit,
           HeardFit;
      StandingBounded();
      flow := Ended(Failed(error));
      var stop := CloseSupervisor(turn, outcome, true);
      if stop {
        flow := Stop();
        return;
      }
      match outcome
      case Completed(reason) =>
        flow := Complete(reason);
      case Continue(message, _) =>
        assert Relayed(history) + [] == Relayed(history);
        Instruct([], message);
        flow := Again;
      case NoInstruction(_) =>
      case Unparseable(_, _) =>
    }

    /** What the judge side has the loop do about a turn the worker lost. */
    method Recover(turn: nat, error: ProviderError) returns (flow: Flow)
      requires Lost(turn) && world.worker(workerCalls - 1).result == Err(error)
      modifies this`totals, this`judgeCalls, this`judgeDrains, this`judgeDecisions, this`criteria, this`considered,
               this`heard, this`history, transcript, sink
      ensures match flow
              case Again => Top() && AssistantTurns(transcript.messages) == old(AssistantTurns(transcript.messages))
              case Ended(ending) => Finished(ending) && history == old(history)
      ensures judgeCalls == old(judgeCalls) ==> flow == Ended(Failed(error))
      ensures LossesEnd(world, conversation) || error.kind.None? || old(sink.broke) ==> judgeCalls == old(judgeCalls)
      ensures flow.Again? <==> !sink.broke && judgeCalls > old(judgeCalls) && Instructs(world.judge(judgeCalls - 1))
    {
      hide TranscriptFits, CallsFit, AskedFits, ExchangesFit, JudgedFits, SpentFits, IsStreak, Settled, AssistantTurns,
           CallsOf, Relayed, ReachedBy, Walk, Advance, DeliveredTo, Compose, NotesFit, HeardFit;
      StandingBounded();
      var decided := ConsultOnLost(turn, error);
      if decided.None? {
        return Ended(Failed(error));
      }
      flow := Resume(turn, error, decided.value);
    }

    /** The next instruction, with the notes that go beside it. */
    method Instruct(relayed: seq<DeliveredNote>, message: string)
      requires TranscriptSound() && NotesSound()
      modifies this`history, transcript
      ensures TranscriptSound() && NotesSound() && AwaitsWorker(history)
      ensures history == old(history) + [Instructed(relayed, message)]
      ensures Relayed(history) == Relayed(old(history)) + relayed
      ensures InstructedBy(old(transcript.messages), transcript.messages, relayed, message)
      ensures CallsOf(history) == CallsOf(old(history))
      ensures AssistantTurns(transcript.messages) == old(AssistantTurns(transcript.messages))
    {
      hide CallsFit, TranscriptFits, AskedFits, NotesFit, Tells, Relaying;
      var e := Instructed(relayed, message);
      NotesKept(world, delivered, taken, interrupted, heard, history, drains, workerCalls, e);
      CallsKept(world, history, e, workerCalls);
      AskedGrows(asked, transcript.messages, MessagesOf(e));
      Append(e);
      RelayingTells(relayed, message);
      transcript.Push(FromUser(Relaying(relayed, message)));
    }

    // -------------------------------------------------------------- after a reply

    /** A reply is on record, and nothing has been made of it yet. */
    ghost predicate InReply(turn: nat)
      reads this, transcript, sink, noop
    {
      && Sound() && Accounted() && Bounded() && !AwaitsWorker(history) && forWorker == []
      && HasReplied() && NothingLost()
      && JudgedFits(world, judgeDecisions, judgeDrains, turn) && turn <= AssistantTurns(transcript.messages)
      && !sink.broke && sink.stage == Replied(turn)
    }

    /** A ruling, acted on. */
    method Act(turn: nat, outcome: SupervisorOutcome) returns (flow: Flow)
      requires Standing() && Accounted() && Bounded() && HasReplied() && NothingLost() && conversation.user.Some?
      requires AssistantTurns(transcript.messages) < Cap() && turn <= AssistantTurns(transcript.messages)
      requires Decided(outcome) && EveryNoteConsidered()
      requires !sink.broke && sink.stage == SupervisorOpen(turn, false)
      modifies this`history, this`forWorker, transcript, sink
      ensures match flow
              case Again => Top() && AssistantTurns(transcript.messages) == old(AssistantTurns(transcript.messages))
              case Ended(ending) => Finished(ending) && history == old(history)
      ensures !sink.broke ==> ActsOn(outcome, flow)
      ensures flow.Again? ==>
                && outcome.Continue? && history == old(history) + [Instructed(old(forWorker), outcome.message)]
                && InstructedBy(old(transcript.messages), transcript.messages, old(forWorker), outcome.message)
    {
      hide InstructedBy, HandedBy, TranscriptFits, CallsFit, AskedFits, ExchangesFit, JudgedFits, SpentFits, IsStreak,
           Settled, AssistantTurns, CallsOf, Relayed, ReachedBy, Walk, Advance, DeliveredTo, Compose, NotesFit,
           HeardFit;
      var stop := CloseSupervisor(turn, outcome, false);
      if stop {
        flow := Stop();
        return;
      }
      match outcome
      case Completed(reason) =>
        flow := Complete(reason);
      case Continue(message, _) =>
        Instruct(forWorker, message);
        forWorker := [];
        assert Relayed(history) + [] == Relayed(history);
        flow := Again;
      case NoInstruction(reason) =>
        flow := Settle(Some(NoNextInstruction(reason)));
      case Unparseable(problem, answer) =>
        flow := Settle(Some(AnswerUnparsed(problem, answer)));
    }

    /** The supervisor's turn, from its opening to what is made of its decision. */
    method Consult(turn: nat, user: SimulatedUser, ghost noteBound: nat) returns (flow: Flow)
      requires conversation.user == Some(user)
      requires forall k :: k >= noteBound ==> world.arrivals(k) == []
      requires InReply(turn) && !WouldSettle() && AssistantTurns(transcript.messages) < Cap()
      modifies this`totals, this`judgeCalls, this`judgeDrains, this`judgeDecisions, this`criteria, this`considered,
               this`delivered, this`forWorker, this`taken, this`interrupted, this`heard, this`drains, this`history,
               transcript, sink
      ensures match flow
              case Again => Top() && AssistantTurns(transcript.messages) == old(AssistantTurns(transcript.messages))
              case Ended(ending) => Finished(ending) && history == old(history)
      ensures judgeCalls > old(judgeCalls) || sink.broke
    {
      hide EveryNoteConsidered, Decided, TranscriptFits, CallsFit, AskedFits, ExchangesFit, JudgedFits, SpentFits,
           IsStreak, Settled, AssistantTurns, CallsOf, Relayed, ReachedBy, Walk, DeliveredTo, Compose, NotesFit,
           HeardFit;
      TranscriptShape(conversation.input, history, transcript.messages);
      var reply := transcript.messages[|transcript.messages| - 1].content;
      var stop := sink.Observe(TurnOpened(turn, User, reply));
      if stop {
        flow := Stop();
        return;
      }
      var ruling := Decide(turn, user, noteBound);
      JudgedLater(world, judgeDecisions, judgeDrains, turn, AssistantTurns(transcript.messages) + 1);
      match ruling
      case Broken =>
        flow := Stop();
      case Fails(error) =>
        flow := Ended(Failed(error));
      case Ruled(outcome) =>
        flow := Act(turn, outcome);
    }

    /** Whether a reply after which there are `turns` is the last whatever else: nobody to ask, the worker
        done, or the cap reached. */
    predicate Capped(done: bool, turns: nat) {
      conversation.user.None? || done || turns >= Cap()
    }

    predicate Ends(done: bool, settles: bool, turns: nat) {
      Capped(done, turns) || settles
    }

    /** Notes that came meanwhile open the next turn; otherwise the supervisor is asked. */
    method Relay(turn: nat, user: SimulatedUser, ghost noteBound: nat) returns (flow: Flow)
      requires conversation.user == Some(user)
      requires forall k :: k >= noteBound ==> world.arrivals(k) == []
      requires InReply(turn) && !WouldSettle() && AssistantTurns(transcript.messages) < Cap()
      modifies this`totals, this`judgeCalls, this`judgeDrains, this`judgeDecisions, this`criteria, this`considered,
               this`delivered, this`forWorker, this`taken, this`interrupted, this`heard, this`drains, this`history,
               transcript, sink
      ensures match flow
              case Again => Top() && AssistantTurns(transcript.messages) == old(AssistantTurns(transcript.messages))
              case Ended(ending) => Finished(ending) && history == old(history)
      ensures if world.arrivals(old(drains)) == [] then judgeCalls > old(judgeCalls) || sink.broke
              else flow == Again && judgeCalls == old(judgeCalls)
                   && history == old(history) + [Handed(DeliveredTo(world.arrivals(old(drains)), Worker))]
    {
      hide InstructedBy, HandedBy, TranscriptFits, CallsFit, AskedFits, ExchangesFit, JudgedFits, SpentFits, IsStreak,
           Settled, AssistantTurns, CallsOf, Relayed, ReachedBy, Walk, Advance, DeliveredTo, Compose, NotesFit,
           HeardFit, NoopSound, HeardSound, RelaySound;
      var arrived := TakeNotes();
      if arrived == [] {
        NoneTaken(world, delivered, taken, interrupted, heard, history, drains - 1, workerCalls);
      } else {
        HandOver(arrived);
        JudgedLater(world, judgeDecisions, judgeDrains, turn, AssistantTurns(transcript.messages) + 1);
        flow := Again;
        return;
      }
      flow := Consult(turn, user, noteBound);
    }

    /** What a reply leads to, in the order the loop looks: the cap and the worker's own word before
        the no-op rule, and that before any note is handed over or the supervisor asked. */
    method Follow(turn: nat, done: bool, settles: bool, ghost noteBound: nat) returns (flow: Flow)
      requires forall k :: k >= noteBound ==> world.arrivals(k) == []
      requires InReply(turn) && settles == WouldSettle() && NoopLast(done)
      modifies this`totals, this`judgeCalls, this`judgeDrains, this`judgeDecisions, this`criteria, this`considered,
               this`delivered, this`forWorker, this`taken, this`interrupted, this`heard, this`drains, this`history,
               transcript, sink
      ensures match flow
              case Again =>
                && Top() && AssistantTurns(transcript.messages) == old(AssistantTurns(transcript.messages))
                && AssistantTurns(transcript.messages) < Cap()
              case Ended(ending) => Finished(ending) && history == old(history)
      ensures Ends(done, settles, old(AssistantTurns(transcript.messages))) ==>
                judgeCalls == old(judgeCalls) && drains == old(drains)
                && Returns(flow, None, if Capped(done, old(AssistantTurns(transcript.messages))) then None
                                       else Some(NoopRepeated))
      ensures !Ends(done, settles, old(AssistantTurns(transcript.messages))) ==>
                if world.arrivals(old(drains)) == [] then judgeCalls > old(judgeCalls) || sink.broke
                else flow == Again && judgeCalls == old(judgeCalls)
                     && history == old(history) + [Handed(DeliveredTo(world.arrivals(old(drains)), Worker))]
    {
      hide TranscriptFits, CallsFit, AskedFits, ExchangesFit, JudgedFits, SpentFits, IsStreak, Settled, AssistantTurns,
           CallsOf, Relayed, ReachedBy, Walk, Advance, DeliveredTo, Compose, NotesFit, HeardFit, NoopSound, HeardSound,
           RelaySound, NotesSound, Top;
      if conversation.user.None? {
        flow := Settle(None);
        return;
      }
      var turns := transcript.Turns();
      if done || turns >= Cap() {
        flow := Settle(None);
        return;
      }
      if settles {
        flow := Settle(Some(NoopRepeated));
        return;
      }
      flow := Relay(turn, conversation.user.value, noteBound);
    }

    // -------------------------------------------------------------- the loop

    /** A worker call that did not reply adds nothing to what the run holds. */
    lemma LostCall()
      requires workerCalls > 0 && |asked| == workerCalls && world.worker(workerCalls - 1).result.Err?
      requires CallsFit(world, history, workerCalls - 1)
      requires ExchangesFit(world, noop.exchanges, asked[..workerCalls - 1])
      requires SpentFits(world, totals, workerCalls - 1, judgeCalls)
      ensures CallsFit(world, history, workerCalls)
      ensures ExchangesFit(world, noop.exchanges, asked)
      ensures SpentFits(world, totals, workerCalls, judgeCalls)
    {
      hide CallsFit, ExchangesFit, SpentFits;
      var opening := asked[workerCalls - 1];
      assert asked[..workerCalls - 1] + [opening] == asked;
      CallsJoined(world, history, workerCalls - 1, []);
      ExchangeJoins(world, noop.exchanges, asked[..workerCalls - 1], opening);
      WorkerSpends(world, totals, workerCalls - 1, judgeCalls);
    }

    /** The last worker call replied, and nothing has been made of it but its redirects. */
    ghost predicate ReplyDue(turn: nat, instruction: string)
      reads this, transcript, sink, noop
    {
      && HasReplied()
      && TranscriptFits(conversation.input, history, transcript.messages) && AwaitsWorker(history)
      && CallsFit(world, history, workerCalls - 1)
      && AskedFits(asked, transcript.messages) && |asked| == workerCalls
      && noop.Valid() && ExchangesFit(world, noop.exchanges, asked[..workerCalls - 1])
      && asked[workerCalls - 1].instruction == instruction
      && SpentFits(world, totals, workerCalls - 1, judgeCalls)
      && RelaySound() && NotesSound() && HeardSound() && forWorker == []
      && turn == AssistantTurns(transcript.messages) + 1
      && JudgedFits(world, judgeDecisions, judgeDrains, turn)
      && (CallsOf(history) == [] ==> turn == 1)
      && (CallsOf(history) != [] ==> |CallsOf(history)| < turn <= Cap())
      && (LossesEnd(world, conversation) ==> workerCalls == |CallsOf(history)| + 1)
      && sink.Valid() && (!sink.broke ==> sink.stage == WorkerOpen(turn)) && !sink.halted
    }

    /** The worker's reply on record: whatever the history was, no more than the cap was bought. */
    method RecordReply(turn: nat, instruction: string, call: WorkerCall)
      returns (stop: bool, settles: bool, panicked: bool)
      requires ReplyDue(turn, instruction) && call == world.worker(workerCalls - 1)
      modifies this`totals, this`history, noop, sink, transcript
      ensures panicked ==> Finished(Panicked)
      ensures !panicked ==>
                && Sound() && Accounted() && Bounded() && !AwaitsWorker(history) && NothingLost()
                && JudgedFits(world, judgeDecisions, judgeDrains, turn)
                && stop == sink.broke && (!stop ==> sink.stage == Replied(turn))
                && settles == WouldSettle() && NoopLast(call.result.value.done)
                && AssistantTurns(transcript.messages) >= turn
    {
      hide TranscriptFits, CallsFit, AskedFits, ExchangesFit, JudgedFits, SpentFits, IsStreak, Settled, AssistantTurns,
           CallsOf, Relayed, ReachedBy, Walk, Advance, DeliveredTo, Compose, NotesFit, HeardFit;
      OneMoreReply(world, history, workerCalls - 1);
      stop, settles, panicked := KeepReply(turn, instruction, call);
      if !panicked {
        JudgedLater(world, judgeDecisions, judgeDrains, turn, AssistantTurns(transcript.messages) + 1);
      }
    }

    method TakeReply(turn: nat, instruction: string, call: WorkerCall, ghost noteBound: nat) returns (flow: Flow)
      requires forall k :: k >= noteBound ==> world.arrivals(k) == []
      requires ReplyDue(turn, instruction) && call == world.worker(workerCalls - 1)
      modifies this`totals, this`judgeCalls, this`judgeDrains, this`judgeDecisions, this`criteria, this`considered,
               this`delivered, this`forWorker, this`taken, this`interrupted, this`heard, this`drains, this`history,
               noop, transcript, sink
      ensures match flow
              case Again =>
                Top() && old(AssistantTurns(transcript.messages)) < AssistantTurns(transcript.messages) < Cap()
              case Ended(ending) => Finished(ending)
    {
      hide Sound, Bounded, Finished, Top, WouldSettle, TranscriptFits, CallsFit, AskedFits, ExchangesFit, JudgedFits,
           SpentFits, AssistantTurns, CallsOf, NotesFit, HeardFit, NotesSound, HeardSound, RelaySound;
      var stop, settles, panicked := RecordReply(turn, instruction, call);
      if panicked {
        return Ended(Panicked);
      }
      if stop {
        flow := Stop();
        return;
      }
      flow := Follow(turn, call.result.value.done, settles, noteBound);
    }

    /** An opened worker turn, and whatever it leads to. */
    method Work(turn: nat, instruction: string, ghost noteBound: nat) returns (flow: Flow)
      requires forall k :: k >= noteBound ==> world.arrivals(k) == []
      requires Standing() && Accounted() && NothingLost() && AwaitsWorker(history) && forWorker == []
      requires turn == AssistantTurns(transcript.messages) + 1
      requires EndsInUser(transcript.messages) && LatestUserMessage(transcript.messages) == Some(instruction)
      requires !sink.broke && sink.stage == WorkerOpen(turn)
      modifies this, noop, transcript, sink
      ensures match flow
              case Again =>
                && Top() && workerCalls == old(workerCalls) + 1
                && (old(AssistantTurns(transcript.messages)) < AssistantTurns(transcript.messages) < Cap()
                    || (AssistantTurns(transcript.messages) == old(AssistantTurns(transcript.messages))
                        && world.worker(old(workerCalls)).result.Err?))
              case Ended(ending) => Finished(ending)
      ensures world.worker(old(workerCalls)).result.Err? ==>
                (flow.Again? <==>
                   !sink.broke && judgeCalls > old(judgeCalls) && Instructs(world.judge(judgeCalls - 1)))
    {
      hide Top, Finished, TranscriptFits, CallsFit, AskedFits, ExchangesFit, JudgedFits, SpentFits, IsStreak,
           Settled, AssistantTurns, CallsOf, Relayed, ReachedBy, Walk, Advance, DeliveredTo, Compose, NotesFit,
           HeardFit, Shows, WorkerTrace;
      StandingBounded();
      ghost var before := asked;
      var call := CallWorker(turn, instruction);
      assert asked[..workerCalls - 1] == before;
      HeardLater(world, heard, workerCalls - 1);
      match call.result
      case Err(error) =>
        LostCall();
        flow := Recover(turn, error);
      case Ok(_) =>
        flow := TakeReply(turn, instruction, call, noteBound);
    }

    /** One round of the loop: a worker turn, and whatever it leads to. */
    method Turn(ghost noteBound: nat) returns (flow: Flow)
      requires forall k :: k >= noteBound ==> world.arrivals(k) == []
      requires Top()
      modifies this, noop, transcript, sink
      ensures match flow
              case Again =>
                && Top() && workerCalls == old(workerCalls) + 1
                && (old(AssistantTurns(transcript.messages)) < AssistantTurns(transcript.messages) < Cap()
                    || (AssistantTurns(transcript.messages) == old(AssistantTurns(transcript.messages))
                        && world.worker(old(workerCalls)).result.Err?))
              case Ended(ending) => Finished(ending)
    {
      hide TranscriptFits, CallsFit, AskedFits, ExchangesFit, JudgedFits, SpentFits, IsStreak, Settled, AssistantTurns,
           CallsOf, Relayed, ReachedBy, Walk, Advance, DeliveredTo, Compose, NotesFit, HeardFit, Shows, WorkerTrace;
      var turn, instruction, stop := OpenWorker();
      if stop {
        StandingBounded();
        flow := Stop();
        return;
      }
      flow := Work(turn, instruction, noteBound);
    }

    /** `drive` */
    method Drive(ghost lostBound: nat, ghost noteBound: nat) returns (ending: Ending)
      requires Top()
      requires forall k :: k >= lostBound ==> world.worker(k).result.Ok?
      requires forall k :: k >= noteBound ==> world.arrivals(k) == []
      modifies this, noop, transcript, sink
      ensures Finished(ending)
    {
      while true
        invariant Top()
        decreases Cap() - AssistantTurns(transcript.messages), lostBound - workerCalls
      {
        var flow := Turn(noteBound);
        if flow.Ended? {
          return flow.ending;
        }
      }
    }
  }

  /** `converse`: one conversation, driven to whatever end it comes to, over a world with finitely
      many lost turns and finitely many notes. */
  method Converse(world: World, settings: Settings, conversation: Conversation, streaming: bool,
                  breaks: seq<Observation> -> bool, ghost lostBound: nat, ghost noteBound: nat)
    returns (engine: Engine, ending: Ending)
    requires forall k :: k >= lostBound ==> world.worker(k).result.Ok?
    requires forall k :: k >= noteBound ==> world.arrivals(k) == []
    ensures fresh(engine) && engine.world == world && engine.conversation == conversation
    ensures engine.settings == settings && engine.sink.breaks == breaks
    ensures engine.Finished(ending)
    ensures forall cap: nat :: InForce(settings, conversation, cap) ==>
              CallsCapped(world, conversation, cap, engine.workerCalls)
    ensures LastCall(world, conversation, engine.workerCalls, engine.judgeCalls, engine.sink.broke)
    ensures TraceFits(breaks, engine.sink.seen, ending) && engine.sink.Valid()
    ensures !ending.Panicked? ==>
              forall cap: nat :: InForce(settings, conversation, cap) ==>
                RunFits(world, conversation, cap, engine.history, engine.transcript.messages, engine.workerCalls)
    ensures !ending.Panicked? ==> OpeningsFit(engine.asked, engine.transcript.messages, engine.delivered,
                                              engine.history, engine.forWorker)
    ensures !ending.Panicked? ==>
              && NotesFit(world, engine.delivered, engine.taken, engine.interrupted, engine.heard, engine.history,
                          engine.drains, engine.workerCalls)
              && HeardFit(world, engine.heard, engine.workerCalls) && |engine.heard| == engine.judgeDrains
              && engine.judgeCalls
                 == engine.judgeDrains + if engine.sink.broke && EndsOpening(engine.sink.seen) then 1 else 0
    ensures !ending.Panicked? ==>
              && Flat(engine.judgeDecisions) == Drained(world, engine.judgeDrains) && Increasing(engine.judgeDecisions)
  {
    hide Engine.Bounded, Engine.OutcomeFits, RunFits, CallsCapped;
    engine := new Engine(world, settings, conversation, streaming, breaks);
    engine.NewAtTop();
    ending := engine.Drive(lostBound, noteBound);
    engine.FinishedCalls(ending);
    if !ending.Panicked? {
      engine.FinishedRun(ending);
    }
  }

  /** A world whose worker loses its first `n` turns, whose judge side has an instruction for every one of
      them, and in which no note arrives. */
  function Relentless(n: nat): World {
    World((k: nat) => WorkerCall([], [], if k < n then Err(ProviderError("worker", "lost", Some("timeout")))
                                         else Ok(AssistantTurn("done", true, None, []))),
          (k: nat) => JudgeCall([], [], Ok(SupervisorTurn(Continue("go on", ""), None)), [], []),
          (k: nat) => [],
          true)
  }

  /** Where there is somebody to ask and a provider that takes lost turns, no cap bounds the worker calls: an
      observer that never breaks sees more of them than any number named beforehand. */
  method LostTurnsUnbounded(n: nat, settings: Settings, conversation: Conversation, streaming: bool)
    returns (engine: Engine, ending: Ending)
    requires conversation.user.Some?
    ensures engine.world == Relentless(n) && engine.settings == settings && engine.conversation == conversation
    ensures engine.Finished(ending) && !engine.sink.broke && engine.workerCalls > n
  {
    hide Engine.Finished, RunFits, OpeningsFit, NotesFit, TraceFits, CallsCapped, HeardFit, Walk, BreakIsFinal;
    engine, ending := Converse(Relentless(n), settings, conversation, streaming, _ => false, n, 0);
  }
}
