/** The history of one run of the turn loop: what was appended to its transcript and why, and the
    folds of it that the engine's fields are. */
module Histories {
  import opened Wrappers
  import opened Text
  import opened Notes
  import opened LiveTurn
  import opened Transcripts
  import opened Noop
  import opened Redirects
  import opened Usages
  import opened Providers

  datatype HarnessEvent = Begun(history: string) | Acted(tool: Option<ToolEvent>, text: string)

  /** One worker call: what it reports while it runs, the redirects its watch confirmed, and what
      it returns. */
  datatype WorkerCall = WorkerCall(events: seq<HarnessEvent>, redirects: seq<Redirect>,
                                   result: Result<AssistantTurn, ProviderError>)

  /** One supervisor call, and what is drained from the provider after it. */
  datatype JudgeCall = JudgeCall(openings: seq<string>, redirects: seq<Redirect>,
                                 result: Result<SupervisorTurn, ProviderError>,
                                 decisions: seq<JudgeDecision>, tools: seq<JudgeTools>)

  /** Everything outside the loop: what each call of each party does, what each look at the inbox
      finds, and whether the judge side takes lost turns. */
  datatype World = World(
    worker: nat -> WorkerCall,
    judge: nat -> JudgeCall,
    arrivals: nat -> seq<Note>,
    supervisesLostTurns: bool)

  /** One thing the loop appended: notes handed to the worker between turns, a reply with the turns
      its call really was, or the supervisor's instruction with the notes relayed beside it. */
  datatype Entry =
    | Handed(notes: seq<DeliveredNote>)
    | Answered(call: nat, turns: seq<Message>)
    | Instructed(relayed: seq<DeliveredNote>, message: string)

  /** One worker call's opening: the transcript it was handed, the instruction it is measured on,
      and the supervisor's notes still owed to it. */
  datatype Asked = Asked(messages: seq<Message>, instruction: string, owed: seq<DeliveredNote>)

  function Relaying(relayed: seq<DeliveredNote>, message: string): string {
    if relayed == [] then message else WorkerBlock(relayed) + "\n" + message
  }

  function MessagesOf(e: Entry): seq<Message> {
    match e
    case Handed(notes) => [FromUser(WorkerBlock(notes))]
    case Answered(_, turns) => turns
    case Instructed(relayed, message) => [FromUser(Relaying(relayed, message))]
  }

  function Rendered(history: seq<Entry>): seq<Message> {
    if history == [] then [] else Rendered(history[..|history| - 1]) + MessagesOf(history[|history| - 1])
  }

  /** An instruction as the worker reads it: the supervisor's words end it verbatim, and are all of it unless
      notes go beside them; before them stands every one of those. */
  ghost predicate Tells(content: string, relayed: seq<DeliveredNote>, message: string) {
    exists block :: content == block + message && HoldsNotes(block, relayed) && (relayed == [] ==> block == "")
  }

  /** What an entry is as messages, however they are put together: one user message that holds the notes
      handed, the turns of a reply, or one user message that tells the instruction. */
  ghost predicate Reads(e: Entry, messages: seq<Message>) {
    match e
    case Handed(notes) => |messages| == 1 && messages[0].role == User && HoldsNotes(messages[0].content, notes)
    case Answered(_, turns) => messages == turns
    case Instructed(relayed, message) =>
      |messages| == 1 && messages[0].role == User && Tells(messages[0].content, relayed, message)
  }

  /** `messages` is what the entries of the history are, one after another. */
  ghost predicate Recounts(history: seq<Entry>, messages: seq<Message>)
    decreases |history|
  {
    if history == [] then messages == []
    else
      exists n :: 0 <= n <= |messages| && Recounts(history[..|history| - 1], messages[..n])
                  && Reads(history[|history| - 1], messages[n..])
  }

  lemma RelayingTells(relayed: seq<DeliveredNote>, message: string)
    ensures Tells(Relaying(relayed, message), relayed, message)
  {
    hide HoldsNotes, WorkerBlock;
    if relayed == [] {
      assert Relaying(relayed, message) == "" + message;
      NothingToHold("");
    } else {
      var block := WorkerBlock(relayed);
      BlockHolds(relayed);
      BlockHoldsMore(block, relayed, "\n");
      assert Relaying(relayed, message) == (block + "\n") + message;
    }
  }

  lemma NothingToHold(text: string)
    ensures HoldsNotes(text, [])
  {
  }

  lemma BlockHoldsMore(text: string, notes: seq<DeliveredNote>, more: string)
    requires HoldsNotes(text, notes)
    ensures HoldsNotes(text + more, notes)
  {
    hide HoldsInOrder;
    HoldsMore(text, TextsFor(notes, true) + TextsFor(notes, false), more);
  }

  lemma EntryReads(e: Entry)
    ensures Reads(e, MessagesOf(e))
  {
    hide HoldsNotes, Tells, WorkerBlock, Relaying;
    match e
    case Handed(notes) => BlockHolds(notes);
    case Answered(_, _) =>
    case Instructed(relayed, message) => RelayingTells(relayed, message);
  }

  lemma {:induction false} RenderedRecounts(history: seq<Entry>)
    ensures Recounts(history, Rendered(history))
  {
    hide Reads, MessagesOf;
    if history != [] {
      var most, last := history[..|history| - 1], history[|history| - 1];
      RenderedRecounts(most);
      EntryReads(last);
      var n := |Rendered(most)|;
      assert Rendered(history)[..n] == Rendered(most) && Rendered(history)[n..] == MessagesOf(last);
    }
  }

  function CallsOf(history: seq<Entry>): seq<nat> {
    if history == [] then []
    else CallsOf(history[..|history| - 1])
         + if history[|history| - 1].Answered? then [history[|history| - 1].call] else []
  }

  function Relayed(history: seq<Entry>): seq<DeliveredNote> {
    if history == [] then []
    else Relayed(history[..|history| - 1])
         + if history[|history| - 1].Instructed? then history[|history| - 1].relayed else []
  }

  /** The notes handed to the worker as messages of their own. */
  function Given(history: seq<Entry>): seq<DeliveredNote> {
    if history == [] then []
    else Given(history[..|history| - 1])
         + if history[|history| - 1].Handed? then history[|history| - 1].notes else []
  }

  lemma Snoc(history: seq<Entry>, e: Entry)
    ensures Rendered(history + [e]) == Rendered(history) + MessagesOf(e)
    ensures CallsOf(history + [e]) == CallsOf(history) + if e.Answered? then [e.call] else []
    ensures Relayed(history + [e]) == Relayed(history) + if e.Instructed? then e.relayed else []
    ensures Given(history + [e]) == Given(history) + if e.Handed? then e.notes else []
  {
    assert (history + [e])[..|history|] == history;
  }

  // ---------------------------------------------------------------- the world's own account

  /** The first `n` worker calls that replied. */
  function Replies(world: World, n: nat): seq<nat> {
    if n == 0 then [] else Replies(world, n - 1) + if world.worker(n - 1).result.Ok? then [n - 1] else []
  }

  /** How many of them did not. */
  function Losses(world: World, n: nat): nat {
    if n == 0 then 0 else Losses(world, n - 1) + if world.worker(n - 1).result.Err? then 1 else 0
  }

  /** A call replies or is lost. */
  lemma {:induction false} RepliedOrLost(world: World, n: nat)
    ensures |Replies(world, n)| + Losses(world, n) == n
  {
    if n > 0 {
      RepliedOrLost(world, n - 1);
    }
  }

  function WorkerUsage(world: World, n: nat): seq<Option<Usage>> {
    if n == 0 then []
    else WorkerUsage(world, n - 1)
         + match world.worker(n - 1).result case Ok(turn) => [turn.usage] case Err(_) => []
  }

  function JudgeUsage(world: World, n: nat): seq<Option<Usage>> {
    if n == 0 then []
    else JudgeUsage(world, n - 1)
         + match world.judge(n - 1).result case Ok(turn) => [turn.usage] case Err(_) => []
  }

  function Drained(world: World, n: nat): seq<JudgeDecision> {
    if n == 0 then [] else Drained(world, n - 1) + world.judge(n - 1).decisions
  }

  // ---------------------------------------------------------------- transcript

  predicate ReplyShape(turns: seq<Message>) {
    && turns != [] && turns[0].role == Assistant && turns[|turns| - 1].role == Assistant
    && Alternates(turns) && AssistantTurns(turns) >= 1
  }

  predicate WellFormed(history: seq<Entry>) {
    && (forall i :: 0 <= i < |history| && history[i].Answered? ==> ReplyShape(history[i].turns))
    && (forall i :: 0 < i < |history| ==> !(history[i - 1].Answered? && history[i].Answered?))
  }

  predicate AwaitsWorker(history: seq<Entry>) {
    history == [] || !history[|history| - 1].Answered?
  }

  /** The transcript is the input and then, in order, what the history says was appended. */
  predicate TranscriptFits(input: string, history: seq<Entry>, messages: seq<Message>) {
    WellFormed(history) && messages == [FromUser(input)] + Rendered(history)
  }

  /** What the rendering of a well-formed history is. */
  predicate EndsWell(input: string, history: seq<Entry>, messages: seq<Message>) {
    && messages != [] && Alternates(messages) && messages[0] == FromUser(input)
    && messages[|messages| - 1].role == if AwaitsWorker(history) then User else Assistant
  }

  lemma {:induction false} RenderedEnds(input: string, history: seq<Entry>)
    requires WellFormed(history)
    ensures EndsWell(input, history, [FromUser(input)] + Rendered(history))
  {
    hide WellFormed, EndsWell, MessagesOf;
    if history == [] {
      assert [FromUser(input)] + [] == [FromUser(input)];
      InputEndsWell(input);
    } else {
      var most, last := history[..|history| - 1], history[|history| - 1];
      LastWellFormed(history);
      RenderedEnds(input, most);
      EndsOn(input, most, last, [FromUser(input)] + Rendered(most));
      assert most + [last] == history;
      assert [FromUser(input)] + Rendered(history) == [FromUser(input)] + Rendered(most) + MessagesOf(last);
    }
  }

  lemma InputEndsWell(input: string)
    ensures EndsWell(input, [], [FromUser(input)])
  {
  }

  lemma LastWellFormed(history: seq<Entry>)
    requires WellFormed(history) && history != []
    ensures var most, last := history[..|history| - 1], history[|history| - 1];
            && WellFormed(most)
            && (last.Answered? ==> ReplyShape(last.turns) && AwaitsWorker(most))
  {
    hide ReplyShape;
  }

  lemma EndsOn(input: string, history: seq<Entry>, e: Entry, messages: seq<Message>)
    requires EndsWell(input, history, messages)
    requires e.Answered? ==> ReplyShape(e.turns) && AwaitsWorker(history)
    ensures EndsWell(input, history + [e], messages + MessagesOf(e))
  {
    hide Alternates, ReplyShape, MessagesOf;
    LastRole(e);
    Lengthened(messages, MessagesOf(e));
  }

  lemma LastRole(e: Entry)
    requires e.Answered? ==> ReplyShape(e.turns)
    ensures var more := MessagesOf(e);
            && more != [] && Alternates(more)
            && more[0].role == more[|more| - 1].role == if e.Answered? then Assistant else User
  {
  }

  lemma Lengthened(before: seq<Message>, more: seq<Message>)
    requires before != [] && more != [] && Alternates(before) && Alternates(more)
    requires before[|before| - 1].role == User || more[0].role == User
    ensures var all := before + more;
            Alternates(all) && all[0] == before[0] && all[|all| - 1] == more[|more| - 1]
  {
    AlternatesConcat(before, more);
  }

  /** A transcript that fits opens with the input, never has one assistant message answer another,
      and ends in a user message exactly when the worker is to be called. */
  lemma TranscriptShape(input: string, history: seq<Entry>, messages: seq<Message>)
    requires TranscriptFits(input, history, messages)
    ensures messages != [] && messages[0] == FromUser(input) && Alternates(messages)
    ensures EndsInUser(messages) <==> AwaitsWorker(history)
  {
    RenderedEnds(input, history);
  }

  lemma StaysWellFormed(history: seq<Entry>, e: Entry)
    requires WellFormed(history) && (e.Answered? ==> AwaitsWorker(history) && ReplyShape(e.turns))
    ensures WellFormed(history + [e])
  {
    hide ReplyShape;
  }

  /** Appending what an entry says keeps the transcript fitting. */
  lemma Appends(input: string, history: seq<Entry>, messages: seq<Message>, e: Entry)
    requires TranscriptFits(input, history, messages)
    requires e.Answered? ==> AwaitsWorker(history) && ReplyShape(e.turns)
    ensures TranscriptFits(input, history + [e], messages + MessagesOf(e))
  {
    hide WellFormed, MessagesOf, ReplyShape;
    StaysWellFormed(history, e);
    Snoc(history, e);
    assert [FromUser(input)] + (Rendered(history) + MessagesOf(e)) == messages + MessagesOf(e);
  }

  lemma AppendsTurns(messages: seq<Message>, e: Entry)
    ensures AssistantTurns(messages + MessagesOf(e))
            == AssistantTurns(messages) + if e.Answered? then AssistantTurns(e.turns) else 0
  {
    TurnsConcat(messages, MessagesOf(e));
    if !e.Answered? { FirstOne(MessagesOf(e)[0]); }
  }

  /** What a worker call that replied appends. */
  predicate AnsweredFrom(world: World, e: Entry)
    requires e.Answered?
  {
    var call := world.worker(e.call);
    && call.result.Ok?
    && Appended(call.redirects, 0, 0, call.result.value.message, call.result.value.events) == Some(e.turns)
  }

  /** It is one assistant message for the reply and one for each redirect. */
  lemma AnswerShape(world: World, e: Entry)
    requires e.Answered? && AnsweredFrom(world, e)
    ensures ReplyShape(e.turns) && AssistantTurns(e.turns) == |world.worker(e.call).redirects| + 1
    ensures EventsOf(e.turns) == world.worker(e.call).result.value.events
  {
    var call := world.worker(e.call);
    var message, events := call.result.value.message, call.result.value.events;
    AppendedIsCut(call.redirects, 0, 0, message, events);
    var cuts := Cuts(call.redirects, 0, |events|).value;
    TurnsShape(call.redirects, cuts, 0, 0, message, events);
    TurnsKeepEvents(call.redirects, cuts, 0, 0, message, events);
  }

  /** Every reply of the first `calls` worker calls is in the history, in call order, and nothing
      else is there as one. */
  predicate CallsFit(world: World, history: seq<Entry>, calls: nat) {
    && CallsOf(history) == Replies(world, calls)
    && forall i :: 0 <= i < |history| && history[i].Answered? ==> AnsweredFrom(world, history[i])
  }

  lemma CallsKept(world: World, history: seq<Entry>, e: Entry, calls: nat)
    requires CallsFit(world, history, calls) && !e.Answered?
    ensures CallsFit(world, history + [e], calls)
  {
    Snoc(history, e);
  }

  /** A call that replied joins the history as the turns it was; one that did not, does not. */
  lemma CallsJoined(world: World, history: seq<Entry>, calls: nat, turns: seq<Message>)
    requires CallsFit(world, history, calls)
    ensures world.worker(calls).result.Err? ==> CallsFit(world, history, calls + 1)
    ensures AnsweredFrom(world, Answered(calls, turns)) ==>
              CallsFit(world, history + [Answered(calls, turns)], calls + 1)
  {
    Snoc(history, Answered(calls, turns));
    assert CallsOf(history) + [] == CallsOf(history);
  }

  /** The next call buys at most one reply more. */
  lemma OneMoreReply(world: World, history: seq<Entry>, calls: nat)
    requires CallsFit(world, history, calls)
    ensures |Replies(world, calls + 1)| <= |CallsOf(history)| + 1
  {
  }

  /** Every reply is at least one assistant message, and only replies are. */
  lemma {:induction false} RepliesCount(input: string, history: seq<Entry>)
    requires WellFormed(history)
    ensures var turns := AssistantTurns([FromUser(input)] + Rendered(history));
            turns >= |CallsOf(history)| && (CallsOf(history) == [] ==> turns == 0)
  {
    hide AssistantTurns, Alternates;
    if history == [] {
      assert [FromUser(input)] + [] == [FromUser(input)];
      FirstOne(FromUser(input));
    } else {
      var most, last := history[..|history| - 1], history[|history| - 1];
      RepliesCount(input, most);
      OneMoreCounts(input, most, last);
      assert most + [last] == history;
    }
  }

  lemma OneMoreCounts(input: string, history: seq<Entry>, e: Entry)
    ensures AssistantTurns([FromUser(input)] + Rendered(history + [e]))
            == AssistantTurns([FromUser(input)] + Rendered(history))
               + if e.Answered? then AssistantTurns(e.turns) else 0
  {
    hide AssistantTurns, MessagesOf;
    var messages := [FromUser(input)] + Rendered(history);
    AppendsTurns(messages, e);
    Snoc(history, e);
    assert [FromUser(input)] + Rendered(history + [e]) == messages + MessagesOf(e);
  }

  // ---------------------------------------------------------------- openings

  /** Every worker call was handed a prefix of the transcript that ends in the instruction it is
      measured on, with no note of the supervisor's still owed to it. */
  predicate AskedFits(asked: seq<Asked>, messages: seq<Message>) {
    forall i :: 0 <= i < |asked| ==>
      && asked[i].messages <= messages
      && EndsInUser(asked[i].messages)
      && LatestUserMessage(asked[i].messages) == Some(asked[i].instruction)
      && asked[i].owed == []
  }

  lemma AskedGrows(asked: seq<Asked>, messages: seq<Message>, more: seq<Message>)
    requires AskedFits(asked, messages)
    ensures AskedFits(asked, messages + more)
  {
  }

  lemma AskedOpens(asked: seq<Asked>, messages: seq<Message>, instruction: string)
    requires AskedFits(asked, messages)
    requires EndsInUser(messages) && LatestUserMessage(messages) == Some(instruction)
    ensures AskedFits(asked + [Asked(messages, instruction, [])], messages)
  {
  }

  /** Exchange by exchange, what the no-op streak was shown is what the calls that replied were
      asked and gave. */
  predicate ExchangesFit(world: World, exchanges: seq<Exchange>, asked: seq<Asked>) {
    && |exchanges| == |Replies(world, |asked|)|
    && forall i :: 0 <= i < |exchanges| ==>
         var k := Replies(world, |asked|)[i];
         && k < |asked| && world.worker(k).result.Ok?
         && var turn := world.worker(k).result.value;
            exchanges[i] == Exchange(asked[k].instruction, turn.message, turn.events, turn.done)
  }

  lemma ExchangeJoins(world: World, exchanges: seq<Exchange>, asked: seq<Asked>, opening: Asked)
    requires ExchangesFit(world, exchanges, asked)
    ensures match world.worker(|asked|).result
            case Err(_) => ExchangesFit(world, exchanges, asked + [opening])
            case Ok(turn) =>
              ExchangesFit(world, exchanges + [Exchange(opening.instruction, turn.message, turn.events, turn.done)],
                           asked + [opening])
  {
    var k := |asked|;
    var replies := Replies(world, k + 1);
    forall i | 0 <= i < |exchanges| ensures replies[i] == Replies(world, k)[i] < k {}
  }

  // ---------------------------------------------------------------- notes

  /** Everything the first `n` looks at the inbox found. */
  function Arrived(world: World, n: nat): seq<Note> {
    if n == 0 then [] else Arrived(world, n - 1) + world.arrivals(n - 1)
  }

  /** Everything the watch confirmed into the first `n` worker calls, replied or lost. */
  function WorkerRedirects(world: World, n: nat): seq<DeliveredNote> {
    if n == 0 then [] else WorkerRedirects(world, n - 1) + DeliveredTo(NotesOf(world.worker(n - 1).redirects), Worker)
  }

  /** What the watch of the `k`-th judge call confirmed into it, when it was about worker call `about`: a
      turn the worker lost is judged without a watch. */
  function HeardOn(world: World, k: nat, about: nat): seq<DeliveredNote> {
    if world.worker(about).result.Err? then [] else DeliveredTo(NotesOf(world.judge(k).redirects), Supervisor)
  }

  /** Everything the watch confirmed into the judge calls that were heard out, each about the worker call
      named for it. */
  function JudgeRedirects(world: World, heard: seq<nat>): seq<DeliveredNote> {
    if heard == [] then []
    else JudgeRedirects(world, heard[..|heard| - 1]) + HeardOn(world, |heard| - 1, heard[|heard| - 1])
  }

  /** The judge is asked about one worker call after another, however often about one that replied and at
      most once about one that was lost. */
  predicate HeardFit(world: World, heard: seq<nat>, workerCalls: nat) {
    && (forall k :: 0 <= k < |heard| ==> heard[k] < workerCalls)
    && forall j, k :: 0 <= j < k < |heard| ==>
         heard[j] < heard[k] || (heard[j] == heard[k] && world.worker(heard[j]).result.Ok?)
  }

  lemma HeardLater(world: World, heard: seq<nat>, workerCalls: nat)
    requires HeardFit(world, heard, workerCalls)
    ensures HeardFit(world, heard, workerCalls + 1)
    ensures HeardFit(world, heard + [workerCalls], workerCalls + 1)
  {
  }

  lemma HeardAgain(world: World, heard: seq<nat>, workerCalls: nat)
    requires HeardFit(world, heard, workerCalls) && workerCalls > 0 && world.worker(workerCalls - 1).result.Ok?
    ensures HeardFit(world, heard + [workerCalls - 1], workerCalls)
  {
  }

  function NotesIn(delivered: seq<DeliveredNote>): seq<Note> {
    if delivered == [] then [] else NotesIn(delivered[..|delivered| - 1]) + [delivered[|delivered| - 1].note]
  }

  /** `all` is `a` and `b` interleaved, each in its own order. */
  predicate Interleaves(all: seq<DeliveredNote>, a: seq<DeliveredNote>, b: seq<DeliveredNote>)
    decreases |all|
  {
    var n := |all| - 1;
    if all == [] then a == [] && b == []
    else
      || (a != [] && a[|a| - 1] == all[n] && Interleaves(all[..n], a[..|a| - 1], b))
      || (b != [] && b[|b| - 1] == all[n] && Interleaves(all[..n], a, b[..|b| - 1]))
  }

  /** The record is the inbox's notes and the watches', interleaved, and nothing else: all that was
      taken from the inbox, in order, the worker's share of it in the history; and all that was
      confirmed into a worker call, or into a judge call that was heard out. */
  predicate NotesFit(world: World, delivered: seq<DeliveredNote>, taken: seq<DeliveredNote>,
                     interrupted: seq<DeliveredNote>, heard: seq<nat>, history: seq<Entry>, drains: nat,
                     workerCalls: nat) {
    && Interleaves(delivered, taken, interrupted)
    && NotesIn(taken) == Arrived(world, drains)
    && ReachedBy(taken, Worker) == Given(history)
    && ReachedBy(interrupted, Worker) == WorkerRedirects(world, workerCalls)
    && ReachedBy(interrupted, Supervisor) == JudgeRedirects(world, heard)
  }

  lemma {:induction false} InterleavesMore(all: seq<DeliveredNote>, a: seq<DeliveredNote>, b: seq<DeliveredNote>,
                                           more: seq<DeliveredNote>)
    requires Interleaves(all, a, b)
    ensures Interleaves(all + more, a + more, b) && Interleaves(all + more, a, b + more)
  {
    if more == [] {
      assert all + more == all && a + more == a && b + more == b;
    } else {
      var n := |more| - 1;
      InterleavesMore(all, a, b, more[..n]);
      assert (all + more)[..|all + more| - 1] == all + more[..n];
      assert (a + more)[..|a + more| - 1] == a + more[..n];
      assert (b + more)[..|b + more| - 1] == b + more[..n];
    }
  }

  lemma OneMoreDelivered(delivered: seq<DeliveredNote>, one: DeliveredNote, party: Party)
    ensures ReachedBy(delivered + [one], party)
            == ReachedBy(delivered, party) + if one.deliveredTo == party then [one] else []
    ensures NotesIn(delivered + [one]) == NotesIn(delivered) + [one.note]
  {
    assert (delivered + [one])[..|delivered|] == delivered;
  }

  /** Handing `notes` to one party leaves the other's as it was. */
  lemma {:induction false} ReachedByMore(delivered: seq<DeliveredNote>, notes: seq<Note>, party: Party, other: Party)
    ensures ReachedBy(delivered + DeliveredTo(notes, party), other)
            == ReachedBy(delivered, other) + if other == party then DeliveredTo(notes, party) else []
    ensures NotesIn(delivered + DeliveredTo(notes, party)) == NotesIn(delivered) + notes
  {
    hide ReachedBy, NotesIn;
    var more := DeliveredTo(notes, party);
    if notes == [] {
      assert delivered + more == delivered;
    } else {
      var n := |notes| - 1;
      ReachedByMore(delivered, notes[..n], party, other);
      OneMoreDelivered(delivered + DeliveredTo(notes[..n], party), more[n], other);
      assert delivered + more == delivered + DeliveredTo(notes[..n], party) + [more[n]];
      assert notes == notes[..n] + [notes[n]] && more == DeliveredTo(notes[..n], party) + [more[n]];
    }
  }

  /** Notes taken from the inbox and handed on. */
  lemma NotesTaken(world: World, delivered: seq<DeliveredNote>, taken: seq<DeliveredNote>,
                   interrupted: seq<DeliveredNote>, heard: seq<nat>, history: seq<Entry>, drains: nat,
                   workerCalls: nat, party: Party)
    requires NotesFit(world, delivered, taken, interrupted, heard, history, drains, workerCalls)
    ensures var more := DeliveredTo(world.arrivals(drains), party);
            NotesFit(world, delivered + more, taken + more, interrupted, heard,
                     if party == Worker then history + [Handed(more)] else history, drains + 1, workerCalls)
  {
    hide Interleaves, ReachedBy, NotesIn, JudgeRedirects;
    var more := DeliveredTo(world.arrivals(drains), party);
    InterleavesMore(delivered, taken, interrupted, more);
    ReachedByMore(taken, world.arrivals(drains), party, Worker);
    Snoc(history, Handed(more));
    assert Given(history) + [] == Given(history);
  }

  lemma NoneTaken(world: World, delivered: seq<DeliveredNote>, taken: seq<DeliveredNote>,
                  interrupted: seq<DeliveredNote>, heard: seq<nat>, history: seq<Entry>, drains: nat, workerCalls: nat)
    requires NotesFit(world, delivered, taken, interrupted, heard, history, drains, workerCalls)
    requires world.arrivals(drains) == []
    ensures NotesFit(world, delivered, taken, interrupted, heard, history, drains + 1, workerCalls)
  {
    hide Interleaves, ReachedBy, NotesIn, JudgeRedirects;
    assert Arrived(world, drains) + [] == Arrived(world, drains);
  }

  /** Notes a watch confirmed into the next worker call. */
  lemma NotesInterrupt(world: World, delivered: seq<DeliveredNote>, taken: seq<DeliveredNote>,
                       interrupted: seq<DeliveredNote>, heard: seq<nat>, history: seq<Entry>, drains: nat,
                       workerCalls: nat)
    requires NotesFit(world, delivered, taken, interrupted, heard, history, drains, workerCalls)
    ensures var more := DeliveredTo(NotesOf(world.worker(workerCalls).redirects), Worker);
            NotesFit(world, delivered + more, taken, interrupted + more, heard, history, drains, workerCalls + 1)
  {
    hide Interleaves, ReachedBy, NotesIn, JudgeRedirects;
    var redirects := NotesOf(world.worker(workerCalls).redirects);
    InterleavesMore(delivered, taken, interrupted, DeliveredTo(redirects, Worker));
    ReachedByMore(interrupted, redirects, Worker, Worker);
    ReachedByMore(interrupted, redirects, Worker, Supervisor);
    assert ReachedBy(interrupted, Supervisor) + [] == ReachedBy(interrupted, Supervisor);
  }

  /** Notes a watch confirmed into the next judge call to be heard out, about worker call `about`. */
  lemma NotesHeard(world: World, delivered: seq<DeliveredNote>, taken: seq<DeliveredNote>,
                   interrupted: seq<DeliveredNote>, heard: seq<nat>, history: seq<Entry>, drains: nat,
                   workerCalls: nat, about: nat)
    requires NotesFit(world, delivered, taken, interrupted, heard, history, drains, workerCalls)
    ensures var more := HeardOn(world, |heard|, about);
            NotesFit(world, delivered + more, taken, interrupted + more, heard + [about], history, drains, workerCalls)
  {
    hide Interleaves, ReachedBy, NotesIn;
    assert (heard + [about])[..|heard|] == heard;
    var notes := if world.worker(about).result.Err? then [] else NotesOf(world.judge(|heard|).redirects);
    InterleavesMore(delivered, taken, interrupted, DeliveredTo(notes, Supervisor));
    ReachedByMore(interrupted, notes, Supervisor, Worker);
    ReachedByMore(interrupted, notes, Supervisor, Supervisor);
    assert ReachedBy(interrupted, Worker) + [] == ReachedBy(interrupted, Worker);
  }

  lemma NotesKept(world: World, delivered: seq<DeliveredNote>, taken: seq<DeliveredNote>,
                  interrupted: seq<DeliveredNote>, heard: seq<nat>, history: seq<Entry>, drains: nat,
                  workerCalls: nat, e: Entry)
    requires NotesFit(world, delivered, taken, interrupted, heard, history, drains, workerCalls) && !e.Handed?
    ensures NotesFit(world, delivered, taken, interrupted, heard, history + [e], drains, workerCalls)
  {
    hide Interleaves, ReachedBy, NotesIn, JudgeRedirects;
    Snoc(history, e);
    assert Given(history) + [] == Given(history);
  }

  // ---------------------------------------------------------------- judges

  function Flat(turns: seq<JudgedTurn>): seq<JudgeDecision> {
    if turns == [] then [] else Flat(turns[..|turns| - 1]) + turns[|turns| - 1].decisions
  }

  predicate Increasing(turns: seq<JudgedTurn>) {
    forall i, j :: 0 <= i < j < |turns| ==> turns[i].turn < turns[j].turn
  }

  /** The record of judged turns is every decision drained so far, in order, under strictly
      increasing turn numbers none past `turn`. */
  predicate JudgedFits(world: World, turns: seq<JudgedTurn>, drains: nat, turn: nat) {
    && Flat(turns) == Drained(world, drains)
    && Increasing(turns)
    && (turns != [] ==> turns[|turns| - 1].turn <= turn)
  }

  /** engine.rs `record_judge_decisions`: a decision re-taken on a turn joins that turn's entry. */
  function Judging(turns: seq<JudgedTurn>, turn: nat, decided: seq<JudgeDecision>): seq<JudgedTurn> {
    if decided == [] then turns
    else if turns != [] && turns[|turns| - 1].turn == turn
    then turns[..|turns| - 1] + [JudgedTurn(turn, turns[|turns| - 1].decisions + decided)]
    else turns + [JudgedTurn(turn, decided)]
  }

  lemma JudgedLater(world: World, turns: seq<JudgedTurn>, drains: nat, turn: nat, later: nat)
    requires JudgedFits(world, turns, drains, turn) && turn <= later
    ensures JudgedFits(world, turns, drains, later)
  {
  }

  lemma JudgingFits(world: World, turns: seq<JudgedTurn>, drains: nat, turn: nat)
    requires JudgedFits(world, turns, drains, turn)
    ensures JudgedFits(world, Judging(turns, turn, world.judge(drains).decisions), drains + 1, turn)
  {
    var decided := world.judge(drains).decisions;
    var turns' := Judging(turns, turn, decided);
    if decided == [] {
      assert Drained(world, drains) + decided == Drained(world, drains);
    } else if turns != [] && turns[|turns| - 1].turn == turn {
      assert turns'[..|turns'| - 1] == turns[..|turns| - 1];
    } else {
      assert turns'[..|turns'| - 1] == turns;
    }
  }

  // ---------------------------------------------------------------- accounts

  /** Everything both parties reported, whoever came first. */
  predicate SpentFits(world: World, total: Usage, workerCalls: nat, judgeCalls: nat) {
    total == Plus(Total(WorkerUsage(world, workerCalls)), Total(JudgeUsage(world, judgeCalls)))
  }

  lemma TotalSnoc(calls: seq<Option<Usage>>, more: Option<Usage>)
    ensures Total(calls + [more]) == PlusReported(Total(calls), more)
  {
    assert (calls + [more])[..|calls|] == calls;
  }

  lemma WorkerSpends(world: World, total: Usage, workerCalls: nat, judgeCalls: nat)
    requires SpentFits(world, total, workerCalls, judgeCalls)
    ensures match world.worker(workerCalls).result
            case Ok(turn) => SpentFits(world, PlusReported(total, turn.usage), workerCalls + 1, judgeCalls)
            case Err(_) => SpentFits(world, total, workerCalls + 1, judgeCalls)
  {
    var w, j := WorkerUsage(world, workerCalls), Total(JudgeUsage(world, judgeCalls));
    match world.worker(workerCalls).result
    case Ok(turn) =>
      TotalSnoc(w, turn.usage);
      if turn.usage.Some? {
        PlusLaws(Total(w), j, turn.usage.value);
        PlusLaws(Total(w), turn.usage.value, j);
        PlusLaws(j, turn.usage.value, NONE);
      }
    case Err(_) => assert w + [] == w;
  }

  lemma JudgeSpends(world: World, total: Usage, workerCalls: nat, judgeCalls: nat)
    requires SpentFits(world, total, workerCalls, judgeCalls)
    ensures match world.judge(judgeCalls).result
            case Ok(turn) => SpentFits(world, PlusReported(total, turn.usage), workerCalls, judgeCalls + 1)
            case Err(_) => SpentFits(world, total, workerCalls, judgeCalls + 1)
  {
    var w, j := Total(WorkerUsage(world, workerCalls)), JudgeUsage(world, judgeCalls);
    match world.judge(judgeCalls).result
    case Ok(turn) =>
      TotalSnoc(j, turn.usage);
      if turn.usage.Some? { PlusLaws(w, Total(j), turn.usage.value); }
    case Err(_) => assert j + [] == j;
  }

  /** Before anything has happened every account is of nothing. */
  lemma Beginning(world: World, input: string)
    ensures TranscriptFits(input, [], [FromUser(input)]) && CallsFit(world, [], 0)
    ensures AskedFits([], [FromUser(input)]) && ExchangesFit(world, [], []) && JudgedFits(world, [], 0, 1)
    ensures NotesFit(world, [], [], [], [], [], 0, 0) && SpentFits(world, NONE, 0, 0)
    ensures ReachedBy([], Supervisor) == Relayed([]) + [] && AwaitsWorker([]) && CallsOf([]) == []
    ensures AssistantTurns([FromUser(input)]) == 0
  {
    hide TranscriptFits, CallsFit, ExchangesFit, JudgedFits, NotesFit, SpentFits;
    InputOnly(input);
    NoCalls(world);
    NoNotes(world);
  }

  lemma InputOnly(input: string)
    ensures TranscriptFits(input, [], [FromUser(input)]) && AssistantTurns([FromUser(input)]) == 0
  {
    assert [FromUser(input)] + [] == [FromUser(input)];
    FirstOne(FromUser(input));
  }

  lemma NoCalls(world: World)
    ensures CallsFit(world, [], 0) && ExchangesFit(world, [], []) && JudgedFits(world, [], 0, 1)
    ensures SpentFits(world, NONE, 0, 0)
  {
    PlusLaws(NONE, NONE, NONE);
  }

  lemma NoNotes(world: World)
    ensures NotesFit(world, [], [], [], [], [], 0, 0)
  {
  }
}
