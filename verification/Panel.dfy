/** A list of judges as one judge (panel.rs): how their answers combine, and what is recorded of
    each. */
module Panel {
  import opened Wrappers
  import opened Picking
  import opened Text
  import opened Transcripts
  import opened Usages
  import opened Providers

  datatype Judge = Judge(name: string, kind: string, numeric: bool)

  /** One judge's answer to a call, by its place in the list. */
  datatype Heard<T> = Heard(judge: nat, result: Result<T, ProviderError>)

  // ---------------------------------------------------------------- which decision wins

  function Rank(d: Decision): nat {
    match d
    case Done => 0
    case Unparsed => 1
    case Uninstructed => 2
    case Continued => 3
    case Errored => 4
  }

  function KindOf(outcome: SupervisorOutcome): Decision {
    match outcome
    case Completed(_) => Done
    case Continue(_, _) => Continued
    case NoInstruction(_) => Uninstructed
    case Unparseable(_, _) => Unparsed
  }

  function ResultKind(result: Result<SupervisorTurn, ProviderError>): Decision {
    match result case Ok(turn) => KindOf(turn.outcome) case Err(_) => Errored
  }

  /** `d` is the greatest of what was decided. */
  predicate Greatest(d: Decision, results: seq<Heard<SupervisorTurn>>) {
    && (exists i :: 0 <= i < |results| && ResultKind(results[i].result) == d)
    && (forall i :: 0 <= i < |results| ==> Rank(ResultKind(results[i].result)) <= Rank(d))
  }

  /** Every answer of `a` was also given in `b`. */
  predicate AmongThose(a: seq<Heard<SupervisorTurn>>, b: seq<Heard<SupervisorTurn>>) {
    forall i :: 0 <= i < |a| ==> exists j :: 0 <= j < |b| && b[j].result == a[i].result
  }

  lemma GreatestGrows(d: Decision, e: Decision, a: seq<Heard<SupervisorTurn>>, b: seq<Heard<SupervisorTurn>>)
    requires Greatest(d, a) && Greatest(e, b) && AmongThose(a, b)
    ensures Rank(d) <= Rank(e)
  {
    hide KindOf;
    var i :| 0 <= i < |a| && ResultKind(a[i].result) == d;
    var j :| 0 <= j < |b| && b[j].result == a[i].result;
  }

  /** There is one greatest, whatever the list's order or repetitions. */
  lemma GreatestUnique(d: Decision, e: Decision, a: seq<Heard<SupervisorTurn>>, b: seq<Heard<SupervisorTurn>>)
    requires Greatest(d, a) && Greatest(e, b) && AmongThose(a, b) && AmongThose(b, a)
    ensures d == e
  {
    hide Greatest, AmongThose;
    GreatestGrows(d, e, a, b);
    GreatestGrows(e, d, b, a);
  }

  /** The panel passes the work exactly when every judge did. */
  lemma DoneMeansAllDone(d: Decision, results: seq<Heard<SupervisorTurn>>)
    requires Greatest(d, results)
    ensures d == Done <==> forall i :: 0 <= i < |results| ==> ResultKind(results[i].result) == Done
    ensures d == Errored <==> exists i :: 0 <= i < |results| && results[i].result.Err?
  {
    var i :| 0 <= i < |results| && ResultKind(results[i].result) == d;
    forall k | 0 <= k < |results| ensures Rank(ResultKind(results[k].result)) <= Rank(d) {}
  }

  // ---------------------------------------------------------------- attribution

  function Attribution(name: string, text: string): string {
    TrimEnd("[" + name + "] " + text)
  }

  /** `attributed`: `[label] text` for each, joined with `; `. */
  function Attributed(parts: seq<(string, string)>): string {
    Join(seq(|parts|, i requires 0 <= i < |parts| => Attribution(parts[i].0, parts[i].1)), "; ")
  }

  predicate Listed<T>(judges: seq<Judge>, results: seq<Heard<T>>) {
    && (forall i :: 0 <= i < |results| ==> results[i].judge < |judges|)
    && (forall i, j :: 0 <= i < j < |results| ==> results[i].judge < results[j].judge)
  }

  function ErrorText(error: ProviderError): string {
    "provider error (" + error.context + "): " + error.message
  }

  /** What each judge decided, or how it failed. */
  function PerJudge<T>(judges: seq<Judge>, results: seq<Heard<T>>, said: T -> string): seq<(string, string)>
    requires Listed(judges, results)
  {
    seq(|results|, i requires 0 <= i < |results| =>
      (judges[results[i].judge].name,
       match results[i].result case Ok(value) => said(value) case Err(error) => "failed: " + ErrorText(error)))
  }

  function FirstFailed<T>(results: seq<Heard<T>>): Option<nat> {
    if results == [] then None
    else
      var before := FirstFailed(results[..|results| - 1]);
      if before.Some? then before
      else if results[|results| - 1].result.Err? then Some(|results| - 1) else None
  }

  lemma {:induction false} FirstFailedIs<T>(results: seq<Heard<T>>)
    ensures match FirstFailed(results)
            case None => forall i :: 0 <= i < |results| ==> results[i].result.Ok?
            case Some(k) =>
              k < |results| && results[k].result.Err? && forall i :: 0 <= i < k ==> results[i].result.Ok?
  {
    if results != [] {
      FirstFailedIs(results[..|results| - 1]);
    }
  }

  /** `failure` */
  function Failure<T>(judges: seq<Judge>, op: string, results: seq<Heard<T>>, said: T -> string): Option<ProviderError>
    requires Listed(judges, results)
  {
    FirstFailedIs(results);
    match FirstFailed(results)
    case None => None
    case Some(k) =>
      var error := results[k].result.error;
      if |judges| <= 1 then Some(error)
      else Some(ProviderError(op + "[" + judges[results[k].judge].name + "]",
                              Attributed(PerJudge(judges, results, said)), error.kind))
  }

  /** Of several judges, a failure is named after the first that failed, and is of its kind; one judge's own is
      passed on. */
  lemma FailureNames<T>(judges: seq<Judge>, op: string, results: seq<Heard<T>>, said: T -> string)
    requires Listed(judges, results)
    ensures match Failure(judges, op, results, said)
            case None => forall i :: 0 <= i < |results| ==> results[i].result.Ok?
            case Some(error) =>
              exists k :: 0 <= k < |results| && results[k].result.Err?
                          && (forall i :: 0 <= i < k ==> results[i].result.Ok?)
                          && error.kind == results[k].result.error.kind
                          && (if |judges| <= 1 then error == results[k].result.error
                              else error.context == op + "[" + judges[results[k].judge].name + "]")
  {
    hide Attributed, PerJudge;
    FirstFailedIs(results);
  }

  // ---------------------------------------------------------------- what a continuing panel says

  function Header(judge: Judge): string {
    "## Judge `" + judge.name + "` (" + judge.kind + ")"
  }

  function NoInstructionLine(reason: string): string {
    "This judge judged the work incomplete but gave no usable instruction"
    + if Trimmed(reason) == "" then "." else " (" + Trimmed(reason) + ")."
  }

  function Body(outcome: SupervisorOutcome): string
    requires !outcome.Completed?
  {
    match outcome
    case Continue(message, _) => message
    case NoInstruction(reason) => NoInstructionLine(reason)
    case Unparseable(problem, _) => NoInstructionLine("its answer did not parse: " + problem)
  }

  function Block(judge: Judge, outcome: SupervisorOutcome): string
    requires !outcome.Completed?
  {
    Header(judge) + "\n\n" + Body(outcome)
  }

  predicate AllOk<T>(results: seq<Heard<T>>) {
    forall i :: 0 <= i < |results| ==> results[i].result.Ok?
  }

  /** What a judge that did not complete says under its header. */
  function BlockParts(judges: seq<Judge>, results: seq<Heard<SupervisorTurn>>): seq<Option<string>>
    requires Listed(judges, results)
  {
    seq(|results|, i requires 0 <= i < |results| =>
      match results[i].result
      case Ok(turn) => if turn.outcome.Completed? then None else Some(Block(judges[results[i].judge], turn.outcome))
      case Err(_) => None)
  }

  /** What a judge whose answer did not parse gave instead. */
  function UnparsedParts(judges: seq<Judge>, results: seq<Heard<SupervisorTurn>>): seq<Option<(string, string, string)>>
    requires Listed(judges, results)
  {
    seq(|results|, i requires 0 <= i < |results| =>
      match results[i].result
      case Ok(turn) =>
        if turn.outcome.Unparseable?
        then Some((judges[results[i].judge].name, turn.outcome.problem, turn.outcome.answer)) else None
      case Err(_) => None)
  }

  // ---------------------------------------------------------------- the panel

  /** One judge's supervisor call and the tool events it left. */
  datatype Linked = Linked(result: Result<SupervisorTurn, ProviderError>, events: seq<ToolEvent>)

  function Results(linked: seq<Linked>): seq<Heard<SupervisorTurn>> {
    seq(|linked|, i requires 0 <= i < |linked| => Heard(i, linked[i].result))
  }

  function ReasonOf(outcome: SupervisorOutcome): string {
    match outcome
    case Completed(reason) => reason
    case Continue(_, reason) => reason
    case NoInstruction(reason) => reason
    case Unparseable(problem, _) => problem
  }

  function Wire(d: Decision): string {
    match d
    case Done => "done"
    case Continued => "continue"
    case Uninstructed => "no_instruction"
    case Unparsed => "unparseable"
    case Errored => "error"
  }

  function Said(turn: SupervisorTurn): string {
    TrimEnd(Wire(KindOf(turn.outcome)) + ": " + ReasonOf(turn.outcome))
  }

  /** The one decision a judge's call records, failed or not. */
  function DecisionOf(judge: Judge, linked: Linked): JudgeDecision {
    JudgeDecision(judge.name, judge.kind, ResultKind(linked.result),
                  match linked.result case Ok(turn) => ReasonOf(turn.outcome) case Err(error) => ErrorText(error),
                  linked.events)
  }

  function DecisionsOf(judges: seq<Judge>, linked: seq<Linked>): seq<JudgeDecision>
    requires |judges| == |linked|
  {
    seq(|linked|, i requires 0 <= i < |linked| => DecisionOf(judges[i], linked[i]))
  }

  function UsagesOf(linked: seq<Linked>): seq<Option<Usage>> {
    seq(|linked|, i requires 0 <= i < |linked| =>
      match linked[i].result case Ok(turn) => turn.usage case Err(_) => None)
  }

  function Reasons(judges: seq<Judge>, results: seq<Heard<SupervisorTurn>>): seq<(string, string)>
    requires Listed(judges, results)
  {
    seq(|results|, i requires 0 <= i < |results| =>
      (judges[results[i].judge].name,
       match results[i].result case Ok(turn) => ReasonOf(turn.outcome) case Err(_) => ""))
  }

  /** What a combined outcome carries, whichever kind it is. */
  ghost predicate Carries(outcome: SupervisorOutcome, judges: seq<Judge>, results: seq<Heard<SupervisorTurn>>)
    requires Listed(judges, results)
  {
    match outcome
    case Completed(reason) => reason == Attributed(Reasons(judges, results))
    case NoInstruction(reason) => reason == Attributed(Reasons(judges, results))
    case Continue(message, reason) =>
      && reason == Attributed(Reasons(judges, results))
      && message == Join(Present(BlockParts(judges, results)), "\n\n")
    case Unparseable(problem, answer) =>
      var unparsed := Present(UnparsedParts(judges, results));
      && problem == Attributed(seq(|unparsed|, i requires 0 <= i < |unparsed| => (unparsed[i].0, unparsed[i].1)))
      && answer == Attributed(seq(|unparsed|, i requires 0 <= i < |unparsed| => (unparsed[i].0, unparsed[i].2)))
  }

  /** The panel's answer: the greatest of its judges' decisions, attributed, or that of its only judge as
      it stands. */
  ghost predicate Combines(judges: seq<Judge>, linked: seq<Linked>, combined: Result<SupervisorTurn, ProviderError>)
    requires |judges| == |linked|
  {
    && Greatest(ResultKind(combined), Results(linked))
    && (|judges| == 1 ==> combined == linked[0].result)
    && (|judges| > 1 ==>
          match combined
          case Err(error) => Some(error) == Failure(judges, "supervise", Results(linked), Said)
          case Ok(turn) =>
            turn.usage == Reported(Total(UsagesOf(linked))) && Carries(turn.outcome, judges, Results(linked)))
  }

  // ---------------------------------------------------------------- what that is, judge by judge

  /** `part` is `text` under a judge's name, less the whitespace it ends in. */
  ghost predicate Labelled(part: string, name: string, text: string) {
    && (part == "" || !IsWhitespace(part[|part| - 1]))
    && exists space :: Blank(space) && part + space == "[" + name + "] " + text
  }

  /** What an answer may be asked for: why it decided so, or how it failed to parse and what it said instead. */
  datatype Piece = Why | Fault | Instead

  predicate Gives(result: Result<SupervisorTurn, ProviderError>, piece: Piece) {
    result.Ok? && (piece.Why? || result.value.outcome.Unparseable?)
  }

  function PieceOf(result: Result<SupervisorTurn, ProviderError>, piece: Piece): string
    requires Gives(result, piece)
  {
    var outcome := result.value.outcome;
    if piece.Instead? then outcome.answer else if outcome.Unparseable? then outcome.problem else outcome.reason
  }

  /** `places` are, in order, those of the results that give a piece. */
  predicate GivenAt(results: seq<Heard<SupervisorTurn>>, piece: Piece, places: seq<nat>) {
    && (forall i :: 0 <= i < |results| ==> (Gives(results[i].result, piece) <==> i in places))
    && (forall k :: 0 <= k < |places| ==> places[k] < |results| && Gives(results[places[k]].result, piece))
    && (forall k, l :: 0 <= k < l < |places| ==> places[k] < places[l])
  }

  /** `parts` are their pieces, each under its judge's name. */
  ghost predicate LabelledAt(judges: seq<Judge>, results: seq<Heard<SupervisorTurn>>, piece: Piece,
                             parts: seq<string>, places: seq<nat>)
    requires Listed(judges, results) && GivenAt(results, piece, places)
  {
    && |parts| == |places|
    && forall k :: 0 <= k < |places| ==>
         Labelled(parts[k], judges[results[places[k]].judge].name, PieceOf(results[places[k]].result, piece))
  }

  /** `whole` is that piece of every result that gives it, once and in list order, and of no other. */
  ghost predicate Attributes(judges: seq<Judge>, results: seq<Heard<SupervisorTurn>>, piece: Piece, whole: string)
    requires Listed(judges, results)
  {
    exists parts: seq<string>, places: seq<nat> ::
      && GivenAt(results, piece, places) && LabelledAt(judges, results, piece, parts, places)
      && whole == Join(parts, "; ") && HoldsInOrder(whole, parts)
  }

  lemma AttributedIs(judges: seq<Judge>, results: seq<Heard<SupervisorTurn>>, piece: Piece, places: seq<nat>,
                     parts: seq<(string, string)>)
    requires Listed(judges, results) && GivenAt(results, piece, places) && |parts| == |places|
    requires forall k :: 0 <= k < |places| ==>
               parts[k] == (judges[results[places[k]].judge].name, PieceOf(results[places[k]].result, piece))
    ensures Attributes(judges, results, piece, Attributed(parts))
  {
    hide PieceOf, Labelled, Attribution, HoldsInOrder, Join;
    var labelled := seq(|parts|, i requires 0 <= i < |parts| => Attribution(parts[i].0, parts[i].1));
    forall k | 0 <= k < |places|
      ensures Labelled(labelled[k], judges[results[places[k]].judge].name, PieceOf(results[places[k]].result, piece))
    {
      AttributionLabels(parts[k].0, parts[k].1);
    }
    JoinHolds(labelled, "; ");
    assert LabelledAt(judges, results, piece, labelled, places);
  }

  lemma ReasonsGiven(judges: seq<Judge>, results: seq<Heard<SupervisorTurn>>)
    requires Listed(judges, results) && AllOk(results)
    ensures Attributes(judges, results, Why, Attributed(Reasons(judges, results)))
  {
    hide Attributes, Attributed;
    var places := seq(|results|, i requires 0 <= i < |results| => i);
    forall i | 0 <= i < |results| ensures i in places {
      assert places[i] == i;
    }
    AttributedIs(judges, results, Why, places, Reasons(judges, results));
  }

  lemma UnparsedGiven(judges: seq<Judge>, results: seq<Heard<SupervisorTurn>>)
    requires Listed(judges, results) && AllOk(results)
    ensures var unparsed := Present(UnparsedParts(judges, results));
            && Attributes(judges, results, Fault,
                          Attributed(seq(|unparsed|, i requires 0 <= i < |unparsed| => (unparsed[i].0, unparsed[i].1))))
            && Attributes(judges, results, Instead,
                          Attributed(seq(|unparsed|, i requires 0 <= i < |unparsed| => (unparsed[i].0, unparsed[i].2))))
  {
    hide Attributes, Attributed, Present;
    var unparsed := Present(UnparsedParts(judges, results));
    var places := PresentPicks(UnparsedParts(judges, results));
    UnparsedPlaces(judges, results, places);
    AttributedIs(judges, results, Fault, places,
                 seq(|unparsed|, i requires 0 <= i < |unparsed| => (unparsed[i].0, unparsed[i].1)));
    AttributedIs(judges, results, Instead, places,
                 seq(|unparsed|, i requires 0 <= i < |unparsed| => (unparsed[i].0, unparsed[i].2)));
  }

  lemma UnparsedPlaces(judges: seq<Judge>, results: seq<Heard<SupervisorTurn>>, places: seq<nat>)
    requires Listed(judges, results) && AllOk(results)
    requires Picks(UnparsedParts(judges, results), Present(UnparsedParts(judges, results)), places)
    ensures GivenAt(results, Fault, places) && GivenAt(results, Instead, places)
    ensures var unparsed := Present(UnparsedParts(judges, results));
            |unparsed| == |places| && forall k :: 0 <= k < |places| ==>
              unparsed[k] == (judges[results[places[k]].judge].name, PieceOf(results[places[k]].result, Fault),
                              PieceOf(results[places[k]].result, Instead))
  {
    hide Present;
    var parts := UnparsedParts(judges, results);
    forall i | 0 <= i < |results| ensures Gives(results[i].result, Fault) <==> parts[i].Some? {}
  }

  /** What an answer that did not complete says: its own message, or what was wanting. */
  ghost predicate SpokenAs(outcome: SupervisorOutcome, body: string) {
    match outcome
    case Continue(message, _) => body == message
    case NoInstruction(reason) => HoldsInOrder(body, [Trimmed(reason)])
    case Unparseable(problem, _) => HoldsInOrder(body, [Trimmed("its answer did not parse: " + problem)])
    case Completed(_) => false
  }

  /** A judge's part of an instruction: its header, and then its own message if it had one, and otherwise what it
      found wanting. */
  ghost predicate SpeaksFor(judge: Judge, outcome: SupervisorOutcome, block: string) {
    var header := "## Judge `" + judge.name + "` (" + judge.kind + ")\n\n";
    header <= block && SpokenAs(outcome, block[|header|..])
  }

  /** `places` are, in order, those of the judges that did not complete. */
  predicate OpenAt(results: seq<Heard<SupervisorTurn>>, places: seq<nat>)
    requires AllOk(results)
  {
    && (forall i :: 0 <= i < |results| ==> (!results[i].result.value.outcome.Completed? <==> i in places))
    && (forall k :: 0 <= k < |places| ==> places[k] < |results|)
    && (forall k, l :: 0 <= k < l < |places| ==> places[k] < places[l])
  }

  ghost predicate BlocksAt(judges: seq<Judge>, results: seq<Heard<SupervisorTurn>>, blocks: seq<string>,
                           places: seq<nat>)
    requires Listed(judges, results) && AllOk(results) && OpenAt(results, places)
  {
    && |blocks| == |places|
    && forall k :: 0 <= k < |places| ==>
         SpeaksFor(judges[results[places[k]].judge], results[places[k]].result.value.outcome, blocks[k])
  }

  /** An instruction is the part of every judge that did not complete, once and in list order, and of no other. */
  ghost predicate SaysEach(judges: seq<Judge>, results: seq<Heard<SupervisorTurn>>, message: string)
    requires Listed(judges, results) && AllOk(results)
  {
    exists blocks: seq<string>, places: seq<nat> ::
      && OpenAt(results, places) && BlocksAt(judges, results, blocks, places)
      && message == Join(blocks, "\n\n") && HoldsInOrder(message, blocks)
  }

  lemma BlockSpeaks(judge: Judge, outcome: SupervisorOutcome)
    requires !outcome.Completed?
    ensures SpeaksFor(judge, outcome, Block(judge, outcome))
  {
    hide HoldsInOrder, Trimmed;
    var header := "## Judge `" + judge.name + "` (" + judge.kind + ")\n\n";
    assert Block(judge, outcome) == header + Body(outcome);
    match outcome
    case Continue(_, _) =>
    case NoInstruction(reason) => LineHolds(reason);
    case Unparseable(problem, _) => LineHolds("its answer did not parse: " + problem);
    case Completed(_) =>
  }

  lemma LineHolds(reason: string)
    ensures HoldsInOrder(NoInstructionLine(reason), [Trimmed(reason)])
  {
    hide HoldsInOrder, Trimmed;
    var opening := "This judge judged the work incomplete but gave no usable instruction";
    if Trimmed(reason) == "" {
      HoldsOne(opening, "");
      assert opening + "" == opening;
      HoldsMore(opening, [""], ".");
    } else {
      HoldsOne(opening + " (", Trimmed(reason));
      HoldsMore(opening + " (" + Trimmed(reason), [Trimmed(reason)], ").");
      assert NoInstructionLine(reason) == opening + " (" + Trimmed(reason) + ").";
    }
  }

  lemma BlocksSay(judges: seq<Judge>, results: seq<Heard<SupervisorTurn>>)
    requires Listed(judges, results) && AllOk(results)
    ensures SaysEach(judges, results, Join(Present(BlockParts(judges, results)), "\n\n"))
  {
    hide Present, HoldsInOrder, Join, SpeaksFor, Block;
    var blocks := Present(BlockParts(judges, results));
    var places := PresentPicks(BlockParts(judges, results));
    OpenPlaces(judges, results, places);
    JoinHolds(blocks, "\n\n");
    assert BlocksAt(judges, results, blocks, places);
  }

  lemma OpenPlaces(judges: seq<Judge>, results: seq<Heard<SupervisorTurn>>, places: seq<nat>)
    requires Listed(judges, results) && AllOk(results)
    requires Picks(BlockParts(judges, results), Present(BlockParts(judges, results)), places)
    ensures OpenAt(results, places) && BlocksAt(judges, results, Present(BlockParts(judges, results)), places)
  {
    hide Present, SpeaksFor, Block;
    var parts := BlockParts(judges, results);
    forall i | 0 <= i < |results|
      ensures !results[i].result.value.outcome.Completed? <==> parts[i].Some?
      ensures parts[i].Some? ==> SpeaksFor(judges[results[i].judge], results[i].result.value.outcome, parts[i].value)
    {
      if !results[i].result.value.outcome.Completed? {
        BlockSpeaks(judges[results[i].judge], results[i].result.value.outcome);
      }
    }
  }

  /** What a combined outcome says, judge by judge. */
  ghost predicate SaysOf(outcome: SupervisorOutcome, judges: seq<Judge>, results: seq<Heard<SupervisorTurn>>)
    requires Listed(judges, results) && AllOk(results)
  {
    match outcome
    case Completed(reason) => Attributes(judges, results, Why, reason)
    case NoInstruction(reason) => Attributes(judges, results, Why, reason)
    case Continue(message, reason) => Attributes(judges, results, Why, reason) && SaysEach(judges, results, message)
    case Unparseable(problem, answer) =>
      Attributes(judges, results, Fault, problem) && Attributes(judges, results, Instead, answer)
  }

  lemma CarriesSays(outcome: SupervisorOutcome, judges: seq<Judge>, results: seq<Heard<SupervisorTurn>>)
    requires Listed(judges, results) && AllOk(results) && Carries(outcome, judges, results)
    ensures SaysOf(outcome, judges, results)
  {
    hide Attributes, SaysEach, Attributed, Reasons, Present, UnparsedParts, BlockParts, Join;
    ReasonsGiven(judges, results);
    UnparsedGiven(judges, results);
    BlocksSay(judges, results);
  }

  lemma AttributionLabels(name: string, text: string)
    ensures Labelled(Attribution(name, text), name, text)
  {
    var whole := "[" + name + "] " + text;
    TrimEndIs(whole);
    TrimEndOuter(whole);
    assert Attribution(name, text) + whole[|TrimEnd(whole)|..] == whole;
  }

  // ---------------------------------------------------------------- what is recorded and what fails

  /** A recorded decision is its judge's: how it ended, why, and the tools it used. */
  predicate AccountsFor(judge: Judge, linked: Linked, d: JudgeDecision) {
    && d.judge == judge.name && d.kind == judge.kind && d.events == linked.events
    && match linked.result
       case Err(error) =>
         d.decision == Errored && d.reason == "provider error (" + error.context + "): " + error.message
       case Ok(turn) =>
         && (d.decision == Done <==> turn.outcome.Completed?)
         && (d.decision == Continued <==> turn.outcome.Continue?)
         && (d.decision == Uninstructed <==> turn.outcome.NoInstruction?)
         && (d.decision == Unparsed <==> turn.outcome.Unparseable?)
         && d.reason == if turn.outcome.Unparseable? then turn.outcome.problem else turn.outcome.reason
  }

  predicate Accounts(judges: seq<Judge>, linked: seq<Linked>, decisions: seq<JudgeDecision>)
    requires |judges| == |linked|
  {
    |decisions| == |linked| && forall i :: 0 <= i < |linked| ==> AccountsFor(judges[i], linked[i], decisions[i])
  }

  lemma Account(judges: seq<Judge>, linked: seq<Linked>)
    requires |judges| == |linked|
    ensures Accounts(judges, linked, DecisionsOf(judges, linked))
  {
  }

  /** What a failing panel's error says of one judge. */
  ghost predicate FailsSaying(judge: Judge, linked: Linked, part: string) {
    match linked.result
    case Err(error) =>
      Labelled(part, judge.name, "failed: " + ("provider error (" + error.context + "): " + error.message))
    case Ok(turn) =>
      var reason := if turn.outcome.Unparseable? then turn.outcome.problem else turn.outcome.reason;
      Labelled(part, judge.name, DecisionWord(turn.outcome) + ": " + reason)
  }

  /** The word on the wire for how a judge answered. */
  function DecisionWord(outcome: SupervisorOutcome): string {
    match outcome
    case Completed(_) => "done"
    case Continue(_, _) => "continue"
    case NoInstruction(_) => "no_instruction"
    case Unparseable(_, _) => "unparseable"
  }

  /** Trimming a text before labelling it comes to the same. */
  lemma LabelsTrimmed(name: string, text: string)
    requires TrimEnd(text) != ""
    ensures Labelled(Attribution(name, TrimEnd(text)), name, text)
  {
    hide TrimEnd;
    var kept := TrimEnd(text);
    var whole := "[" + name + "] " + kept;
    TrimEndOuter(text);
    TrimEndIs(text);
    assert whole[|whole| - 1] == kept[|kept| - 1];
    TrimEndIs(whole);
    assert Attribution(name, kept) == whole;
    assert whole + text[|kept|..] == "[" + name + "] " + text;
  }

  lemma SaidSomething(turn: SupervisorTurn)
    ensures var reason := if turn.outcome.Unparseable? then turn.outcome.problem else turn.outcome.reason;
            var text := DecisionWord(turn.outcome) + ": " + reason;
            Said(turn) == TrimEnd(text) && TrimEnd(text) != ""
  {
    hide TrimEnd;
    var text := Wire(KindOf(turn.outcome)) + ": " + ReasonOf(turn.outcome);
    TrimEndBlank(text);
    assert !IsWhitespace(text[0]);
  }

  ghost predicate FailsSayingEach(judges: seq<Judge>, linked: seq<Linked>, parts: seq<string>)
    requires |judges| == |linked|
  {
    |parts| == |linked| && forall i :: 0 <= i < |parts| ==> FailsSaying(judges[i], linked[i], parts[i])
  }

  /** The error of a panel of several: named after the first judge that failed, of that failure's kind, and saying
      of every judge, in list order, how it failed or what it decided. */
  ghost predicate FailsWith(judges: seq<Judge>, linked: seq<Linked>, error: ProviderError)
    requires |judges| == |linked|
  {
    && (exists k :: 0 <= k < |linked| && linked[k].result.Err? && (forall i :: 0 <= i < k ==> linked[i].result.Ok?)
                    && error.kind == linked[k].result.error.kind
                    && error.context == "supervise[" + judges[k].name + "]")
    && exists parts ::
         FailsSayingEach(judges, linked, parts) && error.message == Join(parts, "; ")
         && HoldsInOrder(error.message, parts)
  }

  lemma PartSays(judge: Judge, linked: Linked, said: string)
    requires said == match linked.result case Ok(turn) => Said(turn) case Err(error) => "failed: " + ErrorText(error)
    ensures FailsSaying(judge, linked, Attribution(judge.name, said))
  {
    hide Attribution, Labelled, Said, TrimEnd;
    match linked.result
    case Ok(turn) =>
      SaidSomething(turn);
      var reason := if turn.outcome.Unparseable? then turn.outcome.problem else turn.outcome.reason;
      LabelsTrimmed(judge.name, DecisionWord(turn.outcome) + ": " + reason);
    case Err(_) =>
      AttributionLabels(judge.name, said);
  }

  lemma FailureIs(judges: seq<Judge>, linked: seq<Linked>)
    requires |judges| == |linked| > 1
    ensures var failed := Failure(judges, "supervise", Results(linked), Said);
            failed.Some? ==> FailsWith(judges, linked, failed.value)
  {
    hide Attribution, HoldsInOrder, Join, FailsSaying, Said, ErrorText, FirstFailed;
    var results := Results(linked);
    FirstFailedIs(results);
    var said := PerJudge(judges, results, Said);
    var parts := seq(|said|, i requires 0 <= i < |said| => Attribution(said[i].0, said[i].1));
    forall i | 0 <= i < |linked| ensures FailsSaying(judges[i], linked[i], parts[i]) {
      PartSays(judges[i], linked[i], said[i].1);
    }
    JoinHolds(parts, "; ");
    assert FailsSayingEach(judges, linked, parts);
    if FirstFailed(results).Some? {
      var k := FirstFailed(results).value;
      assert forall i :: 0 <= i < k ==> results[i].result == linked[i].result;
    }
  }

  class JudgePanel {
    const judges: seq<Judge>
    var decisions: seq<JudgeDecision>

    constructor (judges: seq<Judge>)
      requires judges != []
      ensures this.judges == judges && decisions == []
    {
      this.judges := judges;
      decisions := [];
    }

    /** `take_judge_decisions` */
    method TakeJudgeDecisions() returns (taken: seq<JudgeDecision>)
      modifies this
      ensures taken == old(decisions) && decisions == []
    {
      taken := decisions;
      decisions := [];
    }

    /** Each judge's usage counted and its decision recorded, failed or not. */
    method Record(linked: seq<Linked>) returns (usage: Usage)
      requires |linked| == |judges|
      modifies this
      ensures decisions == old(decisions) + DecisionsOf(judges, linked)
      ensures Accounts(judges, linked, decisions[|old(decisions)|..])
      ensures usage == Total(UsagesOf(linked))
    {
      hide DecisionOf, Plus, Accounts;
      usage := NONE;
      for i := 0 to |linked|
        invariant decisions == old(decisions) + DecisionsOf(judges, linked)[..i]
        invariant usage == Total(UsagesOf(linked)[..i])
      {
        var result := linked[i].result;
        if result.Ok? && result.value.usage.Some? {
          usage := Plus(usage, result.value.usage.value);
        }
        decisions := decisions + [DecisionOf(judges[i], linked[i])];
        assert UsagesOf(linked)[..i + 1][..i] == UsagesOf(linked)[..i];
      }
      assert UsagesOf(linked)[..|linked|] == UsagesOf(linked);
      Account(judges, linked);
      assert decisions[|old(decisions)|..] == DecisionsOf(judges, linked);
    }

    /** Whether some judge's outcome is of kind `d`. */
    predicate Any(linked: seq<Linked>, d: Decision) {
      exists i :: 0 <= i < |linked| && ResultKind(linked[i].result) == d
    }

    predicate AllDone(linked: seq<Linked>) {
      forall i :: 0 <= i < |linked| ==> ResultKind(linked[i].result) == Done
    }

    /** The outcome of a panel of several none of whose judges failed. */
    method Outcome(linked: seq<Linked>) returns (outcome: SupervisorOutcome)
      requires |linked| == |judges| && linked != [] && !Any(linked, Errored)
      ensures Greatest(KindOf(outcome), Results(linked)) && Carries(outcome, judges, Results(linked))
    {
      var results := Results(linked);
      var reason := Attributed(Reasons(judges, results));
      if AllDone(linked) {
        outcome := Completed(reason);
      } else if Any(linked, Continued) {
        outcome := Continue(Join(Present(BlockParts(judges, results)), "\n\n"), reason);
      } else if Any(linked, Uninstructed) {
        outcome := NoInstruction(reason);
      } else {
        var unparsed := Present(UnparsedParts(judges, results));
        outcome := Unparseable(
          Attributed(seq(|unparsed|, i requires 0 <= i < |unparsed| => (unparsed[i].0, unparsed[i].1))),
          Attributed(seq(|unparsed|, i requires 0 <= i < |unparsed| => (unparsed[i].0, unparsed[i].2))));
      }
      Chain(linked, KindOf(outcome));
    }

    /** The chain of tests finds the greatest. */
    lemma Chain(linked: seq<Linked>, d: Decision)
      requires linked != [] && !Any(linked, Errored)
      requires d == if AllDone(linked) then Done else if Any(linked, Continued) then Continued
                    else if Any(linked, Uninstructed) then Uninstructed else Unparsed
      ensures Greatest(d, Results(linked))
    {
      hide ResultKind;
      var results := Results(linked);
      forall i | 0 <= i < |results| ensures Rank(ResultKind(results[i].result)) <= Rank(d) {
        assert ResultKind(results[i].result) == ResultKind(linked[i].result);
      }
      var i :| 0 <= i < |linked| && ResultKind(linked[i].result) == d;
      assert ResultKind(results[i].result) == d;
    }

    /** `combine_supervision` */
    method CombineSupervision(linked: seq<Linked>) returns (combined: Result<SupervisorTurn, ProviderError>)
      requires |linked| == |judges| && linked != []
      modifies this
      ensures decisions == old(decisions) + DecisionsOf(judges, linked)
      ensures Accounts(judges, linked, decisions[|old(decisions)|..])
      ensures Combines(judges, linked, combined)
      ensures |judges| > 1 && combined.Ok? ==>
                AllOk(Results(linked)) && SaysOf(combined.value.outcome, judges, Results(linked))
      ensures |judges| > 1 && combined.Err? ==> FailsWith(judges, linked, combined.error)
    {
      hide SaysOf, FailsWith, Accounts, DecisionsOf, Carries, Attributed, Total, Failure;
      var usage := Record(linked);
      var results := Results(linked);
      FailureNames(judges, "supervise", results, Said);
      var failed := Failure(judges, "supervise", results, Said);
      if failed.Some? {
        if |judges| > 1 { FailureIs(judges, linked); }
        return Err(failed.value);
      }
      if |judges| <= 1 {
        assert results[0].result == linked[0].result;
        return linked[0].result;
      }
      forall i | 0 <= i < |linked| ensures linked[i].result.Ok? { assert results[i].result.Ok?; }
      var outcome := Outcome(linked);
      CarriesSays(outcome, judges, results);
      combined := Ok(SupervisorTurn(outcome, Reported(usage)));
    }

    /** One call and what is drained after it, whichever way it ended: a decision of every judge after whatever
        had not been drained before, and nothing is left for the next. */
    method SuperviseAndDrain(linked: seq<Linked>)
      returns (combined: Result<SupervisorTurn, ProviderError>, drained: seq<JudgeDecision>)
      requires |linked| == |judges| && linked != []
      modifies this
      ensures Combines(judges, linked, combined)
      ensures |judges| > 1 && combined.Ok? ==>
                AllOk(Results(linked)) && SaysOf(combined.value.outcome, judges, Results(linked))
      ensures |judges| > 1 && combined.Err? ==> FailsWith(judges, linked, combined.error)
      ensures drained == old(decisions) + DecisionsOf(judges, linked) && decisions == []
      ensures Accounts(judges, linked, drained[|old(decisions)|..])
    {
      hide Combines, DecisionsOf, Accounts, SaysOf, FailsWith;
      combined := CombineSupervision(linked);
      drained := TakeJudgeDecisions();
    }
  }

  // ---------------------------------------------------------------- verdicts

  datatype Value = Flag(holds: bool) | Score(score: real)

  datatype Verdict = Verdict(value: Value, reason: string, usage: Option<Usage>)

  datatype VerdictError = Invalid | Provider(error: ProviderError)

  /** The judges a query is put to: for a score, those that can give one. */
  function Asked(judges: seq<Judge>, numeric: bool, answers: seq<Result<Verdict, ProviderError>>):
    (parts: seq<Option<Heard<Verdict>>>)
    requires |judges| == |answers|
    ensures |parts| == |judges|
  {
    seq(|judges|, i requires 0 <= i < |judges| =>
      if !numeric || judges[i].numeric then Some(Heard(i, answers[i])) else None)
  }

  lemma AskedListed(judges: seq<Judge>, numeric: bool, answers: seq<Result<Verdict, ProviderError>>)
    requires |judges| == |answers|
    ensures Listed(judges, Present(Asked(judges, numeric, answers)))
  {
    var places := PresentPicks(Asked(judges, numeric, answers));
  }

  function ValueToken(render: real -> string, value: Value): string {
    match value
    case Flag(holds) => if holds then "true" else "false"
    case Score(score) => render(score)
  }

  /** A verdict's line in a failing panel's error, given how a number is written. */
  function VerdictSaid(render: real -> string): Verdict -> string {
    (verdict: Verdict) => ValueToken(render, verdict.value) + ": " + verdict.reason
  }

  predicate RightType(numeric: bool, verdict: Verdict) {
    verdict.value.Score? == numeric
  }

  /** A judge's verdict, by its place in the list. */
  datatype Given = Given(judge: nat, verdict: Verdict)

  function Givens(results: seq<Heard<Verdict>>): seq<Given>
    requires AllOk(results)
  {
    seq(|results|, i requires 0 <= i < |results| => Given(results[i].judge, results[i].result.value))
  }

  function VerdictUsages(given: seq<Given>): seq<Option<Usage>> {
    seq(|given|, i requires 0 <= i < |given| => given[i].verdict.usage)
  }

  predicate Within(judges: seq<Judge>, given: seq<Given>) {
    forall i :: 0 <= i < |given| ==> given[i].judge < |judges|
  }

  function VerdictReasons(judges: seq<Judge>, given: seq<Given>): seq<(string, string)>
    requires Within(judges, given)
  {
    seq(|given|, i requires 0 <= i < |given| => (judges[given[i].judge].name, given[i].verdict.reason))
  }

  predicate Holds(v: Value) { v.Flag? && v.holds }

  function ScoreOf(v: Value): real { if v.Score? then v.score else 0.0 }

  /** The conjunction of what the judges hold, or the least of what they score. */
  ghost predicate Concludes(numeric: bool, given: seq<Given>, value: Value) {
    if numeric then
      && value.Score?
      && (exists i :: 0 <= i < |given| && given[i].verdict.value == value)
      && (forall i :: 0 <= i < |given| ==> value.score <= ScoreOf(given[i].verdict.value))
    else
      value.Flag? && (value.holds <==> forall i :: 0 <= i < |given| ==> Holds(given[i].verdict.value))
  }

  ghost predicate AllTyped(numeric: bool, given: seq<Given>) {
    forall i :: 0 <= i < |given| ==> RightType(numeric, given[i].verdict)
  }

  /** The first judge whose verdict is of the wrong type for the query. */
  ghost predicate FirstWrong(numeric: bool, given: seq<Given>, k: nat) {
    k < |given| && !RightType(numeric, given[k].verdict) && AllTyped(numeric, given[..k])
  }

  function WrongType(judge: Judge, numeric: bool): ProviderError {
    ProviderError("judge[" + judge.name + "]",
                  "verdict value has the wrong type for a " + (if numeric then "numeric" else "boolean") + " query",
                  Some("protocol"))
  }

  /** One more verdict of the right type, and what is concluded so far. */
  function Meet(numeric: bool, before: Option<Value>, value: Value): Value {
    if numeric then
      if before.Some? && ScoreOf(before.value) <= ScoreOf(value) then before.value else value
    else Flag((before.None? || Holds(before.value)) && Holds(value))
  }

  lemma MeetConcludes(numeric: bool, given: seq<Given>, before: Option<Value>, one: Given)
    requires RightType(numeric, one.verdict) && AllTyped(numeric, given)
    requires if given == [] then before.None? else before.Some? && Concludes(numeric, given, before.value)
    ensures Concludes(numeric, given + [one], Meet(numeric, before, one.verdict.value))
    ensures AllTyped(numeric, given + [one])
  {
    var more := given + [one];
    assert more[|given|] == one;
    if numeric && given != [] {
      var k :| 0 <= k < |given| && given[k].verdict.value == before.value;
      assert more[k].verdict.value == before.value;
    }
    if !numeric {
      assert forall i :: 0 <= i < |given| ==> more[i] == given[i];
    }
  }

  /** `reason` is that of every verdict, in list order, under its judge's name. */
  ghost predicate GivesReasons(judges: seq<Judge>, given: seq<Given>, reason: string)
    requires Within(judges, given)
  {
    exists parts: seq<string> ::
      && LabelsReasons(judges, given, parts) && reason == Join(parts, "; ") && HoldsInOrder(reason, parts)
  }

  ghost predicate LabelsReasons(judges: seq<Judge>, given: seq<Given>, parts: seq<string>)
    requires Within(judges, given)
  {
    && |parts| == |given|
    && forall i :: 0 <= i < |parts| ==> Labelled(parts[i], judges[given[i].judge].name, given[i].verdict.reason)
  }

  lemma ReasonsOf(judges: seq<Judge>, given: seq<Given>)
    requires Within(judges, given)
    ensures GivesReasons(judges, given, Attributed(VerdictReasons(judges, given)))
  {
    hide Attribution, Labelled, HoldsInOrder, Join;
    var reasons := VerdictReasons(judges, given);
    var parts := seq(|reasons|, i requires 0 <= i < |reasons| => Attribution(reasons[i].0, reasons[i].1));
    forall i | 0 <= i < |parts| ensures Labelled(parts[i], judges[given[i].judge].name, given[i].verdict.reason) {
      AttributionLabels(reasons[i].0, reasons[i].1);
    }
    JoinHolds(parts, "; ");
    assert LabelsReasons(judges, given, parts);
  }

  /** What a panel of several that was asked, and did not fail, returns. */
  ghost predicate Folds(judges: seq<Judge>, numeric: bool, given: seq<Given>, verdict: Result<Verdict, VerdictError>) {
    && Within(judges, given)
    && match verdict
       case Err(error) =>
         exists k: nat ::
           FirstWrong(numeric, given, k) && error == Provider(WrongType(judges[given[k].judge], numeric))
       case Ok(v) =>
         && AllTyped(numeric, given) && Concludes(numeric, given, v.value)
         && GivesReasons(judges, given, v.reason)
         && v.usage == Reported(Total(VerdictUsages(given)))
  }

  lemma NoneTyped(numeric: bool, given: seq<Given>)
    ensures AllTyped(numeric, given[..0])
  {
  }

  /** `judge_across`'s fold of verdicts none of which failed. */
  method FoldVerdicts(judges: seq<Judge>, numeric: bool, given: seq<Given>)
    returns (verdict: Result<Verdict, VerdictError>)
    requires Within(judges, given) && given != []
    ensures Folds(judges, numeric, given, verdict)
  {
    hide Attributed, Plus, Reported, Concludes, AllTyped, Meet, GivesReasons;
    ReasonsOf(judges, given);
    var usage := NONE;
    var concluded: Option<Value> := None;
    NoneTyped(numeric, given);
    for i := 0 to |given|
      invariant AllTyped(numeric, given[..i])
      invariant usage == Total(VerdictUsages(given)[..i])
      invariant if i == 0 then concluded.None? else concluded.Some? && Concludes(numeric, given[..i], concluded.value)
    {
      var v := given[i].verdict;
      usage := PlusReported(usage, v.usage);
      assert VerdictUsages(given)[..i + 1][..i] == VerdictUsages(given)[..i];
      if !RightType(numeric, v) {
        assert FirstWrong(numeric, given, i);
        return Err(Provider(WrongType(judges[given[i].judge], numeric)));
      }
      MeetConcludes(numeric, given[..i], concluded, given[i]);
      assert given[..i] + [given[i]] == given[..i + 1];
      concluded := Some(Meet(numeric, concluded, v.value));
    }
    assert VerdictUsages(given)[..|given|] == VerdictUsages(given);
    assert given[..|given|] == given;
    verdict := Ok(Verdict(concluded.value, Attributed(VerdictReasons(judges, given)), Reported(usage)));
  }

  /** Exactly the judges that can give such a verdict are asked, and each answer is that judge's. */
  predicate AsksAble(judges: seq<Judge>, numeric: bool, answers: seq<Result<Verdict, ProviderError>>,
                     results: seq<Heard<Verdict>>)
    requires |judges| == |answers|
  {
    && (forall k :: 0 <= k < |results| ==>
          && results[k].judge < |judges| && results[k].result == answers[results[k].judge]
          && (numeric ==> judges[results[k].judge].numeric))
    && forall i :: 0 <= i < |judges| && (numeric ==> judges[i].numeric) ==> Heard(i, answers[i]) in results
  }

  lemma AsksOnlyAble(judges: seq<Judge>, numeric: bool, answers: seq<Result<Verdict, ProviderError>>)
    requires |judges| == |answers|
    ensures AsksAble(judges, numeric, answers, Present(Asked(judges, numeric, answers)))
  {
    hide Present;
    var parts := Asked(judges, numeric, answers);
    var results := Present(parts);
    var places := PresentPicks(parts);
    forall i | 0 <= i < |judges| && (numeric ==> judges[i].numeric) ensures Heard(i, answers[i]) in results {
      assert parts[i].Some? && i in places;
      var k :| 0 <= k < |places| && places[k] == i;
      assert results[k] == Heard(i, answers[i]);
    }
  }

  /** `judge_across`: a verdict of the judges asked, in list order, or why there is none. */
  method JudgeAcross(judges: seq<Judge>, numeric: bool, answers: seq<Result<Verdict, ProviderError>>,
                     render: real -> string)
    returns (verdict: Result<Verdict, VerdictError>)
    requires judges != [] && |judges| == |answers|
    ensures Listed(judges, Present(Asked(judges, numeric, answers)))
    ensures AsksAble(judges, numeric, answers, Present(Asked(judges, numeric, answers)))
    ensures var results := Present(Asked(judges, numeric, answers));
            && (results == [] ==> verdict == Err(Invalid))
            && (results != [] ==>
                  var failed := Failure(judges, "judge", results, VerdictSaid(render));
                  if failed.Some? then verdict == Err(Provider(failed.value))
                  else
                    && AllOk(results)
                    && (|judges| == 1 ==> verdict == Ok(results[0].result.value))
                    && (|judges| > 1 ==> Folds(judges, numeric, Givens(results), verdict)))
  {
    AsksOnlyAble(judges, numeric, answers);
    hide AsksAble, Failure, Folds, FirstWrong, AllTyped, Concludes, Attributed, VerdictReasons, VerdictUsages, Asked,
         Present, VerdictSaid;
    var results := Present(Asked(judges, numeric, answers));
    AskedListed(judges, numeric, answers);
    if results == [] {
      return Err(Invalid);
    }
    FailureFinds(judges, "judge", results, VerdictSaid(render));
    var failed := Failure(judges, "judge", results, VerdictSaid(render));
    if failed.Some? {
      return Err(Provider(failed.value));
    }
    if |judges| <= 1 {
      return Ok(results[0].result.value);
    }
    verdict := FoldVerdicts(judges, numeric, Givens(results));
  }

  /** Nobody is asked exactly when the query is for a score and no judge can give one. */
  lemma NobodyAsked(judges: seq<Judge>, numeric: bool, answers: seq<Result<Verdict, ProviderError>>)
    requires judges != [] && |judges| == |answers|
    ensures Present(Asked(judges, numeric, answers)) == []
            <==> numeric && forall i :: 0 <= i < |judges| ==> !judges[i].numeric
  {
    hide Present;
    var parts := Asked(judges, numeric, answers);
    PresentEmpty(parts);
    assert forall i :: 0 <= i < |judges| ==> (parts[i].None? <==> numeric && !judges[i].numeric);
    assert !numeric ==> parts[0].Some?;
  }

  lemma PresentEmpty<T>(parts: seq<Option<T>>)
    ensures Present(parts) == [] <==> forall i :: 0 <= i < |parts| ==> parts[i].None?
  {
    hide Present;
    var places := PresentPicks(parts);
    assert places != [] ==> parts[places[0]].Some?;
  }

  lemma FailureFinds<T>(judges: seq<Judge>, op: string, results: seq<Heard<T>>, said: T -> string)
    requires Listed(judges, results)
    ensures Failure(judges, op, results, said).None? <==> AllOk(results)
  {
    FirstFailedIs(results);
  }
}
