/** What an observer of a run is shown, in which order, and what its Break means. */
module Observations {
  import opened Wrappers
  import opened Transcripts
  import opened Providers

  /** One observation (engine.rs `Observation`), less its stamps and identities. */
  datatype Observation =
    | TurnOpened(turn: nat, role: Role, instruction: string)
    | HistoryBegun(turn: nat, role: Role, history: string)
    | Tool(turn: nat, event: ToolEvent)
    | Action(turn: nat, tool: Option<ToolEvent>, text: string)
    | Said(turn: nat, role: Role, text: string)
    | TurnClosed(turn: nat, role: Role)
    | JudgeTool(turn: nat, judge: string, event: ToolEvent)
    | JudgeDecided(turn: nat, decision: JudgeDecision)

  /** Where a well-formed trace stands. `Resting(least)` is between turns, with `least` the first
      number the next worker turn may carry; `lost` marks a supervisor turn about a lost one. */
  datatype Stage =
    | Resting(least: nat)
    | WorkerOpen(turn: nat)
    | WorkerTool(turn: nat, event: ToolEvent)
    | WorkerSpoke(turn: nat)
    | Replied(turn: nat)
    | SupervisorOpen(turn: nat, lost: bool)
    | SupervisorSpoke(turn: nat, lost: bool)

  function AfterSupervisor(turn: nat, lost: bool): Stage {
    Resting(if lost then turn else turn + 1)
  }

  /** The grammar of a run, one observation at a time: open, then that turn's own events, then at
      most one message, then close. A tool event is shown before the action it is; a lost worker
      turn has neither message nor close, and a supervisor turn about it carries its number. */
  function Advance(s: Stage, o: Observation): Option<Stage> {
    match o
    case TurnOpened(turn, role, _) =>
      if role == Assistant then
        (if s.Resting? && turn >= s.least then Some(WorkerOpen(turn))
         else if s.Replied? && turn > s.turn then Some(WorkerOpen(turn))
         else None)
      else if role == User && s.Replied? && turn == s.turn then Some(SupervisorOpen(turn, false))
      else if role == User && s.WorkerOpen? && turn == s.turn then Some(SupervisorOpen(turn, true))
      else None
    case HistoryBegun(turn, role, _) =>
      if role == Assistant && s == WorkerOpen(turn) then Some(s)
      else if role == User && s == SupervisorOpen(turn, false) then Some(s)
      else None
    case Tool(turn, event) => if s == WorkerOpen(turn) then Some(WorkerTool(turn, event)) else None
    case Action(turn, tool, _) =>
      if tool.Some? && s == WorkerTool(turn, tool.value) then Some(WorkerOpen(turn))
      else if tool.None? && s == WorkerOpen(turn) then Some(s)
      else None
    case Said(turn, role, _) =>
      if role == Assistant && s == WorkerOpen(turn) then Some(WorkerSpoke(turn))
      else if role == User && s.SupervisorOpen? && s.turn == turn then Some(SupervisorSpoke(turn, s.lost))
      else None
    case TurnClosed(turn, role) =>
      if role == Assistant && s == WorkerSpoke(turn) then Some(Replied(turn))
      else if role == User && (s.SupervisorOpen? || s.SupervisorSpoke?) && s.turn == turn
      then Some(AfterSupervisor(turn, s.lost))
      else None
    case JudgeTool(turn, _, _) => if s == SupervisorOpen(turn, false) then Some(s) else None
    case JudgeDecided(turn, _) => if s == SupervisorOpen(turn, false) then Some(s) else None
  }

  /** Where `trace` leaves the grammar; `None` when it is not one of its prefixes. */
  function Walk(trace: seq<Observation>): Option<Stage> {
    if trace == [] then Some(Resting(1))
    else
      var before := Walk(trace[..|trace| - 1]);
      if before.None? then None else Advance(before.value, trace[|trace| - 1])
  }

  /** The observer never broke before the last thing it was shown. */
  ghost predicate BreakIsFinal(breaks: seq<Observation> -> bool, trace: seq<Observation>) {
    forall n :: 0 < n < |trace| ==> !breaks(trace[..n])
  }

  /** After what was already seen, the start of what was due: all of it unless the observer broke. */
  ghost predicate Shows(before: seq<Observation>, after: seq<Observation>, due: seq<Observation>, broke: bool) {
    before <= after <= before + due && (!broke ==> after == before + due)
  }

  lemma ShowsMore(before: seq<Observation>, seen: seq<Observation>, after: seq<Observation>, due: seq<Observation>,
                  more: seq<Observation>, broke: bool)
    requires Shows(before, seen, due, false) && Shows(seen, after, more, broke)
    ensures Shows(before, after, due + more, broke)
  {
    assert before + (due + more) == before + due + more;
  }

  lemma ShowsLess(before: seq<Observation>, after: seq<Observation>, due: seq<Observation>, more: seq<Observation>)
    requires Shows(before, after, due, true)
    ensures Shows(before, after, due + more, true)
  {
    assert before + (due + more) == before + due + more;
  }

  /** The last thing shown is a history of the judge's beginning. */
  predicate EndsOpening(trace: seq<Observation>) {
    && trace != [] && trace[|trace| - 1].HistoryBegun? && trace[|trace| - 1].role == User
  }

  /** An observer: any function of what it has been shown. */
  class Sink {
    const breaks: seq<Observation> -> bool
    var seen: seq<Observation>
    ghost var stage: Stage
    ghost var broke: bool
    /** It broke on the judge's history, so that the judge's call is not heard out. */
    ghost var halted: bool

    ghost predicate Valid()
      reads this
    {
      && Walk(seen) == Some(stage)
      && BreakIsFinal(breaks, seen)
      && (broke <==> seen != [] && breaks(seen))
      && (halted <==> broke && EndsOpening(seen))
    }

    constructor (breaks: seq<Observation> -> bool)
      ensures Valid() && this.breaks == breaks && seen == [] && stage == Resting(1) && !broke
    {
      this.breaks := breaks;
      seen, stage, broke, halted := [], Resting(1), false, false;
    }

    /** Whether the last thing shown was broken on: the `broke` its callers keep beside it. */
    method Stopped() returns (stop: bool)
      requires Valid()
      ensures stop == broke
    {
      stop := seen != [] && breaks(seen);
    }

    method Observe(o: Observation) returns (stop: bool)
      requires Valid() && !broke && Advance(stage, o).Some?
      modifies this
      ensures Valid() && seen == old(seen) + [o]
      ensures Some(stage) == Advance(old(stage), o)
      ensures stop == broke == breaks(seen)
      ensures halted == (broke && EndsOpening([o]))
    {
      hide Walk, Advance, BreakIsFinal;
      OneMore(breaks, seen, stage, o);
      seen := seen + [o];
      stop := breaks(seen);
      broke := stop;
      halted := stop && EndsOpening(seen);
      stage := Advance(stage, o).value;
    }
  }

  /** A trace not broken on goes on. */
  lemma OneMore(breaks: seq<Observation> -> bool, seen: seq<Observation>, stage: Stage, o: Observation)
    requires Walk(seen) == Some(stage) && BreakIsFinal(breaks, seen) && (seen == [] || !breaks(seen))
    ensures Walk(seen + [o]) == Advance(stage, o) && BreakIsFinal(breaks, seen + [o])
  {
    hide Advance;
    var more := seen + [o];
    assert more[..|seen|] == seen;
    forall n | 0 < n < |more| ensures !breaks(more[..n]) {
      assert more[..n] == seen[..n];
      if n == |seen| { assert seen[..n] == seen; }
    }
  }
}
