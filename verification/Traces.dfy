/** What each party's call is due to show an observer, in order. */
module Traces {
  import opened Wrappers
  import opened Transcripts
  import opened Providers
  import opened Observations
  import opened Histories

  /** What one event of a worker's turn shows an observer. */
  function EventTrace(turn: nat, event: HarnessEvent): seq<Observation> {
    match event
    case Begun(id) => [HistoryBegun(turn, Assistant, id)]
    case Acted(tool, text) => (if tool.Some? then [Tool(turn, tool.value)] else []) + [Action(turn, tool, text)]
  }

  function WorkerTrace(turn: nat, events: seq<HarnessEvent>): seq<Observation> {
    if events == [] then [] else WorkerTrace(turn, events[..|events| - 1]) + EventTrace(turn, events[|events| - 1])
  }

  lemma {:induction false} WorkerTraceSplits(turn: nat, events: seq<HarnessEvent>, i: nat)
    returns (rest: seq<Observation>)
    requires i <= |events|
    ensures WorkerTrace(turn, events) == WorkerTrace(turn, events[..i]) + rest
    decreases |events|
  {
    hide EventTrace;
    if i == |events| {
      rest := [];
      assert events[..i] == events;
    } else {
      var most := events[..|events| - 1];
      var before := WorkerTraceSplits(turn, most, i);
      rest := before + EventTrace(turn, events[|events| - 1]);
      assert most[..i] == events[..i];
    }
  }

  /** What shows the whole of one event. */
  predicate Whole(turn: nat, event: HarnessEvent, o: Observation) {
    match event
    case Begun(id) => o == HistoryBegun(turn, Assistant, id)
    case Acted(tool, text) => o == Action(turn, tool, text)
  }

  /** Each event is shown whole once, in order, at the place `ats` gives, a tool it used right before it. */
  predicate EachAt(turn: nat, events: seq<HarnessEvent>, trace: seq<Observation>, ats: seq<nat>) {
    && |ats| == |events| && (forall i, j :: 0 <= i < j < |ats| ==> ats[i] < ats[j])
    && (forall i :: 0 <= i < |ats| ==> ats[i] < |trace| && Whole(turn, events[i], trace[ats[i]]))
    && (forall i :: 0 <= i < |ats| && events[i].Acted? && events[i].tool.Some? ==>
          ats[i] > 0 && trace[ats[i] - 1] == Tool(turn, events[i].tool.value))
  }

  /** The next thing shown is an event that used this tool. */
  predicate BeforeUse(events: seq<HarnessEvent>, ats: seq<nat>, k: nat, o: Observation) {
    o.Tool? && exists i :: 0 <= i < |ats| && i < |events| && ats[i] == k + 1 && events[i].Acted?
                           && events[i].tool == Some(o.event)
  }

  /** And nothing besides is shown. */
  predicate NothingElse(events: seq<HarnessEvent>, trace: seq<Observation>, ats: seq<nat>) {
    forall k :: 0 <= k < |trace| ==> k in ats || BeforeUse(events, ats, k, trace[k])
  }

  predicate ShowsAt(turn: nat, events: seq<HarnessEvent>, trace: seq<Observation>, ats: seq<nat>) {
    EachAt(turn, events, trace, ats) && NothingElse(events, trace, ats)
  }

  ghost predicate ShowsEach(turn: nat, events: seq<HarnessEvent>, trace: seq<Observation>) {
    exists ats :: ShowsAt(turn, events, trace, ats)
  }

  lemma {:induction false} WorkerTraceAt(turn: nat, events: seq<HarnessEvent>) returns (ats: seq<nat>)
    ensures ShowsAt(turn, events, WorkerTrace(turn, events), ats)
  {
    hide ShowsAt, WorkerTrace;
    if events == [] {
      ats := [];
      NothingShows(turn);
    } else {
      var most, last := events[..|events| - 1], events[|events| - 1];
      ats := WorkerTraceAt(turn, most);
      OneMoreEvent(turn, most, WorkerTrace(turn, most), ats, last);
      assert most + [last] == events;
      WorkerTraceEnds(turn, most, last);
      ats := ats + [|WorkerTrace(turn, events)| - 1];
    }
  }

  lemma NothingShows(turn: nat)
    ensures ShowsAt(turn, [], WorkerTrace(turn, []), [])
  {
  }

  lemma WorkerTraceEnds(turn: nat, events: seq<HarnessEvent>, one: HarnessEvent)
    ensures WorkerTrace(turn, events + [one]) == WorkerTrace(turn, events) + EventTrace(turn, one)
  {
    hide EventTrace;
    assert (events + [one])[..|events|] == events;
  }

  lemma OneMoreEvent(turn: nat, events: seq<HarnessEvent>, trace: seq<Observation>, ats: seq<nat>,
                     one: HarnessEvent)
    requires ShowsAt(turn, events, trace, ats)
    ensures |EventTrace(turn, one)| > 0
    ensures var more := trace + EventTrace(turn, one); ShowsAt(turn, events + [one], more, ats + [|more| - 1])
  {
    hide NothingElse;
    OneMoreAt(turn, events, trace, ats, one);
    OneMoreOnly(turn, events, trace, ats, one);
  }

  lemma OneMoreAt(turn: nat, events: seq<HarnessEvent>, trace: seq<Observation>, ats: seq<nat>, one: HarnessEvent)
    requires EachAt(turn, events, trace, ats)
    ensures var more := trace + EventTrace(turn, one); EachAt(turn, events + [one], more, ats + [|more| - 1])
  {
  }

  lemma OneMoreOnly(turn: nat, events: seq<HarnessEvent>, trace: seq<Observation>, ats: seq<nat>,
                    one: HarnessEvent)
    requires NothingElse(events, trace, ats) && |ats| == |events|
    ensures var more := trace + EventTrace(turn, one); NothingElse(events + [one], more, ats + [|more| - 1])
  {
    var more := trace + EventTrace(turn, one);
    var places := ats + [|more| - 1];
    assert places[|ats|] == |more| - 1;
    forall k | 0 <= k < |more| ensures k in places || BeforeUse(events + [one], places, k, more[k]) {
      if k < |trace| {
        assert more[k] == trace[k];
        StillBefore(events, ats, k, trace[k], one, |more| - 1);
        if k in ats { assert k in places; }
      } else if k == |more| - 1 {
        assert k in places;
      } else {
        assert (events + [one])[|ats|] == one && places[|ats|] == k + 1;
      }
    }
  }

  lemma StillBefore(events: seq<HarnessEvent>, ats: seq<nat>, k: nat, o: Observation, one: HarnessEvent, at: nat)
    requires |ats| == |events|
    ensures BeforeUse(events, ats, k, o) ==> BeforeUse(events + [one], ats + [at], k, o)
  {
    if BeforeUse(events, ats, k, o) {
      var i :| 0 <= i < |ats| && i < |events| && ats[i] == k + 1 && events[i].Acted? && events[i].tool == Some(o.event);
      assert (ats + [at])[i] == k + 1 && (events + [one])[i] == events[i];
    }
  }

  /** A worker's call is due to show every event of it, once. */
  lemma WorkerTraceShows(turn: nat, events: seq<HarnessEvent>)
    ensures ShowsEach(turn, events, WorkerTrace(turn, events))
  {
    hide ShowsAt;
    var ats := WorkerTraceAt(turn, events);
  }

  function ToolsTrace(turn: nat, judge: string, events: seq<ToolEvent>): (trace: seq<Observation>)
    ensures |trace| == |events|
  {
    seq(|events|, i requires 0 <= i < |events| => JudgeTool(turn, judge, events[i]))
  }

  function OpeningsTrace(turn: nat, openings: seq<string>): (trace: seq<Observation>)
    ensures |trace| == |openings|
  {
    seq(|openings|, i requires 0 <= i < |openings| => HistoryBegun(turn, User, openings[i]))
  }

  function BareTrace(turn: nat, bare: seq<JudgeTools>): seq<Observation> {
    if bare == [] then []
    else BareTrace(turn, bare[..|bare| - 1]) + ToolsTrace(turn, bare[|bare| - 1].judge, bare[|bare| - 1].events)
  }

  function DecisionTrace(turn: nat, decision: JudgeDecision): seq<Observation> {
    ToolsTrace(turn, decision.judge, decision.events) + [JudgeDecided(turn, decision)]
  }

  function DecidedTrace(turn: nat, decided: seq<JudgeDecision>): seq<Observation> {
    if decided == [] then []
    else DecidedTrace(turn, decided[..|decided| - 1]) + DecisionTrace(turn, decided[|decided| - 1])
  }

  lemma {:induction false} BareTraceSplits(turn: nat, bare: seq<JudgeTools>, i: nat) returns (rest: seq<Observation>)
    requires i <= |bare|
    ensures BareTrace(turn, bare) == BareTrace(turn, bare[..i]) + rest
    decreases |bare|
  {
    hide ToolsTrace;
    if i == |bare| {
      rest := [];
      assert bare[..i] == bare;
    } else {
      var last := bare[|bare| - 1];
      var before := BareTraceSplits(turn, bare[..|bare| - 1], i);
      rest := before + ToolsTrace(turn, last.judge, last.events);
      assert bare[..|bare| - 1][..i] == bare[..i];
    }
  }

  lemma {:induction false} DecidedTraceSplits(turn: nat, decided: seq<JudgeDecision>, i: nat)
    returns (rest: seq<Observation>)
    requires i <= |decided|
    ensures DecidedTrace(turn, decided) == DecidedTrace(turn, decided[..i]) + rest
    decreases |decided|
  {
    hide DecisionTrace;
    if i == |decided| {
      rest := [];
      assert decided[..i] == decided;
    } else {
      var before := DecidedTraceSplits(turn, decided[..|decided| - 1], i);
      rest := before + DecisionTrace(turn, decided[|decided| - 1]);
      assert decided[..|decided| - 1][..i] == decided[..i];
    }
  }

  lemma NothingShown(seen: seq<Observation>)
    ensures Shows(seen, seen, [], false)
    ensures forall turn :: Shows(seen, seen, WorkerTrace(turn, []), false)
    ensures forall turn :: Shows(seen, seen, BareTrace(turn, []), false)
    ensures forall turn :: Shows(seen, seen, DecidedTrace(turn, []), false)
  {
  }
}
