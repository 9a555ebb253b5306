/** Reading a streamed provider (stream.rs): the loop over its lines, and the grammar they keep. */
module Streams {
  import opened Wrappers
  import opened Text
  import opened Transcripts
  import opened Histories

  /** One read of the provider's stdout; past the last is the end of the file. */
  datatype Read = Line(text: string) | Unreadable

  /** What one non-blank line is; the JSON of it is any function of the line. */
  datatype StreamLine = Live(event: HarnessEvent) | Terminal(report: string)

  datatype StreamError = CouldNotRead | NoTerminalLine | Malformed(line: string) | AfterTerminal(line: string)

  datatype StreamOutcome = Report(report: string) | Aborted

  type Classifier = string -> Option<StreamLine>

  type Observer = seq<HarnessEvent> -> bool

  /** What one read is to the grammar. */
  datatype Item = Nothing | Item(line: StreamLine) | Wrong(error: StreamError)

  function ItemOf(classify: Classifier, read: Read): Item {
    match read
    case Unreadable => Wrong(CouldNotRead)
    case Line(text) =>
      if Trimmed(text) == "" then Nothing
      else match classify(Trimmed(text)) case None => Wrong(Malformed(Trimmed(text))) case Some(line) => Item(line)
  }

  predicate IsLive(item: Item) { item.Nothing? || (item.Item? && item.line.Live?) }

  /** `(run-started | event)*`, blank lines aside. */
  predicate Open(classify: Classifier, input: seq<Read>) {
    forall i :: 0 <= i < |input| ==> IsLive(ItemOf(classify, input[i]))
  }

  predicate AllBlank(classify: Classifier, input: seq<Read>) {
    forall i :: 0 <= i < |input| ==> ItemOf(classify, input[i]).Nothing?
  }

  function Events(classify: Classifier, input: seq<Read>): seq<HarnessEvent> {
    if input == [] then []
    else Events(classify, input[..|input| - 1])
         + var item := ItemOf(classify, input[|input| - 1]);
           if item.Item? && item.line.Live? then [item.line.event] else []
  }

  /** The tool activity among them. */
  function ToolsOf(events: seq<HarnessEvent>): seq<ToolEvent> {
    if events == [] then []
    else ToolsOf(events[..|events| - 1])
         + var event := events[|events| - 1];
           if event.Acted? && event.tool.Some? then [event.tool.value] else []
  }

  ghost predicate Unbroken(breaks: Observer, events: seq<HarnessEvent>) {
    forall n :: 0 < n <= |events| ==> !breaks(events[..n])
  }

  /** What the first `at` reads deliver, unbroken on. */
  ghost predicate Reaches(classify: Classifier, breaks: Observer, input: seq<Read>, at: nat) {
    at <= |input| && Open(classify, input[..at]) && Unbroken(breaks, Events(classify, input[..at]))
  }

  /** The whole of `input` is `(run-started | event)* report EOF`, its report at `at`. */
  ghost predicate Finishes(classify: Classifier, breaks: Observer, input: seq<Read>, at: nat, report: string) {
    && Reaches(classify, breaks, input, at) && at < |input|
    && ItemOf(classify, input[at]) == Item(Terminal(report)) && AllBlank(classify, input[at + 1..])
  }

  /** The observer broke on the event at `at`. */
  ghost predicate Breaks(classify: Classifier, breaks: Observer, input: seq<Read>, at: nat) {
    && Reaches(classify, breaks, input, at) && at < |input|
    && ItemOf(classify, input[at]).Item? && ItemOf(classify, input[at]).line.Live?
    && breaks(Events(classify, input[..at + 1]))
  }

  /** The stream departs from the grammar with what it holds from `at`. */
  ghost predicate Departs(classify: Classifier, breaks: Observer, input: seq<Read>, at: nat, error: StreamError) {
    && Reaches(classify, breaks, input, at)
    && (at == |input| ==> error == NoTerminalLine)
    && (at < |input| ==>
          var item := ItemOf(classify, input[at]);
          || item == Wrong(error)
          || (item.Item? && item.line.Terminal?
              && exists j :: at < j < |input| && AllBlank(classify, input[at + 1..j])
                             && TrailingError(classify, input[j]) == Some(error)))
  }

  /** Anything but a blank line after the terminal one. */
  function TrailingError(classify: Classifier, read: Read): Option<StreamError> {
    match read
    case Unreadable => Some(CouldNotRead)
    case Line(text) => if Trimmed(text) == "" then None else Some(AfterTerminal(Trimmed(text)))
  }

  /** How reading ended, and where. */
  ghost predicate Ends(classify: Classifier, breaks: Observer, input: seq<Read>, at: nat,
                       outcome: Result<StreamOutcome, StreamError>) {
    match outcome
    case Ok(Report(report)) => Finishes(classify, breaks, input, at, report)
    case Ok(Aborted) => Breaks(classify, breaks, input, at)
    case Err(error) => Departs(classify, breaks, input, at, error)
  }

  /** The events delivered: everything up to the stop, the one broken on included. */
  function Delivered(classify: Classifier, input: seq<Read>, at: nat, outcome: Result<StreamOutcome, StreamError>):
    seq<HarnessEvent>
    requires at <= |input|
  {
    if outcome == Ok(Aborted) && at < |input| then Events(classify, input[..at + 1]) else Events(classify, input[..at])
  }

  lemma OneMoreRead(classify: Classifier, input: seq<Read>, at: nat)
    requires at < |input|
    ensures input[..at + 1][..at] == input[..at]
    ensures Open(classify, input[..at + 1]) <==> Open(classify, input[..at]) && IsLive(ItemOf(classify, input[at]))
    ensures Events(classify, input[..at + 1])
            == var item := ItemOf(classify, input[at]);
               if item.Item? && item.line.Live? then Events(classify, input[..at]) + [item.line.event]
               else Events(classify, input[..at])
  {
    var more := input[..at + 1];
    assert Events(classify, input[..at]) + [] == Events(classify, input[..at]);
    assert more[..at] == input[..at];
    forall i | 0 <= i < at ensures more[i] == input[..at][i] {}
  }

  lemma {:induction false} EventsGrow(classify: Classifier, input: seq<Read>, a: nat, b: nat)
    requires a <= b <= |input|
    ensures Events(classify, input[..a]) <= Events(classify, input[..b])
  {
    hide Events, ItemOf;
    if a < b {
      EventsGrow(classify, input, a, b - 1);
      OneMoreRead(classify, input, b - 1);
    }
  }

  /** One stream ends in one way only: so there is a report exactly when the whole of it is in the
      grammar and the observer broke on none of its events. */
  lemma EndsUnique(classify: Classifier, breaks: Observer, input: seq<Read>, a: nat, b: nat,
                   x: Result<StreamOutcome, StreamError>, y: Result<StreamOutcome, StreamError>)
    requires Ends(classify, breaks, input, a, x) && Ends(classify, breaks, input, b, y)
    ensures a == b && x == y
  {
    hide Events, ItemOf, AllBlank, TrailingError;
    if a < b {
      ReachesPast(classify, breaks, input, a, b);
    } else if b < a {
      ReachesPast(classify, breaks, input, b, a);
    } else {
      EndsAlike(classify, breaks, input, a, x, y);
    }
  }

  /** What is read past was live, and not broken on. */
  lemma ReachesPast(classify: Classifier, breaks: Observer, input: seq<Read>, a: nat, b: nat)
    requires Reaches(classify, breaks, input, b) && a < b
    ensures IsLive(ItemOf(classify, input[a]))
    ensures ItemOf(classify, input[a]).Item? ==> !breaks(Events(classify, input[..a + 1]))
  {
    hide Events, ItemOf;
    assert input[..b][a] == input[a];
    EventsGrow(classify, input, a + 1, b);
    OneMoreRead(classify, input, a);
    var shown := Events(classify, input[..a + 1]);
    var all := Events(classify, input[..b]);
    assert all[..|shown|] == shown;
  }

  /** Only one read is the first after `from` that is not blank. */
  lemma FirstTrailing(classify: Classifier, input: seq<Read>, from: nat, j: nat, k: nat)
    requires from <= j < |input| && from <= k <= |input|
    requires TrailingError(classify, input[j]).Some? && AllBlank(classify, input[from..k])
    ensures k <= j
  {
  }

  lemma TrailingAlike(classify: Classifier, input: seq<Read>, at: nat, e: StreamError, f: StreamError)
    requires at < |input| && ItemOf(classify, input[at]).Item?
    requires exists j :: at < j < |input| && AllBlank(classify, input[at + 1..j])
                         && TrailingError(classify, input[j]) == Some(e)
    ensures !AllBlank(classify, input[at + 1..])
    ensures (exists k :: at < k < |input| && AllBlank(classify, input[at + 1..k])
                         && TrailingError(classify, input[k]) == Some(f)) ==> e == f
  {
    hide AllBlank, TrailingError;
    var j :| at < j < |input| && AllBlank(classify, input[at + 1..j]) && TrailingError(classify, input[j]) == Some(e);
    if AllBlank(classify, input[at + 1..]) {
      assert input[at + 1..] == input[at + 1..|input|];
      FirstTrailing(classify, input, at + 1, j, |input|);
    }
    if k :| at < k < |input| && AllBlank(classify, input[at + 1..k]) && TrailingError(classify, input[k]) == Some(f) {
      FirstTrailing(classify, input, at + 1, j, k);
      FirstTrailing(classify, input, at + 1, k, j);
    }
  }

  lemma EndsAlike(classify: Classifier, breaks: Observer, input: seq<Read>, at: nat,
                  x: Result<StreamOutcome, StreamError>, y: Result<StreamOutcome, StreamError>)
    requires Ends(classify, breaks, input, at, x) && Ends(classify, breaks, input, at, y) && at <= |input|
    ensures x == y
  {
    hide Events, Reaches, AllBlank, TrailingError;
    if at < |input| {
      var item := ItemOf(classify, input[at]);
      if item.Item? && item.line.Terminal? {
        if x.Err? {
          TrailingAlike(classify, input, at, x.error, if y.Err? then y.error else x.error);
          assert y.Err? && y.error == x.error;
        } else {
          if y.Err? { TrailingAlike(classify, input, at, y.error, y.error); }
          assert x == Ok(Report(item.line.report)) && y == x;
        }
      } else if item.Item? {
        assert x == Ok(Aborted) && y == x;
      } else {
        assert item.Wrong? && x == Err(item.error) && y == x;
      }
    } else {
      assert x == Err(NoTerminalLine) && y == x;
    }
  }

  /** `read_stream`, with everything it delivered and collected. */
  method ReadStream(input: seq<Read>, classify: Classifier, breaks: Observer)
    returns (outcome: Result<StreamOutcome, StreamError>, delivered: seq<HarnessEvent>, tools: seq<ToolEvent>,
             ghost at: nat)
    ensures at <= |input| && Ends(classify, breaks, input, at, outcome)
    ensures delivered == Delivered(classify, input, at, outcome)
    ensures tools == ToolsOf(delivered)
  {
    hide Events, ToolsOf, Unbroken, TrimEnd, TrimStart, Trimmed;
    NothingRead(classify, breaks, input);
    delivered, tools := [], [];
    var next := 0;
    while true
      invariant Reaches(classify, breaks, input, next)
      invariant delivered == Events(classify, input[..next]) && tools == ToolsOf(delivered)
      decreases |input| - next
    {
      at := next;
      if next == |input| {
        return Err(NoTerminalLine), delivered, tools, at;
      }
      var read := input[next];
      OneMoreRead(classify, input, next);
      next := next + 1;
      if read.Unreadable? {
        return Err(CouldNotRead), delivered, tools, at;
      }
      var trimmed := Trimmed(read.text);
      if trimmed == "" {
        continue;
      }
      var line := classify(trimmed);
      match line
      case None =>
        return Err(Malformed(trimmed)), delivered, tools, at;
      case Some(Live(event)) =>
        Delivers(breaks, delivered, event);
        delivered := delivered + [event];
        tools := tools + if event.Acted? && event.tool.Some? then [event.tool.value] else [];
        if breaks(delivered) {
          return Ok(Aborted), delivered, tools, at;
        }
      case Some(Terminal(report)) =>
        var trailing := ReadEof(input, next, classify);
        return if trailing.Some? then Err(trailing.value) else Ok(Report(report)), delivered, tools, at;
    }
  }

  lemma NothingRead(classify: Classifier, breaks: Observer, input: seq<Read>)
    ensures Reaches(classify, breaks, input, 0) && Events(classify, input[..0]) == [] && ToolsOf([]) == []
  {
  }

  lemma Delivers(breaks: Observer, delivered: seq<HarnessEvent>, event: HarnessEvent)
    requires Unbroken(breaks, delivered)
    ensures !breaks(delivered + [event]) ==> Unbroken(breaks, delivered + [event])
    ensures ToolsOf(delivered + [event])
            == ToolsOf(delivered) + if event.Acted? && event.tool.Some? then [event.tool.value] else []
  {
    var more := delivered + [event];
    assert more[..|delivered|] == delivered;
    if !breaks(more) {
      forall n | 0 < n <= |more| ensures !breaks(more[..n]) {
        if n <= |delivered| { assert more[..n] == delivered[..n]; } else { assert more[..n] == more; }
      }
    }
  }

  /** `read_eof`: nothing but blank lines may follow. */
  method ReadEof(input: seq<Read>, from: nat, classify: Classifier) returns (error: Option<StreamError>)
    requires from <= |input|
    ensures match error
            case None => AllBlank(classify, input[from..])
            case Some(e) =>
              exists j :: from <= j < |input| && AllBlank(classify, input[from..j])
                          && TrailingError(classify, input[j]) == Some(e)
  {
    hide TrimEnd, TrimStart, Trimmed;
    var next := from;
    while next < |input|
      invariant from <= next <= |input| && AllBlank(classify, input[from..next])
    {
      var read := input[next];
      if read.Unreadable? {
        return Some(CouldNotRead);
      }
      var trimmed := Trimmed(read.text);
      if trimmed != "" {
        return Some(AfterTerminal(trimmed));
      }
      next := next + 1;
      assert input[from..next] == input[from..next - 1] + [read];
    }
    error := None;
  }
}
