/** One worker call, appended as the turns it really was (engine.rs `push_redirected`): where the
    code cuts its events, when that cut panics, and when it is the cut that was meant. */
module Redirects {
  import opened Wrappers
  import opened Text
  import opened Transcripts
  import opened LiveTurn
  import opened Notes

  function Max(a: nat, b: nat): nat { if a < b then b else a }

  function Min(a: nat, b: nat): nat { if a < b then a else b }

  /** `Ord::clamp`, which panics when `lo > hi`. */
  function Clamp(x: nat, lo: nat, hi: nat): nat
    requires lo <= hi
  {
    Max(lo, Min(x, hi))
  }

  /** Where the code cuts `total` events, having already given away `tools` of them: each recorded
      count is clamped to the number of events still left, not to their total. `None` is a panic. */
  function Cuts(redirects: seq<Redirect>, tools: nat, total: nat): Option<seq<nat>>
    requires tools <= total
  {
    if redirects == [] then Some([])
    else if tools > total - tools then None
    else
      var upto := Clamp(redirects[0].at.tools, tools, total - tools);
      var rest := Cuts(redirects[1..], upto, total);
      if rest.None? then None else Some([upto] + rest.value)
  }

  /** The evident intent: each recorded count, clamped to the total. */
  function IntendedCuts(redirects: seq<Redirect>, tools: nat, total: nat): (cuts: seq<nat>)
    requires tools <= total
    ensures |cuts| == |redirects|
  {
    if redirects == [] then []
    else
      var upto := Clamp(redirects[0].at.tools, tools, total);
      [upto] + IntendedCuts(redirects[1..], upto, total)
  }

  /** Cuts that divide `total` events, in order, past the first `tools`. */
  predicate Divides(cuts: seq<nat>, tools: nat, total: nat) {
    if cuts == [] then tools <= total else tools <= cuts[0] && Divides(cuts[1..], cuts[0], total)
  }

  lemma {:induction false} CutsDivide(redirects: seq<Redirect>, tools: nat, total: nat)
    requires tools <= total
    ensures var cuts := Cuts(redirects, tools, total);
            cuts.Some? ==> |cuts.value| == |redirects| && Divides(cuts.value, tools, total)
    ensures Divides(IntendedCuts(redirects, tools, total), tools, total)
  {
    if redirects != [] {
      if tools <= total - tools {
        CutsDivide(redirects[1..], Clamp(redirects[0].at.tools, tools, total - tools), total);
      }
      CutsDivide(redirects[1..], Clamp(redirects[0].at.tools, tools, total), total);
    }
  }

  lemma {:induction false} DividesWithin(cuts: seq<nat>, tools: nat, total: nat)
    requires Divides(cuts, tools, total)
    ensures tools <= total && (cuts != [] ==> cuts[0] <= total)
  {
    if cuts != [] { DividesWithin(cuts[1..], cuts[0], total); }
  }

  /** What an interrupted turn said: the texts observed since the last redirect. */
  function Said(texts: seq<string>, from: nat): string {
    Join(if from <= |texts| then texts[from..] else [], "\n")
  }

  /** The turns a call holding `redirects` really was, cut at `cuts`. */
  function Turns(redirects: seq<Redirect>, cuts: seq<nat>, tools: nat, texts: nat, message: string,
                 events: seq<ToolEvent>): seq<Message>
    requires |cuts| == |redirects| && Divides(cuts, tools, |events|)
  {
    DividesWithin(cuts, tools, |events|);
    if redirects == [] then [FromAssistant(message, events[tools..])]
    else
      var at := redirects[0].at;
      [FromAssistant(Said(at.texts, texts), events[tools..cuts[0]]), FromUser(redirects[0].input)]
      + Turns(redirects[1..], cuts[1..], cuts[0], Max(|at.texts|, texts), message, events)
  }

  /** Whatever the cuts: one assistant message a turn and one user message a redirect, alternating,
      each redirect's own text between the turn it ended and the one it opened, the reply last. */
  lemma {:induction false} TurnsShape(redirects: seq<Redirect>, cuts: seq<nat>, tools: nat, texts: nat,
                                      message: string, events: seq<ToolEvent>)
    requires |cuts| == |redirects| && Divides(cuts, tools, |events|)
    ensures var turns := Turns(redirects, cuts, tools, texts, message, events);
            && |turns| == 2 * |redirects| + 1
            && turns[0].role == Assistant
            && turns[|turns| - 1].role == Assistant && turns[|turns| - 1].content == message
            && Alternates(turns)
            && (forall k :: 0 <= k < |redirects| ==> turns[2 * k + 1] == FromUser(redirects[k].input))
  {
    DividesWithin(cuts, tools, |events|);
    if redirects != [] {
      var at := redirects[0].at;
      var from := Max(|at.texts|, texts);
      var rest := Turns(redirects[1..], cuts[1..], cuts[0], from, message, events);
      TurnsShape(redirects[1..], cuts[1..], cuts[0], from, message, events);
      TwoMore(FromAssistant(Said(at.texts, texts), events[tools..cuts[0]]), FromUser(redirects[0].input), rest);
      forall k | 1 <= k < |redirects| ensures redirects[k] == redirects[1..][k - 1] {
      }
    }
  }

  lemma TwoMore(a: Message, b: Message, rest: seq<Message>)
    requires a.role == Assistant && b.role == User && rest != [] && Alternates(rest)
    ensures var all := [a, b] + rest;
            && Alternates(all) && all[0] == a && all[1] == b && all[|all| - 1] == rest[|rest| - 1]
            && forall k :: 1 <= k && 2 * k + 1 < |all| ==> all[2 * k + 1] == rest[2 * (k - 1) + 1]
  {
    AlternatesConcat([a, b], rest);
  }

  /** No event is lost, repeated or moved, and one assistant turn is counted a turn. */
  lemma {:induction false} TurnsKeepEvents(redirects: seq<Redirect>, cuts: seq<nat>, tools: nat, texts: nat,
                                           message: string, events: seq<ToolEvent>)
    requires |cuts| == |redirects| && Divides(cuts, tools, |events|)
    ensures tools <= |events|
    ensures var turns := Turns(redirects, cuts, tools, texts, message, events);
            EventsOf(turns) == events[tools..] && AssistantTurns(turns) == |redirects| + 1
  {
    DividesWithin(cuts, tools, |events|);
    if redirects == [] {
      FirstOne(FromAssistant(message, events[tools..]));
    } else {
      var at := redirects[0].at;
      var from := Max(|at.texts|, texts);
      var rest := Turns(redirects[1..], cuts[1..], cuts[0], from, message, events);
      TurnsKeepEvents(redirects[1..], cuts[1..], cuts[0], from, message, events);
      FirstPair(FromAssistant(Said(at.texts, texts), events[tools..cuts[0]]), redirects[0].input, rest);
      assert events[tools..] == events[tools..cuts[0]] + events[cuts[0]..];
    }
  }

  /** Each redirect was measured with all that the one before it was. */
  predicate Grows(redirects: seq<Redirect>) {
    forall i, j :: 0 <= i <= j < |redirects| ==> redirects[i].at.texts <= redirects[j].at.texts
  }

  function Dealt(shares: seq<seq<string>>): seq<string> {
    if shares == [] then [] else shares[0] + Dealt(shares[1..])
  }

  /** `shares` deal out what had been observed, past the first `texts`, by the time of each redirect; and each
      interrupted turn says its own share. */
  ghost predicate Shares(redirects: seq<Redirect>, texts: nat, turns: seq<Message>, shares: seq<seq<string>>) {
    && |shares| == |redirects| && |turns| == 2 * |redirects| + 1
    && forall k :: 0 <= k < |redirects| ==>
         && texts <= |redirects[k].at.texts| && Dealt(shares[..k + 1]) == redirects[k].at.texts[texts..]
         && turns[2 * k].content == Join(shares[k], "\n") && HoldsInOrder(turns[2 * k].content, shares[k])
  }

  lemma {:induction false} TurnsShare(redirects: seq<Redirect>, cuts: seq<nat>, tools: nat, texts: nat, message: string,
                                      events: seq<ToolEvent>) returns (shares: seq<seq<string>>)
    requires |cuts| == |redirects| && Divides(cuts, tools, |events|) && Grows(redirects)
    requires redirects != [] ==> texts <= |redirects[0].at.texts|
    ensures Shares(redirects, texts, Turns(redirects, cuts, tools, texts, message, events), shares)
  {
    shares := [];
    if redirects != [] {
      hide Shares, Grows;
      DividesWithin(cuts, tools, |events|);
      var at := redirects[0].at;
      RestGrows(redirects);
      var rest := TurnsShare(redirects[1..], cuts[1..], cuts[0], |at.texts|, message, events);
      var turns := Turns(redirects[1..], cuts[1..], cuts[0], |at.texts|, message, events);
      var first := [FromAssistant(Said(at.texts, texts), events[tools..cuts[0]]), FromUser(redirects[0].input)];
      shares := [at.texts[texts..]] + rest;
      JoinHolds(at.texts[texts..], "\n");
      OneMoreShare(redirects, texts, first, turns, rest);
    }
  }

  lemma RestGrows(redirects: seq<Redirect>)
    requires Grows(redirects) && redirects != []
    ensures Grows(redirects[1..]) && (|redirects| > 1 ==> redirects[0].at.texts <= redirects[1].at.texts)
  {
  }

  lemma OneMoreShare(redirects: seq<Redirect>, texts: nat, first: seq<Message>, turns: seq<Message>,
                     rest: seq<seq<string>>)
    requires redirects != [] && Grows(redirects) && texts <= |redirects[0].at.texts| && |first| == 2
    requires Shares(redirects[1..], |redirects[0].at.texts|, turns, rest)
    requires first[0].content == Join(redirects[0].at.texts[texts..], "\n")
    requires HoldsInOrder(first[0].content, redirects[0].at.texts[texts..])
    ensures Shares(redirects, texts, first + turns, [redirects[0].at.texts[texts..]] + rest)
  {
    hide HoldsInOrder, Join;
    var mine := redirects[0].at.texts[texts..];
    var shares, all := [mine] + rest, first + turns;
    forall k | 0 <= k < |redirects|
      ensures texts <= |redirects[k].at.texts| && Dealt(shares[..k + 1]) == redirects[k].at.texts[texts..]
      ensures all[2 * k].content == Join(shares[k], "\n") && HoldsInOrder(all[2 * k].content, shares[k])
    {
      FirstShare(mine, rest, k);
      assert redirects[0].at.texts <= redirects[k].at.texts;
      if k > 0 {
        assert redirects[1..][k - 1] == redirects[k];
        assert all[2 * k] == turns[2 * (k - 1)];
        assert redirects[k].at.texts[texts..]
               == mine + redirects[k].at.texts[|redirects[0].at.texts|..];
      }
    }
  }

  lemma FirstShare(mine: seq<string>, rest: seq<seq<string>>, k: nat)
    requires k <= |rest|
    ensures var shares := [mine] + rest; Dealt(shares[..k + 1]) == mine + Dealt(rest[..k])
    ensures k == 0 ==> Dealt(([mine] + rest)[..1]) == mine
  {
    var some := ([mine] + rest)[..k + 1];
    assert some[0] == mine && some[1..] == rest[..k];
  }

  /** Every text observed by the last redirect is in exactly one interrupted turn, in order: that of the first
      redirect measured with it. */
  lemma EachTextSaidOnce(redirects: seq<Redirect>, cuts: seq<nat>, message: string, events: seq<ToolEvent>)
    returns (shares: seq<seq<string>>)
    requires |cuts| == |redirects| && Divides(cuts, 0, |events|) && Grows(redirects)
    ensures var turns := Turns(redirects, cuts, 0, 0, message, events);
            && |shares| == |redirects| && |turns| == 2 * |redirects| + 1
            && (forall k :: 0 <= k < |redirects| ==>
                  && Dealt(shares[..k + 1]) == redirects[k].at.texts
                  && turns[2 * k].content == Join(shares[k], "\n") && HoldsInOrder(turns[2 * k].content, shares[k]))
  {
    hide Turns, HoldsInOrder, Join, Dealt;
    shares := TurnsShare(redirects, cuts, 0, 0, message, events);
  }

  lemma FirstOne(first: Message)
    ensures EventsOf([first]) == first.events
    ensures AssistantTurns([first]) == if first.role == Assistant then 1 else 0
  {
    assert [first][..0] == [];
    assert [] + first.events == first.events;
  }

  lemma FirstPair(first: Message, input: string, rest: seq<Message>)
    requires first.role == Assistant
    ensures EventsOf([first, FromUser(input)] + rest) == first.events + EventsOf(rest)
    ensures AssistantTurns([first, FromUser(input)] + rest) == 1 + AssistantTurns(rest)
  {
    assert [first, FromUser(input)] + rest == [first] + ([FromUser(input)] + rest);
    FirstOne(first);
    FirstOne(FromUser(input));
    EventsConcat([first], [FromUser(input)] + rest);
    EventsConcat([FromUser(input)], rest);
    TurnsConcat([first], [FromUser(input)] + rest);
    TurnsConcat([FromUser(input)], rest);
    assert [] + EventsOf(rest) == EventsOf(rest);
  }

  /** The whole call as the code appends it; `None` when its clamp panics on the way. */
  function Appended(redirects: seq<Redirect>, tools: nat, texts: nat, message: string,
                    events: seq<ToolEvent>): Option<seq<Message>>
    requires tools <= |events|
  {
    if redirects == [] then Some([FromAssistant(message, events[tools..])])
    else if tools > |events| - tools then None
    else
      var at := redirects[0].at;
      var upto := Clamp(at.tools, tools, |events| - tools);
      Extend([FromAssistant(Said(at.texts, texts), events[tools..upto]), FromUser(redirects[0].input)],
            Appended(redirects[1..], upto, Max(|at.texts|, texts), message, events))
  }

  function Extend(before: seq<Message>, more: Option<seq<Message>>): Option<seq<Message>> {
    match more case None => None case Some(m) => Some(before + m)
  }

  /** It panics exactly when its cuts do, and otherwise appends the turns they divide the call into. */
  lemma {:induction false} AppendedIsCut(redirects: seq<Redirect>, tools: nat, texts: nat, message: string,
                                         events: seq<ToolEvent>)
    requires tools <= |events|
    ensures var cuts := Cuts(redirects, tools, |events|);
            && (cuts.Some? ==> |cuts.value| == |redirects| && Divides(cuts.value, tools, |events|))
            && Appended(redirects, tools, texts, message, events)
               == if cuts.None? then None else Some(Turns(redirects, cuts.value, tools, texts, message, events))
  {
    CutsDivide(redirects, tools, |events|);
    if redirects != [] && tools <= |events| - tools {
      var at := redirects[0].at;
      AppendedIsCut(redirects[1..], Clamp(at.tools, tools, |events| - tools), Max(|at.texts|, texts), message, events);
    }
  }

  /** Handing over one interrupted turn leaves the rest of the call to append. */
  lemma AppendedStep(redirects: seq<Redirect>, i: nat, tools: nat, texts: nat, message: string,
                     events: seq<ToolEvent>, before: seq<Message>)
    requires i < |redirects| && tools <= |events| && tools <= |events| - tools
    ensures var redirect := redirects[i];
            var upto := Clamp(redirect.at.tools, tools, |events| - tools);
            var left := events[tools..];
            && left[upto - tools..] == events[upto..]
            && Extend(before, Appended(redirects[i..], tools, texts, message, events))
               == Extend(before + [FromAssistant(Said(redirect.at.texts, texts), left[..upto - tools])]
                        + [FromUser(redirect.input)],
                        Appended(redirects[i + 1..], upto, Max(|redirect.at.texts|, texts), message, events))
  {
    var redirect := redirects[i];
    var upto := Clamp(redirect.at.tools, tools, |events| - tools);
    var pair := [FromAssistant(Said(redirect.at.texts, texts), events[tools..upto]), FromUser(redirect.input)];
    assert redirects[i..][1..] == redirects[i + 1..];
    assert events[tools..][..upto - tools] == events[tools..upto];
    var more := Appended(redirects[i + 1..], upto, Max(|redirect.at.texts|, texts), message, events);
    if more.Some? {
      assert before + (pair + more.value) == before + [pair[0]] + [pair[1]] + more.value;
    }
  }

  /** engine.rs `push_redirected`: `left` is the vector it drains. */
  method PushRedirected(transcript: Transcript, redirects: seq<Redirect>, message: string,
                        events: seq<ToolEvent>) returns (panicked: bool)
    modifies transcript
    ensures panicked <==> Cuts(redirects, 0, |events|).None?
    ensures old(transcript.messages) <= transcript.messages
    ensures !panicked ==>
              Some(transcript.messages) == Extend(old(transcript.messages), Appended(redirects, 0, 0, message, events))
  {
    AppendedIsCut(redirects, 0, 0, message, events);
    ghost var goal := Extend(transcript.messages, Appended(redirects, 0, 0, message, events));
    var left := events;
    var tools: nat, texts: nat := 0, 0;
    for i := 0 to |redirects|
      invariant tools <= |events| && left == events[tools..]
      invariant old(transcript.messages) <= transcript.messages
      invariant Extend(transcript.messages, Appended(redirects[i..], tools, texts, message, events)) == goal
    {
      var redirect := redirects[i];
      if tools > |left| {
        return true;
      }
      var upto := Clamp(redirect.at.tools, tools, |left|);
      AppendedStep(redirects, i, tools, texts, message, events, transcript.messages);
      transcript.Push(FromAssistant(Said(redirect.at.texts, texts), left[..upto - tools]));
      transcript.Push(FromUser(redirect.input));
      left, tools, texts := left[upto - tools..], upto, Max(|redirect.at.texts|, texts);
    }
    transcript.Push(FromAssistant(message, left));
    panicked := false;
  }

  // ---------------------------------------------------------------- when the cut is legal

  /** The largest count recorded by the first `j` redirects, and at least `tools`. */
  function Reach(redirects: seq<Redirect>, tools: nat, j: nat): nat
    requires j <= |redirects|
  {
    if j == 0 then tools else Reach(redirects[1..], Max(tools, redirects[0].at.tools), j - 1)
  }

  lemma {:induction false} ReachIsLargest(redirects: seq<Redirect>, tools: nat, j: nat)
    requires j <= |redirects|
    ensures Reach(redirects, tools, j) >= tools
    ensures forall i :: 0 <= i < j ==> redirects[i].at.tools <= Reach(redirects, tools, j)
    ensures Reach(redirects, tools, j) == tools
            || exists i :: 0 <= i < j && redirects[i].at.tools == Reach(redirects, tools, j)
  {
    if j > 0 {
      var rest := redirects[1..];
      ReachIsLargest(rest, Max(tools, redirects[0].at.tools), j - 1);
      forall i | 0 < i < j ensures redirects[i] == rest[i - 1] {}
      if Reach(redirects, tools, j) != tools && Reach(redirects, tools, j) != redirects[0].at.tools {
        var i :| 0 <= i < j - 1 && rest[i].at.tools == Reach(redirects, tools, j);
        assert redirects[i + 1].at.tools == Reach(redirects, tools, j);
      }
    }
  }

  lemma {:induction false} ReachGrows(redirects: seq<Redirect>, tools: nat, i: nat, j: nat)
    requires i <= j <= |redirects|
    ensures Reach(redirects, tools, i) <= Reach(redirects, tools, j)
  {
    if i == 0 {
      ReachIsLargest(redirects, tools, j);
    } else {
      ReachGrows(redirects[1..], Max(tools, redirects[0].at.tools), i - 1, j - 1);
    }
  }

  /** Some prefix of all but the last redirect recorded exactly half of the events. */
  ghost predicate ReachesHalf(redirects: seq<Redirect>, tools: nat, total: nat) {
    exists j :: 0 <= j < |redirects| && 2 * Reach(redirects, tools, j) == total
  }

  /** The clamp never panics exactly when there is no redirect, or every redirect but the last was
      measured within the first half of the call's events, or their largest count once stood at
      exactly half (and the clamp then holds it there). */
  lemma {:induction false} ClampLegal(redirects: seq<Redirect>, tools: nat, total: nat)
    requires tools <= total
    ensures Cuts(redirects, tools, total).Some?
            <==> redirects == [] || 2 * Reach(redirects, tools, |redirects| - 1) <= total
                 || ReachesHalf(redirects, tools, total)
    decreases |redirects|, 1
  {
    if redirects != [] {
      ReachIsLargest(redirects, tools, |redirects| - 1);
      if ReachesHalf(redirects, tools, total) {
        var j :| 0 <= j < |redirects| && 2 * Reach(redirects, tools, j) == total;
        ReachIsLargest(redirects, tools, j);
      }
      if tools <= total - tools {
        ClampLegalStep(redirects, tools, total);
      }
    }
  }

  lemma {:induction false} ClampLegalStep(redirects: seq<Redirect>, tools: nat, total: nat)
    requires redirects != [] && 2 * tools <= total
    ensures Cuts(redirects, tools, total).Some?
            <==> 2 * Reach(redirects, tools, |redirects| - 1) <= total || ReachesHalf(redirects, tools, total)
    decreases |redirects|, 0
  {
    var rest := redirects[1..];
    var at := redirects[0].at.tools;
    var upto := Clamp(at, tools, total - tools);
    ClampLegal(rest, upto, total);
    if at <= total - tools {
      HalfShifts(redirects, tools, total);
    } else if rest != [] {
      ReachGrows(redirects, tools, 1, |rest|);
      forall j | 1 <= j < |redirects| ensures Reach(redirects, tools, j) >= at {
        ReachGrows(redirects, tools, 1, j);
      }
      assert 2 * tools == total ==> Reach(rest, upto, 0) == upto && Reach(redirects, tools, 0) == tools;
    }
  }

  lemma HalfShifts(redirects: seq<Redirect>, tools: nat, total: nat)
    requires redirects != [] && redirects[0].at.tools <= total - tools && 2 * tools <= total
    ensures |redirects| > 1 ==>
              (ReachesHalf(redirects, tools, total)
               <==> ReachesHalf(redirects[1..], Max(tools, redirects[0].at.tools), total))
  {
    var rest, upto := redirects[1..], Max(tools, redirects[0].at.tools);
    forall j | 0 <= j < |rest| ensures Reach(rest, upto, j) == Reach(redirects, tools, j + 1) {}
    if |redirects| > 1 && ReachesHalf(redirects, tools, total) {
      var j :| 0 <= j < |redirects| && 2 * Reach(redirects, tools, j) == total;
      assert 2 * Reach(rest, upto, if j == 0 then 0 else j - 1) == total;
    }
    if ReachesHalf(rest, upto, total) {
      var j :| 0 <= j < |rest| && 2 * Reach(rest, upto, j) == total;
      assert 2 * Reach(redirects, tools, j + 1) == total;
    }
  }

  // ---------------------------------------------------------------- when the cut is the one meant

  /** The intended cuts divide the events at each recorded count, cut short only by the total. */
  lemma {:induction false} IntendedCut(redirects: seq<Redirect>, tools: nat, total: nat, i: nat)
    requires tools <= total && i < |redirects|
    ensures IntendedCuts(redirects, tools, total)[i] == Min(Reach(redirects, tools, i + 1), total)
  {
    var upto := Clamp(redirects[0].at.tools, tools, total);
    if i > 0 {
      IntendedCut(redirects[1..], upto, total, i - 1);
      ReachClamped(redirects[1..], Max(tools, redirects[0].at.tools), total, i);
    }
  }

  /** Cutting the start short at the total only cuts the reach short at the total. */
  lemma {:induction false} ReachClamped(redirects: seq<Redirect>, tools: nat, total: nat, j: nat)
    requires j <= |redirects|
    ensures Min(Reach(redirects, Min(tools, total), j), total) == Min(Reach(redirects, tools, j), total)
  {
    if j > 0 {
      var at := redirects[0].at.tools;
      ReachClamped(redirects[1..], Max(tools, at), total, j - 1);
      ReachClamped(redirects[1..], Max(Min(tools, total), at), total, j - 1);
      assert Min(Max(tools, at), total) == Min(Max(Min(tools, total), at), total);
    }
  }

  /** The code cuts where it was meant to exactly when there is no redirect, or the last count and
      the largest before it, each cut short at the total, fit in the total together. */
  lemma {:induction false} CutsAsIntended(redirects: seq<Redirect>, tools: nat, total: nat)
    requires tools <= total
    ensures Cuts(redirects, tools, total) == Some(IntendedCuts(redirects, tools, total))
            <==> redirects == [] || FitsTogether(redirects, tools, total)
  {
    if redirects != [] {
      hide FitsTogether;
      var rest, at := redirects[1..], redirects[0].at.tools;
      if tools <= total - tools {
        var upto, meant := Clamp(at, tools, total - tools), Clamp(at, tools, total);
        CutsAsIntended(rest, upto, total);
        FirstCutDecides(Cuts(rest, upto, total), upto, IntendedCuts(rest, meant, total), meant);
        FitsOn(redirects, tools, total);
      } else {
        FitsNot(redirects, tools, total);
      }
    }
  }

  /** The last count, and the largest before it, each cut short at the total, fit in it together. */
  predicate FitsTogether(redirects: seq<Redirect>, tools: nat, total: nat)
    requires redirects != []
  {
    Min(Reach(redirects, tools, |redirects| - 1), total) + Min(Reach(redirects, tools, |redirects|), total) <= total
  }

  lemma FitsNot(redirects: seq<Redirect>, tools: nat, total: nat)
    requires redirects != [] && tools <= total && tools > total - tools
    ensures !FitsTogether(redirects, tools, total)
  {
    ReachIsLargest(redirects, tools, |redirects| - 1);
    ReachIsLargest(redirects, tools, |redirects|);
  }

  /** Whether they fit turns on whether the first cut is the one meant and the rest fit past it. */
  lemma FitsOn(redirects: seq<Redirect>, tools: nat, total: nat)
    requires redirects != [] && tools <= total - tools
    ensures var upto := Clamp(redirects[0].at.tools, tools, total - tools);
            FitsTogether(redirects, tools, total)
            <==> upto == Clamp(redirects[0].at.tools, tools, total)
                 && (redirects[1..] == [] || FitsTogether(redirects[1..], upto, total))
  {
    var rest, at := redirects[1..], redirects[0].at.tools;
    ReachIsLargest(redirects, tools, |rest|);
    ReachGrows(redirects, tools, 1, |redirects|);
    if at > total - tools && rest != [] {
      ReachGrows(redirects, tools, 1, |rest|);
      if tools == 0 {
        ReachIsLargest(rest, total, |rest|);
        ReachIsLargest(rest, total, |rest| - 1);
      }
    }
  }

  lemma FirstCutDecides(rest: Option<seq<nat>>, cut: nat, meantRest: seq<nat>, meant: nat)
    ensures rest.Some? ==>
              ([cut] + rest.value == [meant] + meantRest <==> cut == meant && rest.value == meantRest)
  {
    if rest.Some? && [cut] + rest.value == [meant] + meantRest {
      assert rest.value == ([cut] + rest.value)[1..];
      assert meantRest == ([meant] + meantRest)[1..];
    }
  }

  /** A call redirected at most once is always appended, and cut where it was meant to be. */
  lemma OneRedirectIsExact(redirects: seq<Redirect>, total: nat)
    requires |redirects| <= 1
    ensures Cuts(redirects, 0, total) == Some(IntendedCuts(redirects, 0, total))
  {
    CutsAsIntended(redirects, 0, total);
  }

  /** A redirect confirmed after `tools` tool events. */
  function After(note: Note, tools: nat): Redirect { Redirect(note, "", Observed(tools, [])) }

  /** A second redirect is enough for the clamp to panic, and for it to cut short without one:
      four events, redirects measured after three and three of them, and after two and four. */
  lemma TwoRedirectsMayFail(note: Note)
    ensures Cuts([After(note, 3), After(note, 3)], 0, 4) == None
    ensures Cuts([After(note, 2), After(note, 4)], 0, 4) == Some([2, 2])
    ensures IntendedCuts([After(note, 2), After(note, 4)], 0, 4) == [2, 4]
  {
    var none: seq<nat> := [];
    assert Cuts([After(note, 4)], 2, 4) == Some([2]) by {
      assert [After(note, 4)][1..] == [];
      assert [2] + none == [2];
    }
    assert IntendedCuts([After(note, 4)], 2, 4) == [4];
    assert [2] + [2] == [2, 2];
    assert [After(note, 3), After(note, 3)][1..] == [After(note, 3)];
    assert [After(note, 2), After(note, 4)][1..] == [After(note, 4)];
  }
}
