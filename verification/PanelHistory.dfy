/** Several judges at once, each asking the caller's one observer for leave before it goes on (panel.rs
    `supervise_observing`), as a small-step machine of the judges' threads and the caller's. */
module PanelHistory {
  import opened Wrappers
  import opened Providers

  datatype Flow = Continue | Break

  /** What a judge's thread comes back with. */
  type Answer = Result<SupervisorTurn, ProviderError>

  /** A judge's thread, with how many more times it may ask. */
  datatype Judge = Running(left: nat) | Waiting(request: nat, left: nat) | Finished(answer: Answer)

  datatype Caller = Receiving | Replying(flow: Flow) | Joining(joined: nat)

  /** `requests` is every request in arrival order, by the judge that made it; the first `taken` have
      been received, and `replies` answers the first of those. `shown` is what the observer saw, and
      `answers` the judges' own as they are joined. */
  datatype State = State(
    judges: seq<Judge>,
    caller: Caller,
    requests: seq<nat>,
    taken: nat,
    replies: seq<Flow>,
    shown: seq<nat>,
    stopped: bool,
    answers: seq<Answer>)

  datatype Action = Ask(judge: nat) | Finish(judge: nat, answer: Answer) | Receive | Reply | Close | Join

  /** The observer: any function of what it has been shown. */
  type Observer = seq<nat> -> bool

  predicate AllFinished(judges: seq<Judge>) {
    forall i :: 0 <= i < |judges| ==> judges[i].Finished?
  }

  ghost predicate Init(s: State) {
    && s.judges != [] && (forall i :: 0 <= i < |s.judges| ==> s.judges[i].Running?)
    && s == State(s.judges, Receiving, [], 0, [], [], false, [])
  }

  function JudgeStep(s: State, a: Action): Option<State> {
    match a
    case Ask(i) =>
      if i < |s.judges| && s.judges[i].Running? && s.judges[i].left > 0
      then Some(s.(judges := s.judges[i := Waiting(|s.requests|, s.judges[i].left - 1)],
                   requests := s.requests + [i]))
      else None
    case Finish(i, answer) =>
      if i < |s.judges| && s.judges[i].Running? then Some(s.(judges := s.judges[i := Finished(answer)])) else None
    case _ => None
  }

  /** One request taken off the channel and, unless the observer has stopped, shown to it. */
  function Received(breaks: Observer, s: State): State
    requires s.taken < |s.requests|
  {
    if s.stopped then s.(caller := Replying(Break), taken := s.taken + 1)
    else
      var shown := s.shown + [s.requests[s.taken]];
      s.(caller := Replying(if breaks(shown) then Break else Flow.Continue), taken := s.taken + 1,
         shown := shown, stopped := breaks(shown))
  }

  /** The rendezvous: the reply passes only to a judge that waits for it. */
  function Replied(s: State): Option<State> {
    var k := |s.replies|;
    if s.caller.Replying? && k < |s.requests| && s.requests[k] < |s.judges|
       && s.judges[s.requests[k]].Waiting? && s.judges[s.requests[k]].request == k
    then Some(s.(caller := Receiving, replies := s.replies + [s.caller.flow],
                 judges := s.judges[s.requests[k] := Running(s.judges[s.requests[k]].left)]))
    else None
  }

  /** The next thread in list order, joined. */
  function Joined(s: State): State
    requires s.caller.Joining? && s.caller.joined < |s.judges| && s.judges[s.caller.joined].Finished?
  {
    s.(caller := Joining(s.caller.joined + 1), answers := s.answers + [s.judges[s.caller.joined].answer])
  }

  function CallerStep(breaks: Observer, s: State, a: Action): Option<State> {
    match a
    case Receive => if s.caller.Receiving? && s.taken < |s.requests| then Some(Received(breaks, s)) else None
    case Reply => Replied(s)
    case Close =>
      if s.caller.Receiving? && s.taken == |s.requests| && AllFinished(s.judges)
      then Some(s.(caller := Joining(0))) else None
    case Join =>
      if s.caller.Joining? && s.caller.joined < |s.judges| && s.judges[s.caller.joined].Finished?
      then Some(Joined(s)) else None
    case _ => None
  }

  function Next(breaks: Observer, s: State, a: Action): Option<State> {
    if a.Ask? || a.Finish? then JudgeStep(s, a) else CallerStep(breaks, s, a)
  }

  /** Run `actions` from `s`; `None` when one of them is not enabled. */
  function Execute(breaks: Observer, s: State, actions: seq<Action>): Option<State>
    decreases |actions|
  {
    if actions == [] then Some(s)
    else
      var before := Execute(breaks, s, actions[..|actions| - 1]);
      if before.None? then None else Next(breaks, before.value, actions[|actions| - 1])
  }

  predicate Done(s: State) {
    s.caller == Joining(|s.judges|)
  }

  // ---------------------------------------------------------------- what every step keeps

  /** Every request not yet replied to is the one its judge waits on, and a judge waits only on
      such a request. */
  predicate Paired(s: State) {
    && (forall k :: 0 <= k < |s.requests| ==> s.requests[k] < |s.judges|)
    && (forall k :: |s.replies| <= k < |s.requests| ==>
          s.judges[s.requests[k]].Waiting? && s.judges[s.requests[k]].request == k)
    && (forall i :: 0 <= i < |s.judges| && s.judges[i].Waiting? ==>
          |s.replies| <= s.judges[i].request < |s.requests| && s.requests[s.judges[i].request] == i)
  }

  predicate Counted(s: State) {
    && s.taken <= |s.requests|
    && s.taken == |s.replies| + (if s.caller.Replying? then 1 else 0)
    && (s.caller.Joining? ==> s.caller.joined <= |s.judges| && AllFinished(s.judges) && s.taken == |s.requests|)
  }

  /** The observer saw the requests in arrival order up to the first it broke on, and every flow
      decided is Break exactly from that one on. */
  ghost predicate Ordered(breaks: Observer, s: State) {
    && |s.shown| <= s.taken <= |s.requests| && s.shown == s.requests[..|s.shown|]
    && (forall n :: 0 < n < |s.shown| ==> !breaks(s.shown[..n]))
    && (s.stopped <==> s.shown != [] && breaks(s.shown))
    && (!s.stopped ==> |s.shown| == s.taken)
    && (forall k :: 0 <= k < |s.replies| ==> (s.replies[k] == Break <==> s.stopped && k >= |s.shown| - 1))
    && (s.caller.Replying? ==> (s.caller.flow == Break <==> s.stopped && s.taken - 1 >= |s.shown| - 1))
  }

  /** The threads joined so far, in list order, each with its own answer. */
  predicate Collected(s: State) {
    && |s.answers| == (if s.caller.Joining? then s.caller.joined else 0) <= |s.judges|
    && forall i :: 0 <= i < |s.answers| ==> s.judges[i] == Finished(s.answers[i])
  }

  ghost predicate Inv(breaks: Observer, s: State) {
    s.judges != [] && Paired(s) && Counted(s) && Ordered(breaks, s) && Collected(s)
  }

  lemma AskKeeps(breaks: Observer, s: State, i: nat)
    requires Inv(breaks, s) && JudgeStep(s, Ask(i)).Some?
    ensures Inv(breaks, JudgeStep(s, Ask(i)).value)
  {
    var t := JudgeStep(s, Ask(i)).value;
    assert t.requests[..|t.shown|] == s.requests[..|s.shown|];
  }

  lemma FinishKeeps(breaks: Observer, s: State, i: nat, answer: Answer)
    requires Inv(breaks, s) && JudgeStep(s, Finish(i, answer)).Some?
    ensures Inv(breaks, JudgeStep(s, Finish(i, answer)).value)
  {
  }

  lemma ReceiveOrders(breaks: Observer, s: State)
    requires Ordered(breaks, s) && Counted(s) && s.caller.Receiving? && s.taken < |s.requests|
    ensures Ordered(breaks, Received(breaks, s))
  {
    var t := Received(breaks, s);
    if !s.stopped {
      assert s.requests[..s.taken + 1] == s.requests[..s.taken] + [s.requests[s.taken]];
      forall n | 0 < n < |t.shown| ensures !breaks(t.shown[..n]) {
        assert t.shown[..n] == s.shown[..n];
        if n == |s.shown| { assert s.shown[..n] == s.shown; }
      }
    }
  }

  lemma ReceiveKeeps(breaks: Observer, s: State)
    requires Inv(breaks, s) && s.caller.Receiving? && s.taken < |s.requests|
    ensures Inv(breaks, Received(breaks, s))
  {
    ReceiveOrders(breaks, s);
  }

  lemma ReplyKeeps(breaks: Observer, s: State)
    requires Inv(breaks, s) && Replied(s).Some?
    ensures Inv(breaks, Replied(s).value)
  {
  }

  lemma NextKeeps(breaks: Observer, s: State, a: Action)
    requires Inv(breaks, s) && Next(breaks, s, a).Some?
    ensures Inv(breaks, Next(breaks, s, a).value)
  {
    hide Paired, Ordered, Collected, Received, Replied, Joined;
    match a
    case Ask(i) => AskKeeps(breaks, s, i);
    case Finish(i, answer) => FinishKeeps(breaks, s, i, answer);
    case Receive => ReceiveKeeps(breaks, s);
    case Reply => ReplyKeeps(breaks, s);
    case Close => CloseKeeps(breaks, s);
    case Join => CloseKeeps(breaks, s);
  }

  lemma CloseKeeps(breaks: Observer, s: State)
    requires Inv(breaks, s)
    ensures s.caller.Receiving? && s.taken == |s.requests| && AllFinished(s.judges) ==>
              Inv(breaks, s.(caller := Joining(0)))
    ensures s.caller.Joining? && s.caller.joined < |s.judges| && s.judges[s.caller.joined].Finished? ==>
              Inv(breaks, Joined(s))
  {
  }

  lemma {:induction false} RunKeeps(breaks: Observer, s: State, actions: seq<Action>)
    requires Init(s) && Execute(breaks, s, actions).Some?
    ensures Inv(breaks, Execute(breaks, s, actions).value)
    ensures |Execute(breaks, s, actions).value.judges| == |s.judges|
    decreases |actions|
  {
    if actions != [] {
      var most := actions[..|actions| - 1];
      RunKeeps(breaks, s, most);
      NextKeeps(breaks, Execute(breaks, s, most).value, actions[|actions| - 1]);
    }
  }

  /** A judge finishes in one step of its own, and stays as it finished. */
  lemma NextFinishes(breaks: Observer, s: State, a: Action, i: nat)
    requires Inv(breaks, s) && Next(breaks, s, a).Some?
    requires i < |Next(breaks, s, a).value.judges| && Next(breaks, s, a).value.judges[i].Finished?
    ensures i < |s.judges|
    ensures || s.judges[i] == Next(breaks, s, a).value.judges[i]
            || a == Finish(i, Next(breaks, s, a).value.judges[i].answer)
  {
    hide Paired, Ordered, Counted, Collected;
  }

  /** A judge that has finished did so with the answer it holds. */
  lemma {:induction false} RunFinishes(breaks: Observer, s: State, actions: seq<Action>, i: nat)
    requires Init(s) && Execute(breaks, s, actions).Some?
    requires i < |Execute(breaks, s, actions).value.judges| && Execute(breaks, s, actions).value.judges[i].Finished?
    ensures Finish(i, Execute(breaks, s, actions).value.judges[i].answer) in actions
    decreases |actions|
  {
    hide Next, Inv;
    if actions != [] {
      var n := |actions| - 1;
      RunKeeps(breaks, s, actions[..n]);
      var before := Execute(breaks, s, actions[..n]).value;
      NextFinishes(breaks, before, actions[n], i);
      if before.judges[i].Finished? {
        RunFinishes(breaks, s, actions[..n], i);
      }
      assert actions[n] in actions;
    }
  }

  // ---------------------------------------------------------------- it always ends

  function Weight(judge: Judge): nat {
    match judge
    case Running(left) => 3 * left + 1
    case Waiting(_, left) => 3 * left + 2
    case Finished(_) => 0
  }

  function Weights(judges: seq<Judge>): nat {
    if judges == [] then 0 else Weights(judges[..|judges| - 1]) + Weight(judges[|judges| - 1])
  }

  /** How many steps are left at most. */
  function Remaining(s: State): nat
    requires s.taken <= |s.requests| && (s.caller.Joining? ==> s.caller.joined <= |s.judges|)
  {
    Weights(s.judges) + (|s.requests| - s.taken)
    + if s.caller.Joining? then |s.judges| - s.caller.joined else |s.judges| + 1
  }

  lemma {:induction false} WeightsChange(judges: seq<Judge>, i: nat, judge: Judge)
    requires i < |judges|
    ensures Weights(judges[i := judge]) + Weight(judges[i]) == Weights(judges) + Weight(judge)
  {
    var n := |judges| - 1;
    var changed := judges[i := judge];
    if i == n {
      assert changed[..n] == judges[..n];
    } else {
      WeightsChange(judges[..n], i, judge);
      assert changed[..n] == judges[..n][i := judge];
    }
  }

  /** Every step of every thread uses up what is left. */
  lemma NextDecreases(breaks: Observer, s: State, a: Action)
    requires Inv(breaks, s) && Next(breaks, s, a).Some?
    ensures Inv(breaks, Next(breaks, s, a).value)
    ensures Remaining(Next(breaks, s, a).value) < Remaining(s)
  {
    hide Paired, Ordered, Collected;
    NextKeeps(breaks, s, a);
    match a
    case Ask(i) => WeightsChange(s.judges, i, Waiting(|s.requests|, s.judges[i].left - 1));
    case Finish(i, answer) => WeightsChange(s.judges, i, Finished(answer));
    case Reply =>
      var i := s.requests[|s.replies|];
      WeightsChange(s.judges, i, Running(s.judges[i].left));
    case _ =>
  }

  /** No interleaving deadlocks: until every result is back, some thread can move. */
  lemma NeverStuck(breaks: Observer, s: State, actions: seq<Action>) returns (a: Action)
    requires Init(s) && Execute(breaks, s, actions).Some? && !Done(Execute(breaks, s, actions).value)
    ensures Next(breaks, Execute(breaks, s, actions).value, a).Some?
  {
    RunKeeps(breaks, s, actions);
    a := Moves(breaks, Execute(breaks, s, actions).value);
  }

  lemma Moves(breaks: Observer, s: State) returns (a: Action)
    requires Inv(breaks, s) && !Done(s)
    ensures Next(breaks, s, a).Some?
  {
    if s.caller.Replying? {
      a := Reply;
    } else if s.caller.Joining? {
      a := Join;
    } else if s.taken < |s.requests| {
      a := Receive;
    } else if AllFinished(s.judges) {
      a := Close;
    } else {
      var i :| 0 <= i < |s.judges| && !s.judges[i].Finished?;
      a := Finish(i, Err(ProviderError("", "", None)));
    }
  }

  /** A run takes at most as many steps as its judges may ask for. */
  lemma {:induction false} RunEnds(breaks: Observer, s: State, actions: seq<Action>)
    requires Init(s) && Execute(breaks, s, actions).Some?
    ensures Inv(breaks, Execute(breaks, s, actions).value)
    ensures |actions| + Remaining(Execute(breaks, s, actions).value) <= Remaining(s)
    decreases |actions|
  {
    if actions != [] {
      var most := actions[..|actions| - 1];
      RunEnds(breaks, s, most);
      NextDecreases(breaks, Execute(breaks, s, most).value, actions[|actions| - 1]);
    }
  }

  /** When the answers are back they are the judges' own, in list order however they finished; each request
      has had exactly one reply; the observer saw a prefix of the arrivals ending at the first it broke on,
      and every request from that one on was told Break. */
  lemma RunAnswers(breaks: Observer, s: State, actions: seq<Action>)
    requires Init(s) && Execute(breaks, s, actions).Some? && Done(Execute(breaks, s, actions).value)
    ensures var t := Execute(breaks, s, actions).value;
            && |t.answers| == |t.judges| == |s.judges|
            && (forall i: nat :: i < |t.answers| ==>
                  t.judges[i] == Finished(t.answers[i]) && Finish(i, t.answers[i]) in actions)
            && |t.replies| == |t.requests|
            && |t.shown| <= |t.requests| && t.shown == t.requests[..|t.shown|]
            && (t.stopped <==> t.shown != [] && breaks(t.shown))
            && (!t.stopped ==> t.shown == t.requests)
            && (forall n :: 0 < n < |t.shown| ==> !breaks(t.shown[..n]))
            && (forall k :: 0 <= k < |t.replies| ==> (t.replies[k] == Break <==> t.stopped && k >= |t.shown| - 1))
  {
    RunKeeps(breaks, s, actions);
    var t := Execute(breaks, s, actions).value;
    assert t.requests[..|t.requests|] == t.requests;
    forall i: nat | i < |t.answers| ensures Finish(i, t.answers[i]) in actions {
      RunFinishes(breaks, s, actions, i);
    }
  }
}
