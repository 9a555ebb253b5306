/** The watch over one live turn, as the loop it is (interrupt.rs `Watch`). What the other threads do
    between two of its steps is any function of how many steps it has taken. */
module Watches {
  import opened Wrappers
  import opened Text
  import opened Notes
  import opened LiveTurn
  import opened Transcripts

  datatype HarnessAction = Used(tool: ToolEvent) | Wrote(text: string) | Other

  /** What the engine's thread does to the watch in one slice of time: fold events, then perhaps end
      the turn. */
  datatype Slice = Slice(events: seq<HarnessAction>, ends: bool)

  /** Everything outside the watch: the other thread's slices, whether the socket listens yet, what
      the inbox holds at each look, and whether oneharness confirms a redirect. */
  datatype Beside = Beside(
    slice: nat -> Slice,
    listening: nat -> bool,
    queued: nat -> seq<Note>,
    confirms: nat -> bool)

  function Folded(o: Observed, event: HarnessAction): Observed {
    match event
    case Used(_) => o.(tools := o.tools + 1)
    case Wrote(text) => if Blank(text) then o else o.(texts := o.texts + [text])
    case Other => o
  }

  function FoldedAll(o: Observed, events: seq<HarnessAction>): Observed {
    if events == [] then o else Folded(FoldedAll(o, events[..|events| - 1]), events[|events| - 1])
  }

  lemma {:induction false} FoldedConcat(o: Observed, a: seq<HarnessAction>, b: seq<HarnessAction>)
    ensures FoldedAll(o, a + b) == FoldedAll(FoldedAll(o, a), b)
  {
    if b == [] {
      assert a + b == a;
    } else {
      var most := b[..|b| - 1];
      FoldedConcat(o, a, most);
      assert (a + b)[..|a + b| - 1] == a + most;
    }
  }

  /** Where a tool was used. */
  function Uses(events: seq<HarnessAction>): set<int> {
    set i | 0 <= i < |events| && events[i].Used?
  }

  /** A text that says something. */
  predicate Speaks(event: HarnessAction) { event.Wrote? && !Blank(event.text) }

  /** The texts of `now` are those of `before` and, of `events`, each that says something, once and in order;
      `places` says where they stand. */
  ghost predicate TextsAt(before: Observed, events: seq<HarnessAction>, now: Observed, places: seq<nat>) {
    && |now.texts| == |before.texts| + |places| && before.texts <= now.texts
    && (forall i :: i in places <==> 0 <= i < |events| && Speaks(events[i]))
    && (forall j, k :: 0 <= j < k < |places| ==> places[j] < places[k])
    && forall k :: 0 <= k < |places| ==>
         places[k] < |events| && events[places[k]] == Wrote(now.texts[|before.texts| + k])
  }

  /** `now` is `before`, and of `events` as many tool uses as there are and the texts that say something. */
  ghost predicate Counts(before: Observed, events: seq<HarnessAction>, now: Observed) {
    && now.tools == before.tools + |Uses(events)|
    && exists places :: TextsAt(before, events, now, places)
  }

  lemma FoldedCounts(o: Observed, events: seq<HarnessAction>)
    ensures Counts(o, events, FoldedAll(o, events))
  {
    hide TextsAt, Uses, FoldedAll;
    FoldedUses(o, events);
    var places := FoldedTexts(o, events);
  }

  lemma {:induction false} FoldedUses(o: Observed, events: seq<HarnessAction>)
    ensures FoldedAll(o, events).tools == o.tools + |Uses(events)|
  {
    hide Uses;
    if events == [] {
      UsesNone();
    } else {
      var n := |events| - 1;
      FoldedUses(o, events[..n]);
      UsesOn(events[..n], events[n]);
      assert events[..n] + [events[n]] == events;
    }
  }

  lemma UsesNone()
    ensures Uses([]) == {}
  {
  }

  lemma {:induction false} FoldedTexts(o: Observed, events: seq<HarnessAction>) returns (places: seq<nat>)
    ensures TextsAt(o, events, FoldedAll(o, events), places)
  {
    places := [];
    if events != [] {
      hide TextsAt;
      var n := |events| - 1;
      places := FoldedTexts(o, events[..n]);
      assert events[..n] + [events[n]] == events;
      TextsOn(o, events[..n], FoldedAll(o, events[..n]), places, events[n]);
      if Speaks(events[n]) {
        places := places + [n];
      }
    }
  }

  lemma UsesOn(events: seq<HarnessAction>, one: HarnessAction)
    ensures |Uses(events + [one])| == |Uses(events)| + if one.Used? then 1 else 0
  {
    assert Uses(events + [one]) == Uses(events) + if one.Used? then {|events|} else {};
  }

  lemma TextsOn(o: Observed, events: seq<HarnessAction>, now: Observed, places: seq<nat>, one: HarnessAction)
    requires TextsAt(o, events, now, places)
    ensures TextsAt(o, events + [one], Folded(now, one), if Speaks(one) then places + [|events|] else places)
  {
    var more := events + [one];
    var all := if Speaks(one) then places + [|events|] else places;
    forall i ensures i in all <==> 0 <= i < |more| && Speaks(more[i]) {
      if i in places { assert more[i] == events[i]; }
      if 0 <= i < |events| { assert more[i] == events[i]; }
      if Speaks(one) && i == |events| { assert all[|places|] == i; }
      if i in all { assert i in places || (Speaks(one) && i == |events|); }
    }
  }

  /** A note handed back, how many redirects had been confirmed by then, and the look that had taken it. */
  datatype Release = Release(note: Note, after: nat, look: nat)

  /** What had been handed back of earlier looks. */
  function ReleasedBefore(released: seq<Release>, look: nat): seq<Release> {
    if released == [] then []
    else ReleasedBefore(released[..|released| - 1], look)
         + if released[|released| - 1].look < look then [released[|released| - 1]] else []
  }

  predicate Earlier(released: seq<Release>, look: nat) {
    forall i :: 0 <= i < |released| ==> released[i].look < look
  }

  lemma {:induction false} AllBefore(released: seq<Release>, look: nat)
    requires Earlier(released, look)
    ensures ReleasedBefore(released, look) == released
  {
    if released != [] {
      AllBefore(released[..|released| - 1], look);
    }
  }

  lemma ReleasedLater(released: seq<Release>, more: Release, look: nat)
    requires look <= more.look
    ensures ReleasedBefore(released + [more], look) == ReleasedBefore(released, look)
  {
    assert (released + [more])[..|released|] == released;
    assert ReleasedBefore(released, look) + [] == ReleasedBefore(released, look);
  }

  predicate Passed(released: seq<Release>, note: Note) {
    exists i :: 0 <= i < |released| && released[i].note == note
  }

  predicate Takes(note: Note, party: Party, released: seq<Release>) {
    Interrupts(note, party) && !Passed(released, note)
  }

  predicate NoneToTake(queue: seq<Note>, party: Party, released: seq<Release>) {
    forall i :: 0 <= i < |queue| ==> !Takes(queue[i], party, released)
  }

  /** `note` is the first queued that the watch may take. */
  predicate FirstTaken(queue: seq<Note>, party: Party, released: seq<Release>, note: Note) {
    && Takes(note, party, released)
    && exists i :: 0 <= i < |queue| && queue[i] == note && forall j :: 0 <= j < i ==> !Takes(queue[j], party, released)
  }

  /** Each redirect opened its replacement turn with the framing of exactly the notes confirmed up to
      and including it. */
  ghost predicate Framed(framing: seq<DeliveredNote> -> string, party: Party, redirects: seq<Redirect>) {
    forall i :: 0 <= i < |redirects| ==>
      && Interrupts(redirects[i].note, party)
      && redirects[i].input == framing(DeliveredTo(NotesOf(redirects[..i + 1]), party))
  }

  /** Each redirect was measured no earlier than the one before it, and none after `now`. */
  predicate Measured(redirects: seq<Redirect>, now: Observed) {
    && (forall i, j :: 0 <= i <= j < |redirects| ==> NoLater(redirects[i].at, redirects[j].at))
    && (forall i :: 0 <= i < |redirects| ==> NoLater(redirects[i].at, now))
  }

  /** Nothing equal to a note handed back was confirmed, nor handed back again, after it was. */
  predicate PassedOver(party: Party, redirects: seq<Redirect>, released: seq<Release>) {
    && (forall p :: 0 <= p < |released| ==> Interrupts(released[p].note, party) && released[p].after <= |redirects|)
    && (forall p, i :: 0 <= p < |released| && released[p].after <= i < |redirects| ==>
          redirects[i].note != released[p].note)
    && (forall p, q :: 0 <= p < q < |released| ==> released[p].note != released[q].note)
  }

  lemma Measures(redirects: seq<Redirect>, now: Observed, later: Observed)
    requires Measured(redirects, now) && NoLater(now, later)
    ensures Measured(redirects, later)
  {
  }

  lemma Confirms(framing: seq<DeliveredNote> -> string, party: Party, redirects: seq<Redirect>,
                 released: seq<Release>, one: Redirect)
    requires Framed(framing, party, redirects) && Measured(redirects, one.at)
    requires PassedOver(party, redirects, released)
    requires Takes(one.note, party, released)
    requires one.input == framing(DeliveredTo(NotesOf(redirects), party) + [DeliveredNote(one.note, party)])
    ensures Framed(framing, party, redirects + [one]) && Measured(redirects + [one], one.at)
    ensures PassedOver(party, redirects + [one], released)
    ensures DeliveredTo(NotesOf(redirects + [one]), party)
            == DeliveredTo(NotesOf(redirects), party) + [DeliveredNote(one.note, party)]
  {
    var more := redirects + [one];
    assert DeliveredTo(NotesOf(more), party)
           == DeliveredTo(NotesOf(redirects), party) + [DeliveredNote(one.note, party)];
    forall i | 0 <= i < |more|
      ensures Interrupts(more[i].note, party)
      ensures more[i].input == framing(DeliveredTo(NotesOf(more[..i + 1]), party))
    {
      if i < |redirects| { assert more[..i + 1] == redirects[..i + 1]; } else { assert more[..i + 1] == more; }
    }
  }

  /** A worker turn's redirects are answered as they are confirmed; a supervisor's wait. */
  function Answers(party: Party, redirects: seq<Redirect>): (answers: seq<(Note, Accepted)>)
  {
    if party == Supervisor then []
    else seq(|redirects|, i requires 0 <= i < |redirects| => (redirects[i].note, Interrupted(Worker)))
  }

  lemma AnswersGrow(party: Party, redirects: seq<Redirect>, one: Redirect)
    ensures Answers(party, redirects + [one])
            == Answers(party, redirects) + if party == Worker then [(one.note, Interrupted(Worker))] else []
  {
  }

  class Watch {
    const party: Party
    const framing: seq<DeliveredNote> -> string
    const beside: Beside

    var ended: bool
    var observed: Observed
    var slices: nat
    /** Senders answered, in order. */
    var answered: seq<(Note, Accepted)>
    ghost var lateClaims: nat

    constructor (party: Party, framing: seq<DeliveredNote> -> string, beside: Beside)
      ensures this.party == party && this.framing == framing && this.beside == beside
      ensures !ended && observed == Observed(0, []) && slices == 0 && answered == [] && lateClaims == 0
    {
      this.party, this.framing, this.beside := party, framing, beside;
      ended, observed, slices, answered, lateClaims := false, Observed(0, []), 0, [], 0;
    }

    method Observe(event: HarnessAction)
      modifies this`observed
      ensures observed == Folded(old(observed), event) && NoLater(old(observed), observed)
    {
      match event
      case Used(_) => observed := observed.(tools := observed.tools + 1);
      case Wrote(text) =>
        if !Blank(text) {
          observed := observed.(texts := observed.texts + [text]);
        }
      case Other =>
    }

    method End()
      modifies this`ended
      ensures ended
    {
      ended := true;
    }

    /** The engine's thread runs for one slice. */
    method Yield()
      modifies this`ended, this`observed, this`slices
      ensures slices == old(slices) + 1
      ensures observed == FoldedAll(old(observed), beside.slice(old(slices)).events)
      ensures NoLater(old(observed), observed)
      ensures ended == (old(ended) || beside.slice(old(slices)).ends)
    {
      var slice := beside.slice(slices);
      slices := slices + 1;
      for i := 0 to |slice.events|
        invariant NoLater(old(observed), observed)
        invariant FoldedAll(old(observed), slice.events[..i]) == observed
        modifies this`observed
      {
        assert slice.events[..i + 1][..i] == slice.events[..i];
        Observe(slice.events[i]);
      }
      assert slice.events[..|slice.events|] == slice.events;
      if slice.ends {
        End();
      }
    }

    /** The first note in the inbox this watch may take. */
    method Take(released: seq<Release>) returns (note: Option<Note>)
      requires slices > 0
      ensures var queue := beside.queued(slices - 1);
              match note
              case None => NoneToTake(queue, party, released)
              case Some(n) =>
                n in queue && !NoneToTake(queue, party, released) && FirstTaken(queue, party, released, n)
    {
      var queue := beside.queued(slices - 1);
      for i := 0 to |queue|
        invariant forall j :: 0 <= j < i ==> !Takes(queue[j], party, released)
      {
        if Takes(queue[i], party, released) {
          return Some(queue[i]);
        }
      }
      note := None;
    }

    /** Everything the engine's thread saw of the turn in the slices from `from` to before `now`. */
    function EventsIn(from: nat, now: nat): seq<HarnessAction> {
      if now <= from then [] else EventsIn(from, now - 1) + beside.slice(now - 1).events
    }

    /** What is observed is what was at first and all that was seen since. */
    ghost predicate Seen(start: Observed, from: nat)
      reads this`observed, this`slices
    {
      from <= slices && observed == FoldedAll(start, EventsIn(from, slices))
    }

    /** Each redirect is of a note that a look found, confirmed in the slice after that look, and measured
        then; `spent` is those slices. */
    ghost predicate Presented(start: Observed, from: nat, redirects: seq<Redirect>, spent: seq<nat>, looks: seq<nat>,
                              now: nat) {
      && |spent| == |redirects| && (forall i, j :: 0 <= i < j < |spent| ==> spent[i] < spent[j])
      && forall i :: 0 <= i < |spent| ==>
           && 0 < spent[i] < now && spent[i] - 1 in looks && beside.confirms(spent[i])
           && redirects[i].note in beside.queued(spent[i] - 1)
           && redirects[i].at == FoldedAll(start, EventsIn(from, spent[i] + 1))
    }

    /** Each redirect was measured with all that the turn had shown up to and with the slice it was presented
        in: as many tool uses, and the texts that said something, in order. */
    ghost predicate Counted(start: Observed, from: nat, redirects: seq<Redirect>, spent: seq<nat>)
      requires |spent| == |redirects|
    {
      forall i :: 0 <= i < |redirects| ==> Counts(start, EventsIn(from, spent[i] + 1), redirects[i].at)
    }

    lemma PresentedOn(start: Observed, from: nat, redirects: seq<Redirect>, spent: seq<nat>, looks: seq<nat>,
                      look: nat, more: seq<Redirect>, now: nat)
      requires Presented(start, from, redirects, spent, looks, look) && look < now
      requires more == []
               || (|more| == 1 && look + 1 < now && beside.confirms(look + 1) && more[0].note in beside.queued(look)
                   && more[0].at == FoldedAll(start, EventsIn(from, look + 2)))
      ensures Presented(start, from, redirects + more, spent + if more == [] then [] else [look + 1],
                        looks + [look], now)
    {
      hide EventsIn, FoldedAll;
      assert (looks + [look])[|looks|] == look;
      forall k | k in looks ensures k in looks + [look] {}
    }

    lemma PresentedCounts(start: Observed, from: nat, redirects: seq<Redirect>, spent: seq<nat>, looks: seq<nat>,
                          now: nat)
      requires Presented(start, from, redirects, spent, looks, now)
      ensures Counted(start, from, redirects, spent)
    {
      hide EventsIn, FoldedAll, Counts;
      forall i | 0 <= i < |redirects| ensures Counts(start, EventsIn(from, spent[i] + 1), redirects[i].at) {
        FoldedCounts(start, EventsIn(from, spent[i] + 1));
      }
    }

    /** Whether the run so far is what `Run` promises of a whole one. */
    ghost predicate Sound(redirects: seq<Redirect>, released: seq<Release>)
      reads this`observed, this`answered
    {
      && Framed(framing, party, redirects)
      && Measured(redirects, observed)
      && PassedOver(party, redirects, released)
      && answered == Answers(party, redirects)
    }

    /** Present one claimed note: confirm it, or hand it back to be passed over. */
    method Present(note: Note, presented: seq<DeliveredNote>, redirects: seq<Redirect>, released: seq<Release>,
                   ghost look: nat, ghost start: Observed, ghost from: nat)
      returns (confirmed: Option<Redirect>)
      requires Sound(redirects, released) && FirstTaken(beside.queued(look), party, released, note) && Seen(start, from)
      requires presented == DeliveredTo(NotesOf(redirects), party)
      modifies this`ended, this`observed, this`slices, this`answered
      ensures slices == old(slices) + 1 && ended == (old(ended) || beside.slice(old(slices)).ends)
      ensures Seen(start, from) && (confirmed.Some? ==> confirmed.value.at == observed)
      ensures match confirmed
              case Some(one) =>
                && beside.confirms(old(slices)) && one.note == note && Sound(redirects + [one], released)
                && presented + [DeliveredNote(note, party)] == DeliveredTo(NotesOf(redirects + [one]), party)
              case None =>
                !beside.confirms(old(slices)) && Sound(redirects, released + [Release(note, |redirects|, look)])
    {
      ghost var before := observed;
      var input := framing(presented + [DeliveredNote(note, party)]);
      Yield();
      SeesMore(start, from, slices - 1, before);
      Measures(redirects, before, observed);
      if !beside.confirms(slices - 1) {
        return None;
      }
      var one := Redirect(note, input, observed);
      Confirms(framing, party, redirects, released, one);
      if party == Worker {
        answered := answered + [(note, Interrupted(Worker))];
      }
      AnswersGrow(party, redirects, one);
      confirmed := Some(one);
    }

    /** `look`, the slice of one look at the inbox, found a note it could take: one that interrupts this
        party's turn and had not been handed back. */
    ghost predicate Finds(look: nat, released: seq<Release>) {
      !NoneToTake(beside.queued(look), party, ReleasedBefore(released, look))
    }

    /** From `up` to `now` there were these looks, one after another: a look that found nothing was followed
        by the next, and one that found a note by the slice it was presented in. */
    ghost predicate LooksFit(up: nat, looks: seq<nat>, released: seq<Release>, now: nat) {
      if looks == [] then now == up
      else
        var look := looks[|looks| - 1];
        && LooksFit(up, looks[..|looks| - 1], released, look)
        && now == look + if Finds(look, released) then 2 else 1
    }

    lemma {:induction false} LooksBefore(up: nat, looks: seq<nat>, released: seq<Release>, now: nat)
      requires LooksFit(up, looks, released, now)
      ensures up <= now && forall k :: 0 <= k < |looks| ==> looks[k] < now
    {
      if looks != [] {
        LooksBefore(up, looks[..|looks| - 1], released, looks[|looks| - 1]);
      }
    }

    /** What is handed back of a look changes nothing about the looks before it. */
    lemma {:induction false} LooksKept(up: nat, looks: seq<nat>, released: seq<Release>, now: nat, more: Release)
      requires LooksFit(up, looks, released, now) && now <= more.look
      ensures LooksFit(up, looks, released + [more], now)
    {
      if looks != [] {
        var look := looks[|looks| - 1];
        LooksBefore(up, looks, released, now);
        LooksKept(up, looks[..|looks| - 1], released, look, more);
        ReleasedLater(released, more, look);
      }
    }

    /** One more look, and what came of it. */
    lemma LooksOn(up: nat, looks: seq<nat>, released: seq<Release>, look: nat, back: seq<Release>)
      requires LooksFit(up, looks, released, look) && Earlier(released, look)
      requires back == [] || (|back| == 1 && back[0].look == look)
      ensures Finds(look, released + back) <==> !NoneToTake(beside.queued(look), party, released)
      ensures LooksFit(up, looks + [look], released + back,
                       look + if NoneToTake(beside.queued(look), party, released) then 1 else 2)
    {
      hide NoneToTake;
      AllBefore(released, look);
      if back == [] {
        assert released + back == released;
      } else {
        assert back == [back[0]];
        LooksKept(up, looks, released, look, back[0]);
        ReleasedLater(released, back[0], look);
      }
      assert (looks + [look])[..|looks|] == looks;
    }

    /** The turn goes on through the slices from `from` to before `now`. */
    predicate GoesOn(from: nat, now: nat) {
      forall k :: from <= k < now ==> !beside.slice(k).ends
    }

    /** The first slice from `from` on that ends the turn. */
    predicate EndsAt(from: nat, final: nat) {
      from <= final && beside.slice(final).ends && GoesOn(from, final)
    }

    /** The claim made after the turn was over: there is one exactly when the turn ended during a look, and
        not while a note was presented or the socket awaited, and that look found a note. */
    ghost predicate ClaimsLate(looks: seq<nat>, released: seq<Release>, final: nat) {
      final in looks && Finds(final, released)
    }

    /** Whether a turn that went on until `look` ends in that look, or in the presenting after it. */
    lemma LookEnds(from: nat, up: nat, looks: seq<nat>, released: seq<Release>, look: nat, back: seq<Release>)
      requires LooksFit(up, looks, released, look) && Earlier(released, look) && from <= look && GoesOn(from, look)
      requires back == [] || (|back| == 1 && back[0].look == look)
      ensures beside.slice(look).ends ==>
                && EndsAt(from, look)
                && (ClaimsLate(looks + [look], released + back, look)
                    <==> !NoneToTake(beside.queued(look), party, released))
      ensures !beside.slice(look).ends ==>
                GoesOn(from, look + 1) && !ClaimsLate(looks + [look], released + back, look + 1)
      ensures !beside.slice(look).ends && beside.slice(look + 1).ends ==> EndsAt(from, look + 1)
      ensures !beside.slice(look).ends && !beside.slice(look + 1).ends ==> GoesOn(from, look + 2)
    {
      hide NoneToTake, LooksFit;
      LooksOn(up, looks, released, look, back);
      LooksBefore(up, looks, released, look);
      assert (looks + [look])[|looks|] == look;
    }

    /** Where the loop stands at slice `now`: every slice from `up` on was a look or presented what one found,
        and none but the last of the turn's looks is late. */
    ghost predicate Stands(now: nat, over: bool, late: nat, start: Observed, from: nat, up: nat,
                           redirects: seq<Redirect>, released: seq<Release>, looks: seq<nat>, spent: seq<nat>,
                           final: nat)
    {
      && from <= now && Earlier(released, now)
      && LooksFit(up, looks, released, now) && now == up + |looks| + |redirects| + |released|
      && Presented(start, from, redirects, spent, looks, now)
      && (if over then EndsAt(from, final) else GoesOn(from, now))
      && late == if over && ClaimsLate(looks, released, final) then 1 else 0
    }

    /** One more look, and what it led to: nothing, a redirect, or a note handed back. */
    lemma Looked(look: nat, start: Observed, from: nat, up: nat, redirects: seq<Redirect>, released: seq<Release>,
                 looks: seq<nat>, spent: seq<nat>, final: nat, more: seq<Redirect>, back: seq<Release>, now: nat,
                 over: bool)
      requires Stands(look, false, 0, start, from, up, redirects, released, looks, spent, final)
      requires NoneToTake(beside.queued(look), party, released) <==> more == [] && back == []
      requires |more| + |back| <= 1 && now == look + 1 + |more| + |back|
      requires more != [] ==>
                 && beside.confirms(look + 1) && more[0].note in beside.queued(look)
                 && more[0].at == FoldedAll(start, EventsIn(from, look + 2))
      requires back != [] ==> back[0].look == look
      requires over == (beside.slice(look).ends || (now > look + 1 && beside.slice(look + 1).ends))
      ensures Stands(now, over, if beside.slice(look).ends && |more| + |back| == 1 then 1 else 0, start, from, up,
                     redirects + more, released + back, looks + [look],
                     spent + if more == [] then [] else [look + 1],
                     if beside.slice(look).ends then look else look + 1)
    {
      hide NoneToTake, LooksFit, Presented, Earlier, EndsAt, GoesOn, ClaimsLate, FoldedAll, EventsIn;
      LooksOn(up, looks, released, look, back);
      LookEnds(from, up, looks, released, look, back);
      LaterStill(released, back, look, now);
      PresentedOn(start, from, redirects, spent, looks, look, more, now);
    }

    /** The watch's whole life. Its turn is over by slice `bound` at the latest. From `up`, the slice the
        socket was first seen to listen at, each slice goes to a look or to presenting what one took. */
    method Run(ghost bound: nat)
      returns (redirects: seq<Redirect>, ghost released: seq<Release>, ghost up: nat, ghost looks: seq<nat>,
               ghost spent: seq<nat>, ghost final: nat)
      requires !ended && answered == [] && lateClaims == 0 && slices <= bound
      requires beside.slice(bound).ends
      modifies this
      ensures Sound(redirects, released) && ended
      ensures LooksFit(up, looks, released, slices) && slices == up + |looks| + |redirects| + |released|
      ensures slices > up ==> beside.listening(up)
      ensures EndsAt(old(slices), final) && lateClaims == if ClaimsLate(looks, released, final) then 1 else 0
      ensures Presented(old(observed), old(slices), redirects, spent, looks, slices)
      ensures Counted(old(observed), old(slices), redirects, spent)
    {
      hide LooksFit, EndsAt, ClaimsLate, Presented, Counted, Sound, Stands, NoneToTake, FirstTaken, DeliveredTo,
           NotesOf, Seen, EventsIn, FoldedAll;
      redirects, released, looks, spent := [], [], [], [];
      var presented: seq<DeliveredNote> := [];
      var passedOver: seq<Release> := [];
      Nothing();
      FirstSeen(observed, slices);
      final := AwaitSocket(bound, observed, slices);
      up := slices;
      NoLooks(up, ended, old(observed), old(slices), final);
      while !ended
        invariant presented == DeliveredTo(NotesOf(redirects), party) && passedOver == released
        invariant Sound(redirects, released) && Seen(old(observed), old(slices))
        invariant Stands(slices, ended, lateClaims, old(observed), old(slices), up, redirects, released, looks, spent,
                         final)
        invariant !ended ==> slices <= bound && lateClaims == 0
        invariant slices > up || !ended ==> beside.listening(up)
        decreases bound + 1 - slices
      {
        var look := slices;
        ghost var more: seq<Redirect>, back: seq<Release> := [], [];
        ghost var before, already := released, redirects;
        Wait(redirects, released, old(observed), old(slices));
        var note := Take(passedOver);
        if note.Some? {
          lateClaims := lateClaims + if ended then 1 else 0;
          var confirmed := Present(note.value, presented, redirects, passedOver, look, old(observed), old(slices));
          SeenIs(old(observed), old(slices));
          if confirmed.Some? {
            more := [confirmed.value];
            presented := presented + [DeliveredNote(note.value, party)];
            redirects := redirects + [confirmed.value];
          } else {
            back := [Release(note.value, |redirects|, look)];
            passedOver := passedOver + [Release(note.value, |redirects|, look)];
            released := passedOver;
          }
        }
        assert already + more == redirects && before + back == released;
        Looked(look, old(observed), old(slices), up, already, before, looks, spent, final, more, back, slices, ended);
        final := if beside.slice(look).ends then look else look + 1;
        spent := spent + if more == [] then [] else [look + 1];
        looks := looks + [look];
      }
      StandsIs(slices, lateClaims, old(observed), old(slices), up, redirects, released, looks, spent, final);
    }

    lemma StandsIs(now: nat, late: nat, start: Observed, from: nat, up: nat, redirects: seq<Redirect>,
                   released: seq<Release>, looks: seq<nat>, spent: seq<nat>, final: nat)
      requires Stands(now, true, late, start, from, up, redirects, released, looks, spent, final)
      ensures LooksFit(up, looks, released, now) && now == up + |looks| + |redirects| + |released|
      ensures EndsAt(from, final) && late == if ClaimsLate(looks, released, final) then 1 else 0
      ensures Presented(start, from, redirects, spent, looks, now) && Counted(start, from, redirects, spent)
    {
      hide LooksFit, EndsAt, ClaimsLate, Presented;
      PresentedCounts(start, from, redirects, spent, looks, now);
    }

    lemma FirstSeen(start: Observed, from: nat)
      requires observed == start && slices == from
      ensures Seen(start, from)
    {
    }

    lemma SeenIs(start: Observed, from: nat)
      requires Seen(start, from)
      ensures observed == FoldedAll(start, EventsIn(from, slices))
    {
    }

    lemma Nothing()
      requires answered == []
      ensures Sound([], []) && DeliveredTo(NotesOf([]), party) == []
    {
    }

    lemma NoLooks(up: nat, over: bool, start: Observed, from: nat, final: nat)
      requires from <= up && if over then EndsAt(from, final) else GoesOn(from, up)
      ensures Stands(up, over, 0, start, from, up, [], [], [], [], final)
    {
    }

    lemma LaterStill(released: seq<Release>, back: seq<Release>, look: nat, now: nat)
      requires Earlier(released, look) && look < now && (back == [] || (|back| == 1 && back[0].look == look))
      ensures Earlier(released + back, now)
    {
    }

    /** `Yield`, with what it leaves of everything measured so far. */
    method Wait(ghost redirects: seq<Redirect>, ghost released: seq<Release>, ghost start: Observed, ghost from: nat)
      requires Sound(redirects, released) && Seen(start, from)
      modifies this`ended, this`observed, this`slices
      ensures Sound(redirects, released) && Seen(start, from) && slices == old(slices) + 1
      ensures ended == (old(ended) || beside.slice(old(slices)).ends)
    {
      ghost var before := observed;
      Yield();
      SeesMore(start, from, slices - 1, before);
      Measures(redirects, before, observed);
    }

    lemma SeesMore(start: Observed, from: nat, now: nat, before: Observed)
      requires from <= now && before == FoldedAll(start, EventsIn(from, now))
      ensures FoldedAll(before, beside.slice(now).events) == FoldedAll(start, EventsIn(from, now + 1))
    {
      FoldedConcat(start, EventsIn(from, now), beside.slice(now).events);
    }

    /** Until there is a socket to redirect the turn by, the inbox is left alone. */
    method AwaitSocket(ghost bound: nat, ghost start: Observed, ghost from: nat) returns (ghost final: nat)
      requires !ended && slices <= bound && beside.slice(bound).ends && Sound([], []) && Seen(start, from)
      modifies this`ended, this`observed, this`slices
      ensures Sound([], []) && Seen(start, from) && old(slices) <= slices
      ensures if ended then EndsAt(old(slices), final) && final < slices
              else slices <= bound && beside.listening(slices) && GoesOn(old(slices), slices)
    {
      hide Sound, Seen;
      final := slices;
      while !beside.listening(slices) && !ended
        invariant Sound([], []) && Seen(start, from) && old(slices) <= slices
        invariant if ended then EndsAt(old(slices), final) && final < slices
                  else slices <= bound && GoesOn(old(slices), slices)
        decreases bound + 1 - slices
      {
        final := slices;
        Wait([], [], start, from);
      }
    }
  }
}
