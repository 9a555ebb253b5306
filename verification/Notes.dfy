/** The note contract of note.rs: who a note is for, what became of it, and the
    acceptance criteria the delivered ones bind. */
module Notes {
  import opened Wrappers
  import opened Text

  datatype Addressee = ToWorker | ToSupervisor | ToBoth

  datatype Delivery = Interrupt | TurnEnd

  datatype Party = Worker | Supervisor

  datatype Note = Note(addressee: Addressee, text: string, criterion: Option<string>, delivery: Delivery)

  /** A note and whom it went to, who need not be its addressee. */
  datatype DeliveredNote = DeliveredNote(note: Note, deliveredTo: Party)

  datatype Accepted =
    | Queued
    | Interrupted(party: Party)
    | AtTurnEnd(party: Party)
    | JudgedWith(completionReason: string)

  /** What a completion is held to: a criterion from the configuration, and those that notes brought. */
  datatype Criteria = Criteria(configured: Option<string>, bound: seq<string>)

  function Bound(delivered: seq<DeliveredNote>): seq<string> {
    if delivered == [] then []
    else (match delivered[0].note.criterion case None => [] case Some(c) => [c]) + Bound(delivered[1..])
  }

  function Compose(configured: Option<string>, delivered: seq<DeliveredNote>): Criteria {
    Criteria(configured, Bound(delivered))
  }

  /** Composing is a homomorphism: a criterion enters when its note is delivered, and no
      later delivery removes or reorders it. */
  lemma {:induction false} ComposeConcat(configured: Option<string>, a: seq<DeliveredNote>, b: seq<DeliveredNote>)
    ensures Compose(configured, a + b).bound == Compose(configured, a).bound + Compose(configured, b).bound
  {
    if a == [] {
      assert a + b == b;
    } else {
      assert (a + b)[1..] == a[1..] + b;
      ComposeConcat(configured, a[1..], b);
    }
  }

  /** `bound` are the criteria that some notes bring, each once and in delivery order; `places` says whose. */
  ghost predicate BoundAt(delivered: seq<DeliveredNote>, bound: seq<string>, places: seq<nat>) {
    && |bound| == |places|
    && (forall i :: 0 <= i < |delivered| ==> (delivered[i].note.criterion.Some? <==> i in places))
    && (forall k :: 0 <= k < |places| ==>
          places[k] < |delivered| && delivered[places[k]].note.criterion == Some(bound[k]))
    && (forall k, l :: 0 <= k < l < |places| ==> places[k] < places[l])
  }

  /** Every note that brings a criterion binds it, and nothing else does; the configured one stays. */
  lemma {:induction false} ComposeBinds(configured: Option<string>, delivered: seq<DeliveredNote>)
    returns (places: seq<nat>)
    ensures Compose(configured, delivered).configured == configured
    ensures BoundAt(delivered, Compose(configured, delivered).bound, places)
    decreases |delivered|
  {
    places := [];
    if delivered != [] {
      var n := |delivered| - 1;
      places := ComposeBinds(configured, delivered[..n]);
      ComposeConcat(configured, delivered[..n], [delivered[n]]);
      assert delivered[..n] + [delivered[n]] == delivered;
      var one := delivered[n].note.criterion;
      assert Bound([delivered[n]]) == if one.Some? then [one.value] else [];
      BindsMore(delivered[..n], Bound(delivered[..n]), places, delivered[n]);
      if one.Some? {
        places := places + [n];
      } else {
        assert Bound(delivered[..n]) + [] == Bound(delivered[..n]);
      }
    }
  }

  lemma BindsMore(delivered: seq<DeliveredNote>, bound: seq<string>, places: seq<nat>, one: DeliveredNote)
    requires BoundAt(delivered, bound, places)
    ensures match one.note.criterion
            case Some(c) => BoundAt(delivered + [one], bound + [c], places + [|delivered|])
            case None => BoundAt(delivered + [one], bound, places)
  {
    if one.note.criterion.Some? {
      var more := places + [|delivered|];
      assert more[|places|] == |delivered|;
      forall i | i in places ensures i in more {}
    }
  }

  // ---------------------------------------------------------------- what a party is handed

  const YOURS := "## Notes delivered to you during this run\n"
  const THEIRS := "## Notes delivered to the supervisor during this run\n"

  function Lines(notes: seq<DeliveredNote>, criteria: bool): string {
    if notes == [] then "\n"
    else
      var note := notes[0].note;
      "\n- " + note.text
      + (if criteria && note.criterion.Some? then "\n  " + note.criterion.value else "")
      + Lines(notes[1..], criteria)
  }

  function AddressedTo(notes: seq<DeliveredNote>, supervisor: bool): seq<DeliveredNote> {
    if notes == [] then []
    else (if (notes[0].note.addressee == ToSupervisor) == supervisor then [notes[0]] else [])
         + AddressedTo(notes[1..], supervisor)
  }

  /** note.rs `worker_block`, less its wording: the worker's own notes with their criteria, then
      the supervisor's without. */
  function WorkerBlock(notes: seq<DeliveredNote>): string {
    var mine, theirs := AddressedTo(notes, false), AddressedTo(notes, true);
    (if mine == [] then "" else YOURS + Lines(mine, true))
    + (if mine != [] && theirs != [] then "\n" else "")
    + (if theirs == [] then "" else THEIRS + Lines(theirs, false))
  }

  /** What must be read of the notes that are the worker's own, or of those that are not: each one's text, and
      of its own also the criterion it brings. */
  function TextsFor(notes: seq<DeliveredNote>, own: bool): seq<string> {
    if notes == [] then []
    else
      var note := notes[0].note;
      (if (note.addressee != ToSupervisor) != own then []
       else [note.text] + if own && note.criterion.Some? then [note.criterion.value] else [])
      + TextsFor(notes[1..], own)
  }

  /** `text` holds every one of `notes`: the worker's own in order, and then the others in order. */
  ghost predicate HoldsNotes(text: string, notes: seq<DeliveredNote>) {
    HoldsInOrder(text, TextsFor(notes, true) + TextsFor(notes, false))
  }

  /** A group's lines hold every note of the group. */
  lemma {:induction false} LinesHold(notes: seq<DeliveredNote>, own: bool)
    ensures HoldsInOrder(Lines(AddressedTo(notes, !own), own), TextsFor(notes, own))
  {
    hide HoldsInOrder;
    if notes == [] {
      HoldsNone(Lines([], own));
    } else {
      LinesHold(notes[1..], own);
      var note := notes[0].note;
      var rest := AddressedTo(notes[1..], !own);
      if (note.addressee != ToSupervisor) == own {
        assert ([notes[0]] + rest)[1..] == rest;
        LineHolds(note, own, Lines(rest, own), TextsFor(notes[1..], own));
      } else {
        assert [] + rest == rest && [] + TextsFor(notes[1..], own) == TextsFor(notes[1..], own);
      }
    }
  }

  lemma LineHolds(note: Note, own: bool, rest: string, parts: seq<string>)
    requires HoldsInOrder(rest, parts)
    ensures var criterion := own && note.criterion.Some?;
            HoldsInOrder("\n- " + note.text + (if criterion then "\n  " + note.criterion.value else "") + rest,
                         ([note.text] + if criterion then [note.criterion.value] else []) + parts)
  {
    hide HoldsInOrder;
    var text := "\n- " + note.text;
    HoldsOne("\n- ", note.text);
    if own && note.criterion.Some? {
      HoldsOne("\n  ", note.criterion.value);
      HoldsConcat(text, [note.text], "\n  " + note.criterion.value, [note.criterion.value]);
      HoldsConcat(text + ("\n  " + note.criterion.value), [note.text] + [note.criterion.value], rest, parts);
    } else {
      assert text + "" == text && [note.text] + [] == [note.text];
      HoldsConcat(text, [note.text], rest, parts);
    }
  }

  /** A group none of whose notes there is has nothing to be read. */
  lemma {:induction false} NoTexts(notes: seq<DeliveredNote>, own: bool)
    requires AddressedTo(notes, !own) == []
    ensures TextsFor(notes, own) == []
  {
    if notes != [] {
      NoTexts(notes[1..], own);
    }
  }

  /** What the worker is handed of some notes holds every one of them. */
  lemma BlockHolds(notes: seq<DeliveredNote>)
    ensures HoldsNotes(WorkerBlock(notes), notes)
  {
    hide HoldsInOrder, Lines, AddressedTo, TextsFor;
    var mine, theirs := AddressedTo(notes, false), AddressedTo(notes, true);
    GroupHolds(notes, true, "", YOURS);
    GroupHolds(notes, false, if mine != [] && theirs != [] then "\n" else "", THEIRS);
    HoldsConcat(if mine == [] then "" else YOURS + Lines(mine, true), TextsFor(notes, true),
                (if mine != [] && theirs != [] then "\n" else "")
                + if theirs == [] then "" else THEIRS + Lines(theirs, false),
                TextsFor(notes, false));
    BlockSplits(notes);
  }

  lemma BlockSplits(notes: seq<DeliveredNote>)
    ensures var mine, theirs := AddressedTo(notes, false), AddressedTo(notes, true);
            WorkerBlock(notes)
            == (if mine == [] then "" else YOURS + Lines(mine, true))
               + ((if mine != [] && theirs != [] then "\n" else "")
                  + if theirs == [] then "" else THEIRS + Lines(theirs, false))
  {
    hide Lines, AddressedTo;
  }

  lemma GroupHolds(notes: seq<DeliveredNote>, own: bool, before: string, header: string)
    ensures var group := AddressedTo(notes, !own);
            HoldsInOrder(before + if group == [] then "" else header + Lines(group, own), TextsFor(notes, own))
    ensures var group := AddressedTo(notes, !own);
            HoldsInOrder(if group == [] then "" else header + Lines(group, own), TextsFor(notes, own))
  {
    hide HoldsInOrder, Lines, AddressedTo, TextsFor;
    var group := AddressedTo(notes, !own);
    var shown := if group == [] then "" else header + Lines(group, own);
    if group == [] {
      NoTexts(notes, own);
      HoldsNone(shown);
    } else {
      LinesHold(notes, own);
      HoldsNone(header);
      HoldsConcat(header, [], Lines(group, own), TextsFor(notes, own));
      assert [] + TextsFor(notes, own) == TextsFor(notes, own);
    }
    HoldsNone(before);
    HoldsConcat(before, [], shown, TextsFor(notes, own));
    assert [] + TextsFor(notes, own) == TextsFor(notes, own);
  }

  function DeliveredTo(notes: seq<Note>, party: Party): (delivered: seq<DeliveredNote>)
    ensures |delivered| == |notes|
  {
    seq(|notes|, i requires 0 <= i < |notes| => DeliveredNote(notes[i], party))
  }

  /** The notes of a record that reached `party`, in delivery order. */
  function ReachedBy(delivered: seq<DeliveredNote>, party: Party): seq<DeliveredNote> {
    if delivered == [] then []
    else ReachedBy(delivered[..|delivered| - 1], party)
         + if delivered[|delivered| - 1].deliveredTo == party then [delivered[|delivered| - 1]] else []
  }
}
