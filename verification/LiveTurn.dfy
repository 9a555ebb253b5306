/** A live turn and the watch beside it (interrupt.rs). */
module LiveTurn {
  import opened Wrappers
  import opened Notes

  /** A measure of a live turn: the tool uses seen of it so far, and its non-blank texts. */
  datatype Observed = Observed(tools: nat, texts: seq<string>)

  /** A confirmed redirect: its note, what the turn that replaced the live one was opened on, and the
      measure of the live one at that moment. */
  datatype Redirect = Redirect(note: Note, input: string, at: Observed)

  function NotesOf(redirects: seq<Redirect>): (notes: seq<Note>)
    ensures |notes| == |redirects|
  {
    seq(|redirects|, i requires 0 <= i < |redirects| => redirects[i].note)
  }

  predicate AddressedTo(note: Note, party: Party) {
    match party
    case Worker => note.addressee != ToSupervisor
    case Supervisor => note.addressee != ToWorker
  }

  /** `Watch::interrupts` */
  predicate Interrupts(note: Note, party: Party) {
    AddressedTo(note, party) && note.delivery == Interrupt
  }

  /** A note redirects a party's turn exactly when it says so and is for that party, alone or with the other. */
  lemma InterruptsIs(note: Note, party: Party)
    ensures Interrupts(note, party) <==>
              && note.delivery == Interrupt
              && (note.addressee == ToBoth || note.addressee == if party == Worker then ToWorker else ToSupervisor)
  {
  }

  predicate NoLater(a: Observed, b: Observed) {
    a.tools <= b.tools && a.texts <= b.texts
  }
}
