/** The conversation as it is judged (transcript.rs), and the two readings of it the loop and
    the providers share. */
module Transcripts {
  import opened Wrappers

  datatype Role = User | Assistant | System

  datatype ToolEvent = ToolEvent(kind: string, name: Option<string>, output: Option<string>, index: nat)

  datatype Message = Message(role: Role, content: string, events: seq<ToolEvent>)

  function FromUser(content: string): Message { Message(User, content, []) }

  function FromAssistant(content: string, events: seq<ToolEvent>): Message { Message(Assistant, content, events) }

  /** `Transcript::assistant_turns` */
  function AssistantTurns(messages: seq<Message>): nat {
    if messages == [] then 0
    else AssistantTurns(messages[..|messages| - 1]) + (if messages[|messages| - 1].role == Assistant then 1 else 0)
  }

  /** provider.rs `latest_user_message` */
  function LatestUserMessage(messages: seq<Message>): Option<string> {
    if messages == [] then None
    else if messages[|messages| - 1].role == User then Some(messages[|messages| - 1].content)
    else LatestUserMessage(messages[..|messages| - 1])
  }

  predicate EndsInUser(messages: seq<Message>) {
    messages != [] && messages[|messages| - 1].role == User
  }

  /** No assistant message answers another. */
  predicate Alternates(messages: seq<Message>) {
    forall i :: 0 < i < |messages| ==> messages[i - 1].role == User || messages[i].role == User
  }

  function EventsOf(messages: seq<Message>): seq<ToolEvent> {
    if messages == [] then [] else EventsOf(messages[..|messages| - 1]) + messages[|messages| - 1].events
  }

  lemma {:induction false} TurnsConcat(a: seq<Message>, b: seq<Message>)
    ensures AssistantTurns(a + b) == AssistantTurns(a) + AssistantTurns(b)
  {
    if b == [] {
      assert a + b == a;
    } else {
      assert (a + b)[..|a + b| - 1] == a + b[..|b| - 1];
      TurnsConcat(a, b[..|b| - 1]);
    }
  }

  lemma {:induction false} EventsConcat(a: seq<Message>, b: seq<Message>)
    ensures EventsOf(a + b) == EventsOf(a) + EventsOf(b)
  {
    if b == [] {
      assert a + b == a;
    } else {
      assert (a + b)[..|a + b| - 1] == a + b[..|b| - 1];
      EventsConcat(a, b[..|b| - 1]);
    }
  }

  /** Appending turns that open and close with the assistant to a transcript that ends in a user
      message keeps it alternating. */
  lemma AlternatesConcat(a: seq<Message>, b: seq<Message>)
    requires Alternates(a) && Alternates(b)
    requires a == [] || b == [] || a[|a| - 1].role == User || b[0].role == User
    ensures Alternates(a + b)
  {
  }

  /** transcript.rs `Transcript` */
  class Transcript {
    var messages: seq<Message>

    constructor FromInput(input: string)
      ensures messages == [FromUser(input)]
    {
      messages := [FromUser(input)];
    }

    /** `assistant_turns` */
    method Turns() returns (turns: nat)
      ensures turns == AssistantTurns(messages)
    {
      turns := 0;
      var i := 0;
      while i < |messages|
        invariant 0 <= i <= |messages| && turns == AssistantTurns(messages[..i])
      {
        turns := turns + if messages[i].role == Assistant then 1 else 0;
        i := i + 1;
        assert messages[..i][..i - 1] == messages[..i - 1];
      }
      assert messages[..i] == messages;
    }

    method Push(message: Message)
      modifies this
      ensures messages == old(messages) + [message]
    {
      messages := messages + [message];
    }
  }
}
