/** What the engine asks of its provider, and hears back (provider.rs, report.rs). */
module Providers {
  import opened Wrappers
  import opened Transcripts
  import opened Usages

  datatype ProviderError = ProviderError(context: string, message: string, kind: Option<string>)

  datatype AssistantTurn = AssistantTurn(message: string, done: bool, usage: Option<Usage>, events: seq<ToolEvent>)

  datatype SupervisorOutcome =
    | Completed(reason: string)
    | Continue(message: string, reason: string)
    | NoInstruction(reason: string)
    | Unparseable(problem: string, answer: string)

  datatype SupervisorTurn = SupervisorTurn(outcome: SupervisorOutcome, usage: Option<Usage>)

  /** The wire decision one judge's call records. */
  datatype Decision = Done | Unparsed | Uninstructed | Continued | Errored

  datatype JudgeDecision = JudgeDecision(judge: string, kind: string, decision: Decision, reason: string,
                                         events: seq<ToolEvent>)

  /** One turn's judges, across every decision re-taken on it. */
  datatype JudgedTurn = JudgedTurn(turn: nat, decisions: seq<JudgeDecision>)

  /** The tool events a bare provider's judge reported. */
  datatype JudgeTools = JudgeTools(judge: string, events: seq<ToolEvent>)
}
