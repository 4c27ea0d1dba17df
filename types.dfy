/** Values shared by the live voice session, the chat history and the repair checklist:
    the records of types.ts and the argument shape of the create_repair_guide tool
    declared in services/tools.ts. */
module Types {

  datatype Option<+T> = None | Some(value: T)

  /** The four states of a live voice session. */
  datatype ConnectionState = Disconnected | Connecting | Connected | Error

  /** Who a chat message comes from. Transcripts only ever carry User or Model. */
  datatype Role = User | Model | System

  datatype RepairStep = RepairStep(id: string, text: string, isCompleted: bool)

  datatype RepairGuide = RepairGuide(title: string, tools: seq<string>, steps: seq<RepairStep>, estimatedTime: string)

  /** A chat message; `timestamp` is in milliseconds, as Date.now() returns it. */
  datatype ChatMessage = ChatMessage(id: string, role: Role, text: string, timestamp: int, repairGuide: Option<RepairGuide>)

  datatype Vehicle = Vehicle(id: string, year: string, make: string, model: string, contextString: string, createdAt: int)

  /** The chat history of every vehicle, keyed by vehicle id. */
  type ChatSessionMap = map<string, seq<ChatMessage>>

  /** The `steps` argument as it arrives: missing (or another falsy value), a list of
      step texts, or some other truthy value, which has no `map` and makes the builder
      throw. */
  datatype StepsArg = NoSteps | StepList(texts: seq<string>) | NotAList

  /** The arguments of a create_repair_guide call as the remote model sends them.
      The declaration marks all four as required, but nothing enforces it on arrival,
      so every field except the title may be missing; a missing tool list or time is
      None, and an empty time string is as good as missing. */
  datatype GuideArgs = GuideArgs(title: string, steps: StepsArg, tools: Option<seq<string>>, estimatedTime: Option<string>)

  /** One function call of a tool-call batch. */
  datatype FunctionCall = FunctionCall(id: string, name: string, args: GuideArgs)

  /** What a tool handler returns: null, or a string (the only kinds App's handler returns). */
  datatype ToolResult = Null | Text(text: string)

  /** JavaScript truthiness of a handler result: null and the empty string are falsy. */
  predicate Truthy(r: ToolResult)
  {
    r.Text? && r.text != ""
  }

  /** The name of the only tool the application declares. */
  const RepairGuideToolName: string := "create_repair_guide"
}
