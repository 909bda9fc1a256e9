/** The normalised session record the transcript parser produces and the
    privacy filter and sync pass consume. */
module Records {
  import opened Wrappers
  import opened Clock

  /** Per-tool aggregate: invocations, assumed successes, errors. */
  datatype ToolStats = ToolStats(count: int, success: int, errors: int)

  /** One conversational turn; `seqNo` is its position among the turns. */
  datatype Message = Message(seqNo: int, timestamp: Time, role: string, content: string)

  datatype TokenUsageItem = TokenUsageItem(
    messageSeq: int,
    timestamp: Time,
    model: string,
    inputTokens: int,
    outputTokens: int,
    cacheReadTokens: int,
    cacheCreationTokens: int)

  /** One tool invocation; `toolInput` is the serialised input, kept opaque. */
  datatype ToolCallItem = ToolCallItem(
    messageSeq: int,
    toolName: string,
    toolInput: string,
    toolOutput: string,
    durationMs: int,
    success: bool)

  /** A parsed session. A nil Go slice and an empty one are both the empty
      sequence here; tags form a set because their order is unspecified. */
  datatype Session = Session(
    id: string,
    projectName: string,
    projectPath: string,
    startedAt: Time,
    endedAt: Option<Time>,
    totalMessages: int,
    totalTokensIn: int,
    totalTokensOut: int,
    model: string,
    tools: map<string, ToolStats>,
    tags: set<string>,
    messages: seq<Message>,
    tokenUsage: seq<TokenUsageItem>,
    toolCalls: seq<ToolCallItem>)
}
