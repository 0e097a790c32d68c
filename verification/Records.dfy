/** The persisted conversation record, shared by the history and the context builder. */
module Records {
  datatype Role = User | Assistant | Tool | Report | Summary

  /** One function call the assistant issued, as replayed on the next turn. */
  datatype ToolCall = ToolCall(id: string, name: string, args: string)

  /** ts is the time stamp; on a report toolName holds the title. */
  datatype Record = Record(
    ts: int, role: Role, content: string, toolCallID: string, toolName: string, calls: seq<ToolCall>,
    objectIDs: seq<string>, documentIDs: seq<string>, status: string)

  function Plain(ts: int, role: Role, content: string): Record {
    Record(ts, role, content, "", "", [], [], [], "")
  }
}
