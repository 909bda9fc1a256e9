/** The transcript parser: a left fold over the already-decoded records of a
    session file, followed by tag generation. JSON decoding, line scanning
    and RFC 3339 time parsing are outside; the time parser is a parameter. */
module Jsonl {
  import opened Wrappers
  import opened Clock
  import opened Strings
  import opened Paths
  import opened Records
  import Tags

  /** One block of a message's `content` array. `input` is the serialised
      tool input ("" when absent or not serialisable). */
  datatype ContentBlock = ContentBlock(kind: string, text: string, name: string, input: string)

  datatype Usage = Usage(inputTokens: int, outputTokens: int, cacheReadInputTokens: int, cacheCreationInputTokens: int)

  /** The decoded `message` payload; an absent or undecodable payload is the
      empty content. */
  datatype MessageContent = MessageContent(content: seq<ContentBlock>, usage: Option<Usage>, model: string)

  datatype RawEntry = RawEntry(kind: string, timestamp: string, message: MessageContent)

  /** A scanned line: empty, not a JSON record, or a decoded record. */
  datatype Line = Blank | Undecodable | Decoded(entry: RawEntry)

  /** A session file: it could not be opened, or it was scanned up to the end
      or up to a scanner error (a line over the buffer limit, a read error). */
  datatype TranscriptFile = Unopenable | Scanned(lines: seq<Line>, scanFailed: bool)

  /** The scanner error case still carries the session built so far, as
      `ParseJSONL` returns both. */
  datatype ParseError = OpenFailed | ScanFailed(partial: Session)

  /** RFC 3339 parsing as a partial function. */
  type TimeParser = string -> Option<Time>

  /** The session ID: the file's base name with `.jsonl` trimmed. */
  function SessionID(path: string): string {
    Base(TrimSuffix(path, ".jsonl"))
  }

  /** Project path and name from the parent directory: a name starting with
      '-' encodes a path with every '/' written as '-'. */
  function ProjectOf(path: string): (pn: (string, string))
    ensures !HasPrefix(ParentName(path), "-") ==> pn == ("", "")
    ensures HasPrefix(ParentName(path), "-") ==>
      && |pn.0| == |ParentName(path)| && pn.0[0] == '/' && '-' !in pn.0
      && (forall i :: 0 <= i < |pn.0| ==>
            pn.0[i] == if ParentName(path)[i] == '-' then '/' else ParentName(path)[i])
      && '/' !in pn.1
      && exists dir :: pn.0 == dir + "/" + pn.1
  {
    var parent := ParentName(path);
    if HasPrefix(parent, "-") then
      var projectPath := ReplaceChar(parent, '-', '/');
      var parts := Split(projectPath, '/');
      var name := parts[|parts| - 1];
      LastPartIsSuffix(projectPath);
      (projectPath, name)
    else ("", "")
  }

  lemma LastPartIsSuffix(p: string)
    requires |p| > 0 && p[0] == '/'
    ensures var parts := Split(p, '/'); exists dir :: p == dir + "/" + parts[|parts| - 1]
  {
    var parts := Split(p, '/');
    JoinSplit(p, '/');
    JoinEndsWithLast(parts, "/");
    var dir := Join(parts[..|parts| - 1], "/");
    assert p == dir + "/" + parts[|parts| - 1];
  }

  function NewSession(path: string): Session {
    var pn := ProjectOf(path);
    Session(SessionID(path), pn.1, pn.0, Zero, None, 0, 0, 0, "", map[], {}, [], [], [])
  }

  /** Fold state: the session under construction, the first and last parsed
      timestamps (Zero while unset) and the next message sequence number. */
  datatype Acc = Acc(session: Session, firstTs: Time, lastTs: Time, msgSeq: int)

  /** Fold state of one message's blocks: its text parts, and the session's
      tool aggregate and tool-call list. */
  datatype BlockAcc = BlockAcc(texts: seq<string>, tools: map<string, ToolStats>, calls: seq<ToolCallItem>)

  function BlockStep(b: BlockAcc, block: ContentBlock, msgSeq: int): BlockAcc {
    if block.kind == "text" then
      b.(texts := b.texts + [block.text])
    else if block.kind == "tool_use" && block.name != "" then
      var st := if block.name in b.tools then b.tools[block.name] else ToolStats(0, 0, 0);
      b.(tools := b.tools[block.name := ToolStats(st.count + 1, st.success + 1, st.errors)],
         calls := b.calls + [ToolCallItem(msgSeq, block.name, block.input, "", 0, true)])
    else
      b
  }

  function ScanBlocks(b: BlockAcc, blocks: seq<ContentBlock>, msgSeq: int): BlockAcc
    decreases |blocks|
  {
    if |blocks| == 0 then b
    else BlockStep(ScanBlocks(b, blocks[..|blocks| - 1], msgSeq), blocks[|blocks| - 1], msgSeq)
  }

  predicate IsTurn(e: RawEntry) {
    e.kind == "user" || e.kind == "assistant"
  }

  /** The message timestamp: an unparsable one is the zero time. */
  function MessageTime(e: RawEntry, parse: TimeParser): Time {
    parse(e.timestamp).GetOr(Zero)
  }

  function NoteTimestamp(a: Acc, ts: string, parse: TimeParser): Acc {
    if ts != "" && parse(ts).Some? then
      var t := parse(ts).value;
      a.(firstTs := if IsZero(a.firstTs) then t else a.firstTs, lastTs := t)
    else a
  }

  /** A user or assistant record: one message, its blocks, its usage and model. */
  function Turn(a: Acc, e: RawEntry, parse: TimeParser): Acc {
    var s := a.session;
    var mc := e.message;
    var msgTs := MessageTime(e, parse);
    var b := ScanBlocks(BlockAcc([], s.tools, s.toolCalls), mc.content, a.msgSeq);
    var s1 := s.(totalMessages := s.totalMessages + 1, tools := b.tools, toolCalls := b.calls);
    var s2 :=
      match mc.usage
      case None => s1
      case Some(u) =>
        s1.(totalTokensIn := s1.totalTokensIn + u.inputTokens,
            totalTokensOut := s1.totalTokensOut + u.outputTokens,
            tokenUsage := s1.tokenUsage + [TokenUsageItem(a.msgSeq, msgTs, mc.model, u.inputTokens, u.outputTokens,
                                                          u.cacheReadInputTokens, u.cacheCreationInputTokens)]);
    var s3 := if mc.model != "" then s2.(model := mc.model) else s2;
    var s4 := s3.(messages := s3.messages + [Message(a.msgSeq, msgTs, e.kind, Join(b.texts, "\n"))]);
    a.(session := s4, msgSeq := a.msgSeq + 1)
  }

  function Step(a: Acc, line: Line, parse: TimeParser): Acc {
    match line
    case Blank => a
    case Undecodable => a
    case Decoded(e) =>
      var a1 := NoteTimestamp(a, e.timestamp, parse);
      if IsTurn(e) then Turn(a1, e, parse) else a1
  }

  /** The left fold over the scanned lines. */
  function Scan(init: Acc, lines: seq<Line>, parse: TimeParser): Acc
    decreases |lines|
  {
    if |lines| == 0 then init
    else Step(Scan(init, lines[..|lines| - 1], parse), lines[|lines| - 1], parse)
  }

  function Start(path: string): Acc {
    Acc(NewSession(path), Zero, Zero, 0)
  }

  function Finish(a: Acc): Session {
    var s := a.session;
    var s1 := if !IsZero(a.firstTs) then s.(startedAt := a.firstTs) else s;
    var s2 := if !IsZero(a.lastTs) then s1.(endedAt := Some(a.lastTs)) else s1;
    s2.(tags := Tags.GenerateTags(s2))
  }

  /** ParseJSONL over a session file. */
  function ParseJSONL(path: string, file: TranscriptFile, parse: TimeParser): Result<Session, ParseError> {
    match file
    case Unopenable => Err(OpenFailed)
    case Scanned(lines, scanFailed) =>
      var s := Finish(Scan(Start(path), lines, parse));
      if scanFailed then Err(ScanFailed(s)) else Ok(s)
  }
}
