/** Reference definitions for what the transcript fold computes, and the
    lemmas tying the fold's aggregates to its detail sequences. */
module JsonlFacts {
  import opened Wrappers
  import opened Clock
  import opened Strings
  import opened Records
  import opened Jsonl
  import Tags

  /** The decoded user and assistant records, in file order. */
  function Turns(lines: seq<Line>): seq<RawEntry>
    decreases |lines|
  {
    if |lines| == 0 then []
    else
      var last := lines[|lines| - 1];
      Turns(lines[..|lines| - 1]) + (if last.Decoded? && IsTurn(last.entry) then [last.entry] else [])
  }

  /** The texts of a message's "text" blocks, in block order. */
  function Texts(blocks: seq<ContentBlock>): seq<string>
    decreases |blocks|
  {
    if |blocks| == 0 then []
    else
      var last := blocks[|blocks| - 1];
      Texts(blocks[..|blocks| - 1]) + (if last.kind == "text" then [last.text] else [])
  }

  /** The message the i-th turn should become. */
  function ExpectedMessage(i: int, e: RawEntry, parse: TimeParser): Message {
    Message(i, MessageTime(e, parse), e.kind, Join(Texts(e.message.content), "\n"))
  }

  /** The tool-call entries a message's blocks should produce: one per
      "tool_use" block that names its tool, in block order, each tagged with
      the message's sequence number. */
  function CallsOf(blocks: seq<ContentBlock>, msgSeq: int): seq<ToolCallItem>
    decreases |blocks|
  {
    if |blocks| == 0 then []
    else
      var last := blocks[|blocks| - 1];
      CallsOf(blocks[..|blocks| - 1], msgSeq)
      + (if last.kind == "tool_use" && last.name != "" then [ToolCallItem(msgSeq, last.name, last.input, "", 0, true)] else [])
  }

  /** The tool-call list the turns should produce: the i-th turn's calls,
      tagged with i, in file order. */
  function ExpectedCalls(turns: seq<RawEntry>): seq<ToolCallItem>
    decreases |turns|
  {
    if |turns| == 0 then []
    else ExpectedCalls(turns[..|turns| - 1]) + CallsOf(turns[|turns| - 1].message.content, |turns| - 1)
  }

  /** The usage entry the i-th turn should produce, if it carries usage. */
  function UsageOf(i: int, e: RawEntry, parse: TimeParser): seq<TokenUsageItem> {
    match e.message.usage
    case None => []
    case Some(u) =>
      [TokenUsageItem(i, MessageTime(e, parse), e.message.model, u.inputTokens, u.outputTokens,
                      u.cacheReadInputTokens, u.cacheCreationInputTokens)]
  }

  /** The usage list the turns should produce, in file order. */
  function ExpectedUsage(turns: seq<RawEntry>, parse: TimeParser): seq<TokenUsageItem>
    decreases |turns|
  {
    if |turns| == 0 then []
    else ExpectedUsage(turns[..|turns| - 1], parse) + UsageOf(|turns| - 1, turns[|turns| - 1], parse)
  }

  /** Number of tool-call entries naming `name`. */
  function CountCalls(calls: seq<ToolCallItem>, name: string): nat
    decreases |calls|
  {
    if |calls| == 0 then 0
    else CountCalls(calls[..|calls| - 1], name) + (if calls[|calls| - 1].toolName == name then 1 else 0)
  }

  /** The tool aggregate agrees with the tool-call list: every tool's count
      and success equal its number of calls, which is never zero, no errors
      are ever recorded, every call is marked successful and names a
      recorded, non-empty tool. So the recorded tools are exactly the names
      on the call list. */
  ghost predicate ToolsConsistent(tools: map<string, ToolStats>, calls: seq<ToolCallItem>) {
    && "" !in tools
    && (forall n :: n in tools ==>
          tools[n].count == CountCalls(calls, n) > 0 && tools[n].success == tools[n].count && tools[n].errors == 0)
    && (forall n :: n !in tools ==> CountCalls(calls, n) == 0)
    && (forall i :: 0 <= i < |calls| ==> calls[i].success && calls[i].toolName in tools)
  }

  function SumIn(items: seq<TokenUsageItem>): int
    decreases |items|
  {
    if |items| == 0 then 0 else SumIn(items[..|items| - 1]) + items[|items| - 1].inputTokens
  }

  function SumOut(items: seq<TokenUsageItem>): int
    decreases |items|
  {
    if |items| == 0 then 0 else SumOut(items[..|items| - 1]) + items[|items| - 1].outputTokens
  }

  /** Number of turns that carried a usage record. */
  function UsageTurns(turns: seq<RawEntry>): nat
    decreases |turns|
  {
    if |turns| == 0 then 0
    else UsageTurns(turns[..|turns| - 1]) + (if turns[|turns| - 1].message.usage.Some? then 1 else 0)
  }

  /** The timestamps that parsed, over records of every type, in file order. */
  function ParsedTimes(lines: seq<Line>, parse: TimeParser): seq<Time>
    decreases |lines|
  {
    if |lines| == 0 then []
    else
      var last := lines[|lines| - 1];
      ParsedTimes(lines[..|lines| - 1], parse)
      + (if last.Decoded? && last.entry.timestamp != "" && parse(last.entry.timestamp).Some?
         then [parse(last.entry.timestamp).value] else [])
  }

  /** `t` is the first non-zero element of `ts`, or Zero when there is none. */
  ghost predicate IsFirstNonZero(ts: seq<Time>, t: Time) {
    if IsZero(t) then forall j :: 0 <= j < |ts| ==> IsZero(ts[j])
    else exists i :: 0 <= i < |ts| && ts[i] == t && forall j :: 0 <= j < i ==> IsZero(ts[j])
  }

  /** `m` is the last non-empty model among the turns, or "" when there is none. */
  ghost predicate IsLastModel(turns: seq<RawEntry>, m: string) {
    if m == "" then forall j :: 0 <= j < |turns| ==> turns[j].message.model == ""
    else exists i :: 0 <= i < |turns| && turns[i].message.model == m && forall j :: i < j < |turns| ==> turns[j].message.model == ""
  }

  lemma {:induction false} BlocksTexts(b: BlockAcc, blocks: seq<ContentBlock>, msgSeq: int)
    ensures ScanBlocks(b, blocks, msgSeq).texts == b.texts + Texts(blocks)
    decreases |blocks|
  {
    if |blocks| > 0 {
      BlocksTexts(b, blocks[..|blocks| - 1], msgSeq);
    }
  }

  lemma CountCallsSnoc(calls: seq<ToolCallItem>, c: ToolCallItem, name: string)
    ensures CountCalls(calls + [c], name) == CountCalls(calls, name) + (if c.toolName == name then 1 else 0)
  {
    assert (calls + [c])[..|calls|] == calls;
  }

  /** The aggregate after recording one more successful call of tool `n`. */
  function AddCall(tools: map<string, ToolStats>, n: string): map<string, ToolStats> {
    var st := if n in tools then tools[n] else ToolStats(0, 0, 0);
    tools[n := ToolStats(st.count + 1, st.success + 1, st.errors)]
  }

  /** Counting one more call keeps every tool's count equal to its calls. */
  lemma AddCallCounts(tools: map<string, ToolStats>, calls: seq<ToolCallItem>, c: ToolCallItem)
    requires ToolsConsistent(tools, calls)
    ensures var tools' := AddCall(tools, c.toolName);
      && (forall m :: m in tools' ==>
            tools'[m].count == CountCalls(calls + [c], m) > 0 && tools'[m].success == tools'[m].count && tools'[m].errors == 0)
      && (forall m :: m !in tools' ==> CountCalls(calls + [c], m) == 0)
  {
    var tools' := AddCall(tools, c.toolName);
    forall m | m in tools'
      ensures tools'[m].count == CountCalls(calls + [c], m) > 0 && tools'[m].success == tools'[m].count && tools'[m].errors == 0
    {
      CountCallsSnoc(calls, c, m);
    }
    forall m | m !in tools'
      ensures CountCalls(calls + [c], m) == 0
    {
      CountCallsSnoc(calls, c, m);
    }
  }

  /** Every call on the longer list succeeded and names a counted tool. */
  lemma AddCallItems(tools: map<string, ToolStats>, calls: seq<ToolCallItem>, c: ToolCallItem)
    requires ToolsConsistent(tools, calls)
    requires c.success
    ensures var tools' := AddCall(tools, c.toolName); var calls' := calls + [c];
      forall i :: 0 <= i < |calls'| ==> calls'[i].success && calls'[i].toolName in tools'
  {
    var tools' := AddCall(tools, c.toolName);
    var calls' := calls + [c];
    forall i | 0 <= i < |calls'|
      ensures calls'[i].success && calls'[i].toolName in tools'
    {
      if i < |calls| {
        assert calls'[i] == calls[i];
      }
    }
  }

  /** Recording one successful call of a named tool keeps the aggregate in
      step with the call list. */
  lemma AddCallConsistent(tools: map<string, ToolStats>, calls: seq<ToolCallItem>, c: ToolCallItem)
    requires ToolsConsistent(tools, calls)
    requires c.success && c.toolName != ""
    ensures ToolsConsistent(AddCall(tools, c.toolName), calls + [c])
  {
    AddCallCounts(tools, calls, c);
    AddCallItems(tools, calls, c);
  }

  lemma BlockStepConsistent(b: BlockAcc, block: ContentBlock, msgSeq: int)
    requires ToolsConsistent(b.tools, b.calls)
    ensures var b' := BlockStep(b, block, msgSeq); ToolsConsistent(b'.tools, b'.calls)
  {
    if block.kind != "text" && block.kind == "tool_use" && block.name != "" {
      AddCallConsistent(b.tools, b.calls, ToolCallItem(msgSeq, block.name, block.input, "", 0, true));
    }
  }

  lemma {:induction false} BlocksConsistent(b: BlockAcc, blocks: seq<ContentBlock>, msgSeq: int)
    requires ToolsConsistent(b.tools, b.calls)
    ensures var b' := ScanBlocks(b, blocks, msgSeq); ToolsConsistent(b'.tools, b'.calls)
    decreases |blocks|
  {
    if |blocks| > 0 {
      BlocksConsistent(b, blocks[..|blocks| - 1], msgSeq);
      BlockStepConsistent(ScanBlocks(b, blocks[..|blocks| - 1], msgSeq), blocks[|blocks| - 1], msgSeq);
    }
  }

  /** The blocks append exactly their expected calls to the call list. */
  lemma {:induction false} BlocksCalls(b: BlockAcc, blocks: seq<ContentBlock>, msgSeq: int)
    ensures ScanBlocks(b, blocks, msgSeq).calls == b.calls + CallsOf(blocks, msgSeq)
    decreases |blocks|
  {
    if |blocks| > 0 {
      var prefix := blocks[..|blocks| - 1];
      BlocksCalls(b, prefix, msgSeq);
      var last := blocks[|blocks| - 1];
      var tail := if last.kind == "tool_use" && last.name != "" then [ToolCallItem(msgSeq, last.name, last.input, "", 0, true)] else [];
      assert ScanBlocks(b, blocks, msgSeq).calls == ScanBlocks(b, prefix, msgSeq).calls + tail;
      assert b.calls + CallsOf(prefix, msgSeq) + tail == b.calls + (CallsOf(prefix, msgSeq) + tail);
    }
  }

  /** What one user or assistant record does to the fold state. */
  lemma TurnFacts(a: Acc, e: RawEntry, parse: TimeParser)
    ensures var t := Turn(a, e, parse); var s := a.session; var s' := t.session;
      var b := ScanBlocks(BlockAcc([], s.tools, s.toolCalls), e.message.content, a.msgSeq);
      && t.firstTs == a.firstTs && t.lastTs == a.lastTs && t.msgSeq == a.msgSeq + 1
      && s'.id == s.id && s'.projectPath == s.projectPath && s'.projectName == s.projectName
      && s'.startedAt == s.startedAt && s'.endedAt == s.endedAt
      && s'.totalMessages == s.totalMessages + 1
      && s'.messages == s.messages + [Message(a.msgSeq, MessageTime(e, parse), e.kind, Join(b.texts, "\n"))]
      && s'.tools == b.tools && s'.toolCalls == b.calls
      && s'.model == (if e.message.model != "" then e.message.model else s.model)
      && (e.message.usage.None? ==>
            s'.tokenUsage == s.tokenUsage && s'.totalTokensIn == s.totalTokensIn && s'.totalTokensOut == s.totalTokensOut)
      && (e.message.usage.Some? ==>
            var u := e.message.usage.value;
            && s'.tokenUsage == s.tokenUsage + [TokenUsageItem(a.msgSeq, MessageTime(e, parse), e.message.model, u.inputTokens,
                                                                u.outputTokens, u.cacheReadInputTokens, u.cacheCreationInputTokens)]
            && s'.totalTokensIn == s.totalTokensIn + u.inputTokens
            && s'.totalTokensOut == s.totalTokensOut + u.outputTokens)
  {
  }

  /** What one scanned line does to the fold state. */
  lemma StepFacts(a: Acc, line: Line, parse: TimeParser)
    ensures var a' := Step(a, line, parse);
      && (line.Decoded? && IsTurn(line.entry) ==> a'.session == Turn(a, line.entry, parse).session && a'.msgSeq == a.msgSeq + 1)
      && (!(line.Decoded? && IsTurn(line.entry)) ==> a'.session == a.session && a'.msgSeq == a.msgSeq)
      && (line.Decoded? && line.entry.timestamp != "" && parse(line.entry.timestamp).Some? ==>
            var t := parse(line.entry.timestamp).value;
            a'.lastTs == t && a'.firstTs == (if IsZero(a.firstTs) then t else a.firstTs))
      && (!(line.Decoded? && line.entry.timestamp != "" && parse(line.entry.timestamp).Some?) ==>
            a'.firstTs == a.firstTs && a'.lastTs == a.lastTs)
  {
    if line.Decoded? {
      var a1 := NoteTimestamp(a, line.entry.timestamp, parse);
      if IsTurn(line.entry) {
        TurnFacts(a1, line.entry, parse);
        TurnFacts(a, line.entry, parse);
      }
    }
  }

  /** The fold never touches the identity fields it started with. */
  lemma {:induction false} ScanKeepsIdentity(init: Acc, lines: seq<Line>, parse: TimeParser)
    ensures var s := Scan(init, lines, parse).session;
      && s.id == init.session.id && s.projectPath == init.session.projectPath && s.projectName == init.session.projectName
      && s.startedAt == init.session.startedAt && s.endedAt == init.session.endedAt
    decreases |lines|
  {
    if |lines| > 0 {
      var a0 := Scan(init, lines[..|lines| - 1], parse);
      var last := lines[|lines| - 1];
      ScanKeepsIdentity(init, lines[..|lines| - 1], parse);
      StepFacts(a0, last, parse);
      if last.Decoded? && IsTurn(last.entry) {
        TurnFacts(a0, last.entry, parse);
      }
    }
  }

  /** Messages are exactly the turns, numbered 0..n-1 in order, each carrying
      its text blocks joined by newlines; the message counter and the
      sequence counter both equal the number of turns. */
  lemma {:induction false} ScanMessages(start: Acc, lines: seq<Line>, parse: TimeParser)
    requires start.msgSeq == 0 && start.session.totalMessages == 0 && start.session.messages == []
    ensures var a := Scan(start, lines, parse);
      && a.msgSeq == a.session.totalMessages == |a.session.messages| == |Turns(lines)|
      && forall i :: 0 <= i < |a.session.messages| ==> a.session.messages[i] == ExpectedMessage(i, Turns(lines)[i], parse)
    decreases |lines|
  {
    if |lines| > 0 {
      var prefix := lines[..|lines| - 1];
      ScanMessages(start, prefix, parse);
      var a0 := Scan(start, prefix, parse);
      var last := lines[|lines| - 1];
      assert Scan(start, lines, parse) == Step(a0, last, parse);
      StepFacts(a0, last, parse);
      if last.Decoded? && IsTurn(last.entry) {
        var e := last.entry;
        TurnFacts(a0, e, parse);
        var b := ScanBlocks(BlockAcc([], a0.session.tools, a0.session.toolCalls), e.message.content, a0.msgSeq);
        BlocksTexts(BlockAcc([], a0.session.tools, a0.session.toolCalls), e.message.content, a0.msgSeq);
        assert b.texts == Texts(e.message.content);
        assert Turns(lines) == Turns(prefix) + [e];
        var msgs0 := a0.session.messages;
        var msgs := Scan(start, lines, parse).session.messages;
        assert msgs == msgs0 + [ExpectedMessage(|msgs0|, e, parse)];
        forall i | 0 <= i < |msgs|
          ensures msgs[i] == ExpectedMessage(i, Turns(lines)[i], parse)
        {
          if i < |msgs0| {
            assert msgs[i] == msgs0[i];
            assert Turns(lines)[i] == Turns(prefix)[i];
          }
        }
      } else {
        assert Turns(lines) == Turns(prefix);
      }
    }
  }

  /** The tool aggregate and the tool-call list stay consistent. */
  lemma {:induction false} ScanTools(start: Acc, lines: seq<Line>, parse: TimeParser)
    requires ToolsConsistent(start.session.tools, start.session.toolCalls)
    ensures var s := Scan(start, lines, parse).session; ToolsConsistent(s.tools, s.toolCalls)
    decreases |lines|
  {
    if |lines| > 0 {
      var prefix := lines[..|lines| - 1];
      ScanTools(start, prefix, parse);
      var a0 := Scan(start, prefix, parse);
      var last := lines[|lines| - 1];
      assert Scan(start, lines, parse) == Step(a0, last, parse);
      StepFacts(a0, last, parse);
      if last.Decoded? && IsTurn(last.entry) {
        var e := last.entry;
        TurnFacts(a0, e, parse);
        BlocksConsistent(BlockAcc([], a0.session.tools, a0.session.toolCalls), e.message.content, a0.msgSeq);
      }
    }
  }

  /** The sequence counter advances once per turn. */
  lemma {:induction false} ScanSeq(start: Acc, lines: seq<Line>, parse: TimeParser)
    ensures Scan(start, lines, parse).msgSeq == start.msgSeq + |Turns(lines)|
    decreases |lines|
  {
    if |lines| > 0 {
      var prefix := lines[..|lines| - 1];
      ScanSeq(start, prefix, parse);
      var a0 := Scan(start, prefix, parse);
      var last := lines[|lines| - 1];
      assert Scan(start, lines, parse) == Step(a0, last, parse);
      StepFacts(a0, last, parse);
      if last.Decoded? && IsTurn(last.entry) {
        assert Turns(lines) == Turns(prefix) + [last.entry];
      } else {
        assert Turns(lines) == Turns(prefix);
      }
    }
  }

  /** The tool-call list is exactly the expected one: one entry per named
      "tool_use" block, in file order, tagged with its turn's number. */
  lemma {:induction false} ScanCalls(start: Acc, lines: seq<Line>, parse: TimeParser)
    requires start.msgSeq == 0 && start.session.toolCalls == []
    ensures Scan(start, lines, parse).session.toolCalls == ExpectedCalls(Turns(lines))
    decreases |lines|
  {
    if |lines| > 0 {
      var prefix := lines[..|lines| - 1];
      ScanCalls(start, prefix, parse);
      ScanSeq(start, prefix, parse);
      var a0 := Scan(start, prefix, parse);
      var last := lines[|lines| - 1];
      assert Scan(start, lines, parse) == Step(a0, last, parse);
      StepFacts(a0, last, parse);
      if last.Decoded? && IsTurn(last.entry) {
        var e := last.entry;
        TurnFacts(a0, e, parse);
        BlocksCalls(BlockAcc([], a0.session.tools, a0.session.toolCalls), e.message.content, a0.msgSeq);
        var turns := Turns(lines);
        assert turns == Turns(prefix) + [e];
        assert turns[..|turns| - 1] == Turns(prefix);
        assert ExpectedCalls(turns) == ExpectedCalls(Turns(prefix)) + CallsOf(e.message.content, a0.msgSeq);
      } else {
        assert Turns(lines) == Turns(prefix);
      }
    }
  }

  /** The usage list is exactly the expected one: one entry per turn
      carrying usage, in file order, with that turn's number, time, model
      and token counts. */
  lemma {:induction false} ScanUsage(start: Acc, lines: seq<Line>, parse: TimeParser)
    requires start.msgSeq == 0 && start.session.tokenUsage == []
    ensures Scan(start, lines, parse).session.tokenUsage == ExpectedUsage(Turns(lines), parse)
    decreases |lines|
  {
    if |lines| > 0 {
      var prefix := lines[..|lines| - 1];
      ScanUsage(start, prefix, parse);
      ScanSeq(start, prefix, parse);
      var a0 := Scan(start, prefix, parse);
      var last := lines[|lines| - 1];
      assert Scan(start, lines, parse) == Step(a0, last, parse);
      StepFacts(a0, last, parse);
      if last.Decoded? && IsTurn(last.entry) {
        var e := last.entry;
        TurnFacts(a0, e, parse);
        var turns := Turns(lines);
        assert turns == Turns(prefix) + [e];
        assert turns[..|turns| - 1] == Turns(prefix);
        assert ExpectedUsage(turns, parse) == ExpectedUsage(Turns(prefix), parse) + UsageOf(a0.msgSeq, e, parse);
      } else {
        assert Turns(lines) == Turns(prefix);
      }
    }
  }

  lemma SumSnoc(items: seq<TokenUsageItem>, item: TokenUsageItem)
    ensures SumIn(items + [item]) == SumIn(items) + item.inputTokens
    ensures SumOut(items + [item]) == SumOut(items) + item.outputTokens
  {
    assert (items + [item])[..|items|] == items;
  }

  /** Token totals are the sums over the usage entries, and there is one
      usage entry per turn that carried usage. */
  lemma {:induction false} ScanTokens(start: Acc, lines: seq<Line>, parse: TimeParser)
    requires start.session.totalTokensIn == 0 && start.session.totalTokensOut == 0 && start.session.tokenUsage == []
    ensures var s := Scan(start, lines, parse).session;
      && s.totalTokensIn == SumIn(s.tokenUsage)
      && s.totalTokensOut == SumOut(s.tokenUsage)
      && |s.tokenUsage| == UsageTurns(Turns(lines))
    decreases |lines|
  {
    if |lines| > 0 {
      var prefix := lines[..|lines| - 1];
      ScanTokens(start, prefix, parse);
      var a0 := Scan(start, prefix, parse);
      var last := lines[|lines| - 1];
      assert Scan(start, lines, parse) == Step(a0, last, parse);
      StepFacts(a0, last, parse);
      if last.Decoded? && IsTurn(last.entry) {
        var e := last.entry;
        TurnFacts(a0, e, parse);
        assert Turns(lines) == Turns(prefix) + [e];
        assert (Turns(prefix) + [e])[..|Turns(prefix)|] == Turns(prefix);
        match e.message.usage
        case None =>
        case Some(u) =>
          SumSnoc(a0.session.tokenUsage,
                  TokenUsageItem(a0.msgSeq, MessageTime(e, parse), e.message.model, u.inputTokens, u.outputTokens,
                                 u.cacheReadInputTokens, u.cacheCreationInputTokens));
      } else {
        assert Turns(lines) == Turns(prefix);
      }
    }
  }

  /** One record moves the model only when it is a turn naming one. */
  lemma StepModel(a: Acc, line: Line, parse: TimeParser)
    ensures Step(a, line, parse).session.model ==
      if line.Decoded? && IsTurn(line.entry) && line.entry.message.model != "" then line.entry.message.model
      else a.session.model
  {
    if line.Decoded? && IsTurn(line.entry) {
      TurnFacts(NoteTimestamp(a, line.entry.timestamp, parse), line.entry, parse);
    }
  }

  lemma LastModelSnoc(turns: seq<RawEntry>, e: RawEntry, m0: string)
    requires IsLastModel(turns, m0)
    ensures IsLastModel(turns + [e], if e.message.model != "" then e.message.model else m0)
  {
    var turns' := turns + [e];
    if e.message.model != "" {
      assert turns'[|turns|].message.model == e.message.model;
    } else if m0 != "" {
      var i :| 0 <= i < |turns| && turns[i].message.model == m0 && forall j :: i < j < |turns| ==> turns[j].message.model == "";
      assert turns'[i].message.model == m0;
    }
  }

  /** The session model is the last non-empty model among the turns. */
  lemma {:induction false} ScanModel(start: Acc, lines: seq<Line>, parse: TimeParser)
    requires start.session.model == ""
    ensures IsLastModel(Turns(lines), Scan(start, lines, parse).session.model)
    decreases |lines|
  {
    if |lines| > 0 {
      var prefix := lines[..|lines| - 1];
      ScanModel(start, prefix, parse);
      var a0 := Scan(start, prefix, parse);
      var last := lines[|lines| - 1];
      assert Scan(start, lines, parse) == Step(a0, last, parse);
      StepModel(a0, last, parse);
      if last.Decoded? && IsTurn(last.entry) {
        assert Turns(lines) == Turns(prefix) + [last.entry];
        LastModelSnoc(Turns(prefix), last.entry, a0.session.model);
      } else {
        assert Turns(lines) == Turns(prefix);
      }
    }
  }

  /** One record moves the first and last times only when its timestamp parses. */
  lemma StepTimes(a: Acc, line: Line, parse: TimeParser)
    ensures var a' := Step(a, line, parse);
      if line.Decoded? && line.entry.timestamp != "" && parse(line.entry.timestamp).Some? then
        var t := parse(line.entry.timestamp).value;
        a'.lastTs == t && a'.firstTs == (if IsZero(a.firstTs) then t else a.firstTs)
      else
        a'.firstTs == a.firstTs && a'.lastTs == a.lastTs
  {
    if line.Decoded? && IsTurn(line.entry) {
      TurnFacts(NoteTimestamp(a, line.entry.timestamp, parse), line.entry, parse);
    }
  }

  lemma FirstNonZeroSnoc(ts: seq<Time>, t: Time, f0: Time)
    requires IsFirstNonZero(ts, f0)
    ensures IsFirstNonZero(ts + [t], if IsZero(f0) then t else f0)
  {
    var ts' := ts + [t];
    if IsZero(f0) {
      if !IsZero(t) {
        assert ts'[|ts|] == t;
      }
    } else {
      var i :| 0 <= i < |ts| && ts[i] == f0 && forall j :: 0 <= j < i ==> IsZero(ts[j]);
      assert ts'[i] == f0;
    }
  }

  /** The first timestamp is the first non-zero one that parsed, over records
      of every type; the last is the last one that parsed. */
  lemma {:induction false} ScanTimes(start: Acc, lines: seq<Line>, parse: TimeParser)
    requires start.firstTs == Zero && start.lastTs == Zero
    ensures var a := Scan(start, lines, parse); var ts := ParsedTimes(lines, parse);
      && IsFirstNonZero(ts, a.firstTs)
      && a.lastTs == (if |ts| == 0 then Zero else ts[|ts| - 1])
    decreases |lines|
  {
    if |lines| > 0 {
      var prefix := lines[..|lines| - 1];
      ScanTimes(start, prefix, parse);
      var a0 := Scan(start, prefix, parse);
      var last := lines[|lines| - 1];
      assert Scan(start, lines, parse) == Step(a0, last, parse);
      StepTimes(a0, last, parse);
      if last.Decoded? && last.entry.timestamp != "" && parse(last.entry.timestamp).Some? {
        var t := parse(last.entry.timestamp).value;
        assert ParsedTimes(lines, parse) == ParsedTimes(prefix, parse) + [t];
        FirstNonZeroSnoc(ParsedTimes(prefix, parse), t, a0.firstTs);
      } else {
        assert ParsedTimes(lines, parse) == ParsedTimes(prefix, parse);
      }
    }
  }

  /** An accumulator nothing has been folded into yet. */
  predicate Fresh(a: Acc) {
    && a.msgSeq == 0 && a.firstTs == Zero && a.lastTs == Zero
    && a.session.totalMessages == 0 && a.session.messages == []
    && a.session.tools == map[] && a.session.toolCalls == []
    && a.session.totalTokensIn == 0 && a.session.totalTokensOut == 0 && a.session.tokenUsage == []
    && a.session.model == "" && a.session.startedAt == Zero && a.session.endedAt == None
  }

  /** The counts folding and finishing make of the lines, from any fresh
      start: messages, tool statistics, tokens. */
  lemma FoldCounts(start: Acc, lines: seq<Line>, parse: TimeParser)
    requires Fresh(start)
    ensures var s := Finish(Scan(start, lines, parse));
      var turns := Turns(lines);
      && s.totalMessages == |s.messages| == |turns|
      && (forall i :: 0 <= i < |s.messages| ==> s.messages[i] == ExpectedMessage(i, turns[i], parse))
      && ToolsConsistent(s.tools, s.toolCalls)
      && s.toolCalls == ExpectedCalls(turns)
      && s.tokenUsage == ExpectedUsage(turns, parse)
      && s.totalTokensIn == SumIn(s.tokenUsage)
      && s.totalTokensOut == SumOut(s.tokenUsage)
      && |s.tokenUsage| == UsageTurns(turns)
  {
    var a := Scan(start, lines, parse);
    ScanMessages(start, lines, parse);
    ScanTools(start, lines, parse);
    ScanTokens(start, lines, parse);
    ScanCalls(start, lines, parse);
    ScanUsage(start, lines, parse);
    FinishKeepsCounts(a);
  }

  /** The identity, model, times and tags folding and finishing make of the
      lines, from any fresh start. */
  lemma FoldStamps(start: Acc, lines: seq<Line>, parse: TimeParser)
    requires Fresh(start)
    ensures var s := Finish(Scan(start, lines, parse));
      var ts := ParsedTimes(lines, parse);
      && s.id == start.session.id
      && s.projectPath == start.session.projectPath && s.projectName == start.session.projectName
      && IsLastModel(Turns(lines), s.model)
      && IsFirstNonZero(ts, s.startedAt)
      && s.endedAt == (if |ts| == 0 || IsZero(ts[|ts| - 1]) then None else Some(ts[|ts| - 1]))
      && s.tags == Tags.GenerateTags(s)
  {
    var a := Scan(start, lines, parse);
    ScanKeepsIdentity(start, lines, parse);
    ScanModel(start, lines, parse);
    ScanTimes(start, lines, parse);
    FinishFacts(a);
  }

  /** What a fully scanned file parses to. */
  lemma ParseJSONLFacts(path: string, lines: seq<Line>, parse: TimeParser)
    ensures ParseJSONL(path, Scanned(lines, false), parse).Ok?
    ensures var s := ParseJSONL(path, Scanned(lines, false), parse).value;
      var turns := Turns(lines);
      var ts := ParsedTimes(lines, parse);
      && s.id == SessionID(path)
      && (s.projectPath, s.projectName) == ProjectOf(path)
      && s.totalMessages == |s.messages| == |turns|
      && (forall i :: 0 <= i < |s.messages| ==> s.messages[i] == ExpectedMessage(i, turns[i], parse))
      && ToolsConsistent(s.tools, s.toolCalls)
      && s.toolCalls == ExpectedCalls(turns)
      && s.tokenUsage == ExpectedUsage(turns, parse)
      && s.totalTokensIn == SumIn(s.tokenUsage)
      && s.totalTokensOut == SumOut(s.tokenUsage)
      && |s.tokenUsage| == UsageTurns(turns)
      && IsLastModel(turns, s.model)
      && IsFirstNonZero(ts, s.startedAt)
      && s.endedAt == (if |ts| == 0 || IsZero(ts[|ts| - 1]) then None else Some(ts[|ts| - 1]))
      && s.tags == Tags.GenerateTags(s)
  {
    var start := Start(path);
    assert Fresh(start);
    assert start.session.id == SessionID(path) && (start.session.projectPath, start.session.projectName) == ProjectOf(path);
    FoldCounts(start, lines, parse);
    FoldStamps(start, lines, parse);
    assert ParseJSONL(path, Scanned(lines, false), parse) == Ok(Finish(Scan(start, lines, parse)));
  }

  /** A parsed session carries the id derived from its file name. */
  lemma ParsedSessionID(path: string, file: TranscriptFile, parse: TimeParser)
    ensures ParseJSONL(path, file, parse).Ok? ==> ParseJSONL(path, file, parse).value.id == SessionID(path)
  {
    match file
    case Unopenable =>
    case Scanned(lines, scanFailed) =>
      var a := Scan(Start(path), lines, parse);
      ScanKeepsIdentity(Start(path), lines, parse);
      FinishKeepsId(a);
      assert ParseJSONL(path, file, parse) == if scanFailed then Err(ScanFailed(Finish(a))) else Ok(Finish(a));
  }

  lemma FinishKeepsId(a: Acc)
    ensures Finish(a).id == a.session.id
  {
  }

  /** Finishing touches only the times and the tags. */
  lemma FinishKeepsCounts(a: Acc)
    ensures var s := Finish(a);
      && s.messages == a.session.messages && s.totalMessages == a.session.totalMessages
      && s.tools == a.session.tools && s.toolCalls == a.session.toolCalls
      && s.tokenUsage == a.session.tokenUsage
      && s.totalTokensIn == a.session.totalTokensIn && s.totalTokensOut == a.session.totalTokensOut
  {
  }

  lemma FinishFacts(a: Acc)
    requires a.session.startedAt == Zero && a.session.endedAt == None
    ensures var s := Finish(a);
      && s.(startedAt := Zero, endedAt := None, tags := a.session.tags) == a.session
      && s.startedAt == a.firstTs
      && s.endedAt == (if IsZero(a.lastTs) then None else Some(a.lastTs))
      && s.tags == Tags.GenerateTags(s)
  {
  }

  /** A scanner error or an unopenable file is reported as an error; a
      scanner error carries the session built from the lines read before it. */
  lemma ParseErrors(path: string, lines: seq<Line>, parse: TimeParser)
    ensures ParseJSONL(path, Unopenable, parse) == Err(OpenFailed)
    ensures ParseJSONL(path, Scanned(lines, true), parse).Err?
    ensures ParseJSONL(path, Scanned(lines, true), parse).error.ScanFailed?
    ensures ParseJSONL(path, Scanned(lines, true), parse).error.partial == ParseJSONL(path, Scanned(lines, false), parse).value
  {
  }

  /** An empty or undecodable line contributes nothing, wherever it sits. */
  lemma {:induction false} NoiseIgnored(init: Acc, before: seq<Line>, noise: Line, after: seq<Line>, parse: TimeParser)
    requires noise == Blank || noise == Undecodable
    ensures Scan(init, before + [noise] + after, parse) == Scan(init, before + after, parse)
    decreases |after|
  {
    if |after| == 0 {
      assert before + [noise] + after == before + [noise];
      assert (before + [noise])[..|before|] == before;
      assert before + after == before;
    } else {
      var shorter := after[..|after| - 1];
      NoiseIgnored(init, before, noise, shorter, parse);
      var l1 := before + [noise] + after;
      var l2 := before + after;
      assert l1[..|l1| - 1] == before + [noise] + shorter;
      assert l2[..|l2| - 1] == before + shorter;
      assert l1[|l1| - 1] == l2[|l2| - 1];
    }
  }

  /** Hence a malformed line anywhere in a file leaves the parse unchanged. */
  lemma MalformedLineIgnored(path: string, before: seq<Line>, after: seq<Line>, parse: TimeParser)
    ensures ParseJSONL(path, Scanned(before + [Undecodable] + after, false), parse)
         == ParseJSONL(path, Scanned(before + after, false), parse)
  {
    NoiseIgnored(Start(path), before, Undecodable, after, parse);
  }

  /** A session file `<dir>/<id>.jsonl` gets the ID `<id>`. */
  lemma SessionIDOfFile(dir: string, id: string)
    requires id != "" && '/' !in id
    ensures SessionID(dir + "/" + id + ".jsonl") == id
  {
    var p := dir + "/" + id + ".jsonl";
    assert HasSuffix(p, ".jsonl");
    assert TrimSuffix(p, ".jsonl") == dir + "/" + id;
    Paths.BaseOfChild(dir, id);
  }
}
