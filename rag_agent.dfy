/** The `rag-agent` serverless function: it reads the conversation's
    history, the agent type's latest stored outputs and the enabled tools
    into a prompt, asks the model, runs every `TOOL_CALL: name | input` line
    of the answer through the named tool and splices the result into the
    answer, stores the answer for later research, appends the exchange to
    the conversation (or starts one) and reports what it used.

    The database rows, the model's answer, the clock, the arithmetic
    evaluator behind the calculator and the JSON analysis of the data
    analyzer are parameters. The stored-outputs lookup sorts by creation
    time, newest first, in the database; its rows are given here in that
    order. */
module RagAgent {
  import opened Common
  import opened Text
  import opened Sections

  // ---------------------------------------------------------------------
  // Tools

  datatype Tool = Tool(name: string, description: string)

  const Calculator := Tool("calculator", "Performs mathematical calculations. Input should be a math expression like '1000 * 12 / 365' or 'sqrt(16) + 5^2'")
  const WebSearch := Tool("web_search", "Searches the web for current information. Input should be a search query.")
  const DataAnalyzer := Tool("data_analyzer", "Analyzes JSON data and extracts insights. Input should be valid JSON.")

  /** `AVAILABLE_TOOLS`, in this order. */
  const AvailableTools := [Calculator, WebSearch, DataAnalyzer]

  /** The default of `enabled_tools`: every tool. */
  const AllToolNames := ["calculator", "web_search", "data_analyzer"]

  /** `tools.find(t => t.name === name)`: the first tool of that name. */
  function Find(tools: seq<Tool>, name: string): (r: Option<Tool>)
    ensures r.Some? ==> r.value in tools && r.value.name == name
    ensures r.None? ==> forall t :: t in tools ==> t.name != name
  {
    if tools == [] then None
    else if tools[0].name == name then Some(tools[0])
    else Find(tools[1..], name)
  }

  /** What the arithmetic evaluator gives back: the rendered value, or the
      message of the error it threw. */
  datatype Evaluated = Evaluated(text: string) | EvalError(message: string)

  /** The characters the calculator keeps: digits, `+`, `-`, `*`, `/`,
      parentheses, `.` and white space. */
  predicate IsCalculatorChar(c: char) {
    IsDigit(c) || c == '+' || c == '-' || c == '*' || c == '/' || c == '(' || c == ')' || c == '.' || IsSpace(c)
  }

  /** The calculator's sanitizing `replace`: every other character is
      deleted. */
  function Sanitize(input: string): string {
    Filter(input, IsCalculatorChar)
  }

  /** What is evaluated holds only digits, operators, parentheses, points
      and white space; every such character of the input is kept, and a
      sanitized input is left as it is. */
  lemma SanitizeSpec(input: string)
    ensures forall c :: c in Sanitize(input) <==> c in input && IsCalculatorChar(c)
    ensures Sanitize(Sanitize(input)) == Sanitize(input)
  {
    forall c
      ensures c in Sanitize(input) <==> c in input && IsCalculatorChar(c)
    {
      FilterMembers(input, IsCalculatorChar, c);
    }
    FilterAllPass(Sanitize(input), IsCalculatorChar);
  }

  /** One tool run on its (trimmed) input. The calculator evaluates the
      sanitized input; the web search is a stub that describes the search;
      the data analyzer's JSON analysis is the `analyze` parameter. */
  function Execute(tool: Tool, input: string, evaluate: string -> Evaluated, analyze: string -> string): string {
    if tool.name == Calculator.name then
      match evaluate(Sanitize(input))
      case Evaluated(text) => "Calculation result: " + text
      case EvalError(message) => "Error in calculation: " + message
    else if tool.name == WebSearch.name then
      "[Web search for \"" + input + "\" would return real-time results here. Serper API integration needed for production.]"
    else analyze(input)
  }

  /** The available tools whose names are enabled, in the order of the
      available tools. */
  function ActiveTools(enabled: seq<string>): seq<Tool> {
    Filter(AvailableTools, (t: Tool) => t.name in enabled)
  }

  /** The active tools are the available tools that are enabled, in the
      order of the available tools; with the default every tool is active. */
  lemma ActiveToolsSpec(enabled: seq<string>)
    ensures forall t :: t in ActiveTools(enabled) <==> t in AvailableTools && t.name in enabled
    ensures Filter(AvailableTools, (t: Tool) => t.name in AllToolNames) == AvailableTools
  {
    forall t
      ensures t in ActiveTools(enabled) <==> t in AvailableTools && t.name in enabled
    {
      FilterMembers(AvailableTools, (t: Tool) => t.name in enabled, t);
    }
    FilterAllPass(AvailableTools, (t: Tool) => t.name in AllToolNames);
  }

  // ---------------------------------------------------------------------
  // The prompt

  /** A row of `vector_embeddings` as the lookup selects it. */
  datatype PastOutput = PastOutput(content: string, agentType: string, createdAt: string)

  /** The stored-outputs lookup: the three newest outputs of the agent
      type, or `null` when the query fails. */
  function SimilarOutputs(rows: seq<PastOutput>, agentType: string, queryFails: bool): (r: Option<seq<PastOutput>>)
    ensures r.Some? <==> !queryFails
    ensures r.Some? ==> |r.value| <= 3 && forall o :: o in r.value ==> o in rows && o.agentType == agentType
    ensures r.Some? && |Filter(rows, (o: PastOutput) => o.agentType == agentType)| <= 3 ==>
      forall o :: o in rows && o.agentType == agentType ==> o in r.value
  {
    if queryFails then None
    else
      var f := (o: PastOutput) => o.agentType == agentType;
      var all := Filter(rows, f);
      var r := Prefix(all, 3);
      assert forall o :: o in r ==> o in all;
      assert forall o :: o in all <==> o in rows && f(o) by {
        forall o { FilterMembers(rows, f, o); }
      }
      Some(r)
  }

  /** The past outputs numbered from 1 in the order returned. */
  function ResearchLines(items: seq<PastOutput>): (r: seq<string>)
    ensures |r| == |items|
  {
    seq(|items|, i requires 0 <= i < |items| => NatToString(i + 1) + ". " + items[i].content)
  }

  const ResearchHeader := "\n\nBased on previous research:\n"

  /** The research block: empty when the lookup found nothing or failed. */
  function RagContext(similar: Option<seq<PastOutput>>): (r: string)
    ensures r == "" <==> Count(similar) == 0
  {
    if similar.Some? && |similar.value| > 0 then ResearchHeader + Join(ResearchLines(similar.value), "\n") else ""
  }

  /** Line `i` of the research block starts with the number `i + 1`,
      followed by `. ` and the content. */
  lemma ResearchLineNumbered(items: seq<PastOutput>, i: nat)
    requires i < |items|
    ensures var line := ResearchLines(items)[i];
      && DigitsValue(LeadingDigits(line)) == i + 1
      && line[|LeadingDigits(line)|..] == ". " + items[i].content
  {
    var ds := NatToString(i + 1);
    var line := ResearchLines(items)[i];
    assert line == ds + (". " + items[i].content);
    LeadingDigitsOfDigits(ds, ". " + items[i].content);
    NatToStringValue(i + 1);
  }

  function ToolLine(t: Tool): string {
    "- " + t.name + ": " + t.description
  }

  const ToolsHeader := "\n\nAvailable tools:\n"
  const ToolsFooter := "\n\nTo use a tool, respond with: TOOL_CALL: tool_name | input"

  /** The tools block: empty exactly when no tool is active. */
  function ToolsContext(active: seq<Tool>): (r: string)
    ensures r == "" <==> active == []
  {
    if |active| > 0 then ToolsHeader + Join(Map(active, ToolLine), "\n") + ToolsFooter else ""
  }

  /** A message of the conversation history. */
  datatype Message = Message(role: string, content: string, timestamp: Option<string>, toolCalls: Option<seq<ToolCall>>)

  /** A tool run as the response and the conversation record it. */
  datatype ToolCall = ToolCall(tool: string, input: string, result: string)

  const MemorySize: nat := 5

  /** `s.slice(-n)`: the last `n` elements, or all of them when there are
      fewer. */
  function Last<T>(s: seq<T>, n: nat): (r: seq<T>)
    ensures |r| == Min(|s|, n)
    ensures r == s[|s| - |r|..]
  {
    if |s| <= n then s else s[|s| - n..]
  }

  /** A message is labelled `User` exactly when its role is `user`. */
  function Speaker(m: Message): (r: string)
    ensures r == "User" <==> m.role == "user"
  {
    if m.role == "user" then "User" else "Assistant"
  }

  function MemoryLine(m: Message): string {
    Speaker(m) + ": " + m.content
  }

  /** The memory block: the last five messages, each labelled with its
      speaker, under a header that says how many there are; empty for an
      empty history. */
  function MemoryContext(history: seq<Message>): (r: string)
    ensures r == "" <==> history == []
  {
    if |history| > 0 then
      "\n\nConversation history (last " + NatToString(Min(|history|, MemorySize)) + " messages):\n"
        + Join(Map(Last(history, MemorySize), MemoryLine), "\n")
    else ""
  }

  /** The user's prompt followed by the research, tool and memory blocks. */
  function EnhancedPrompt(prompt: string, rag: string, tools: string, memory: string): (r: string)
    ensures |r| == |prompt| + |rag| + |tools| + |memory|
    ensures r[..|prompt|] == prompt
    ensures r[|prompt|..|prompt| + |rag|] == rag
    ensures r[|prompt| + |rag|..|prompt| + |rag| + |tools|] == tools
    ensures r[|prompt| + |rag| + |tools|..] == memory
  {
    prompt + rag + tools + memory
  }

  function SystemMessage(agentType: string): string {
    "You are a helpful AI agent specialized in " + agentType + ". Use provided tools when needed and reference past research when relevant."
  }

  // ---------------------------------------------------------------------
  // The tool-call loop

  /** The literal that opens a tool call in the model's answer. */
  const Marker := "TOOL_CALL:"

  /** The end of the run of white space (`\s*`, line terminators included)
      that starts at `i`. */
  function SkipSpaces(s: string, i: nat): (r: nat)
    requires i <= |s|
    ensures i <= r <= |s|
    ensures forall k :: i <= k < r ==> IsSpace(s[k])
    ensures r < |s| ==> !IsSpace(s[r])
    decreases |s| - i
  {
    if i < |s| && IsSpace(s[i]) then SkipSpaces(s, i + 1) else i
  }

  /** The end of the run of word characters (`\w*`) that starts at `i`. */
  function SkipWord(s: string, i: nat): (r: nat)
    requires i <= |s|
    ensures i <= r <= |s|
    ensures forall k :: i <= k < r ==> IsWordChar(s[k])
    ensures r < |s| ==> !IsWordChar(s[r])
    decreases |s| - i
  {
    if i < |s| && IsWordChar(s[i]) then SkipWord(s, i + 1) else i
  }

  /** The first line terminator at or after `i`, or the end of the text:
      where a greedy `.+` started at `i` stops. */
  function LineEnd(s: string, i: nat): (r: nat)
    requires i <= |s|
    ensures i <= r <= |s|
    ensures forall k :: i <= k < r ==> !IsLineTerminator(s[k])
    ensures r < |s| ==> IsLineTerminator(s[r])
    decreases |s| - i
  {
    if i < |s| && !IsLineTerminator(s[i]) then LineEnd(s, i + 1) else i
  }

  /** The last index in `[lo, hi)` that holds no line terminator: where
      `.+` can start once a greedy `\s*` has to give characters back. */
  function LastNonTerminator(s: string, lo: nat, hi: nat): (r: Option<nat>)
    requires lo <= hi <= |s|
    ensures r.Some? ==> lo <= r.value < hi && !IsLineTerminator(s[r.value])
    ensures r.Some? ==> forall k :: r.value < k < hi ==> IsLineTerminator(s[k])
    ensures r.None? ==> forall k :: lo <= k < hi ==> IsLineTerminator(s[k])
    decreases hi - lo
  {
    if hi == lo then None
    else if !IsLineTerminator(s[hi - 1]) then Some(hi - 1)
    else LastNonTerminator(s, lo, hi - 1)
  }

  /** A match of `/TOOL_CALL:\s*(\w+)\s*\|\s*(.+)/`: where it starts and
      ends, and its two groups. */
  datatype ToolMatch = ToolMatch(start: nat, end: nat, name: string, input: string)

  /** The match of the tool-call expression that starts exactly at `p`, if
      any. The name is a maximal run of word characters; the input runs
      from the first character after the white space that follows `|` to
      the end of that line. When that white space reaches the end of the
      text, the expression backtracks and the input is the last character
      of it that is not a line terminator, up to the end of its line. */
  function MatchAt(s: string, p: nat): (r: Option<ToolMatch>)
    ensures r.Some? ==> r.value.start == p < r.value.end <= |s|
  {
    if !OccursAt(s, Marker, p) then None
    else
      var a := SkipSpaces(s, p + |Marker|);
      var b := SkipWord(s, a);
      if b == a then None
      else
        var c := SkipSpaces(s, b);
        if c == |s| || s[c] != '|' then None
        else
          var d := SkipSpaces(s, c + 1);
          var start := if d < |s| then Some(d) else LastNonTerminator(s, c + 1, d);
          match start
          case None => None
          case Some(j) =>
            var e := LineEnd(s, j);
            Some(ToolMatch(p, e, s[a..b], s[j..e]))
  }

  /** `toolCallRegex.exec(output)` with the regular expression's
      `lastIndex` at `from`: the first match that starts at or after
      `from`. */
  function Exec(s: string, from: nat): (r: Option<ToolMatch>)
    ensures r.Some? ==> from <= r.value.start < r.value.end <= |s|
    decreases |s| - from
  {
    if from >= |s| then None
    else if MatchAt(s, from).Some? then MatchAt(s, from)
    else Exec(s, from + 1)
  }

  /** The replacement patterns of `String.prototype.replace` when the
      pattern is a string (so there are no capture groups): `$$` is `$`,
      `$&` the matched text, `` $` `` the text before it and `$'` the text
      after it; every other `$` stands for itself. */
  function Substitute(r: string, matched: string, before: string, after: string): string
    decreases |r|
  {
    if r == [] then []
    else if |r| >= 2 && r[0] == '$' && r[1] == '$' then "$" + Substitute(r[2..], matched, before, after)
    else if |r| >= 2 && r[0] == '$' && r[1] == '&' then matched + Substitute(r[2..], matched, before, after)
    else if |r| >= 2 && r[0] == '$' && r[1] == '`' then before + Substitute(r[2..], matched, before, after)
    else if |r| >= 2 && r[0] == '$' && r[1] == '\'' then after + Substitute(r[2..], matched, before, after)
    else [r[0]] + Substitute(r[1..], matched, before, after)
  }

  /** `s.replace(pat, repl)` with a string pattern: only the first
      occurrence is replaced. */
  function ReplaceFirst(s: string, pat: string, repl: string): string {
    match IndexOf(s, pat, 0)
    case None => s
    case Some(i) => s[..i] + Substitute(repl, pat, s[..i], s[i + |pat|..]) + s[i + |pat|..]
  }

  /** The tool a match names, run on its trimmed input, as it is recorded;
      `None` when no available tool has that name (enabled or not). */
  function CallOf(m: ToolMatch, evaluate: string -> Evaluated, analyze: string -> string): Option<ToolCall> {
    match Find(AvailableTools, m.name)
    case None => None
    case Some(tool) =>
      var input := Trim(m.input);
      Some(ToolCall(m.name, input, Execute(tool, input, evaluate, analyze)))
  }

  /** What a tool call is replaced with in the answer. */
  function Replacement(c: ToolCall): string {
    "[Tool: " + c.tool + "]\n" + c.result
  }

  /** What handling one match does to the answer and the recorded calls:
      a match that names an available tool runs it on the trimmed input,
      records the call and replaces the first occurrence of the matched
      text by the tool's result; a match that names no tool changes
      nothing. */
  function Advance(output: string, calls: seq<ToolCall>, m: ToolMatch,
                   evaluate: string -> Evaluated, analyze: string -> string): (string, seq<ToolCall>)
    requires m.start <= m.end <= |output|
  {
    match CallOf(m, evaluate, analyze)
    case None => (output, calls)
    case Some(c) => (ReplaceFirst(output, output[m.start..m.end], Replacement(c)), calls + [c])
  }

  /** The answer after the loop, the calls it recorded, and whether the
      loop ran to its end. */
  datatype Rewritten = Rewritten(output: string, calls: seq<ToolCall>, finished: bool)

  /** The loop as a whole: at most `fuel` further matches are handled,
      searching from `lastIndex`, which is carried over from one answer to
      its rewritten successor. */
  function Rewrite(output: string, lastIndex: nat, calls: seq<ToolCall>, fuel: nat,
                   evaluate: string -> Evaluated, analyze: string -> string): Rewritten
    decreases fuel
  {
    var found := Exec(output, lastIndex);
    if found.None? then Rewritten(output, calls, true)
    else if fuel == 0 then Rewritten(output, calls, false)
    else
      var next := Advance(output, calls, found.value, evaluate, analyze);
      Rewrite(next.0, found.value.end, next.1, fuel - 1, evaluate, analyze)
  }

  /** The loop body for one match. */
  method HandleMatch(output: string, toolCalls: seq<ToolCall>, m: ToolMatch,
                     evaluate: string -> Evaluated, analyze: string -> string)
    returns (output': string, toolCalls': seq<ToolCall>)
    requires m.start <= m.end <= |output|
    ensures (output', toolCalls') == Advance(output, toolCalls, m, evaluate, analyze)
  {
    output', toolCalls' := output, toolCalls;
    var fullMatch := output[m.start..m.end];
    var tool := Find(AvailableTools, m.name);
    if tool.Some? {
      var input := Trim(m.input);
      var result := Execute(tool.value, input, evaluate, analyze);
      toolCalls' := toolCalls + [ToolCall(m.name, input, result)];
      output' := ReplaceFirst(output, fullMatch, "[Tool: " + m.name + "]\n" + result);
    }
  }

  /** The `while ((match = toolCallRegex.exec(output)) !== null)` loop,
      stopped after `fuel` matches. */
  method ProcessToolCalls(output0: string, fuel: nat, evaluate: string -> Evaluated, analyze: string -> string)
    returns (output: string, toolCalls: seq<ToolCall>, finished: bool)
    ensures Rewritten(output, toolCalls, finished) == Rewrite(output0, 0, [], fuel, evaluate, analyze)
  {
    output := output0;
    toolCalls := [];
    var lastIndex := 0;
    var left := fuel;
    var found := Exec(output, lastIndex);
    while found.Some? && left > 0
      invariant Rewrite(output, lastIndex, toolCalls, left, evaluate, analyze) == Rewrite(output0, 0, [], fuel, evaluate, analyze)
      invariant found == Exec(output, lastIndex)
      decreases left
    {
      var m := found.value;
      output, toolCalls := HandleMatch(output, toolCalls, m, evaluate, analyze);
      lastIndex := m.end;
      left := left - 1;
      found := Exec(output, lastIndex);
    }
    finished := found.None?;
  }

  // ---------------------------------------------------------------------
  // What the loop does

  /** `exec` reports the first position at or after `from` where the
      expression matches. */
  lemma {:induction false} ExecFirst(s: string, from: nat)
    requires Exec(s, from).Some?
    ensures MatchAt(s, Exec(s, from).value.start) == Exec(s, from)
    ensures forall p :: from <= p < Exec(s, from).value.start ==> MatchAt(s, p).None?
    decreases |s| - from
  {
    if MatchAt(s, from).None? {
      var r := Exec(s, from + 1);
      assert from < |s| && Exec(s, from) == r;
      ExecFirst(s, from + 1);
      forall p | from <= p < r.value.start
        ensures MatchAt(s, p).None?
      {
        if p > from {
          assert from + 1 <= p < r.value.start;
        }
      }
    }
  }

  /** `exec` reports no match only when the expression matches nowhere at
      or after `from`. */
  lemma {:induction false} ExecNothing(s: string, from: nat)
    requires Exec(s, from).None?
    ensures forall p :: from <= p ==> MatchAt(s, p).None?
    decreases |s| - from
  {
    if from < |s| {
      ExecNothing(s, from + 1);
    }
  }

  /** Every match begins with the marker; its tool name is a non-empty run
      of word characters and its input a non-empty piece of one line. */
  lemma MatchAtShape(s: string, p: nat)
    requires MatchAt(s, p).Some?
    ensures OccursAt(s, Marker, p)
    ensures var m := MatchAt(s, p).value;
      && m.name != "" && (forall k :: 0 <= k < |m.name| ==> IsWordChar(m.name[k]))
      && m.input != "" && (forall k :: 0 <= k < |m.input| ==> !IsLineTerminator(m.input[k]))
  {
  }

  /** Where the marker does not occur from `from` on, `exec` finds nothing. */
  lemma ExecWithoutMarker(s: string, from: nat)
    requires forall p :: from <= p ==> !OccursAt(s, Marker, p)
    ensures Exec(s, from).None?
  {
    if Exec(s, from).Some? {
      ExecFirst(s, from);
      MatchAtShape(s, Exec(s, from).value.start);
    }
  }

  /** An answer without the marker passes through the loop unchanged and
      no tool is called. */
  lemma NoCallUnchanged(output: string, fuel: nat, evaluate: string -> Evaluated, analyze: string -> string)
    requires !Contains(output, Marker)
    ensures Rewrite(output, 0, [], fuel, evaluate, analyze) == Rewritten(output, [], true)
  {
    IndexOfFirst(output, Marker, 0);
    ExecWithoutMarker(output, 0);
  }

  /** A recorded call: it names an available tool, its input is trimmed
      and its result is that tool's output on that input. */
  predicate Recorded(c: ToolCall, evaluate: string -> Evaluated, analyze: string -> string) {
    && Find(AvailableTools, c.tool).Some?
    && (c.input != "" ==> !IsSpace(c.input[0]) && !IsSpace(c.input[|c.input| - 1]))
    && c.result == Execute(Find(AvailableTools, c.tool).value, c.input, evaluate, analyze)
  }

  /** `calls'` extends `calls` by recorded calls only. */
  predicate ExtendsRecorded(calls: seq<ToolCall>, calls': seq<ToolCall>,
                            evaluate: string -> Evaluated, analyze: string -> string) {
    && |calls| <= |calls'| && calls'[..|calls|] == calls
    && forall k :: |calls| <= k < |calls'| ==> Recorded(calls'[k], evaluate, analyze)
  }

  lemma ExtendsTransitive(calls: seq<ToolCall>, mid: seq<ToolCall>, calls': seq<ToolCall>,
                          evaluate: string -> Evaluated, analyze: string -> string)
    requires ExtendsRecorded(calls, mid, evaluate, analyze) && ExtendsRecorded(mid, calls', evaluate, analyze)
    ensures ExtendsRecorded(calls, calls', evaluate, analyze)
  {
    assert calls'[..|calls|] == mid[..|calls|];
  }

  /** Handling one match records at most the call it makes. */
  lemma AdvanceRecords(output: string, calls: seq<ToolCall>, m: ToolMatch,
                       evaluate: string -> Evaluated, analyze: string -> string)
    requires m.start <= m.end <= |output|
    ensures ExtendsRecorded(calls, Advance(output, calls, m, evaluate, analyze).1, evaluate, analyze)
  {
    if CallOf(m, evaluate, analyze).Some? {
      var c := CallOf(m, evaluate, analyze).value;
      assert Recorded(c, evaluate, analyze);
      assert (calls + [c])[..|calls|] == calls;
    }
  }

  /** The loop only appends to the recorded calls, and every call it
      records is a run of an available tool on a trimmed input. */
  lemma {:induction false} RecordedCalls(output: string, lastIndex: nat, calls: seq<ToolCall>, fuel: nat,
                                         evaluate: string -> Evaluated, analyze: string -> string)
    ensures ExtendsRecorded(calls, Rewrite(output, lastIndex, calls, fuel, evaluate, analyze).calls, evaluate, analyze)
    decreases fuel
  {
    var r := Rewrite(output, lastIndex, calls, fuel, evaluate, analyze);
    var found := Exec(output, lastIndex);
    if found.Some? && fuel > 0 {
      var m := found.value;
      var next := Advance(output, calls, m, evaluate, analyze);
      AdvanceRecords(output, calls, m, evaluate, analyze);
      RecordedCalls(next.0, m.end, next.1, fuel - 1, evaluate, analyze);
      assert r == Rewrite(next.0, m.end, next.1, fuel - 1, evaluate, analyze);
      ExtendsTransitive(calls, next.1, r.calls, evaluate, analyze);
    } else {
      assert r.calls == calls;
    }
  }

  /** Without `$` the replacement text is inserted as it is. */
  lemma {:induction false} SubstituteLiteral(r: string, matched: string, before: string, after: string)
    requires '$' !in r
    ensures Substitute(r, matched, before, after) == r
    decreases |r|
  {
    if r != [] {
      assert r[0] != '$';
      assert '$' !in r[1..];
      SubstituteLiteral(r[1..], matched, before, after);
      assert r == [r[0]] + r[1..];
    }
  }

  /** Positions where the expression does not match are passed over. */
  lemma {:induction false} ExecSkips(s: string, from: nat, q: nat)
    requires from <= q
    requires forall p :: from <= p < q ==> MatchAt(s, p).None?
    ensures Exec(s, from) == Exec(s, q)
    decreases q - from
  {
    if from < q {
      ExecSkips(s, from + 1, q);
      if from >= |s| {
        assert Exec(s, q).None?;
      }
    }
  }

  /** A tool call written as the prompt asks for it. */
  function CallText(name: string, input: string): string {
    Marker + " " + name + " | " + input
  }

  /** `T` opens the marker and occurs nowhere else in it, so in a text
      whose marker-free part `before` is followed by something starting
      with `T`, the marker does not occur before that something. */
  lemma MarkerNotBefore(before: string, t: string, p: nat)
    requires !Contains(before, Marker)
    requires t != [] && t[0] == 'T'
    requires p < |before|
    ensures !OccursAt(before + t, Marker, p)
  {
    IndexOfFirst(before, Marker, 0);
    var s := before + t;
    if OccursAt(s, Marker, p) {
      if p + |Marker| <= |before| {
        assert before[p..p + |Marker|] == s[p..p + |Marker|];
        assert OccursAt(before, Marker, p);
      } else {
        MarkerStartsOnce(|before| - p);
      }
    }
  }

  lemma MarkerStartsOnce(k: nat)
    requires 0 < k < |Marker|
    ensures Marker[k] != 'T'
  {
  }

  lemma SkipSpacesStops(s: string, i: nat, j: nat)
    requires i <= j < |s|
    requires forall k :: i <= k < j ==> IsSpace(s[k])
    requires !IsSpace(s[j])
    ensures SkipSpaces(s, i) == j
  {
  }

  lemma SkipWordStops(s: string, i: nat, j: nat)
    requires i <= j < |s|
    requires forall k :: i <= k < j ==> IsWordChar(s[k])
    requires !IsWordChar(s[j])
    ensures SkipWord(s, i) == j
  {
  }

  lemma LineEndStops(s: string, i: nat)
    requires i <= |s|
    requires forall k :: i <= k < |s| ==> !IsLineTerminator(s[k])
    ensures LineEnd(s, i) == |s|
  {
  }

  /** The steps of `MatchAt`, taken at known positions. */
  lemma MatchAtSteps(s: string, p: nat, a: nat, b: nat, c: nat, d: nat)
    requires OccursAt(s, Marker, p)
    requires SkipSpaces(s, p + |Marker|) == a && a < b && SkipWord(s, a) == b
    requires SkipSpaces(s, b) == c && c < |s| && s[c] == '|'
    requires SkipSpaces(s, c + 1) == d && d < |s| && LineEnd(s, d) == |s|
    ensures MatchAt(s, p) == Some(ToolMatch(p, |s|, s[a..b], s[d..]))
  {
    assert s[d..] == s[d..|s|];
  }

  /** Where a call's parts sit in `s`: the marker at `p`, one space, the
      name, ` | ` and the input up to the end. */
  predicate LaidOut(s: string, p: nat, name: string, input: string) {
    var a := p + 11;
    var d := a + |name| + 3;
    && |s| == d + |input|
    && s[p..p + |Marker|] == Marker
    && s[p + 10] == ' '
    && s[a..a + |name|] == name
    && s[a + |name|] == ' ' && s[a + |name| + 1] == '|' && s[a + |name| + 2] == ' '
    && s[d..] == input
  }

  lemma CallLaidOut(before: string, name: string, input: string)
    ensures LaidOut(before + CallText(name, input), |before|, name, input)
  {
    var t := CallText(name, input);
    var s := before + t;
    var P := |before|;
    assert t == Marker + [' '] + name + [' ', '|', ' '] + input;
    assert s[P..P + |Marker|] == Marker;
    assert s[P + 11..P + 11 + |name|] == name;
    assert s[P + 14 + |name|..] == input;
  }

  /** The expression matches a call laid out as the prompt asks for it,
      with the tool name and the whole input as its groups. */
  lemma MatchLaidOut(s: string, P: nat, E: nat, name: string, input: string)
    requires LaidOut(s, P, name, input) && E == |s|
    requires name != [] && forall k :: 0 <= k < |name| ==> IsWordChar(name[k])
    requires input != [] && !IsSpace(input[0])
    requires forall k :: 0 <= k < |input| ==> !IsLineTerminator(input[k])
    ensures MatchAt(s, P) == Some(ToolMatch(P, E, name, input))
  {
    var a := P + 11;
    var b := a + |name|;
    var c := b + 1;
    var d := c + 2;
    assert s[a] == s[a..b][0] == name[0];
    SkipSpacesStops(s, P + 10, a);
    forall k | a <= k < b ensures IsWordChar(s[k]) {
      assert s[k] == s[a..b][k - a];
    }
    SkipWordStops(s, a, b);
    SkipSpacesStops(s, b, c);
    assert s[d] == s[d..][0] == input[0];
    SkipSpacesStops(s, c + 1, d);
    forall k | d <= k < |s| ensures !IsLineTerminator(s[k]) {
      assert s[k] == s[d..][k - d];
    }
    LineEndStops(s, d);
    MatchAtSteps(s, P, a, b, c, d);
  }

  /** A call written as the prompt asks for it is matched where it stands. */
  lemma MatchAtCall(s: string, before: string, name: string, input: string)
    requires s == before + CallText(name, input)
    requires name != [] && forall k :: 0 <= k < |name| ==> IsWordChar(name[k])
    requires input != [] && !IsSpace(input[0])
    requires forall k :: 0 <= k < |input| ==> !IsLineTerminator(input[k])
    ensures MatchAt(s, |before|) == Some(ToolMatch(|before|, |s|, name, input))
  {
    CallLaidOut(before, name, input);
    MatchLaidOut(s, |before|, |s|, name, input);
  }

  /** Scanning from the start finds a call written after marker-free text
      exactly where it was written. */
  lemma CallMatched(s: string, before: string, name: string, input: string)
    requires s == before + CallText(name, input)
    requires !Contains(before, Marker)
    requires name != [] && forall k :: 0 <= k < |name| ==> IsWordChar(name[k])
    requires input != [] && !IsSpace(input[0])
    requires forall k :: 0 <= k < |input| ==> !IsLineTerminator(input[k])
    ensures Exec(s, 0) == Some(ToolMatch(|before|, |s|, name, input))
  {
    var t := CallText(name, input);
    MatchAtCall(s, before, name, input);
    forall p | 0 <= p < |before| ensures MatchAt(s, p).None? {
      MarkerNotBefore(before, t, p);
      if MatchAt(s, p).Some? {
        MatchAtShape(s, p);
      }
    }
    ExecSkips(s, 0, |before|);
  }

  /** `indexOf` reports the first occurrence. */
  lemma IndexOfIs(s: string, pat: string, i: nat)
    requires OccursAt(s, pat, i)
    requires forall j :: 0 <= j < i ==> !OccursAt(s, pat, j)
    ensures IndexOf(s, pat, 0) == Some(i)
  {
    IndexOfFirst(s, pat, 0);
  }

  /** An occurrence of a call's text is an occurrence of the marker. */
  lemma CallTextOpensWithMarker(s: string, t: string, j: nat)
    requires |t| >= |Marker| && t[..|Marker|] == Marker
    requires OccursAt(s, t, j)
    ensures OccursAt(s, Marker, j)
  {
    assert s[j..j + |Marker|] == s[j..j + |t|][..|Marker|];
  }

  /** A text that opens with the marker occurs first where it stands
      after marker-free text. */
  lemma CallFoundFirst(before: string, t: string)
    requires !Contains(before, Marker)
    requires |t| >= |Marker| && t[..|Marker|] == Marker
    ensures IndexOf(before + t, t, 0) == Some(|before|)
  {
    var s := before + t;
    assert s[|before|..|before| + |t|] == t;
    forall j | 0 <= j < |before| ensures !OccursAt(s, t, j) {
      MarkerNotBefore(before, t, j);
      if OccursAt(s, t, j) {
        CallTextOpensWithMarker(s, t, j);
      }
    }
    IndexOfIs(s, t, |before|);
  }

  lemma CallTextOpens(name: string, input: string)
    ensures |CallText(name, input)| >= |Marker| && CallText(name, input)[..|Marker|] == Marker
  {
  }

  lemma FoundIsNamed(name: string)
    requires Find(AvailableTools, name).Some?
    ensures name in AllToolNames
  {
  }

  lemma NamesAreWords(name: string)
    requires name in AllToolNames
    ensures name != [] && forall k :: 0 <= k < |name| ==> IsWordChar(name[k])
  {
    if name == "calculator" {
    } else if name == "web_search" {
    } else {
      assert name == "data_analyzer";
    }
  }

  /** Tool names are words, so a call to an available tool is matched. */
  lemma ToolNameIsWord(name: string)
    requires Find(AvailableTools, name).Some?
    ensures name != [] && forall k :: 0 <= k < |name| ==> IsWordChar(name[k])
  {
    FoundIsNamed(name);
    NamesAreWords(name);
  }

  /** The call's text is replaced by a `$`-free replacement where it
      stands. */
  lemma CallReplaced(before: string, name: string, input: string, R: string)
    requires !Contains(before, Marker)
    requires '$' !in R
    ensures ReplaceFirst(before + CallText(name, input), CallText(name, input), R) == before + R
  {
    var t := CallText(name, input);
    var s := before + t;
    CallTextOpens(name, input);
    CallFoundFirst(before, t);
    SubstituteLiteral(R, t, s[..|before|], s[|before| + |t|..]);
    assert s[..|before|] == before;
    assert s[|before| + |t|..] == [];
  }

  /** A loop whose first match runs a tool, and whose rewritten answer
      holds no further marker after that match, ends after one call. */
  lemma OneCall(s: string, m: ToolMatch, c: ToolCall, out: string, fuel: nat,
                evaluate: string -> Evaluated, analyze: string -> string)
    requires fuel > 0
    requires Exec(s, 0) == Some(m) && m.end == |s|
    requires CallOf(m, evaluate, analyze) == Some(c)
    requires ReplaceFirst(s, s[m.start..m.end], Replacement(c)) == out
    requires forall p :: |s| <= p ==> !OccursAt(out, Marker, p)
    ensures Rewrite(s, 0, [], fuel, evaluate, analyze) == Rewritten(out, [c], true)
  {
    assert [] + [c] == [c];
    assert Advance(s, [], m, evaluate, analyze) == (out, [c]);
    ExecWithoutMarker(out, |s|);
  }

  /** No `$` in a tool's replacement text unless its result has one. */
  lemma ReplacementLiteral(c: ToolCall)
    requires forall k :: 0 <= k < |c.tool| ==> IsWordChar(c.tool[k])
    requires '$' !in c.result
    ensures '$' !in Replacement(c)
  {
    assert forall k :: 0 <= k < |c.tool| ==> c.tool[k] != '$';
  }

  /** A call to an available tool that follows marker-free text is run on
      its trimmed input, recorded, and replaced by `[Tool: name]` and the
      result on the next line; the loop then ends, unless the result
      brings a new call with it or holds a `$` pattern. */
  lemma KnownCallReplaced(before: string, name: string, input: string, fuel: nat,
                          evaluate: string -> Evaluated, analyze: string -> string)
    requires fuel > 0
    requires !Contains(before, Marker)
    requires Find(AvailableTools, name).Some?
    requires input != [] && !IsSpace(input[0])
    requires forall k :: 0 <= k < |input| ==> !IsLineTerminator(input[k])
    requires var c := ToolCall(name, Trim(input), Execute(Find(AvailableTools, name).value, Trim(input), evaluate, analyze));
      '$' !in c.result && !Contains(before + Replacement(c), Marker)
    ensures var c := ToolCall(name, Trim(input), Execute(Find(AvailableTools, name).value, Trim(input), evaluate, analyze));
      Rewrite(before + CallText(name, input), 0, [], fuel, evaluate, analyze) == Rewritten(before + Replacement(c), [c], true)
  {
    var c := ToolCall(name, Trim(input), Execute(Find(AvailableTools, name).value, Trim(input), evaluate, analyze));
    var s := before + CallText(name, input);
    var m := ToolMatch(|before|, |s|, name, input);
    KnownToolCalled(m, evaluate, analyze);
    ToolNameIsWord(name);
    CallRunsTool(s, before, name, input, c, fuel, evaluate, analyze);
  }

  lemma KnownToolCalled(m: ToolMatch, evaluate: string -> Evaluated, analyze: string -> string)
    requires Find(AvailableTools, m.name).Some?
    ensures CallOf(m, evaluate, analyze)
         == Some(ToolCall(m.name, Trim(m.input), Execute(Find(AvailableTools, m.name).value, Trim(m.input), evaluate, analyze)))
  {
  }

  lemma CallRunsTool(s: string, before: string, name: string, input: string, c: ToolCall, fuel: nat,
                     evaluate: string -> Evaluated, analyze: string -> string)
    requires s == before + CallText(name, input)
    requires fuel > 0
    requires !Contains(before, Marker)
    requires name != [] && forall k :: 0 <= k < |name| ==> IsWordChar(name[k])
    requires input != [] && !IsSpace(input[0])
    requires forall k :: 0 <= k < |input| ==> !IsLineTerminator(input[k])
    requires CallOf(ToolMatch(|before|, |s|, name, input), evaluate, analyze) == Some(c)
    requires c.tool == name && '$' !in c.result && !Contains(before + Replacement(c), Marker)
    ensures Rewrite(s, 0, [], fuel, evaluate, analyze) == Rewritten(before + Replacement(c), [c], true)
  {
    var t := CallText(name, input);
    var out := before + Replacement(c);
    CallMatched(s, before, name, input);
    var m := ToolMatch(|before|, |s|, name, input);
    assert s[m.start..m.end] == t;
    ReplacementLiteral(c);
    CallReplaced(before, name, input, Replacement(c));
    IndexOfFirst(out, Marker, 0);
    OneCall(s, m, c, out, fuel, evaluate, analyze);
  }

  /** A call naming no available tool stays in the answer and nothing is
      recorded. */
  lemma UnknownToolKept(before: string, name: string, input: string, fuel: nat,
                        evaluate: string -> Evaluated, analyze: string -> string)
    requires fuel > 0
    requires !Contains(before, Marker)
    requires name != [] && forall k :: 0 <= k < |name| ==> IsWordChar(name[k])
    requires Find(AvailableTools, name).None?
    requires input != [] && !IsSpace(input[0])
    requires forall k :: 0 <= k < |input| ==> !IsLineTerminator(input[k])
    ensures Rewrite(before + CallText(name, input), 0, [], fuel, evaluate, analyze)
         == Rewritten(before + CallText(name, input), [], true)
  {
    CallMatched(before + CallText(name, input), before, name, input);
  }

  // ---------------------------------------------------------------------
  // The request

  /** The request body; `enabledTools` is `None` when the field is absent. */
  datatype Request = Request(agentType: string, prompt: string, conversationId: Option<string>, enabledTools: Option<seq<string>>)

  /** A row of `conversations`; `messages` is `None` when the column is null. */
  datatype Conversation = Conversation(id: string, messages: Option<seq<Message>>)

  /** The rows that have the given id, in order. */
  function WithId(rows: seq<Conversation>, id: string): seq<Conversation> {
    Filter(rows, (c: Conversation) => c.id == id)
  }

  /** The conversation with the given id, when exactly one row has it. */
  function Single(rows: seq<Conversation>, id: string): (r: Option<Conversation>)
    ensures r.Some? <==> |WithId(rows, id)| == 1
    ensures r.Some? ==> r.value in rows && r.value.id == id
  {
    var matching := WithId(rows, id);
    if |matching| == 1 then
      FilterMembers(rows, (c: Conversation) => c.id == id, matching[0]);
      Some(matching[0])
    else None
  }

  /** A conversation whose id no other row has is the one found, and the
      request naming it continues it. */
  lemma SingleFound(req: Request, rows: seq<Conversation>, i: nat)
    requires i < |rows| && req.conversationId == Some(rows[i].id) && rows[i].id != ""
    requires forall j :: 0 <= j < |rows| && j != i ==> rows[j].id != rows[i].id
    ensures Single(rows, rows[i].id) == Some(rows[i])
    ensures Lookup(req, rows) == Some(rows[i])
  {
    var id := rows[i].id;
    var f := (c: Conversation) => c.id == id;
    assert rows == rows[..i] + [rows[i]] + rows[i + 1..];
    FilterAppend(rows[..i] + [rows[i]], rows[i + 1..], f);
    FilterAppend(rows[..i], [rows[i]], f);
    NoneWithId(rows[..i], id);
    NoneWithId(rows[i + 1..], id);
    assert Filter([rows[i]], f) == [rows[i]];
    assert WithId(rows, id) == [rows[i]];
  }

  lemma NoneWithId(rows: seq<Conversation>, id: string)
    requires forall c :: c in rows ==> c.id != id
    ensures WithId(rows, id) == []
  {
    var w := WithId(rows, id);
    if w != [] {
      FilterMembers(rows, (c: Conversation) => c.id == id, w[0]);
      assert false;
    }
  }

  /** The conversation read for the request: only looked up when an id is
      given. */
  function Lookup(req: Request, conversations: seq<Conversation>): Option<Conversation> {
    if Given(req.conversationId) then Single(conversations, req.conversationId.value) else None
  }

  /** The messages of the conversation read, none when there is no
      conversation or it has no messages. */
  function History(conversation: Option<Conversation>): seq<Message> {
    if conversation.Some? && conversation.value.messages.Some? then conversation.value.messages.value else []
  }

  /** What `vector_embeddings` receives: the start of the answer. */
  datatype StoredOutput = StoredOutput(content: string, agentType: string, prompt: string, toolCallCount: nat)

  const StoredLength: nat := 1000
  const TitleLength: nat := 100
  const SourceLength: nat := 100
  const MockSimilarity: nat := 95

  /** What is written to `conversations`: the grown message list of the
      conversation read, or a new conversation. */
  datatype ConversationWrite =
    | AppendMessages(id: string, messages: seq<Message>, updatedAt: string)
    | CreateConversation(agentType: string, title: string, messages: seq<Message>)

  /** A past output as the response cites it. */
  datatype Source = Source(content: string, similarity: nat)

  datatype Response =
    | Reply(
        output: string,
        conversationId: Option<string>,
        usedPreviousResearch: bool,
        similarOutputsCount: nat,
        sources: Option<seq<Source>>,
        toolUsage: seq<ToolCall>,
        conversationLength: nat,
        knowledgeBaseSize: nat)
    | Failed(error: string)

  /** What one request sends to the model, writes and answers. */
  datatype Outcome = Outcome(
    systemMessage: string,
    userMessage: string,
    stored: Option<StoredOutput>,
    write: Option<ConversationWrite>,
    response: Response)

  function Cite(o: PastOutput): Source {
    Source(Prefix(o.content, SourceLength) + "...", MockSimilarity)
  }

  /** The three separate clock readings of one request: the user
      message's timestamp, the assistant message's, and the `updated_at`
      of a continued conversation. Each is its own `new Date()`, so they
      may differ. */
  datatype Stamps = Stamps(userSent: string, assistantSent: string, updated: string)

  /** The exchange appended to the conversation, each message with its
      own timestamp. */
  function NewMessages(prompt: string, output: string, calls: seq<ToolCall>, now: Stamps): seq<Message> {
    [Message("user", prompt, Some(now.userSent), None), Message("assistant", output, Some(now.assistantSent), Some(calls))]
  }

  /** What is stored, written and answered once the conversation and the
      past outputs are read, for what the gateway answered. */
  datatype Answered = Answered(stored: Option<StoredOutput>, write: Option<ConversationWrite>, response: Response)

  function Answer(
    req: Request, conversation: Option<Conversation>, similar: Option<seq<PastOutput>>,
    gateway: GatewayReply, fuel: nat,
    evaluate: string -> Evaluated, analyze: string -> string,
    now: Stamps, newConversationId: Option<string>, knowledgeCount: Option<nat>): Answered
  {
    match gateway
    case GatewayFailed(status) =>
      Answered(None, None, Failed("AI generation failed: " + NatToString(status)))
    case GatewayOk(content) =>
      var loop := Rewrite(content.GetOr(""), 0, [], fuel, evaluate, analyze);
      var output := loop.output;
      var history := History(conversation);
      var messages := NewMessages(req.prompt, output, loop.calls, now);
      var appends := Given(req.conversationId) && conversation.Some?;
      Answered(
        Some(StoredOutput(Prefix(output, StoredLength), req.agentType, req.prompt, |loop.calls|)),
        Some(if appends then AppendMessages(req.conversationId.value, history + messages, now.updated)
             else CreateConversation(req.agentType, Prefix(req.prompt, TitleLength), messages)),
        Reply(
          output,
          if appends then Some(conversation.value.id) else newConversationId,
          Count(similar) > 0,
          Count(similar),
          if similar.Some? then Some(Map(similar.value, Cite)) else None,
          loop.calls,
          |history| + 2,
          knowledgeCount.GetOr(0)))
  }

  /** One request. The conversation rows, the past outputs (newest first)
      and whether that query fails, the gateway's answer, the clock, the
      id the database gives a new conversation and the size of the
      knowledge base are inputs; `fuel` bounds the tool-call loop. */
  function Serve(
    req: Request, conversations: seq<Conversation>,
    pastRows: seq<PastOutput>, pastFails: bool,
    gateway: GatewayReply, fuel: nat,
    evaluate: string -> Evaluated, analyze: string -> string,
    now: Stamps, newConversationId: Option<string>, knowledgeCount: Option<nat>): Outcome
  {
    var conversation := Lookup(req, conversations);
    var similar := SimilarOutputs(pastRows, req.agentType, pastFails);
    var tools := ActiveTools(req.enabledTools.GetOr(AllToolNames));
    var a := Answer(req, conversation, similar, gateway, fuel, evaluate, analyze, now, newConversationId, knowledgeCount);
    Outcome(
      SystemMessage(req.agentType),
      EnhancedPrompt(req.prompt, RagContext(similar), ToolsContext(tools), MemoryContext(History(conversation))),
      a.stored, a.write, a.response)
  }

  /** A gateway error becomes a 500 naming its status; nothing is stored
      and the conversation is left alone. */
  lemma GatewayErrorReported(
    req: Request, conversation: Option<Conversation>, similar: Option<seq<PastOutput>>,
    gateway: GatewayReply, fuel: nat, evaluate: string -> Evaluated, analyze: string -> string,
    now: Stamps, newConversationId: Option<string>, knowledgeCount: Option<nat>)
    ensures var a := Answer(req, conversation, similar, gateway, fuel, evaluate, analyze, now, newConversationId, knowledgeCount);
      && (a.response.Failed? <==> gateway.GatewayFailed?)
      && (a.stored.None? <==> gateway.GatewayFailed?)
      && (a.write.None? <==> gateway.GatewayFailed?)
      && (gateway.GatewayFailed? ==> a.response.error == "AI generation failed: " + NatToString(gateway.status))
  {
  }

  /** On success the answer is the model's text after the tool-call loop,
      the tool usage is what the loop recorded (each a run of an available
      tool), and the stored output is the first thousand characters of the
      answer with the number of tool calls. */
  lemma ReplyReportsToolUse(
    req: Request, conversation: Option<Conversation>, similar: Option<seq<PastOutput>>,
    content: Option<string>, fuel: nat, evaluate: string -> Evaluated, analyze: string -> string,
    now: Stamps, newConversationId: Option<string>, knowledgeCount: Option<nat>)
    ensures var a := Answer(req, conversation, similar, GatewayOk(content), fuel, evaluate, analyze, now, newConversationId, knowledgeCount);
      var loop := Rewrite(content.GetOr(""), 0, [], fuel, evaluate, analyze);
      && a.response.Reply?
      && a.response.output == loop.output
      && a.response.toolUsage == loop.calls
      && (forall c :: c in a.response.toolUsage ==> Recorded(c, evaluate, analyze))
      && a.stored.Some?
      && a.stored.value.content <= a.response.output
      && |a.stored.value.content| == Min(|a.response.output|, StoredLength)
      && a.stored.value.toolCallCount == |a.response.toolUsage|
      && a.stored.value.agentType == req.agentType && a.stored.value.prompt == req.prompt
  {
    RecordedCalls(content.GetOr(""), 0, [], fuel, evaluate, analyze);
  }

  /** An answer without a tool call is passed on as the model gave it
      (empty when there was no content), and no tool is used. */
  lemma PlainAnswerPassedOn(
    req: Request, conversation: Option<Conversation>, similar: Option<seq<PastOutput>>,
    content: Option<string>, fuel: nat, evaluate: string -> Evaluated, analyze: string -> string,
    now: Stamps, newConversationId: Option<string>, knowledgeCount: Option<nat>)
    requires !Contains(content.GetOr(""), Marker)
    ensures var a := Answer(req, conversation, similar, GatewayOk(content), fuel, evaluate, analyze, now, newConversationId, knowledgeCount);
      a.response.Reply? && a.response.output == content.GetOr("") && a.response.toolUsage == []
  {
    NoCallUnchanged(content.GetOr(""), fuel, evaluate, analyze);
  }

  /** Previous research is reported as used exactly when some was found;
      each past output is cited by its first hundred characters followed by
      `...`, with the fixed similarity 95, and no citation list is given
      when the lookup failed. */
  lemma ResearchReported(
    req: Request, conversation: Option<Conversation>, similar: Option<seq<PastOutput>>,
    content: Option<string>, fuel: nat, evaluate: string -> Evaluated, analyze: string -> string,
    now: Stamps, newConversationId: Option<string>, knowledgeCount: Option<nat>)
    ensures var r := Answer(req, conversation, similar, GatewayOk(content), fuel, evaluate, analyze, now, newConversationId, knowledgeCount).response;
      && r.Reply?
      && (r.usedPreviousResearch <==> r.similarOutputsCount > 0)
      && r.similarOutputsCount == Count(similar)
      && (r.sources.Some? <==> similar.Some?)
      && (r.sources.Some? ==>
            && |r.sources.value| == r.similarOutputsCount
            && forall i :: 0 <= i < |r.sources.value| ==>
                 var cited := r.sources.value[i].content;
                 && r.sources.value[i].similarity == MockSimilarity
                 && cited == Prefix(similar.value[i].content, SourceLength) + "..."
                 && |cited| <= SourceLength + 3)
      && r.knowledgeBaseSize == knowledgeCount.GetOr(0)
  {
  }

  /** A conversation that was found grows by the prompt and the answer,
      each with its own timestamp, and keeps its id with the third reading
      as `updated_at`; the reported length counts them. */
  lemma ConversationContinued(
    req: Request, conversation: Option<Conversation>, similar: Option<seq<PastOutput>>,
    content: Option<string>, fuel: nat, evaluate: string -> Evaluated, analyze: string -> string,
    now: Stamps, newConversationId: Option<string>, knowledgeCount: Option<nat>)
    requires Given(req.conversationId) && conversation.Some?
    ensures var a := Answer(req, conversation, similar, GatewayOk(content), fuel, evaluate, analyze, now, newConversationId, knowledgeCount);
      var history := History(conversation);
      && a.response.Reply?
      && a.write == Some(AppendMessages(req.conversationId.value,
                           history + NewMessages(req.prompt, a.response.output, a.response.toolUsage, now), now.updated))
      && a.response.conversationId == Some(conversation.value.id)
      && a.response.conversationLength == |history| + 2 == |a.write.value.messages|
  {
  }

  /** Without a conversation to continue a new one is created, titled by
      the first hundred characters of the prompt and holding the exchange;
      the response carries the id the database gave it. */
  lemma ConversationStarted(
    req: Request, conversation: Option<Conversation>, similar: Option<seq<PastOutput>>,
    content: Option<string>, fuel: nat, evaluate: string -> Evaluated, analyze: string -> string,
    now: Stamps, newConversationId: Option<string>, knowledgeCount: Option<nat>)
    requires !(Given(req.conversationId) && conversation.Some?)
    ensures var a := Answer(req, conversation, similar, GatewayOk(content), fuel, evaluate, analyze, now, newConversationId, knowledgeCount);
      && a.response.Reply?
      && a.write.Some? && a.write.value.CreateConversation?
      && a.write.value.agentType == req.agentType
      && a.write.value.title <= req.prompt && |a.write.value.title| == Min(|req.prompt|, TitleLength)
      && a.write.value.messages == NewMessages(req.prompt, a.response.output, a.response.toolUsage, now)
      && a.response.conversationId == newConversationId
      && a.response.conversationLength == |History(conversation)| + 2
  {
  }

  /** `.single()` finds nothing for an id no row has. */
  lemma SingleMissing(rows: seq<Conversation>, id: string)
    requires forall c :: c in rows ==> c.id != id
    ensures Single(rows, id).None?
  {
    NoneWithId(rows, id);
  }

  /** The whole request: the system message names the agent type, the
      user message opens with the prompt, and what is stored, written and
      answered is the answer to the conversation looked up and the past
      outputs found. */
  lemma ServeUsesLookups(
    req: Request, conversations: seq<Conversation>,
    pastRows: seq<PastOutput>, pastFails: bool,
    gateway: GatewayReply, fuel: nat,
    evaluate: string -> Evaluated, analyze: string -> string,
    now: Stamps, newConversationId: Option<string>, knowledgeCount: Option<nat>)
    ensures var o := Serve(req, conversations, pastRows, pastFails, gateway, fuel, evaluate, analyze, now, newConversationId, knowledgeCount);
      && Answered(o.stored, o.write, o.response)
         == Answer(req, Lookup(req, conversations), SimilarOutputs(pastRows, req.agentType, pastFails),
                   gateway, fuel, evaluate, analyze, now, newConversationId, knowledgeCount)
      && o.systemMessage == SystemMessage(req.agentType)
      && o.userMessage[..|req.prompt|] == req.prompt
  {
  }

  /** The conversation is only looked up under a given id, and what is
      found carries that id. */
  lemma LookupById(req: Request, conversations: seq<Conversation>)
    ensures !Given(req.conversationId) ==> Lookup(req, conversations).None?
    ensures Lookup(req, conversations).Some? ==>
      Lookup(req, conversations).value in conversations
      && Lookup(req, conversations).value.id == req.conversationId.value
  {
  }

  /** Without a list of enabled tools every tool is offered. */
  lemma DefaultToolsAll(req: Request)
    requires req.enabledTools.None?
    ensures ActiveTools(req.enabledTools.GetOr(AllToolNames)) == AvailableTools
  {
    ActiveToolsSpec(AllToolNames);
  }

  /** A conversation id that names no conversation is looked up as none,
      so a new conversation is started with an empty history behind it
      (see ConversationStarted). */
  lemma UnknownConversationStartsNew(req: Request, conversations: seq<Conversation>)
    requires req.conversationId.Some?
    requires forall c :: c in conversations ==> c.id != req.conversationId.value
    ensures Lookup(req, conversations).None?
    ensures History(Lookup(req, conversations)) == []
    ensures !(Given(req.conversationId) && Lookup(req, conversations).Some?)
  {
    SingleMissing(conversations, req.conversationId.value);
  }
}
