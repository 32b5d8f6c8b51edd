/** The task orchestrator (src/lib/orchestrator.ts): the line-prefixed
    intent-analysis parser, the numbered-list task decomposer and the
    sequential workflow executor. The LLM replies are parameters; the
    calls that produce them are not part of this model. */
module Orchestrator {
  import opened Common
  import opened Text

  // ---------------------------------------------------------------------
  // Agents and the analysis record

  datatype Agent = MarketAnalyst | Branding | Content | Outreach

  function AgentName(a: Agent): string {
    match a
    case MarketAnalyst => "market-analyst"
    case Branding => "branding"
    case Content => "content"
    case Outreach => "outreach"
  }

  /** The agent an `AGENTS:` token names; only the four exact identifiers
      are recognised. */
  function AgentFromName(s: string): (r: Option<Agent>)
    ensures r.Some? <==> s in {"market-analyst", "branding", "content", "outreach"}
    ensures r.Some? ==> AgentName(r.value) == s
  {
    if s == "market-analyst" then Some(MarketAnalyst)
    else if s == "branding" then Some(Branding)
    else if s == "content" then Some(Content)
    else if s == "outreach" then Some(Outreach)
    else None
  }

  predicate IsAgentName(s: string) {
    AgentFromName(s).Some?
  }

  datatype Complexity = Simple | Moderate | Complex

  datatype TaskAnalysis = TaskAnalysis(
    intent: string,
    complexity: Complexity,
    recommendedAgents: seq<Agent>,
    recommendedModel: string,
    suggestedWorkflow: string,
    confidence: int,
    estimatedTime: string,
    subtasks: Option<seq<string>>)

  const DefaultModel := "llama-3.1-8b-instant"

  /** The record the parser starts from. */
  const DefaultAnalysis := TaskAnalysis("", Moderate, [], DefaultModel, "", 80, "10 minutes", None)

  // ---------------------------------------------------------------------
  // Classifying a reply line

  /** Which branch of the parser's if/else-if chain a line takes. */
  datatype LineKind =
    | IntentLine | ComplexityLine | AgentsLine | ModelLine | WorkflowLine
    | ConfidenceLine | TimeLine | SubtasksLine | NumberedLine | OtherLine
  {
    predicate IsKeyword() {
      !NumberedLine? && !OtherLine?
    }
  }

  function Keyword(k: LineKind): string
    requires k.IsKeyword()
  {
    match k
    case IntentLine => "INTENT:"
    case ComplexityLine => "COMPLEXITY:"
    case AgentsLine => "AGENTS:"
    case ModelLine => "MODEL:"
    case WorkflowLine => "WORKFLOW:"
    case ConfidenceLine => "CONFIDENCE:"
    case TimeLine => "TIME:"
    case SubtasksLine => "SUBTASKS:"
  }

  /** `/^\d+\./`: one or more digits followed by a dot. */
  predicate IsNumbered(line: string) {
    var ds := LeadingDigits(line);
    ds != "" && |ds| < |line| && line[|ds|] == '.'
  }

  /** `line.replace(/^\d+\./, '').trim()`: a line without the numbered
      prefix is only trimmed. */
  function StripNumber(line: string): string {
    if IsNumbered(line) then Trim(line[|LeadingDigits(line)| + 1..]) else Trim(line)
  }

  /** A numbered line starts with a digit, so it is never blank. */
  lemma NumberedIsNonBlank(line: string)
    ensures IsNumbered(line) ==> NonBlank(line)
  {
    if IsNumbered(line) {
      assert IsDigit(line[0]) && !IsSpace(line[0]);
    }
  }

  /** The parser's if/else-if chain; lines are tested untrimmed. */
  function Kind(line: string): LineKind {
    if StartsWith(line, "INTENT:") then IntentLine
    else if StartsWith(line, "COMPLEXITY:") then ComplexityLine
    else if StartsWith(line, "AGENTS:") then AgentsLine
    else if StartsWith(line, "MODEL:") then ModelLine
    else if StartsWith(line, "WORKFLOW:") then WorkflowLine
    else if StartsWith(line, "CONFIDENCE:") then ConfidenceLine
    else if StartsWith(line, "TIME:") then TimeLine
    else if StartsWith(line, "SUBTASKS:") then SubtasksLine
    else if IsNumbered(line) then NumberedLine
    else OtherLine
  }

  /** The order of the chain does not matter: a line takes a keyword branch
      exactly when it starts with that keyword, and takes the numbered
      branch exactly when it is numbered. */
  lemma KindIsPrefixTest(line: string, k: LineKind)
    requires k.IsKeyword()
    ensures Kind(line) == k <==> StartsWith(line, Keyword(k))
  {
    if StartsWith(line, "COMPLEXITY:") {
      StartsWithAt(line, "COMPLEXITY:", 2);
    }
    if StartsWith(line, "CONFIDENCE:") {
      StartsWithAt(line, "CONFIDENCE:", 2);
    }
  }

  lemma KindIsNumberedTest(line: string)
    ensures Kind(line) == NumberedLine <==> IsNumbered(line)
  {
    if line != [] {
      assert IsNumbered(line) ==> IsDigit(line[0]);
    }
  }

  /** `line.replace(KEYWORD, '').trim()`: the keyword occurs first at the
      start of the line, so replacing its first occurrence drops the prefix. */
  function FieldText(line: string, k: LineKind): string
    requires k.IsKeyword() && StartsWith(line, Keyword(k))
  {
    Trim(line[|Keyword(k)|..])
  }

  /** A reply line as the parser reads it: the branch it takes and the text
      that branch works with. */
  datatype Parsed = Parsed(kind: LineKind, value: string)

  function Classify(line: string): Parsed {
    var k := Kind(line);
    if k.IsKeyword() then Parsed(k, FieldText(line, k))
    else if k == NumberedLine then Parsed(k, StripNumber(line))
    else Parsed(OtherLine, "")
  }

  function Classified(ls: seq<string>): seq<Parsed> {
    Map(ls, Classify)
  }

  /** The trimmed `COMPLEXITY:` value, lower-cased, when it names one of
      the three levels. Lower-casing is done on ASCII letters only; no other
      character lower-cases to one of the letters of the three words. */
  function ComplexityFromText(text: string): (r: Option<Complexity>)
    ensures r.Some? <==> ToLower(text) in {"simple", "moderate", "complex"}
    ensures r == Some(Simple) <==> ToLower(text) == "simple"
    ensures r == Some(Moderate) <==> ToLower(text) == "moderate"
    ensures r == Some(Complex) <==> ToLower(text) == "complex"
  {
    var c := ToLower(text);
    if c == "simple" then Some(Simple)
    else if c == "moderate" then Some(Moderate)
    else if c == "complex" then Some(Complex)
    else None
  }

  /** The recognised agents among comma-separated tokens, in token order. */
  function AgentsOf(tokens: seq<string>): (r: seq<Agent>)
    ensures |r| <= |tokens|
  {
    if tokens == [] then []
    else
      match AgentFromName(tokens[0])
      case Some(a) => [a] + AgentsOf(tokens[1..])
      case None => AgentsOf(tokens[1..])
  }

  /** The `AGENTS:` value: split on commas, each token trimmed, unknown
      tokens dropped. */
  function ParseAgents(text: string): seq<Agent> {
    AgentsOf(Map(Split(Trim(text), ','), Trim))
  }

  /** Exactly the tokens that name an agent survive, in their order. */
  lemma {:induction false} AgentsOfNames(tokens: seq<string>)
    ensures Map(AgentsOf(tokens), AgentName) == Filter(tokens, IsAgentName)
  {
    if tokens != [] {
      AgentsOfNames(tokens[1..]);
      match AgentFromName(tokens[0])
      case Some(a) =>
        assert Map([a] + AgentsOf(tokens[1..]), AgentName)
            == [AgentName(a)] + Map(AgentsOf(tokens[1..]), AgentName);
      case None =>
    }
  }

  // ---------------------------------------------------------------------
  // What the parser computes, field by field

  /** The reply's lines, without the blank ones (`filter(line => line.trim())`). */
  function ResponseLines(response: string): (ls: seq<string>)
    ensures forall k :: 0 <= k < |ls| ==> NonBlank(ls[k])
  {
    Filter(Split(response, '\n'), NonBlank)
  }

  /** The value of the last line of kind `k`. */
  function LastField(ps: seq<Parsed>, k: LineKind): Option<string> {
    if ps == [] then None
    else if ps[|ps| - 1].kind == k then Some(ps[|ps| - 1].value)
    else LastField(ps[..|ps| - 1], k)
  }

  /** The level named by the last `COMPLEXITY:` line that names a valid one;
      lines with other values are skipped. */
  function LastComplexity(ps: seq<Parsed>): Option<Complexity> {
    if ps == [] then None
    else
      var p := ps[|ps| - 1];
      if p.kind == ComplexityLine && ComplexityFromText(p.value).Some? then ComplexityFromText(p.value)
      else LastComplexity(ps[..|ps| - 1])
  }

  /** The number read by the last `CONFIDENCE:` line whose value `parseInt`
      accepts; no clamping to 0..100. */
  function LastConfidence(ps: seq<Parsed>): Option<int> {
    if ps == [] then None
    else
      var p := ps[|ps| - 1];
      if p.kind == ConfidenceLine && ParseInt(p.value).Some? then ParseInt(p.value)
      else LastConfidence(ps[..|ps| - 1])
  }

  /** A `SUBTASKS:` line whose value is not `N/A` empties the subtask list. */
  predicate IsReset(p: Parsed) {
    p.kind == SubtasksLine && p.value != "N/A"
  }

  /** Index of the last resetting `SUBTASKS:` line. */
  function LastReset(ps: seq<Parsed>): Option<nat> {
    LastWhere(ps, IsReset)
  }

  /** The numbered lines' stripped texts, in order. */
  function NumberedItems(ps: seq<Parsed>): (r: seq<string>)
    ensures |r| <= |ps|
  {
    if ps == [] then []
    else (if ps[0].kind == NumberedLine then [ps[0].value] else []) + NumberedItems(ps[1..])
  }

  /** The subtasks: the numbered lines after the last resetting `SUBTASKS:`
      line; without such a line, every numbered line, and no list at all if
      there is none. */
  function SubtasksOf(ps: seq<Parsed>): Option<seq<string>> {
    match LastReset(ps)
    case Some(k) => Some(NumberedItems(ps[k + 1..]))
    case None => if NumberedItems(ps) == [] then None else Some(NumberedItems(ps))
  }

  /** The analysis a reply's lines describe, each field stated on its own. */
  function AnalysisOf(ps: seq<Parsed>): TaskAnalysis {
    TaskAnalysis(
      LastField(ps, IntentLine).GetOr(""),
      LastComplexity(ps).GetOr(Moderate),
      match LastField(ps, AgentsLine) { case None => [] case Some(t) => ParseAgents(t) },
      LastField(ps, ModelLine).GetOr(DefaultModel),
      LastField(ps, WorkflowLine).GetOr(""),
      LastConfidence(ps).GetOr(80),
      LastField(ps, TimeLine).GetOr("10 minutes"),
      SubtasksOf(ps))
  }

  function Analysis(response: string): TaskAnalysis {
    AnalysisOf(Classified(ResponseLines(response)))
  }

  // ---------------------------------------------------------------------
  // analyzeIntent: the parsing loop

  /** Numbered items of a concatenation are the items of each part. */
  lemma {:induction false} NumberedItemsAppend(a: seq<Parsed>, b: seq<Parsed>)
    ensures NumberedItems(a + b) == NumberedItems(a) + NumberedItems(b)
  {
    if a == [] {
      assert a + b == b;
    } else {
      var ab := a + b;
      assert ab[0] == a[0] && ab[1..] == a[1..] + b;
      NumberedItemsAppend(a[1..], b);
      var head := if a[0].kind == NumberedLine then [a[0].value] else [];
      assert NumberedItems(ab) == head + NumberedItems(a[1..] + b);
      assert NumberedItems(a) == head + NumberedItems(a[1..]);
    }
  }

  lemma NumberedItemsSnoc(ps: seq<Parsed>, p: Parsed)
    ensures NumberedItems(ps + [p]) == NumberedItems(ps) + (if p.kind == NumberedLine then [p.value] else [])
  {
    NumberedItemsAppend(ps, [p]);
    assert [p][1..] == [];
  }

  /** A resetting `SUBTASKS:` line empties the list. */
  lemma SubtasksAfterReset(ps: seq<Parsed>, p: Parsed)
    requires IsReset(p)
    ensures SubtasksOf(ps + [p]) == Some([])
  {
    var ps' := ps + [p];
    assert LastReset(ps') == Some(|ps|);
    assert ps'[|ps| + 1..] == [];
  }

  /** A line that neither resets nor is numbered leaves the list alone. */
  lemma SubtasksAfterOther(ps: seq<Parsed>, p: Parsed)
    requires !IsReset(p) && p.kind != NumberedLine
    ensures SubtasksOf(ps + [p]) == SubtasksOf(ps)
  {
    var ps' := ps + [p];
    assert ps'[..|ps|] == ps;
    assert LastReset(ps') == LastReset(ps);
    NumberedItemsSnoc(ps, p);
    assert NumberedItems(ps') == NumberedItems(ps);
    match LastReset(ps)
    case Some(k) =>
      assert ps'[k + 1..] == ps[k + 1..] + [p];
      NumberedItemsSnoc(ps[k + 1..], p);
      assert NumberedItems(ps'[k + 1..]) == NumberedItems(ps[k + 1..]);
    case None =>
  }

  /** A numbered line is appended to the list, creating it if needed. */
  lemma SubtasksAfterNumbered(ps: seq<Parsed>, p: Parsed)
    requires p.kind == NumberedLine
    ensures SubtasksOf(ps + [p]) == Some(SubtasksOf(ps).GetOr([]) + [p.value])
  {
    var ps' := ps + [p];
    assert ps'[..|ps|] == ps;
    assert LastReset(ps') == LastReset(ps);
    NumberedItemsSnoc(ps, p);
    match LastReset(ps)
    case Some(k) =>
      assert ps'[k + 1..] == ps[k + 1..] + [p];
      NumberedItemsSnoc(ps[k + 1..], p);
    case None =>
  }

  /** The record after one more line, in terms of the record before: the
      branch the line takes changes its own field and nothing else. */
  lemma AnalysisStep(ps: seq<Parsed>, p: Parsed)
    ensures var a := AnalysisOf(ps);
      AnalysisOf(ps + [p]) ==
        match p.kind
        case IntentLine => a.(intent := p.value)
        case ComplexityLine => a.(complexity := ComplexityFromText(p.value).GetOr(a.complexity))
        case AgentsLine => a.(recommendedAgents := ParseAgents(p.value))
        case ModelLine => a.(recommendedModel := p.value)
        case WorkflowLine => a.(suggestedWorkflow := p.value)
        case ConfidenceLine => a.(confidence := ParseInt(p.value).GetOr(a.confidence))
        case TimeLine => a.(estimatedTime := p.value)
        case SubtasksLine => if IsReset(p) then a.(subtasks := Some([])) else a
        case NumberedLine => a.(subtasks := Some(a.subtasks.GetOr([]) + [p.value]))
        case OtherLine => a
  {
    var ps' := ps + [p];
    assert ps'[..|ps|] == ps;
    assert ps'[|ps|] == p;
    assert LastComplexity(ps') == (if p.kind == ComplexityLine && ComplexityFromText(p.value).Some?
                                   then ComplexityFromText(p.value) else LastComplexity(ps));
    assert LastConfidence(ps') == (if p.kind == ConfidenceLine && ParseInt(p.value).Some?
                                   then ParseInt(p.value) else LastConfidence(ps));
    forall k: LineKind
      ensures LastField(ps', k) == if p.kind == k then Some(p.value) else LastField(ps, k)
    {
    }
    if IsReset(p) {
      SubtasksAfterReset(ps, p);
    } else if p.kind == NumberedLine {
      SubtasksAfterNumbered(ps, p);
    } else {
      SubtasksAfterOther(ps, p);
    }
  }

  /** Before any line, every field holds its default. */
  lemma NoLinesGiveDefaults()
    ensures AnalysisOf([]) == DefaultAnalysis
  {
  }

  /** One turn of the `forEach` over the lines: the first keyword the line
      starts with decides the field it sets. */
  method ApplyLine(ghost ps: seq<Parsed>, analysis: TaskAnalysis, line: string)
      returns (next: TaskAnalysis)
    requires analysis == AnalysisOf(ps)
    ensures next == AnalysisOf(ps + [Classify(line)])
  {
    AnalysisStep(ps, Classify(line));
    next := analysis;
    if StartsWith(line, "INTENT:") {
      next := analysis.(intent := FieldText(line, IntentLine));
    } else if StartsWith(line, "COMPLEXITY:") {
      var complexity := ComplexityFromText(FieldText(line, ComplexityLine));
      if complexity.Some? {
        next := analysis.(complexity := complexity.value);
      }
    } else if StartsWith(line, "AGENTS:") {
      next := analysis.(recommendedAgents := ParseAgents(FieldText(line, AgentsLine)));
    } else if StartsWith(line, "MODEL:") {
      next := analysis.(recommendedModel := FieldText(line, ModelLine));
    } else if StartsWith(line, "WORKFLOW:") {
      next := analysis.(suggestedWorkflow := FieldText(line, WorkflowLine));
    } else if StartsWith(line, "CONFIDENCE:") {
      var conf := ParseInt(FieldText(line, ConfidenceLine));
      if conf.Some? {
        next := analysis.(confidence := conf.value);
      }
    } else if StartsWith(line, "TIME:") {
      next := analysis.(estimatedTime := FieldText(line, TimeLine));
    } else if StartsWith(line, "SUBTASKS:") {
      var subtasksText := FieldText(line, SubtasksLine);
      if subtasksText != "N/A" {
        next := analysis.(subtasks := Some([]));
      }
    } else if IsNumbered(line) {
      var current := if analysis.subtasks.Some? then analysis.subtasks.value else [];
      next := analysis.(subtasks := Some(current + [StripNumber(line)]));
    }
  }



  /** `analyzeIntent` on a reply already obtained from the model: walks the
      non-blank lines and updates the record field by field. */
  method AnalyzeIntent(response: string) returns (analysis: TaskAnalysis)
    ensures analysis == Analysis(response)
  {
    var lines := ResponseLines(response);
    analysis := TaskAnalysis("", Moderate, [], "llama-3.1-8b-instant", "", 80, "10 minutes", None);
    assert Classified(lines[..0]) == [];
    NoLinesGiveDefaults();
    var i := 0;
    while i < |lines|
      invariant 0 <= i <= |lines|
      invariant analysis == AnalysisOf(Classified(lines[..i]))
    {
      MapPrefixStep(lines, Classify, i);
      analysis := ApplyLine(Classified(lines[..i]), analysis, lines[i]);
      i := i + 1;
    }
    assert lines[..|lines|] == lines;
  }

  // ---------------------------------------------------------------------
  // Properties of the parser

  /** A line that takes no branch leaves every field as it was. */
  lemma UnrecognisedLineIgnored(ps: seq<Parsed>, l: string)
    requires Kind(l) == OtherLine
    ensures AnalysisOf(ps + [Classify(l)]) == AnalysisOf(ps)
  {
    assert Classify(l) == Parsed(OtherLine, "");
    OtherLineStep(ps, Parsed(OtherLine, ""));
  }

  lemma OtherLineStep(ps: seq<Parsed>, p: Parsed)
    requires p.kind == OtherLine
    ensures AnalysisOf(ps + [p]) == AnalysisOf(ps)
  {
    AnalysisStep(ps, p);
  }

  /** Lines are tested untrimmed: a line that starts with white space is
      never recognised, whatever follows. */
  lemma IndentedLineIgnored(ps: seq<Parsed>, l: string)
    requires l != [] && IsSpace(l[0])
    ensures AnalysisOf(ps + [Classify(l)]) == AnalysisOf(ps)
  {
    assert !IsDigit(l[0]);
    assert Kind(l) == OtherLine;
    UnrecognisedLineIgnored(ps, l);
  }

  /** A reply in which no line is recognised yields the defaults. */
  lemma {:induction false} NothingRecognisedGivesDefaults(ls: seq<string>)
    requires forall k :: 0 <= k < |ls| ==> Kind(ls[k]) == OtherLine
    ensures AnalysisOf(Classified(ls)) == DefaultAnalysis
  {
    if ls != [] {
      var front := ls[..|ls| - 1];
      var last := ls[|ls| - 1];
      NothingRecognisedGivesDefaults(front);
      MapPrefixStep(ls, Classify, |ls| - 1);
      assert ls[..|ls|] == ls;
      assert Classified(ls) == Classified(front) + [Classify(last)];
      UnrecognisedLineIgnored(Classified(front), last);
    }
  }

  /** The value of the last line of a kind wins: lines of other kinds after
      it change nothing. */
  lemma {:induction false} LastFieldWins(ps: seq<Parsed>, p: Parsed, rest: seq<Parsed>)
    requires forall j :: 0 <= j < |rest| ==> rest[j].kind != p.kind
    ensures LastField(ps + [p] + rest, p.kind) == Some(p.value)
  {
    var all := ps + [p] + rest;
    if rest == [] {
      assert all[..|all| - 1] == ps;
    } else {
      var front := rest[..|rest| - 1];
      LastFieldWins(ps, p, front);
      assert all[..|all| - 1] == ps + [p] + front;
    }
  }

  /** A later `AGENTS:` line replaces the agent list wholesale. */
  lemma LaterAgentsLineReplaces(ps: seq<Parsed>, l: string, rest: seq<Parsed>)
    requires StartsWith(l, "AGENTS:")
    requires forall j :: 0 <= j < |rest| ==> rest[j].kind != AgentsLine
    ensures AnalysisOf(ps + [Classify(l)] + rest).recommendedAgents == ParseAgents(FieldText(l, AgentsLine))
  {
    KindIsPrefixTest(l, AgentsLine);
    var p := Parsed(AgentsLine, FieldText(l, AgentsLine));
    assert Classify(l) == p;
    AgentsLineWins(ps, p, rest);
  }

  lemma AgentsLineWins(ps: seq<Parsed>, p: Parsed, rest: seq<Parsed>)
    requires p.kind == AgentsLine
    requires forall j :: 0 <= j < |rest| ==> rest[j].kind != AgentsLine
    ensures AnalysisOf(ps + [p] + rest).recommendedAgents == ParseAgents(p.value)
  {
    LastFieldWins(ps, p, rest);
  }

  /** A `COMPLEXITY:` line with an unknown level keeps the previous one; a
      valid level is stored. */
  lemma ComplexityUpdate(ps: seq<Parsed>, l: string)
    requires StartsWith(l, "COMPLEXITY:")
    ensures var c := ComplexityFromText(FieldText(l, ComplexityLine));
      AnalysisOf(ps + [Classify(l)]).complexity == c.GetOr(AnalysisOf(ps).complexity)
  {
    KindIsPrefixTest(l, ComplexityLine);
    var p := Parsed(ComplexityLine, FieldText(l, ComplexityLine));
    assert Classify(l) == p;
    AnalysisStep(ps, p);
  }

  /** A `CONFIDENCE:` line changes the confidence only when `parseInt`
      accepts its value, and then to exactly that number. */
  lemma ConfidenceUpdate(ps: seq<Parsed>, l: string)
    requires StartsWith(l, "CONFIDENCE:")
    ensures var n := ParseInt(FieldText(l, ConfidenceLine));
      AnalysisOf(ps + [Classify(l)]).confidence == n.GetOr(AnalysisOf(ps).confidence)
  {
    KindIsPrefixTest(l, ConfidenceLine);
    var p := Parsed(ConfidenceLine, FieldText(l, ConfidenceLine));
    assert Classify(l) == p;
    AnalysisStep(ps, p);
  }

  // ---------------------------------------------------------------------
  // decomposeTask

  /** `decomposeTask` on a reply already obtained from the model: the
      numbered lines, prefix-stripped and trimmed. */
  function DecomposeTask(response: string): (subtasks: seq<string>)
    ensures |subtasks| <= |Split(response, '\n')|
  {
    Map(Filter(Split(response, '\n'), IsNumbered), StripNumber)
  }

  /** The decomposer's chain and the analyser's numbered branch collect the
      same items from the same lines. */
  lemma {:induction false} DecompositionIsNumberedItems(ls: seq<string>)
    ensures Map(Filter(ls, IsNumbered), StripNumber) == NumberedItems(Classified(ls))
  {
    if ls != [] {
      DecompositionIsNumberedItems(ls[1..]);
      KindIsNumberedTest(ls[0]);
      assert Classified(ls)[1..] == Classified(ls[1..]);
      if IsNumbered(ls[0]) {
        assert Map([ls[0]] + Filter(ls[1..], IsNumbered), StripNumber)
            == [StripNumber(ls[0])] + Map(Filter(ls[1..], IsNumbered), StripNumber);
      }
    }
  }

  /** Dropping lines that can never be numbered does not change a filter
      for numbered lines. */
  lemma {:induction false} NumberedIgnoresBlank(ls: seq<string>)
    ensures Filter(Filter(ls, NonBlank), IsNumbered) == Filter(ls, IsNumbered)
  {
    if ls != [] {
      NumberedIgnoresBlank(ls[1..]);
      NumberedIsNonBlank(ls[0]);
      var kept := if NonBlank(ls[0]) then [ls[0]] else [];
      FilterAppend(kept, Filter(ls[1..], NonBlank), IsNumbered);
    }
  }

  /** Without a resetting `SUBTASKS:` line, the analyser's subtasks are the
      decomposer's output for the same reply (when there is any). */
  lemma AnalysisSubtasksMatchDecompose(response: string)
    requires forall j :: 0 <= j < |ResponseLines(response)| ==> !IsReset(Classify(ResponseLines(response)[j]))
    ensures Analysis(response).subtasks.GetOr([]) == DecomposeTask(response)
  {
    var ps := Classified(ResponseLines(response));
    assert LastReset(ps) == None;
    DecompositionIsNumberedItems(ResponseLines(response));
    NumberedIgnoresBlank(Split(response, '\n'));
  }

  // ---------------------------------------------------------------------
  // executeWorkflow

  datatype Status = InProgress | Completed | Failed

  /** What a `catch` receives: an `Error` (with its message) or another value. */
  datatype Thrown = ErrorValue(message: string) | OtherValue

  /** The output of a failed agent: the message of a thrown `Error`, and
      `Failed` for any other thrown value. */
  function ErrorOutput(t: Thrown): string {
    match t
    case ErrorValue(m) => m
    case OtherValue => "Failed"
  }

  /** What one call of the caller's progress callback does. */
  datatype CallbackOutcome = Returns | Throws(thrown: Thrown)

  datatype ProgressCall = ProgressCall(agent: Agent, status: Status)

  datatype AgentResult = AgentResult(agent: Agent, output: string, status: Status)

  datatype OrchestratorResult = OrchestratorResult(analysis: TaskAnalysis, results: seq<AgentResult>)

  /** The promise `executeWorkflow` returns: fulfilled with a result, or
      rejected by a value a callback threw from the `catch` branch. */
  datatype WorkflowRun = Resolved(result: OrchestratorResult) | Rejected(thrown: Thrown)

  /** Entries pushed, callback calls made, and a value escaping the loop. */
  datatype Progress = Progress(entries: seq<AgentResult>, calls: seq<ProgressCall>, escaped: Option<Thrown>)

  /** `onProgress?.(agent, status)`: an absent callback is never called. */
  function Notify(onProgress: Option<(Agent, Status) -> CallbackOutcome>, a: Agent, s: Status): CallbackOutcome {
    match onProgress
    case None => Returns
    case Some(f) => f(a, s)
  }

  function CallsMade(onProgress: Option<(Agent, Status) -> CallbackOutcome>, a: Agent, s: Status): seq<ProgressCall> {
    if onProgress.Some? then [ProgressCall(a, s)] else []
  }

  function CompletedEntry(a: Agent, userInput: string): AgentResult {
    AgentResult(a, AgentName(a) + " analysis for: " + userInput, Completed)
  }

  /** The `catch` branch: push a failed entry, then call the callback with
      'failed' outside the `try`, so a throw there escapes. */
  function CatchBranch(onProgress: Option<(Agent, Status) -> CallbackOutcome>, a: Agent, t: Thrown,
                       before: seq<AgentResult>, callsBefore: seq<ProgressCall>): Progress
  {
    var c := Notify(onProgress, a, Failed);
    Progress(before + [AgentResult(a, ErrorOutput(t), Failed)],
             callsBefore + CallsMade(onProgress, a, Failed),
             if c.Throws? then Some(c.thrown) else None)
  }

  /** One iteration of the loop for agent `a`. */
  function AgentStep(a: Agent, userInput: string, onProgress: Option<(Agent, Status) -> CallbackOutcome>): Progress {
    var c1 := Notify(onProgress, a, InProgress);
    var calls1 := CallsMade(onProgress, a, InProgress);
    if c1.Throws? then CatchBranch(onProgress, a, c1.thrown, [], calls1)
    else
      var ok := CompletedEntry(a, userInput);
      var c2 := Notify(onProgress, a, Completed);
      var calls2 := calls1 + CallsMade(onProgress, a, Completed);
      if c2.Throws? then CatchBranch(onProgress, a, c2.thrown, [ok], calls2)
      else Progress([ok], calls2, None)
  }

  /** The loop over the first agents, stopping at the first escaping throw. */
  function Workflow(agents: seq<Agent>, userInput: string, onProgress: Option<(Agent, Status) -> CallbackOutcome>): Progress {
    if agents == [] then Progress([], [], None)
    else
      var before := Workflow(agents[..|agents| - 1], userInput, onProgress);
      if before.escaped.Some? then before
      else
        var step := AgentStep(agents[|agents| - 1], userInput, onProgress);
        Progress(before.entries + step.entries, before.calls + step.calls, step.escaped)
  }

  /** Once a throw has escaped, later agents are never run. */
  lemma {:induction false} EscapeIsFinal(agents: seq<Agent>, i: nat, userInput: string,
                                         onProgress: Option<(Agent, Status) -> CallbackOutcome>)
    requires i <= |agents|
    requires Workflow(agents[..i], userInput, onProgress).escaped.Some?
    ensures Workflow(agents, userInput, onProgress) == Workflow(agents[..i], userInput, onProgress)
  {
    if i < |agents| {
      var front := agents[..|agents| - 1];
      assert front[..i] == agents[..i];
      EscapeIsFinal(front, i, userInput, onProgress);
    } else {
      assert agents[..i] == agents;
    }
  }

  /** The loop after one more agent, when nothing escaped before it. */
  lemma WorkflowPrefixStep(agents: seq<Agent>, i: nat, userInput: string,
                           onProgress: Option<(Agent, Status) -> CallbackOutcome>)
    requires i < |agents|
    requires Workflow(agents[..i], userInput, onProgress).escaped.None?
    ensures var before := Workflow(agents[..i], userInput, onProgress);
      var step := AgentStep(agents[i], userInput, onProgress);
      Workflow(agents[..i + 1], userInput, onProgress)
        == Progress(before.entries + step.entries, before.calls + step.calls, step.escaped)
  {
    assert agents[..i + 1][..i] == agents[..i];
  }

  /** The body of the `for` loop: the `try` block, the `catch` block, and
      the 'failed' report after it, which is outside the `try`. */
  method RunAgent(agent: Agent, userInput: string, onProgress: Option<(Agent, Status) -> CallbackOutcome>,
                  results: seq<AgentResult>, calls: seq<ProgressCall>)
    returns (results': seq<AgentResult>, calls': seq<ProgressCall>, escaped: Option<Thrown>)
    ensures var step := AgentStep(agent, userInput, onProgress);
      results' == results + step.entries && calls' == calls + step.calls && escaped == step.escaped
  {
    results', calls', escaped := results, calls, None;
    var caught: Option<Thrown> := None;
    var c1 := Notify(onProgress, agent, InProgress);
    calls' := calls' + CallsMade(onProgress, agent, InProgress);
    if c1.Throws? {
      caught := Some(c1.thrown);
    } else {
      results' := results' + [CompletedEntry(agent, userInput)];
      var c2 := Notify(onProgress, agent, Completed);
      calls' := calls' + CallsMade(onProgress, agent, Completed);
      if c2.Throws? {
        caught := Some(c2.thrown);
      }
    }
    if caught.Some? {
      results' := results' + [AgentResult(agent, ErrorOutput(caught.value), Failed)];
      var c3 := Notify(onProgress, agent, Failed);
      calls' := calls' + CallsMade(onProgress, agent, Failed);
      if c3.Throws? {
        escaped := Some(c3.thrown);
      }
    }
  }

  /** `executeWorkflow`: runs the recommended agents one after another and
      collects one placeholder result per agent, reporting progress through
      the optional callback. */
  method ExecuteWorkflow(userInput: string, analysis: TaskAnalysis,
                         onProgress: Option<(Agent, Status) -> CallbackOutcome>)
    returns (run: WorkflowRun, calls: seq<ProgressCall>)
    ensures var w := Workflow(analysis.recommendedAgents, userInput, onProgress);
      calls == w.calls &&
      run == if w.escaped.Some? then Rejected(w.escaped.value)
             else Resolved(OrchestratorResult(analysis, w.entries))
  {
    var agents := analysis.recommendedAgents;
    var results: seq<AgentResult> := [];
    calls := [];
    var i := 0;
    while i < |agents|
      invariant 0 <= i <= |agents|
      invariant Workflow(agents[..i], userInput, onProgress) == Progress(results, calls, None)
    {
      WorkflowPrefixStep(agents, i, userInput, onProgress);
      var escaped;
      results, calls, escaped := RunAgent(agents[i], userInput, onProgress, results, calls);
      if escaped.Some? {
        EscapeIsFinal(agents, i + 1, userInput, onProgress);
        run := Rejected(escaped.value);
        return;
      }
      i := i + 1;
    }
    assert agents[..|agents|] == agents;
    run := Resolved(OrchestratorResult(analysis, results));
  }

  predicate NeverThrows(onProgress: Option<(Agent, Status) -> CallbackOutcome>) {
    onProgress.Some? ==> forall a: Agent, s: Status :: onProgress.value(a, s).Returns?
  }

  /** With a callback that never throws (or none), an agent's turn pushes
      its completed entry and reports 'in-progress' then 'completed'. */
  lemma AgentStepWithoutThrows(a: Agent, userInput: string, onProgress: Option<(Agent, Status) -> CallbackOutcome>)
    requires NeverThrows(onProgress)
    ensures AgentStep(a, userInput, onProgress)
      == Progress([CompletedEntry(a, userInput)],
                  CallsMade(onProgress, a, InProgress) + CallsMade(onProgress, a, Completed), None)
  {
    if onProgress.Some? {
      assert onProgress.value(a, InProgress).Returns?;
      assert onProgress.value(a, Completed).Returns?;
    }
  }

  /** The loop's last turn, when nothing escaped before it and the callback
      never throws. */
  lemma LastAgentWithoutThrows(agents: seq<Agent>, userInput: string,
                               onProgress: Option<(Agent, Status) -> CallbackOutcome>)
    requires NeverThrows(onProgress) && agents != []
    requires Workflow(agents[..|agents| - 1], userInput, onProgress).escaped.None?
    ensures var a := agents[|agents| - 1];
      var before := Workflow(agents[..|agents| - 1], userInput, onProgress);
      Workflow(agents, userInput, onProgress)
        == Progress(before.entries + [CompletedEntry(a, userInput)],
                    before.calls + CallsMade(onProgress, a, InProgress) + CallsMade(onProgress, a, Completed),
                    None)
  {
    AgentStepWithoutThrows(agents[|agents| - 1], userInput, onProgress);
  }

  /** With a callback that never throws (or none), every agent yields one
      completed result, in order, and nothing escapes. */
  lemma {:induction false} WorkflowWithoutThrows(agents: seq<Agent>, userInput: string,
                                                 onProgress: Option<(Agent, Status) -> CallbackOutcome>)
    requires NeverThrows(onProgress)
    ensures var w := Workflow(agents, userInput, onProgress);
      && w.escaped.None?
      && |w.entries| == |agents|
      && (forall k :: 0 <= k < |agents| ==> w.entries[k] == CompletedEntry(agents[k], userInput))
  {
    if agents != [] {
      var front := agents[..|agents| - 1];
      var a := agents[|agents| - 1];
      WorkflowWithoutThrows(front, userInput, onProgress);
      var w := Workflow(agents, userInput, onProgress);
      var before := Workflow(front, userInput, onProgress);
      LastAgentWithoutThrows(agents, userInput, onProgress);
      assert w.entries == before.entries + [CompletedEntry(a, userInput)];
      forall k | 0 <= k < |agents|
        ensures w.entries[k] == CompletedEntry(agents[k], userInput)
      {
        if k < |front| {
          assert agents[k] == front[k];
          assert w.entries[k] == before.entries[k];
        } else {
          assert agents[k] == a && w.entries[k] == CompletedEntry(a, userInput);
        }
      }
    }
  }

  /** With a callback that never throws, it sees 'in-progress' then
      'completed' for each agent in turn, and nothing else. */
  lemma {:induction false} ProgressWithoutThrows(agents: seq<Agent>, userInput: string,
                                                 f: (Agent, Status) -> CallbackOutcome)
    requires NeverThrows(Some(f))
    ensures var w := Workflow(agents, userInput, Some(f));
      && |w.calls| == 2 * |agents|
      && (forall k :: 0 <= k < |agents| ==>
            w.calls[2 * k] == ProgressCall(agents[k], InProgress) &&
            w.calls[2 * k + 1] == ProgressCall(agents[k], Completed))
  {
    if agents != [] {
      var front := agents[..|agents| - 1];
      var a := agents[|agents| - 1];
      ProgressWithoutThrows(front, userInput, f);
      WorkflowWithoutThrows(front, userInput, Some(f));
      LastAgentWithoutThrows(agents, userInput, Some(f));
      var w := Workflow(agents, userInput, Some(f));
      var before := Workflow(front, userInput, Some(f));
      assert w.calls == before.calls + [ProgressCall(a, InProgress), ProgressCall(a, Completed)];
      forall k | 0 <= k < |agents|
        ensures w.calls[2 * k] == ProgressCall(agents[k], InProgress)
        ensures w.calls[2 * k + 1] == ProgressCall(agents[k], Completed)
      {
        if k < |front| {
          assert agents[k] == front[k];
          assert 2 * k + 1 < |before.calls|;
          assert w.calls[2 * k] == before.calls[2 * k];
          assert w.calls[2 * k + 1] == before.calls[2 * k + 1];
        } else {
          assert k == |front| && agents[k] == a;
          assert 2 * k == |before.calls|;
        }
      }
    }
  }

  /** Without a callback nothing is reported. */
  lemma {:induction false} NoCallbackNoCalls(agents: seq<Agent>, userInput: string)
    ensures Workflow(agents, userInput, None).calls == []
  {
    if agents != [] {
      NoCallbackNoCalls(agents[..|agents| - 1], userInput);
    }
  }

  /** Whatever the callback does, a run that is not rejected has at least
      one and at most two results per agent, the first of each naming it. */
  lemma {:induction false} WorkflowResultCount(agents: seq<Agent>, userInput: string,
                                               onProgress: Option<(Agent, Status) -> CallbackOutcome>)
    ensures var w := Workflow(agents, userInput, onProgress);
      w.escaped.None? ==> |agents| <= |w.entries| <= 2 * |agents|
  {
    if agents != [] {
      WorkflowResultCount(agents[..|agents| - 1], userInput, onProgress);
    }
  }

  /** A callback that throws on 'completed' makes the `catch` branch push a
      second, failed entry for the same agent. */
  lemma CompletedCallbackThrowAddsFailedEntry(a: Agent, userInput: string, message: string)
    ensures var cb := (x: Agent, s: Status) => if s == Completed then Throws(ErrorValue(message)) else Returns;
      Workflow([a], userInput, Some(cb)).entries
        == [CompletedEntry(a, userInput), AgentResult(a, message, Failed)]
  {
    assert [a][..0] == [];
  }
}
