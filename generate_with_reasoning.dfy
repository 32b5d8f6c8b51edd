/** The `generate-with-reasoning` serverless function: it looks up current
    knowledge about the entity the request names and the patterns learned
    for the agent type, builds a prompt that asks the model to answer in six
    markdown sections, cuts the answer back into those sections, reads the
    confidence score, logs the decision and answers with the pieces.

    The database rows are parameters, as are the model's answer and the
    JSON serializer; the prompt is returned so that what is sent can be
    stated. */
module GenerateWithReasoning {
  import opened Common
  import opened Text
  import opened Sections
  import StoreKnowledge
  import LearnFromFeedback

  type KnowledgeEntry = StoreKnowledge.KnowledgeEntry
  type UserPreference = LearnFromFeedback.UserPreference

  /** The request body; `None` is a field the caller left out. The
      `category` field is read but never used, so it is not modelled. */
  datatype Request = Request(agentType: Option<string>, prompt: Option<string>, entityName: Option<string>)

  /** The six sections of a reply, after the first. */
  datatype Transparency = Transparency(
    reasoning: string,
    decisionFactors: string,
    alternatives: string,
    confidence: string,
    sources: string)

  datatype ParsedReply = ParsedReply(output: string, transparency: Transparency)

  datatype SourceRef = SourceRef(id: string, content: string)

  /** The row inserted into `agent_decisions`; a failed insert is only
      logged, so it does not change the response. */
  datatype DecisionRecord = DecisionRecord(
    agentType: Option<string>,
    decisionContext: Option<string>,
    reasoningChain: seq<string>,
    alternativesConsidered: seq<string>,
    sourcesUsed: seq<SourceRef>,
    confidenceScore: nat)

  /** The answer: the parsed reply with the confidence score in hundredths
      and how many knowledge entries and preferences went into the prompt,
      or a 500 error with its message. */
  datatype Response =
    | Generated(reply: ParsedReply, confidenceScore: nat, knowledgeUsed: nat, preferencesApplied: nat)
    | Failed(error: string)

  /** The prompt sent (when the function got that far), the decision
      logged and the response. */
  datatype Outcome = Outcome(prompt: string, decision: Option<DecisionRecord>, response: Response)

  const KnowledgeLimit: nat := 5
  const PreferenceLimit: nat := 3
  const DefaultConfidence: nat := 80

  // ---------------------------------------------------------------------
  // Lookups

  /** Matches `.eq('entity_name', name).eq('is_outdated', false)`. */
  predicate IsCurrentAbout(k: KnowledgeEntry, name: string) {
    k.entityName == Some(name) && k.isOutdated == Some(false)
  }

  /** The knowledge lookup: only when an entity is named, the first five
      current entries about it in table order; nothing when the query fails. */
  function RelevantKnowledge(rows: seq<KnowledgeEntry>, entityName: Option<string>, queryFails: bool): seq<KnowledgeEntry> {
    if !Given(entityName) || queryFails then []
    else Prefix(Filter(rows, (k: KnowledgeEntry) => IsCurrentAbout(k, entityName.value)), KnowledgeLimit)
  }

  /** At most five entries, each a current entry about the named entity
      taken from the table, none without a name, and all of them when there
      are at most five. */
  lemma RelevantKnowledgeSpec(rows: seq<KnowledgeEntry>, entityName: Option<string>, queryFails: bool)
    ensures |RelevantKnowledge(rows, entityName, queryFails)| <= KnowledgeLimit
    ensures forall k :: k in RelevantKnowledge(rows, entityName, queryFails) ==>
      k in rows && Given(entityName) && IsCurrentAbout(k, entityName.value)
    ensures Given(entityName) && !queryFails && |Filter(rows, (k: KnowledgeEntry) => IsCurrentAbout(k, entityName.value))| <= KnowledgeLimit ==>
      forall k :: k in rows && IsCurrentAbout(k, entityName.value) ==> k in RelevantKnowledge(rows, entityName, queryFails)
  {
    var r := RelevantKnowledge(rows, entityName, queryFails);
    if Given(entityName) && !queryFails {
      var p := (k: KnowledgeEntry) => IsCurrentAbout(k, entityName.value);
      var all := Filter(rows, p);
      forall k | k in r
        ensures k in rows && IsCurrentAbout(k, entityName.value)
      {
        assert k in all;
        FilterMembers(rows, p, k);
      }
      forall k | |all| <= KnowledgeLimit && k in rows && IsCurrentAbout(k, entityName.value)
        ensures k in r
      {
        FilterMembers(rows, p, k);
      }
    }
  }

  /** The preference type holding the patterns learned for an agent type;
      a missing agent type is written as `undefined`. */
  function PatternType(agentType: Option<string>): string {
    agentType.GetOr("undefined") + "_successful_pattern"
  }

  /** The preference lookup: the first three rows of the agent's pattern
      type; nothing when the query fails. */
  function LearnedPatterns(rows: seq<UserPreference>, agentType: Option<string>, queryFails: bool): seq<UserPreference> {
    if queryFails then []
    else Prefix(Filter(rows, (p: UserPreference) => p.preferenceType == PatternType(agentType)), PreferenceLimit)
  }

  /** At most three preferences, each a row of the agent's pattern type,
      and all of them when there are at most three. */
  lemma LearnedPatternsSpec(rows: seq<UserPreference>, agentType: Option<string>, queryFails: bool)
    ensures |LearnedPatterns(rows, agentType, queryFails)| <= PreferenceLimit
    ensures forall p :: p in LearnedPatterns(rows, agentType, queryFails) ==>
      p in rows && p.preferenceType == PatternType(agentType)
    ensures !queryFails && |Filter(rows, (p: UserPreference) => p.preferenceType == PatternType(agentType))| <= PreferenceLimit ==>
      forall p :: p in rows && p.preferenceType == PatternType(agentType) ==> p in LearnedPatterns(rows, agentType, queryFails)
  {
    if !queryFails {
      var f := (p: UserPreference) => p.preferenceType == PatternType(agentType);
      var all := Filter(rows, f);
      forall p | p in LearnedPatterns(rows, agentType, queryFails)
        ensures p in rows && f(p)
      {
        assert p in all;
        FilterMembers(rows, f, p);
      }
      forall p | |all| <= PreferenceLimit && p in rows && f(p)
        ensures p in LearnedPatterns(rows, agentType, queryFails)
      {
        FilterMembers(rows, f, p);
      }
    }
  }

  // ---------------------------------------------------------------------
  // The prompt

  /** A number column in a template literal: `null` when empty. */
  function ScoreText(score: Option<int>): string {
    match score
    case None => "null"
    case Some(h) => RenderHundredths(h)
  }

  function KnowledgeLine(k: KnowledgeEntry): string {
    "- " + k.category.GetOr("null") + ": " + k.content + " (Confidence: " + ScoreText(k.confidenceScore) + ")"
  }

  const KnowledgeHeader := "\n\nRelevant Knowledge:\n"

  /** The knowledge block of the prompt: a header and one line per entry,
      or nothing when there are no entries. */
  function KnowledgeContext(ks: seq<KnowledgeEntry>): (r: string)
    ensures r == "" <==> ks == []
  {
    if |ks| > 0 then KnowledgeHeader + Join(Map(ks, KnowledgeLine), "\n") else ""
  }

  lemma RenderedHasNoLineBreak(h: int)
    ensures '\n' !in RenderHundredths(h)
  {
    var u := if h < 0 then -h else h;
    var ds := NatToString(u / 100);
    assert forall i :: 0 <= i < |ds| ==> IsDigit(ds[i]);
    assert RenderUnsigned(u) == ds + Fraction(u % 100);
  }

  lemma KnowledgeLineUnbroken(k: KnowledgeEntry)
    requires '\n' !in k.category.GetOr("null") && '\n' !in k.content
    ensures '\n' !in KnowledgeLine(k)
  {
    if k.confidenceScore.Some? {
      RenderedHasNoLineBreak(k.confidenceScore.value);
    }
  }

  /** Every entry gets its own line: when categories and contents have no
      line break, the lines after the header are the entries' lines. */
  lemma KnowledgeContextLines(ks: seq<KnowledgeEntry>)
    requires ks != []
    requires forall k :: k in ks ==> '\n' !in k.category.GetOr("null") && '\n' !in k.content
    ensures KnowledgeContext(ks)[..|KnowledgeHeader|] == KnowledgeHeader
    ensures Split(KnowledgeContext(ks)[|KnowledgeHeader|..], '\n') == Map(ks, KnowledgeLine)
  {
    var lines := Map(ks, KnowledgeLine);
    forall i | 0 <= i < |lines|
      ensures '\n' !in lines[i]
    {
      assert ks[i] in ks;
      KnowledgeLineUnbroken(ks[i]);
    }
    var body := Join(lines, "\n");
    assert KnowledgeContext(ks) == KnowledgeHeader + body;
    assert (KnowledgeHeader + body)[|KnowledgeHeader|..] == body;
    SplitJoin(lines, '\n');
  }

  function PreferenceLine(p: UserPreference, stringify: Json -> string): string {
    "- " + stringify(p.preferenceValue)
  }

  const PreferenceHeader := "\n\nUser Preferences (learned from past successes):\n"

  /** The preference block of the prompt: a header and one line per
      learned pattern, or nothing when there are none. */
  function PreferenceContext(ps: seq<UserPreference>, stringify: Json -> string): (r: string)
    ensures r == "" <==> ps == []
  {
    if |ps| > 0 then PreferenceHeader + Join(Map(ps, p => PreferenceLine(p, stringify)), "\n") else ""
  }

  /** Every learned pattern gets its own line, in order: when no rendered
      preference value has a line break, the lines after the header are
      `- ` followed by each value's rendering. */
  lemma PreferenceContextLines(ps: seq<UserPreference>, stringify: Json -> string)
    requires ps != []
    requires forall p :: p in ps ==> '\n' !in stringify(p.preferenceValue)
    ensures PreferenceContext(ps, stringify)[..|PreferenceHeader|] == PreferenceHeader
    ensures var lines := Split(PreferenceContext(ps, stringify)[|PreferenceHeader|..], '\n');
      |lines| == |ps| && forall i :: 0 <= i < |ps| ==> lines[i] == "- " + stringify(ps[i].preferenceValue)
  {
    var lines := Map(ps, p => PreferenceLine(p, stringify));
    forall i | 0 <= i < |lines|
      ensures '\n' !in lines[i]
    {
      assert ps[i] in ps;
      assert lines[i] == "- " + stringify(ps[i].preferenceValue);
    }
    var body := Join(lines, "\n");
    assert PreferenceContext(ps, stringify) == PreferenceHeader + body;
    assert (PreferenceHeader + body)[|PreferenceHeader|..] == body;
    SplitJoin(lines, '\n');
  }

  function SourceLine(k: KnowledgeEntry): string {
    "- " + k.sourceType + ": " + k.entityName.GetOr("null")
  }

  /** The sources the model is told it may cite. */
  function SourcesList(ks: seq<KnowledgeEntry>): string {
    if |ks| > 0 then Join(Map(ks, SourceLine), "\n") else "- No prior knowledge available"
  }

  /** The six sections of a reply, in order. */
  function ReplyParts(output: string, reasoning: string, factors: string, alternatives: string, confidence: string, sources: string): seq<Part> {
    [ Part("Output", output),
      Part("Reasoning", reasoning),
      Part("Decision Factors", factors),
      Part("Alternatives Considered", alternatives),
      Part("Confidence Score", confidence),
      Part("Sources Used", sources) ]
  }

  const OutputPlaceholder := "[Your main generated content here]\n"
  const ReasoningPlaceholder := "Step 1: [First reasoning step]\nStep 2: [Second reasoning step]\nStep 3: [Third reasoning step]\n...\n"
  const FactorsPlaceholder := "- [Factor 1 and why it matters]\n- [Factor 2 and why it matters]\n- [Factor 3 and why it matters]\n"
  const AlternativesPlaceholder := "Option A: [Brief description] - Rejected because [reason]\nOption B: [Brief description] - Rejected because [reason]\n"
  const ConfidencePlaceholder := "[0-100]: [Explanation of confidence level]\n"

  /** The answer format the prompt asks for, with its placeholders and the
      list of sources filled in. */
  function TemplateParts(sources: string): seq<Part> {
    ReplyParts(OutputPlaceholder, ReasoningPlaceholder, FactorsPlaceholder, AlternativesPlaceholder, ConfidencePlaceholder, sources)
  }

  const Instructions := "\n\nIMPORTANT: Structure your response as follows:\n\n"

  /** The prompt sent to the model: the user's prompt (`undefined` when
      missing), the knowledge and preference blocks, and the answer format. */
  function EnhancedPrompt(prompt: Option<string>, ks: seq<KnowledgeEntry>, ps: seq<UserPreference>, stringify: Json -> string): string {
    prompt.GetOr("undefined") + KnowledgeContext(ks) + PreferenceContext(ps, stringify)
      + Instructions + Layout(TemplateParts(SourcesList(ks)))
  }

  // ---------------------------------------------------------------------
  // Reading the reply

  /** The lookahead `\n## <name>` that ends the section before `name`. */
  function Announcement(name: string): string {
    "\n## " + name
  }

  /** A matched section, trimmed, or the fallback when it did not match. */
  function TrimmedOr(m: Option<string>, fallback: string): string {
    match m
    case None => fallback
    case Some(x) => Trim(x)
  }

  /** Cuts the reply into its sections; the output falls back to the whole
      reply and every other section to the empty string. */
  function ParseReply(full: string): ParsedReply {
    ParsedReply(
      TrimmedOr(Section(full, Heading("Output"), Some(Announcement("Reasoning"))), full),
      Transparency(
        TrimmedOr(Section(full, Heading("Reasoning"), Some(Announcement("Decision Factors"))), ""),
        TrimmedOr(Section(full, Heading("Decision Factors"), Some(Announcement("Alternatives Considered"))), ""),
        TrimmedOr(Section(full, Heading("Alternatives Considered"), Some(Announcement("Confidence Score"))), ""),
        TrimmedOr(Section(full, Heading("Confidence Score"), Some(Announcement("Sources Used"))), ""),
        TrimmedOr(Section(full, Heading("Sources Used"), None), "")))
  }

  /** Text without `##` has no section of any name. */
  lemma NoSectionWithoutHeadings(full: string, name: string, t: Option<string>)
    ensures !Contains(full, "##") ==> Section(full, Heading(name), t).None?
  {
    SectionFound(full, Heading(name), t);
    if !Contains(full, "##") && Contains(full, Heading(name)) {
      IndexOfFirst(full, Heading(name), 0);
      IndexOfFirst(full, "##", 0);
      var i := IndexOf(full, Heading(name), 0).value;
      assert full[i..i + 2] == Heading(name)[..2];
      assert OccursAt(full, "##", i);
    }
  }

  /** A reply that does not follow the format at all is passed on whole as
      the output, with every other section empty. */
  lemma UnformattedReply(full: string)
    requires !Contains(full, "##")
    ensures ParseReply(full) == ParsedReply(full, Transparency("", "", "", "", ""))
  {
    NoSectionWithoutHeadings(full, "Output", Some(Announcement("Reasoning")));
    NoSectionWithoutHeadings(full, "Reasoning", Some(Announcement("Decision Factors")));
    NoSectionWithoutHeadings(full, "Decision Factors", Some(Announcement("Alternatives Considered")));
    NoSectionWithoutHeadings(full, "Alternatives Considered", Some(Announcement("Confidence Score")));
    NoSectionWithoutHeadings(full, "Confidence Score", Some(Announcement("Sources Used")));
    NoSectionWithoutHeadings(full, "Sources Used", None);
  }

  lemma ReplyPartsWellFormed(output: string, reasoning: string, factors: string, alternatives: string, confidence: string, sources: string)
    requires '#' !in output && '#' !in reasoning && '#' !in factors
    requires '#' !in alternatives && '#' !in confidence && '#' !in sources
    ensures WellFormed(ReplyParts(output, reasoning, factors, alternatives, confidence, sources))
  {
    var parts := ReplyParts(output, reasoning, factors, alternatives, confidence, sources);
    var initials := "ORDACS";
    forall k | 0 <= k < 6
      ensures parts[k].name != "" && parts[k].name[0] == initials[k] && '#' !in parts[k].name && '#' !in parts[k].body
    {
      if k == 0 {
      } else if k == 1 {
      } else if k == 2 {
      } else if k == 3 {
      } else if k == 4 {
      } else {
      }
    }
    WellFormedByInitials(parts, initials);
  }

  /** A reply in the requested format, with no `#` inside the sections,
      is read back section by section, each trimmed. */
  lemma ReplyRoundTrip(output: string, reasoning: string, factors: string, alternatives: string, confidence: string, sources: string)
    requires '#' !in output && '#' !in reasoning && '#' !in factors
    requires '#' !in alternatives && '#' !in confidence && '#' !in sources
    ensures ParseReply(Layout(ReplyParts(output, reasoning, factors, alternatives, confidence, sources)))
      == ParsedReply(Trim(output), Transparency(Trim(reasoning), Trim(factors), Trim(alternatives), Trim(confidence), Trim(sources)))
  {
    var parts := ReplyParts(output, reasoning, factors, alternatives, confidence, sources);
    ReplyPartsWellFormed(output, reasoning, factors, alternatives, confidence, sources);
    SectionOfLayout(parts, 0, Announcement("Reasoning"), 9);
    SectionOfLayout(parts, 1, Announcement("Decision Factors"), 16);
    SectionOfLayout(parts, 2, Announcement("Alternatives Considered"), 23);
    SectionOfLayout(parts, 3, Announcement("Confidence Score"), 16);
    SectionOfLayout(parts, 4, Announcement("Sources Used"), 12);
    LastSectionOfLayout(parts);
    assert Heading("Output") == Heading(parts[0].name);
  }

  /** `confidence ? parseFloat(confidence.match(/\d+/)?.[0] || '80') / 100
      : 0.80`, in hundredths: the first run of digits, read as a
      percentage, and 80 when the section is empty or has no digit. */
  function ConfidenceScore(confidence: string): nat {
    if confidence == "" then DefaultConfidence
    else
      match FirstDigitRun(confidence)
      case None => DefaultConfidence
      case Some(ds) => DigitsValue(ds)
  }

  /** A confidence section that states a number before any other digit
      yields that number. */
  lemma ConfidenceScoreReads(lead: string, n: nat, rest: string)
    requires forall j :: 0 <= j < |lead| ==> !IsDigit(lead[j])
    requires rest == [] || !IsDigit(rest[0])
    ensures ConfidenceScore(lead + NatToString(n) + rest) == n
  {
    FirstDigitRunOf(lead, n, rest);
    NatToStringValue(n);
  }

  /** A confidence section that starts with a number scores that number. */
  lemma ConfidenceScoreOfNumber(n: nat, rest: string)
    requires rest == [] || !IsDigit(rest[0])
    ensures ConfidenceScore(NatToString(n) + rest) == n
  {
    var ds := NatToString(n);
    assert "" + ds + rest == ds + rest;
    FirstDigitRunOf("", n, rest);
    NatToStringValue(n);
    assert ConfidenceScore(ds + rest) == DigitsValue(ds);
  }

  /** Without any digit the score is the default 80. */
  lemma ConfidenceScoreDefault(confidence: string)
    requires forall j :: 0 <= j < |confidence| ==> !IsDigit(confidence[j])
    ensures ConfidenceScore(confidence) == DefaultConfidence
  {
    NoDigitRun(confidence);
  }

  // ---------------------------------------------------------------------
  // The whole request

  function SourceRefOf(k: KnowledgeEntry): SourceRef {
    SourceRef(k.id, k.content)
  }

  /** The decision logged for a parsed reply. */
  function Decision(req: Request, reply: ParsedReply, ks: seq<KnowledgeEntry>): DecisionRecord {
    DecisionRecord(
      req.agentType,
      req.prompt,
      NonBlankLines(reply.transparency.reasoning),
      NonBlankLines(reply.transparency.alternatives),
      Map(ks, SourceRefOf),
      ConfidenceScore(reply.transparency.confidence))
  }

  /** The decision logged and the response given for what the gateway
      answered, once the knowledge entries `ks` and the learned patterns
      `ps` are known. */
  datatype Answered = Answered(decision: Option<DecisionRecord>, response: Response)

  function Answer(req: Request, ks: seq<KnowledgeEntry>, ps: seq<UserPreference>, gateway: GatewayReply): Answered {
    match gateway
    case GatewayFailed(status) =>
      Answered(None, Failed("AI Gateway error: " + NatToString(status)))
    case GatewayOk(content) =>
      var reply := ParseReply(content.GetOr(""));
      var decision := Decision(req, reply, ks);
      Answered(Some(decision), Generated(reply, decision.confidenceScore, |ks|, |ps|))
  }

  /** One request: look up, build the prompt, read the gateway's answer,
      log the decision and respond. */
  function Generate(
    req: Request,
    knowledgeRows: seq<KnowledgeEntry>, knowledgeFails: bool,
    preferenceRows: seq<UserPreference>, preferencesFail: bool,
    stringify: Json -> string,
    gateway: GatewayReply): Outcome
  {
    var ks := RelevantKnowledge(knowledgeRows, req.entityName, knowledgeFails);
    var ps := LearnedPatterns(preferenceRows, req.agentType, preferencesFail);
    var a := Answer(req, ks, ps, gateway);
    Outcome(EnhancedPrompt(req.prompt, ks, ps, stringify), a.decision, a.response)
  }

  /** A gateway error becomes a 500 naming its status, and nothing is
      logged. */
  lemma GatewayErrorReported(req: Request, ks: seq<KnowledgeEntry>, ps: seq<UserPreference>, gateway: GatewayReply)
    ensures var a := Answer(req, ks, ps, gateway);
      && (a.response.Failed? <==> gateway.GatewayFailed?)
      && (a.decision.None? <==> gateway.GatewayFailed?)
      && (gateway.GatewayFailed? ==> a.response.error == "AI Gateway error: " + NatToString(gateway.status))
  {
  }

  /** On success the response reports how much context went in (at most
      five entries, none without an entity name, at most three
      preferences), the logged decision cites one source per entry and
      carries the same score, and its reasoning chain is made of non-blank
      lines. */
  lemma GeneratedReportsContext(
    req: Request, knowledgeRows: seq<KnowledgeEntry>, knowledgeFails: bool,
    preferenceRows: seq<UserPreference>, preferencesFail: bool,
    stringify: Json -> string, content: Option<string>)
    ensures var o := Generate(req, knowledgeRows, knowledgeFails, preferenceRows, preferencesFail, stringify, GatewayOk(content));
      && o.response.Generated?
      && o.response.knowledgeUsed <= KnowledgeLimit
      && (!Given(req.entityName) ==> o.response.knowledgeUsed == 0)
      && o.response.preferencesApplied <= PreferenceLimit
      && o.decision.Some?
      && |o.decision.value.sourcesUsed| == o.response.knowledgeUsed
      && o.decision.value.confidenceScore == o.response.confidenceScore
      && (forall l :: l in o.decision.value.reasoningChain ==> NonBlank(l))
  {
    RelevantKnowledgeSpec(knowledgeRows, req.entityName, knowledgeFails);
    LearnedPatternsSpec(preferenceRows, req.agentType, preferencesFail);
  }

  /** A reply in the requested format is passed on section by section, and
      a confidence section that starts with a number is that score. */
  lemma FormattedReplyPassedOn(
    req: Request, ks: seq<KnowledgeEntry>, ps: seq<UserPreference>,
    output: string, reasoning: string, factors: string, alternatives: string, n: nat, explanation: string, sources: string)
    requires '#' !in output && '#' !in reasoning && '#' !in factors
    requires '#' !in alternatives && '#' !in explanation && '#' !in sources
    requires explanation == [] || (!IsDigit(explanation[0]) && !IsSpace(explanation[|explanation| - 1]))
    ensures var full := Layout(ReplyParts(output, reasoning, factors, alternatives, NatToString(n) + explanation, sources));
      var a := Answer(req, ks, ps, GatewayOk(Some(full)));
      && a.response.Generated?
      && a.response.reply == ParsedReply(Trim(output), Transparency(Trim(reasoning), Trim(factors), Trim(alternatives), NatToString(n) + explanation, Trim(sources)))
      && a.response.confidenceScore == n
  {
    var confidence := NatToString(n) + explanation;
    var full := Layout(ReplyParts(output, reasoning, factors, alternatives, confidence, sources));
    NumberThenText(n, explanation);
    TrimUnchanged(confidence);
    ReplyRoundTrip(output, reasoning, factors, alternatives, confidence, sources);
    ConfidenceScoreOfNumber(n, explanation);
    AnswerOfReply(req, ks, ps, full);
  }

  /** Proof step for `FormattedReplyPassedOn`: the response to a reply,
      stated over an abstract reply text so that the layout is not
      unfolded again. */
  lemma AnswerOfReply(req: Request, ks: seq<KnowledgeEntry>, ps: seq<UserPreference>, full: string)
    ensures var reply := ParseReply(full);
      Answer(req, ks, ps, GatewayOk(Some(full))).response
        == Generated(reply, ConfidenceScore(reply.transparency.confidence), |ks|, |ps|)
  {
  }

  lemma NumberThenText(n: nat, explanation: string)
    requires '#' !in explanation
    requires explanation == [] || !IsSpace(explanation[|explanation| - 1])
    ensures var s := NatToString(n) + explanation;
      '#' !in s && !IsSpace(s[0]) && !IsSpace(s[|s| - 1])
  {
    var ds := NatToString(n);
    assert forall i :: 0 <= i < |ds| ==> IsDigit(ds[i]);
    assert forall c :: c in ds + explanation ==> c in ds || c in explanation;
  }
}
