/** The `intelligent-agent` serverless function: it looks up the current
    knowledge and the user preferences recorded for the agent type, builds a
    system prompt around them (asking, when reasoning is on, for an answer in
    five markdown sections), reads the reasoning chain, the alternatives, the
    sources and the confidence back out of the answer, logs the decision,
    stores competitor findings of the market analyst as new knowledge and
    answers with the output and the reasoning.

    The database rows, the model's answer and the JSON serializer are
    parameters. Both lookups sort by confidence, highest first, in the
    database; the rows are given here in that order. */
module IntelligentAgent {
  import opened Common
  import opened Text
  import opened Sections
  import StoreKnowledge
  import LearnFromFeedback

  type KnowledgeEntry = StoreKnowledge.KnowledgeEntry
  type UserPreference = LearnFromFeedback.UserPreference

  /** The request body. `includeReasoning` is `None` when the caller left
      it out, and then defaults to `true`; the `context` field is read but
      never used, so it is not modelled. */
  datatype Request = Request(agentType: string, task: string, includeReasoning: Option<Json>)

  /** What is read out of the model's answer; the confidence is in
      hundredths. */
  datatype Reasoning = Reasoning(
    chain: seq<string>,
    alternatives: seq<string>,
    sources: seq<string>,
    confidence: nat)

  /** The row inserted into `agent_decisions`; the sources are the ids of
      the knowledge entries that went into the prompt. A failed insert is
      not looked at. */
  datatype DecisionLog = DecisionLog(
    agentType: string,
    decisionContext: string,
    reasoningChain: seq<string>,
    alternativesConsidered: seq<string>,
    sourcesUsed: seq<string>,
    confidenceScore: nat)

  /** The row inserted into `knowledge_entries`; the other columns take
      their database defaults. */
  datatype NewKnowledge = NewKnowledge(content: string, sourceType: string, category: string, confidenceScore: nat)

  /** The answer: the output, the reasoning (`null` when reasoning is off)
      and how many entries and preferences went into the prompt, or a 500
      error with its message. */
  datatype Response =
    | Reply(output: string, reasoning: Option<Reasoning>, knowledgeUsed: nat, preferencesApplied: nat)
    | Failed(error: string)

  /** The system prompt, the decision logged, the knowledge stored and the
      response. */
  datatype Outcome = Outcome(
    systemPrompt: string,
    decision: Option<DecisionLog>,
    stored: Option<NewKnowledge>,
    response: Response)

  const KnowledgeLimit: nat := 5
  const PreferenceLimit: nat := 3
  const DefaultConfidence: nat := 80
  const StoredLength: nat := 1000

  /** `includeReasoning = true` in the destructuring, then used for its
      truthiness: only a missing field takes the default, an explicit `null`
      or `false` turns reasoning off. */
  function IncludeReasoning(flag: Option<Json>): (r: bool)
    ensures flag.None? ==> r
    ensures flag == Some(JNull) || flag == Some(JBool(false)) ==> !r
  {
    match flag
    case None => true
    case Some(v) => Truthy(v)
  }

  // ---------------------------------------------------------------------
  // Lookups

  /** Matches `.eq('source_type', agentType).eq('is_outdated', false)`. */
  predicate IsCurrentFor(k: KnowledgeEntry, agentType: string) {
    k.sourceType == agentType && k.isOutdated == Some(false)
  }

  /** The knowledge lookup: the first five current entries of the agent
      type, or `null` when the query fails. */
  function TopKnowledge(rows: seq<KnowledgeEntry>, agentType: string, queryFails: bool): Option<seq<KnowledgeEntry>> {
    if queryFails then None
    else Some(Prefix(Filter(rows, (k: KnowledgeEntry) => IsCurrentFor(k, agentType)), KnowledgeLimit))
  }

  /** At most five entries, each a current entry of the agent type taken
      from the rows, and all of them when there are at most five. */
  lemma TopKnowledgeSpec(rows: seq<KnowledgeEntry>, agentType: string, queryFails: bool)
    ensures TopKnowledge(rows, agentType, queryFails).Some? <==> !queryFails
    ensures TopKnowledge(rows, agentType, queryFails).Some? ==>
      var ks := TopKnowledge(rows, agentType, queryFails).value;
      && |ks| <= KnowledgeLimit
      && (forall k :: k in ks ==> k in rows && IsCurrentFor(k, agentType))
      && (|Filter(rows, (k: KnowledgeEntry) => IsCurrentFor(k, agentType))| <= KnowledgeLimit ==>
            forall k :: k in rows && IsCurrentFor(k, agentType) ==> k in ks)
  {
    if !queryFails {
      var p := (k: KnowledgeEntry) => IsCurrentFor(k, agentType);
      var all := Filter(rows, p);
      var ks := Prefix(all, KnowledgeLimit);
      forall k | k in ks
        ensures k in rows && IsCurrentFor(k, agentType)
      {
        assert k in all;
        FilterMembers(rows, p, k);
      }
      forall k | |all| <= KnowledgeLimit && k in rows && IsCurrentFor(k, agentType)
        ensures k in ks
      {
        FilterMembers(rows, p, k);
      }
    }
  }

  /** The preference lookup: the first three preferences whose type is
      the agent type, or `null` when the query fails. */
  function TopPreferences(rows: seq<UserPreference>, agentType: string, queryFails: bool): Option<seq<UserPreference>> {
    if queryFails then None
    else Some(Prefix(Filter(rows, (p: UserPreference) => p.preferenceType == agentType), PreferenceLimit))
  }

  /** At most three preferences, each a row of the agent type, and all of
      them when there are at most three. */
  lemma TopPreferencesSpec(rows: seq<UserPreference>, agentType: string, queryFails: bool)
    ensures TopPreferences(rows, agentType, queryFails).Some? <==> !queryFails
    ensures TopPreferences(rows, agentType, queryFails).Some? ==>
      var ps := TopPreferences(rows, agentType, queryFails).value;
      && |ps| <= PreferenceLimit
      && (forall p :: p in ps ==> p in rows && p.preferenceType == agentType)
      && (|Filter(rows, (p: UserPreference) => p.preferenceType == agentType)| <= PreferenceLimit ==>
            forall p :: p in rows && p.preferenceType == agentType ==> p in ps)
  {
    if !queryFails {
      var f := (p: UserPreference) => p.preferenceType == agentType;
      var all := Filter(rows, f);
      forall p | p in TopPreferences(rows, agentType, queryFails).value
        ensures p in rows && f(p)
      {
        FilterMembers(rows, f, p);
      }
      forall p | |all| <= PreferenceLimit && p in rows && f(p)
        ensures p in TopPreferences(rows, agentType, queryFails).value
      {
        FilterMembers(rows, f, p);
      }
    }
  }

  // ---------------------------------------------------------------------
  // The prompt

  /** The lines joined by newlines, or the fallback when there is no data
      or the joined text is empty. */
  function LinesOr(lines: Option<seq<string>>, fallback: string): (r: string)
    ensures lines.None? || lines == Some([]) ==> r == fallback
  {
    match lines
    case None => fallback
    case Some(ls) => if Join(ls, "\n") == "" then fallback else Join(ls, "\n")
  }

  lemma JoinStartsWithFirst(parts: seq<string>)
    requires parts != []
    ensures |Join(parts, "\n")| >= |parts[0]|
  {
  }

  /** Lines without line breaks, the first of them not empty, come out one
      per line. */
  lemma LinesOrSplits(ls: seq<string>, fallback: string)
    requires ls != [] && ls[0] != ""
    requires forall k :: 0 <= k < |ls| ==> '\n' !in ls[k]
    ensures Split(LinesOr(Some(ls), fallback), '\n') == ls
  {
    JoinStartsWithFirst(ls);
    SplitJoin(ls, '\n');
  }

  function Content(k: KnowledgeEntry): string {
    k.content
  }

  function Id(k: KnowledgeEntry): string {
    k.id
  }

  const NoKnowledge := "No prior knowledge"
  const NoPreferences := "No user preferences"

  /** The knowledge block: the contents of the entries, one per line. */
  function KnowledgeContext(ks: Option<seq<KnowledgeEntry>>): string {
    LinesOr(if ks.None? then None else Some(Map(ks.value, Content)), NoKnowledge)
  }

  /** Without entries the prompt says there is no prior knowledge; with
      entries whose contents are single non-empty lines, it lists each
      content on a line of its own. */
  lemma KnowledgeContextLines(ks: Option<seq<KnowledgeEntry>>)
    ensures ks.None? || ks == Some([]) ==> KnowledgeContext(ks) == NoKnowledge
    ensures ks.Some? && ks.value != [] && (forall k :: k in ks.value ==> k.content != "" && '\n' !in k.content) ==>
      Split(KnowledgeContext(ks), '\n') == Map(ks.value, Content)
  {
    if ks.Some? && ks.value != [] && (forall k :: k in ks.value ==> k.content != "" && '\n' !in k.content) {
      var ls := Map(ks.value, Content);
      forall k | 0 <= k < |ls|
        ensures '\n' !in ls[k]
      {
        assert ks.value[k] in ks.value;
      }
      assert ks.value[0] in ks.value;
      LinesOrSplits(ls, NoKnowledge);
    }
  }

  /** The preference block: each preference value serialized, one per
      line. */
  function PreferenceContext(ps: Option<seq<UserPreference>>, stringify: Json -> string): string {
    LinesOr(if ps.None? then None else Some(Map(ps.value, (p: UserPreference) => stringify(p.preferenceValue))), NoPreferences)
  }

  /** Without preferences the prompt says there are none; with
      preferences that serialize to single non-empty lines, it lists each
      on a line of its own. */
  lemma PreferenceContextLines(ps: Option<seq<UserPreference>>, stringify: Json -> string)
    ensures ps.None? || ps == Some([]) ==> PreferenceContext(ps, stringify) == NoPreferences
    ensures ps.Some? && ps.value != [] && (forall p :: p in ps.value ==> stringify(p.preferenceValue) != "" && '\n' !in stringify(p.preferenceValue)) ==>
      Split(PreferenceContext(ps, stringify), '\n') == Map(ps.value, (p: UserPreference) => stringify(p.preferenceValue))
  {
    if ps.Some? && ps.value != [] && (forall p :: p in ps.value ==> stringify(p.preferenceValue) != "" && '\n' !in stringify(p.preferenceValue)) {
      var ls := Map(ps.value, (p: UserPreference) => stringify(p.preferenceValue));
      forall k | 0 <= k < |ls|
        ensures '\n' !in ls[k]
      {
        assert ps.value[k] in ps.value;
      }
      assert ps.value[0] in ps.value;
      LinesOrSplits(ls, NoPreferences);
    }
  }

  /** The five sections of an answer with reasoning, in the order the
      prompt asks for them. */
  function ReasoningParts(chain: string, sources: string, alternatives: string, confidence: string, main: string): seq<Part> {
    [ Part("Reasoning Chain", chain),
      Part("Sources Used", sources),
      Part("Alternatives Considered", alternatives),
      Part("Confidence Score", confidence),
      Part("Main Output", main) ]
  }

  const ChainPlaceholder := "Step 1: [Understanding the request]\nStep 2: [Analyzing available information]\nStep 3: [Considering options]\nStep 4: [Making recommendation]\n"
  const SourcesPlaceholder := "- [List knowledge entries referenced]\n"
  const AlternativesPlaceholder := "- Option A: [Description with pros/cons]\n- Option B: [Description with pros/cons]\n- Option C (Selected): [Why this was chosen]\n"
  const ConfidencePlaceholder := "[0-100]% confidence based on available data\n"
  const MainPlaceholder := "[Your actual deliverable]\n"

  /** The answer format asked for when reasoning is on. */
  const FormatRequest: string := "\nWhen responding, structure your output as:\n\n"
    + Layout(ReasoningParts(ChainPlaceholder, SourcesPlaceholder, AlternativesPlaceholder, ConfidencePlaceholder, MainPlaceholder))

  const Direct := "Provide your output directly and concisely."

  /** The system prompt: the agent type, the reasoning mode, the knowledge
      and preference blocks, and the answer format or a request to answer
      directly. */
  function SystemPrompt(agentType: string, reasoning: bool, knowledge: string, preferences: string): string {
    "You are an intelligent " + agentType + " agent with access to knowledge and user preferences.\n\nREASONING MODE: "
      + (if reasoning then "ENABLED - Show your thinking step-by-step" else "DISABLED")
      + "\n\nKnowledge Base:\n" + knowledge
      + "\n\nUser Preferences:\n" + preferences
      + "\n\n" + (if reasoning then FormatRequest else Direct)
  }

  // ---------------------------------------------------------------------
  // Reading the answer

  /** The lookahead `(?=\n## |$)` that ends every section. */
  const NextHeading := "\n## "

  /** `l.trim().startsWith('-')`: a list item. */
  predicate Bulleted(l: string) {
    StartsWith(Trim(l), "-")
  }

  /** The section's text, or nothing when it is not there. */
  function SectionText(output: string, name: string): string {
    Section(output, Heading(name), Some(NextHeading)).GetOr("")
  }

  /** The lines of a text that pass `keep`. */
  function LinesWhere(s: string, keep: string -> bool): seq<string> {
    Filter(Split(s, '\n'), keep)
  }

  /** What `output.includes` looks for before anything is read. */
  const ChainMark := "## Reasoning Chain"

  const ConfidenceHeading := Heading("Confidence Score")

  /** `/## Confidence Score\n(\d+)%/` matches at `i`: the heading, at
      least one digit, and a percent sign right after the digits. */
  predicate ConfidenceAt(s: string, i: nat) {
    && OccursAt(s, ConfidenceHeading, i)
    && var rest := s[i + |ConfidenceHeading|..];
       var ds := LeadingDigits(rest);
       ds != "" && |ds| < |rest| && rest[|ds|] == '%'
  }

  /** The percentage of the first match at or after `from`, in hundredths
      (`parseInt(digits) / 100`). A heading that is not followed by
      digits and `%` does not stop the search. */
  function ConfidenceMatch(s: string, from: nat): Option<nat>
    decreases |s| - from
  {
    if from + |ConfidenceHeading| > |s| then None
    else if ConfidenceAt(s, from) then Some(DigitsValue(LeadingDigits(s[from + |ConfidenceHeading|..])))
    else ConfidenceMatch(s, from + 1)
  }

  /** What the function reads out of the answer: with reasoning on and a
      reasoning chain announced, the non-blank lines of the chain, the list
      items of the alternatives and of the sources (a section that is not
      there has no lines) and the first stated percentage, or 80; otherwise
      nothing and 80. */
  function ReasoningOf(reasoning: bool, output: string): Reasoning {
    if reasoning && Contains(output, ChainMark) then
      Reasoning(
        LinesWhere(SectionText(output, "Reasoning Chain"), NonBlank),
        LinesWhere(SectionText(output, "Alternatives Considered"), Bulleted),
        LinesWhere(SectionText(output, "Sources Used"), Bulleted),
        ConfidenceMatch(output, 0).GetOr(DefaultConfidence))
    else Reasoning([], [], [], DefaultConfidence)
  }

  /** A section that is not there has no lines: the empty text is one
      empty line, which neither filter keeps. */
  lemma NoLinesInEmpty(keep: string -> bool)
    requires !keep("")
    ensures LinesWhere("", keep) == []
  {
    assert Split("", '\n') == [""];
  }

  /** A section runs up to the next `\n## ` of any name: it never
      contains one. */
  lemma SectionEndsAtNextHeading(output: string, name: string)
    ensures !Contains(SectionText(output, name), NextHeading)
  {
    SectionStops(output, Heading(name), Some(NextHeading));
  }

  /** One `match` of step 5: the lines of the section that pass the
      filter, or none when the section is not there. */
  method MatchedLines(output: string, name: string, keep: string -> bool) returns (lines: seq<string>)
    requires !keep("")
    ensures lines == LinesWhere(SectionText(output, name), keep)
  {
    lines := [];
    var m := Section(output, Heading(name), Some(NextHeading));
    if m.Some? {
      lines := Filter(Split(m.value, '\n'), keep);
    } else {
      NoLinesInEmpty(keep);
    }
  }

  /** Step 5: the four variables start out empty and at 0.80 and are
      overwritten by what the expressions match, when reasoning is on and
      the answer announces a reasoning chain. */
  method ExtractReasoning(reasoning: bool, output: string)
    returns (chain: seq<string>, alternatives: seq<string>, sources: seq<string>, confidence: nat)
    ensures Reasoning(chain, alternatives, sources, confidence) == ReasoningOf(reasoning, output)
  {
    chain := [];
    alternatives := [];
    sources := [];
    confidence := DefaultConfidence;
    if reasoning && Contains(output, ChainMark) {
      chain := MatchedLines(output, "Reasoning Chain", NonBlank);
      alternatives := MatchedLines(output, "Alternatives Considered", Bulleted);
      sources := MatchedLines(output, "Sources Used", Bulleted);
      var confidenceMatch := ConfidenceMatch(output, 0);
      if confidenceMatch.Some? {
        confidence := confidenceMatch.value;
      }
    }
  }

  /** A kept line passes the filter and is a single line. */
  lemma LinesWhereShape(s: string, keep: string -> bool, l: string)
    requires l in LinesWhere(s, keep)
    ensures keep(l) && '\n' !in l
  {
    FilterMembers(Split(s, '\n'), keep, l);
    SplitPieces(s, '\n');
  }

  /** The chain holds only non-blank lines, the alternatives and sources
      only list items, none of them with a line break; with reasoning off,
      or no chain announced, all three are empty and the confidence is 80. */
  lemma ReasoningLines(reasoning: bool, output: string)
    ensures var r := ReasoningOf(reasoning, output);
      && (forall l :: l in r.chain ==> NonBlank(l) && '\n' !in l)
      && (forall l :: l in r.alternatives ==> Bulleted(l) && '\n' !in l)
      && (forall l :: l in r.sources ==> Bulleted(l) && '\n' !in l)
    ensures !reasoning || !Contains(output, ChainMark) ==>
      ReasoningOf(reasoning, output) == Reasoning([], [], [], DefaultConfidence)
  {
    var r := ReasoningOf(reasoning, output);
    forall l | l in r.chain
      ensures NonBlank(l) && '\n' !in l
    {
      LinesWhereShape(SectionText(output, "Reasoning Chain"), NonBlank, l);
    }
    forall l | l in r.alternatives
      ensures Bulleted(l) && '\n' !in l
    {
      LinesWhereShape(SectionText(output, "Alternatives Considered"), Bulleted, l);
    }
    forall l | l in r.sources
      ensures Bulleted(l) && '\n' !in l
    {
      LinesWhereShape(SectionText(output, "Sources Used"), Bulleted, l);
    }
  }

  /** No match starts before the first confidence heading. */
  lemma {:induction false} ConfidenceSkips(s: string, from: nat, i: nat)
    requires from <= i
    requires forall j :: from <= j < i ==> !OccursAt(s, ConfidenceHeading, j)
    ensures ConfidenceMatch(s, from) == ConfidenceMatch(s, i)
    decreases i - from
  {
    if from < i {
      ConfidenceSkips(s, from + 1, i);
    }
  }

  /** When the first confidence heading is followed by a number and `%`,
      the confidence is that number. */
  lemma ConfidenceReadAt(s: string, i: nat, n: nat, tail: string)
    requires IndexOf(s, ConfidenceHeading, 0) == Some(i)
    requires s[i + |ConfidenceHeading|..] == NatToString(n) + "%" + tail
    ensures ConfidenceMatch(s, 0) == Some(n)
  {
    IndexOfFirst(s, ConfidenceHeading, 0);
    ConfidenceSkips(s, 0, i);
    MatchHere(s, i, n, tail);
  }

  lemma MatchHere(s: string, i: nat, n: nat, tail: string)
    requires OccursAt(s, ConfidenceHeading, i)
    requires s[i + |ConfidenceHeading|..] == NatToString(n) + "%" + tail
    ensures ConfidenceMatch(s, i) == Some(n)
  {
    var ds := NatToString(n);
    var rest := s[i + |ConfidenceHeading|..];
    assert rest == ds + ("%" + tail);
    LeadingDigitsOfDigits(ds, "%" + tail);
    assert rest[|ds|] == '%';
    NatToStringValue(n);
    assert ConfidenceAt(s, i);
  }

  /** Without a percent sign nothing matches, so the confidence stays at
      80. */
  lemma {:induction false} NoPercentNoConfidence(s: string, from: nat)
    requires '%' !in s
    ensures ConfidenceMatch(s, from) == None
    decreases |s| - from
  {
    if from + |ConfidenceHeading| <= |s| {
      var rest := s[from + |ConfidenceHeading|..];
      var ds := LeadingDigits(rest);
      if |ds| < |rest| {
        assert rest[|ds|] == s[from + |ConfidenceHeading| + |ds|];
      }
      NoPercentNoConfidence(s, from + 1);
    }
  }

  lemma ReasoningPartsWellFormed(chain: string, sources: string, alternatives: string, confidence: string, main: string)
    requires '#' !in chain && '#' !in sources && '#' !in alternatives && '#' !in confidence && '#' !in main
    ensures WellFormed(ReasoningParts(chain, sources, alternatives, confidence, main))
  {
    var parts := ReasoningParts(chain, sources, alternatives, confidence, main);
    var initials := "RSACM";
    forall k | 0 <= k < 5
      ensures parts[k].name != "" && parts[k].name[0] == initials[k] && '#' !in parts[k].name && '#' !in parts[k].body
    {
      if k == 0 {
      } else if k == 1 {
      } else if k == 2 {
      } else if k == 3 {
      } else {
      }
    }
    WellFormedByInitials(parts, initials);
  }

  /** An answer that starts with the reasoning chain's heading announces
      a reasoning chain. */
  lemma ChainAnnounced(rest: string)
    ensures Contains(Heading("Reasoning Chain") + rest, ChainMark)
  {
    var s := Heading("Reasoning Chain") + rest;
    assert s[0..|ChainMark|] == ChainMark;
    assert OccursAt(s, ChainMark, 0);
  }

  /** The `\n## ` lookahead announces every section. */
  lemma NextHeadingAnnounces(name: string)
    ensures Announces(NextHeading, name, 0)
  {
    assert name[..0] == "";
  }

  lemma PercentThenText(n: nat, explanation: string)
    requires '#' !in explanation
    ensures '#' !in NatToString(n) + "%" + explanation
  {
    var ds := NatToString(n);
    assert forall i :: 0 <= i < |ds| ==> IsDigit(ds[i]);
    assert forall c :: c in ds + "%" + explanation ==> c in ds || c == '%' || c in explanation;
  }

  /** In the requested layout, the confidence section starting with a
      number and `%` gives that number. */
  lemma ConfidenceOfLayout(parts: seq<Part>, n: nat, explanation: string)
    requires |parts| == 5
    requires parts[3] == Part("Confidence Score", NatToString(n) + "%" + explanation)
    ensures WellFormed(parts) ==> ConfidenceMatch(Layout(parts), 0) == Some(n)
  {
    var i := HeadingIndex(parts, 3);
    if WellFormed(parts) {
      var full, header, after := Layout(parts), Heading(parts[3].name), After(parts, 3);
      assert IndexOf(full, header, 0) == Some(i) && full[i + |header|..] == after;
      var tail := explanation + ("\n" + Layout(parts[4..]));
      AfterConfidence(parts, NatToString(n), explanation);
      ConfidenceReadAt(full, i, n, tail);
    }
  }

  lemma AfterConfidence(parts: seq<Part>, ds: string, explanation: string)
    requires |parts| == 5 && parts[3].body == ds + "%" + explanation
    ensures After(parts, 3) == ds + "%" + (explanation + ("\n" + Layout(parts[4..])))
  {
  }

  /** The three sections the lines are read from, cut out of the layout. */
  lemma SectionsOfLayout(parts: seq<Part>)
    requires |parts| == 5
    requires parts[1].name == "Sources Used" && parts[2].name == "Alternatives Considered" && parts[3].name == "Confidence Score"
    ensures WellFormed(parts) ==>
      && SectionText(Layout(parts), parts[0].name) == parts[0].body
      && SectionText(Layout(parts), parts[1].name) == parts[1].body
      && SectionText(Layout(parts), parts[2].name) == parts[2].body
  {
    if WellFormed(parts) {
      NextHeadingAnnounces("Sources Used");
      NextHeadingAnnounces("Alternatives Considered");
      NextHeadingAnnounces("Confidence Score");
      SectionOfLayout(parts, 0, NextHeading, 0);
      SectionOfLayout(parts, 1, NextHeading, 0);
      SectionOfLayout(parts, 2, NextHeading, 0);
    }
  }

  lemma ReasoningFromSections(output: string, chain: string, sources: string, alternatives: string, n: nat)
    requires Contains(output, ChainMark)
    requires SectionText(output, "Reasoning Chain") == chain
    requires SectionText(output, "Sources Used") == sources
    requires SectionText(output, "Alternatives Considered") == alternatives
    requires ConfidenceMatch(output, 0) == Some(n)
    ensures ReasoningOf(true, output)
      == Reasoning(LinesWhere(chain, NonBlank), LinesWhere(alternatives, Bulleted), LinesWhere(sources, Bulleted), n)
  {
  }

  /** An answer in the requested format, with no `#` inside the sections
      and a confidence section that starts with a percentage, is read back
      section by section: the non-blank lines of the chain, the list items
      of the alternatives and of the sources, and the percentage. */
  lemma ReasoningRoundTrip(chain: string, sources: string, alternatives: string, n: nat, explanation: string, main: string)
    requires '#' !in chain && '#' !in sources && '#' !in alternatives && '#' !in explanation && '#' !in main
    ensures ReasoningOf(true, Layout(ReasoningParts(chain, sources, alternatives, NatToString(n) + "%" + explanation, main)))
      == Reasoning(LinesWhere(chain, NonBlank), LinesWhere(alternatives, Bulleted), LinesWhere(sources, Bulleted), n)
  {
    var confidence := NatToString(n) + "%" + explanation;
    var parts := ReasoningParts(chain, sources, alternatives, confidence, main);
    PercentThenText(n, explanation);
    ReasoningPartsWellFormed(chain, sources, alternatives, confidence, main);
    var full := Layout(parts);
    SectionsOfLayout(parts);
    ConfidenceOfLayout(parts, n, explanation);
    assert full == Heading("Reasoning Chain") + (chain + ("\n" + Layout(parts[1..])));
    ChainAnnounced(chain + ("\n" + Layout(parts[1..])));
    ReasoningFromSections(full, chain, sources, alternatives, n);
  }

  // ---------------------------------------------------------------------
  // The whole request

  const MarketAnalyst := "market-analyst"

  /** Step 7: the market analyst's answers that mention a competitor are
      kept, cut to their first thousand characters, as competitor analysis
      with the answer's confidence. */
  function StoredKnowledge(agentType: string, output: string, confidence: nat): Option<NewKnowledge> {
    if agentType == MarketAnalyst && Contains(output, "competitor") then
      Some(NewKnowledge(Prefix(output, StoredLength), "market_research", "competitor_analysis", confidence))
    else None
  }

  /** Only the market analyst stores knowledge, only when the answer
      mentions a competitor, and what it stores is the start of the answer,
      all of it when it is at most a thousand characters long. */
  lemma StoredKnowledgeSpec(agentType: string, output: string, confidence: nat)
    ensures StoredKnowledge(agentType, output, confidence).Some? <==>
      agentType == MarketAnalyst && Contains(output, "competitor")
    ensures StoredKnowledge(agentType, output, confidence).Some? ==>
      var k := StoredKnowledge(agentType, output, confidence).value;
      && k.content <= output
      && |k.content| == Min(|output|, StoredLength)
      && (|output| <= StoredLength ==> k.content == output)
      && k.confidenceScore == confidence
  {
  }

  /** The ids of the knowledge entries used, none when the lookup failed. */
  function Ids(ks: Option<seq<KnowledgeEntry>>): seq<string> {
    if ks.None? then [] else Map(ks.value, Id)
  }

  /** The decision logged, the knowledge stored and the response given
      for what the gateway answered, once the lookups are done. */
  datatype Answered = Answered(decision: Option<DecisionLog>, stored: Option<NewKnowledge>, response: Response)

  function Answer(
    req: Request, ks: Option<seq<KnowledgeEntry>>, ps: Option<seq<UserPreference>>,
    gateway: GatewayReply): Answered
  {
    match gateway
    case GatewayFailed(status) =>
      Answered(None, None, Failed("AI API error: " + NatToString(status)))
    case GatewayOk(content) =>
      var output := content.GetOr("");
      var reasoning := IncludeReasoning(req.includeReasoning);
      var r := ReasoningOf(reasoning, output);
      Answered(
        Some(DecisionLog(req.agentType, req.task, r.chain, r.alternatives, Ids(ks), r.confidence)),
        StoredKnowledge(req.agentType, output, r.confidence),
        Reply(output, if reasoning then Some(r) else None, Count(ks), Count(ps)))
  }

  /** One request: look up, build the prompt, read the gateway's answer,
      log the decision, store competitor findings and respond. */
  function Serve(
    req: Request,
    knowledgeRows: seq<KnowledgeEntry>, knowledgeFails: bool,
    preferenceRows: seq<UserPreference>, preferencesFail: bool,
    stringify: Json -> string,
    gateway: GatewayReply): Outcome
  {
    var ks := TopKnowledge(knowledgeRows, req.agentType, knowledgeFails);
    var ps := TopPreferences(preferenceRows, req.agentType, preferencesFail);
    var a := Answer(req, ks, ps, gateway);
    Outcome(
      SystemPrompt(req.agentType, IncludeReasoning(req.includeReasoning), KnowledgeContext(ks), PreferenceContext(ps, stringify)),
      a.decision, a.stored, a.response)
  }
  /** A gateway error becomes a 500 naming its status; nothing is logged
      or stored. */
  lemma GatewayErrorReported(req: Request, ks: Option<seq<KnowledgeEntry>>, ps: Option<seq<UserPreference>>, gateway: GatewayReply)
    ensures var a := Answer(req, ks, ps, gateway);
      && (a.response.Failed? <==> gateway.GatewayFailed?)
      && (a.decision.None? <==> gateway.GatewayFailed?)
      && (gateway.GatewayFailed? ==> a.stored.None? && a.response.error == "AI API error: " + NatToString(gateway.status))
  {
  }

  /** On success the output is the message content (empty when there is
      none); the reasoning is reported exactly when it was asked for, and
      is then what the decision log records; the decision cites one id per
      knowledge entry used. */
  lemma ReplyReportsReasoning(req: Request, ks: Option<seq<KnowledgeEntry>>, ps: Option<seq<UserPreference>>, content: Option<string>)
    ensures var a := Answer(req, ks, ps, GatewayOk(content));
      && a.response.Reply?
      && a.response.output == content.GetOr("")
      && (a.response.reasoning.Some? <==> IncludeReasoning(req.includeReasoning))
      && a.decision.Some?
      && (a.response.reasoning.Some? ==>
            var r := a.response.reasoning.value;
            && r.chain == a.decision.value.reasoningChain
            && r.alternatives == a.decision.value.alternativesConsidered
            && r.confidence == a.decision.value.confidenceScore)
      && |a.decision.value.sourcesUsed| == a.response.knowledgeUsed == Count(ks)
      && a.response.preferencesApplied == Count(ps)
  {
  }

  /** With reasoning off no reasoning is reported, and the decision is
      logged with an empty chain, no alternatives and a confidence of 80. */
  lemma ReasoningOffLogsDefaults(req: Request, ks: Option<seq<KnowledgeEntry>>, ps: Option<seq<UserPreference>>, content: Option<string>)
    requires !IncludeReasoning(req.includeReasoning)
    ensures var a := Answer(req, ks, ps, GatewayOk(content));
      && a.response.Reply? && a.response.reasoning.None?
      && a.decision.Some?
      && a.decision.value.reasoningChain == [] && a.decision.value.alternativesConsidered == []
      && a.decision.value.confidenceScore == DefaultConfidence
  {
    ReasoningLines(false, content.GetOr(""));
  }

  /** With reasoning off the prompt ends by asking for the output directly. */
  lemma DirectPrompt(agentType: string, knowledge: string, preferences: string)
    ensures var p := SystemPrompt(agentType, false, knowledge, preferences);
      |p| >= |Direct| && p[|p| - |Direct|..] == Direct
  {
  }

  /** The market analyst's answers that mention a competitor are stored,
      cut to a thousand characters, with the confidence the decision log
      records; nothing else is stored. */
  lemma CompetitorFindingsStored(req: Request, ks: Option<seq<KnowledgeEntry>>, ps: Option<seq<UserPreference>>, gateway: GatewayReply)
    ensures var a := Answer(req, ks, ps, gateway);
      && (a.stored.Some? <==>
            gateway.GatewayOk? && req.agentType == MarketAnalyst && Contains(gateway.content.GetOr(""), "competitor"))
      && (a.stored.Some? ==>
            && a.stored.value.content <= gateway.content.GetOr("")
            && |a.stored.value.content| <= StoredLength
            && a.decision.Some?
            && a.stored.value.confidenceScore == a.decision.value.confidenceScore)
  {
    if gateway.GatewayOk? {
      var output := gateway.content.GetOr("");
      StoredKnowledgeSpec(req.agentType, output, ReasoningOf(IncludeReasoning(req.includeReasoning), output).confidence);
    }
  }

  /** The whole request answers from the lookups: at most five knowledge
      entries and three preferences are used, and none when a lookup
      fails. */
  lemma ServeUsesLookups(
    req: Request, knowledgeRows: seq<KnowledgeEntry>, knowledgeFails: bool,
    preferenceRows: seq<UserPreference>, preferencesFail: bool,
    stringify: Json -> string, gateway: GatewayReply)
    ensures var ks := TopKnowledge(knowledgeRows, req.agentType, knowledgeFails);
      var ps := TopPreferences(preferenceRows, req.agentType, preferencesFail);
      var o := Serve(req, knowledgeRows, knowledgeFails, preferenceRows, preferencesFail, stringify, gateway);
      && Answered(o.decision, o.stored, o.response) == Answer(req, ks, ps, gateway)
      && Count(ks) <= KnowledgeLimit && Count(ps) <= PreferenceLimit
      && (knowledgeFails ==> Count(ks) == 0)
      && (preferencesFail ==> Count(ps) == 0)
  {
    TopKnowledgeSpec(knowledgeRows, req.agentType, knowledgeFails);
    TopPreferencesSpec(preferenceRows, req.agentType, preferencesFail);
  }

  /** A failed lookup is handled as one that found nothing: `?.` and `||`
      turn `null` into the fallback text, no ids and a count of zero. */
  lemma FailedLookupsFindNothing(
    req: Request, knowledgeRows: seq<KnowledgeEntry>,
    preferenceRows: seq<UserPreference>,
    stringify: Json -> string, gateway: GatewayReply)
    ensures Serve(req, knowledgeRows, true, preferenceRows, true, stringify, gateway)
      == Serve(req, [], false, [], false, stringify, gateway)
  {
    assert TopKnowledge([], req.agentType, false) == Some([]);
    assert TopPreferences([], req.agentType, false) == Some([]);
    NoDataLikeNoRows(req, stringify, gateway);
  }

  lemma NoDataLikeNoRows(req: Request, stringify: Json -> string, gateway: GatewayReply)
    ensures KnowledgeContext(None) == KnowledgeContext(Some([]))
    ensures PreferenceContext(None, stringify) == PreferenceContext(Some([]), stringify)
    ensures Answer(req, None, None, gateway) == Answer(req, Some([]), Some([]), gateway)
  {
  }
}
