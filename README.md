# AI startup box: orchestrator, session store and agent functions

AI startup box is a toolbox for founders. A browser client analyses a task
with a language model and runs a sequence of specialist agents:
market analyst, branding, content and outreach. Its session state (credits,
user name, API key, recent activity and a shared context) lives in a
client-side store. Five serverless functions sit behind the client:

- `generate-with-reasoning` answers with a structured, sectioned reply and
  logs the decision.
- `intelligent-agent` answers from stored knowledge and learned preferences.
  It extracts a reasoning chain and a confidence score and keeps competitor
  findings.
- `rag-agent` answers from the conversation's history and earlier outputs.
  It runs the `TOOL_CALL: name | input` lines of the answer through a
  calculator, a web-search stub and a JSON analyser.
- `store-knowledge` refreshes or adds an entry in the knowledge base.
- `learn-from-feedback` records a verdict on a decision. A positive verdict
  becomes a learned preference; a negative one asks the database to lower
  that preference's confidence.

The model has one module per source file:

- `Orchestrator` (`orchestrator.dfy`) models `src/lib/orchestrator.ts`.
  - `AnalyzeIntent` is a method whose loop updates the analysis record line
    by line. It is proved equal to a declarative analysis: each field is the
    value of the last line of its kind.
  - `ExecuteWorkflow` is a method whose loop runs the agents in order. It is
    proved equal to a recursive workflow function, including the catch
    branch that a throwing progress callback reaches.
- `SessionStore` (`store.dfy`) models `src/lib/store.ts` as the class
  `AppStore`. Each action is a method that changes one field and keeps the
  others. The arithmetic of each action is a function with its own lemmas.
- `StoreKnowledge`, `LearnFromFeedback`, `GenerateWithReasoning`,
  `IntelligentAgent` and `RagAgent` model the five functions.
  - The two that write to their own tables carry that table as a class
    (`KnowledgeTable`, `FeedbackStore`).
  - The others are functions from the database rows, the model's reply and
    the clock to the rows written and the response sent.
  - The `rag-agent` tool loop is a method over the answer text. It follows
    the global regular expression's `lastIndex` and the first-occurrence
    `replace`.
- `Common`, `Text` and `Sections` hold what the functions share:
  - optional values, JSON values and the gateway's reply;
  - the JavaScript string operations used (`trim`, `split`, `join`,
    `startsWith`, `indexOf`, `parseInt`, `toLowerCase`, number rendering);
  - the cutting of a reply into `## Heading` sections done by the
    functions' regular expressions.

Confidence scores are integers in hundredths: 0.80 is 80. The model's reply,
database rows, generated ids, timestamps, `JSON.stringify`, the calculator's
evaluator and the data analyser's JSON analysis are parameters.

## Model

| member | source | states |
|---|---|---|
| Orchestrator.AgentFromName | src/lib/orchestrator.ts:97-99 | a name denotes an agent exactly when it is one of the four agent names, and it then names that agent |
| Orchestrator.NumberedIsNonBlank | src/lib/orchestrator.ts:76 | a line that starts with digits and a point is never removed by the blank-line filter |
| Orchestrator.KindIsPrefixTest | src/lib/orchestrator.ts:88-109 | a line is classified under a keyword exactly when it starts with that keyword (`INTENT:` … `SUBTASKS:`), so the first matching branch of the if-chain is taken |
| Orchestrator.KindIsNumberedTest | src/lib/orchestrator.ts:114 | a line is a numbered subtask exactly when it matches digits followed by a point at its start |
| Orchestrator.ComplexityFromText | src/lib/orchestrator.ts:91-93 | a complexity is accepted exactly when the lowered text is `simple`, `moderate` or `complex`, and it is that level |
| Orchestrator.AgentsOfNames | src/lib/orchestrator.ts:96-99 | the recommended agents are, in order, the listed names that are agent names; other names are dropped |
| Orchestrator.ResponseLines | src/lib/orchestrator.ts:76 | every line kept for parsing holds a non-space character |
| Orchestrator.NumberedItemsAppend | src/lib/orchestrator.ts:114-117 | the numbered subtasks of two runs of lines are those of the first followed by those of the second |
| Orchestrator.SubtasksAfterReset | src/lib/orchestrator.ts:109-113 | a `SUBTASKS:` line whose text is not `N/A` empties the subtask list |
| Orchestrator.SubtasksAfterOther | src/lib/orchestrator.ts:87-119 | a line that neither resets nor is numbered leaves the subtask list as it was |
| Orchestrator.SubtasksAfterNumbered | src/lib/orchestrator.ts:114-117 | a numbered line appends its text to the subtask list, creating the list when there was none |
| Orchestrator.AnalysisStep | src/lib/orchestrator.ts:87-119 | each kind of line changes only its own field of the analysis, and to that line's value when accepted |
| Orchestrator.NoLinesGiveDefaults | src/lib/orchestrator.ts:77-85 | an answer without lines gives the defaults: moderate complexity, no agents, the 8B model, confidence 80, ten minutes |
| Orchestrator.ApplyLine | src/lib/orchestrator.ts:88-118 | handling one line turns the analysis of the lines before into the analysis of those lines and this one |
| Orchestrator.AnalyzeIntent | src/lib/orchestrator.ts:73-121 | the loop's analysis equals the declarative analysis of the answer's non-blank lines |
| Orchestrator.UnrecognisedLineIgnored | src/lib/orchestrator.ts:87-119 | a line that starts with no keyword and no number changes nothing |
| Orchestrator.IndentedLineIgnored | src/lib/orchestrator.ts:88-114 | a line that starts with white space changes nothing, since every test is anchored at its first character |
| Orchestrator.NothingRecognisedGivesDefaults | src/lib/orchestrator.ts:77-119 | an answer with no recognised line yields the default analysis |
| Orchestrator.LastFieldWins | src/lib/orchestrator.ts:87-113 | when a field's keyword occurs on several lines, the last such line decides it |
| Orchestrator.AgentsLineWins | src/lib/orchestrator.ts:95-99 | the recommended agents are those of the last `AGENTS:` line, earlier ones are replaced |
| Orchestrator.ComplexityUpdate | src/lib/orchestrator.ts:90-94 | a `COMPLEXITY:` line sets the complexity when its text is a known level and otherwise keeps the previous one |
| Orchestrator.ConfidenceUpdate | src/lib/orchestrator.ts:104-106 | a `CONFIDENCE:` line sets the confidence to its parsed integer, or keeps it when the text is not a number |
| Orchestrator.DecomposeTask | src/lib/orchestrator.ts:200-208 | there are never more subtasks than lines in the answer |
| Orchestrator.DecompositionIsNumberedItems | src/lib/orchestrator.ts:203-206 | the decomposition is the numbered lines with their numbers removed, the same items the analysis collects |
| Orchestrator.NumberedIgnoresBlank | src/lib/orchestrator.ts:76 | removing blank lines first does not change which lines are numbered |
| Orchestrator.AnalysisSubtasksMatchDecompose | src/lib/orchestrator.ts:114-117 | without a resetting `SUBTASKS:` line, the analysis lists the same subtasks that the decomposition of the same answer returns |
| Orchestrator.EscapeIsFinal | src/lib/orchestrator.ts:146-153 | once a callback throws from the catch branch the workflow stops, and later agents add nothing |
| Orchestrator.WorkflowPrefixStep | src/lib/orchestrator.ts:133-154 | running one more agent appends that agent's entries and callback calls to those of the agents before it |
| Orchestrator.RunAgent | src/lib/orchestrator.ts:134-153 | one agent's step reports the entries, callback calls and escaping error of the try and catch branches |
| Orchestrator.ExecuteWorkflow | src/lib/orchestrator.ts:124-160 | the loop's results, callback calls and escaping error equal the workflow over the recommended agents, and the analysis is returned unchanged |
| Orchestrator.AgentStepWithoutThrows | src/lib/orchestrator.ts:134-145 | with a callback that never throws, an agent gives one completed entry and reports in-progress then completed |
| Orchestrator.WorkflowWithoutThrows | src/lib/orchestrator.ts:133-159 | with a callback that never throws, there is one completed entry per recommended agent, in order, naming the user input |
| Orchestrator.ProgressWithoutThrows | src/lib/orchestrator.ts:135-145 | with a callback that never throws, each agent is reported in progress and then completed, in order |
| Orchestrator.NoCallbackNoCalls | src/lib/orchestrator.ts:135 | without a callback no progress is reported |
| Orchestrator.WorkflowResultCount | src/lib/orchestrator.ts:133-159 | when nothing escapes, there are between one and two entries per agent |
| Orchestrator.CompletedCallbackThrowAddsFailedEntry | src/lib/orchestrator.ts:139-152 | a callback that throws on `completed` leaves both a completed and a failed entry carrying its message, and reports `failed` |
| SessionStore.Deduct | src/lib/store.ts:41-48 | a credit is granted exactly when credits are positive, the balance then drops by one, and it never goes negative |
| SessionStore.RepeatedDeductions | src/lib/store.ts:41-48 | after n deductions from a non-negative balance, min(credits, n) were granted and the balance stops at zero |
| SessionStore.NoCreditNoGrant | src/lib/store.ts:43-47 | without credits no deduction is granted and the balance stays as it was |
| SessionStore.WithActivity | src/lib/store.ts:56-66 | the new activity is first, the older ones follow in order, and at most ten are kept |
| SessionStore.NewestFirst | src/lib/store.ts:56-65 | of two activities added in turn, the later one comes first |
| SessionStore.FullHistoryDropsOldest | src/lib/store.ts:65 | adding to a full history of ten drops the oldest entry |
| SessionStore.WithContext | src/lib/store.ts:68-74 | the shared context gains the key with the new value, and every other key keeps its value |
| SessionStore.AppStore.constructor | src/lib/store.ts:33-37 | a new store starts with 50 credits, empty name and key, no activity and an empty context |
| SessionStore.AppStore.SetCredits | src/lib/store.ts:39 | only the credits change, to the given value |
| SessionStore.AppStore.DeductCredit | src/lib/store.ts:41-48 | the grant and the new balance are those of the deduction rule, and the other fields are unchanged |
| SessionStore.AppStore.ResetCredits | src/lib/store.ts:50 | only the credits change, back to 50 |
| SessionStore.AppStore.SetUserName | src/lib/store.ts:52 | only the user name changes |
| SessionStore.AppStore.SetGroqApiKey | src/lib/store.ts:54 | only the API key changes |
| SessionStore.AppStore.AddActivity | src/lib/store.ts:56-66 | only the activity list changes, to the capped list with the stamped entry first |
| SessionStore.AppStore.UpdateSharedContext | src/lib/store.ts:68-74 | only the shared context changes, by setting the one key |
| StoreKnowledge.FindCurrent | supabase/functions/store-knowledge/index.ts:32-38 | the lookup finds the first entry that is current for the entity and category, or reports that none is |
| StoreKnowledge.MergedMetadata | supabase/functions/store-knowledge/index.ts:50 | the merged metadata has the old and new keys plus `updated`; new values win over old ones, and `updated` is true; an array or string spreads as its items or characters under their indices |
| StoreKnowledge.IndexKeyedSpec | supabase/functions/store-knowledge/index.ts:50 | spreading an array or string gives exactly the keys `0` to `n-1`, each holding the item at that index |
| StoreKnowledge.StringMetadataSpread | supabase/functions/store-knowledge/index.ts:50 | old metadata `"ab"` merged with `{}` gives `{"0": "a", "1": "b", updated: true}` |
| StoreKnowledge.Refreshed | supabase/functions/store-knowledge/index.ts:44-54 | an update keeps the entry's identity and origin, sets content, confidence, validation time and merged metadata, and a missing content keeps the old one |
| StoreKnowledge.Inserted | supabase/functions/store-knowledge/index.ts:62-74 | a new entry carries the request's fields, the confidence default of 80, empty metadata by default, and is current |
| StoreKnowledge.StoreChangesOneEntry | supabase/functions/store-knowledge/index.ts:42-80 | an error leaves the table unchanged; an update rewrites exactly one entry in place; a creation appends exactly one entry with the new id |
| StoreKnowledge.UpdatedIffFound | supabase/functions/store-knowledge/index.ts:82-89 | the answer says `updated` exactly when a current entry was found and the write succeeded, and `created` exactly when none was found and the insert succeeded |
| StoreKnowledge.AtMostOneCurrent | supabase/functions/store-knowledge/index.ts:32-80 | when an entity and category have at most one current entry, they still have at most one after a store |
| StoreKnowledge.SecondStoreRefreshes | supabase/functions/store-knowledge/index.ts:60-80 | once an entry was created for a pair, the next lookup for that pair finds it |
| StoreKnowledge.KnowledgeTable.constructor | supabase/functions/store-knowledge/index.ts:32 | the table starts with the given rows |
| StoreKnowledge.KnowledgeTable.StoreKnowledge | supabase/functions/store-knowledge/index.ts:14-97 | the table and the response after the request are those of the store rule |
| LearnFromFeedback.WithFeedback | supabase/functions/learn-from-feedback/index.ts:32-35 | only decisions whose id equals the request's id get the feedback; the rest and all ids are unchanged |
| LearnFromFeedback.FirstOfType | supabase/functions/learn-from-feedback/index.ts:40-43 | the search finds the first preference of the type, or reports that there is none |
| LearnFromFeedback.SingleOfType | supabase/functions/learn-from-feedback/index.ts:40-44 | the single-row lookup finds a preference exactly when exactly one has the type |
| LearnFromFeedback.Existing | supabase/functions/learn-from-feedback/index.ts:40-46 | the lookup's `existing` is a row exactly when the query is answered and exactly one preference has the type, and that row has the type; a query error reads as no row |
| LearnFromFeedback.CountedIsFound | supabase/functions/learn-from-feedback/index.ts:40-43 | a type that occurs is found |
| LearnFromFeedback.LastExamples | supabase/functions/learn-from-feedback/index.ts:49 | the kept examples are the last ten, or all of them when there are fewer |
| LearnFromFeedback.Boosted | supabase/functions/learn-from-feedback/index.ts:50 | a success raises confidence by 5 hundredths, never above 100, and a missing confidence counts as 0 |
| LearnFromFeedback.ReinforcedKeepsLatest | supabase/functions/learn-from-feedback/index.ts:48-58 | a reinforced preference keeps its identity, holds one to ten examples ending with the approved output, and its confidence does not drop |
| LearnFromFeedback.ReinforcedExamplesOrder | supabase/functions/learn-from-feedback/index.ts:48-49 | the examples become the newest old ones followed by the approved output, in order |
| LearnFromFeedback.RepeatedSuccesses | supabase/functions/learn-from-feedback/index.ts:50 | after n successes the confidence is min(c + 5n, 100) |
| LearnFromFeedback.LearningTouchesOneRow | supabase/functions/learn-from-feedback/index.ts:38-70 | without a positive verdict preferences are unchanged; with one, the single preference of the type is reinforced when the lookup query is answered, and otherwise (query error, no row, several rows) one new preference is appended |
| LearnFromFeedback.CountAppend | supabase/functions/learn-from-feedback/index.ts:61-68 | appending a preference raises the count of its own type by one and no other |
| LearnFromFeedback.CountReplaceSameType | supabase/functions/learn-from-feedback/index.ts:52-58 | updating a preference in place keeps every type's count |
| LearnFromFeedback.OnePreferencePerType | supabase/functions/learn-from-feedback/index.ts:38-70 | as long as the lookup query is answered, a type with at most one preference keeps at most one |
| LearnFromFeedback.DuplicatesGrow | supabase/functions/learn-from-feedback/index.ts:40-68 | when a type already has two or more preferences, or the lookup query fails, each positive verdict for it adds one more row |
| LearnFromFeedback.VerdictsExclusive | supabase/functions/learn-from-feedback/index.ts:38-78 | only `positive` changes preferences and only `negative` requests a penalty of 10 hundredths for the type |
| LearnFromFeedback.FeedbackStore.constructor | supabase/functions/learn-from-feedback/index.ts:27 | the store starts with the given decisions and preferences and no penalty requests |
| LearnFromFeedback.FeedbackStore.LearnFromFeedback | supabase/functions/learn-from-feedback/index.ts:27-78 | the tables after the request are those of the three steps applied in order, with a failed lookup read as no row |
| GenerateWithReasoning.RelevantKnowledgeSpec | supabase/functions/generate-with-reasoning/index.ts:26-36 | at most five entries are used, all current and about the named entity, none without a name, and all of them when there are at most five |
| GenerateWithReasoning.LearnedPatternsSpec | supabase/functions/generate-with-reasoning/index.ts:39-45 | at most three preferences are used, all of the agent type's successful-pattern type, and all of them when at most three match |
| GenerateWithReasoning.KnowledgeContext | supabase/functions/generate-with-reasoning/index.ts:48-50 | the knowledge block is empty exactly when no entry is used |
| GenerateWithReasoning.KnowledgeContextLines | supabase/functions/generate-with-reasoning/index.ts:48-50 | the block opens with its header and then holds exactly one line per entry, in order |
| GenerateWithReasoning.KnowledgeLineUnbroken | supabase/functions/generate-with-reasoning/index.ts:49 | an entry's line holds no line break when its category and content hold none |
| GenerateWithReasoning.PreferenceContext | supabase/functions/generate-with-reasoning/index.ts:52-54 | the preference block is empty exactly when no preference is used |
| GenerateWithReasoning.PreferenceContextLines | supabase/functions/generate-with-reasoning/index.ts:52-54 | a non-empty block is its header followed by one `- ` line per preference with its rendered value, in order |
| GenerateWithReasoning.NoSectionWithoutHeadings | supabase/functions/generate-with-reasoning/index.ts:118-123 | a reply without `##` has none of the sections |
| GenerateWithReasoning.UnformattedReply | supabase/functions/generate-with-reasoning/index.ts:118-130 | an unformatted reply is returned whole as the output, and every other section is empty |
| GenerateWithReasoning.ReplyPartsWellFormed | supabase/functions/generate-with-reasoning/index.ts:56-82 | the six requested sections form a well-formed layout when their bodies hold no `#` |
| GenerateWithReasoning.ReplyRoundTrip | supabase/functions/generate-with-reasoning/index.ts:118-130 | a reply laid out in the requested format is read back section by section, each section trimmed |
| GenerateWithReasoning.ConfidenceScoreReads | supabase/functions/generate-with-reasoning/index.ts:133 | the score is the first run of digits in the confidence section |
| GenerateWithReasoning.ConfidenceScoreOfNumber | supabase/functions/generate-with-reasoning/index.ts:133 | a confidence section that starts with a number scores that number |
| GenerateWithReasoning.ConfidenceScoreDefault | supabase/functions/generate-with-reasoning/index.ts:133 | a confidence section without digits, empty included, scores 80 |
| GenerateWithReasoning.GatewayErrorReported | supabase/functions/generate-with-reasoning/index.ts:108-112 | the response is an error exactly when the gateway failed, and then names its status; a decision is logged exactly when it did not fail |
| GenerateWithReasoning.GeneratedReportsContext | supabase/functions/generate-with-reasoning/index.ts:136-163 | the counts reported are within the lookup limits; the decision cites one source per entry, carries the reported score and has non-blank reasoning lines |
| GenerateWithReasoning.FormattedReplyPassedOn | supabase/functions/generate-with-reasoning/index.ts:115-163 | a reply in the requested format is answered with its trimmed sections and with the number its confidence section starts with |
| IntelligentAgent.IncludeReasoning | supabase/functions/intelligent-agent/index.ts:27 | reasoning is on when the flag is absent and off when it is `false` or `null` |
| IntelligentAgent.TopKnowledgeSpec | supabase/functions/intelligent-agent/index.ts:33-39 | a lookup that succeeds yields at most five current entries whose source is the agent type, all of them when there are at most five |
| IntelligentAgent.TopPreferencesSpec | supabase/functions/intelligent-agent/index.ts:42-47 | a lookup fails exactly when the query does; one that succeeds yields at most three preferences of the agent type, taken from the rows, and all of them when at most three match |
| Common.Count | supabase/functions/intelligent-agent/index.ts:169-170 | a failed lookup counts as zero, otherwise the number of rows |
| IntelligentAgent.LinesOr | supabase/functions/intelligent-agent/index.ts:50-51 | no rows, or a failed lookup, give the fallback text |
| IntelligentAgent.LinesOrSplits | supabase/functions/intelligent-agent/index.ts:50-51 | joined lines without line breaks split back into the same lines |
| IntelligentAgent.KnowledgeContextLines | supabase/functions/intelligent-agent/index.ts:50 | no entries give `No prior knowledge`; otherwise the context holds one line per entry's content, in order |
| IntelligentAgent.PreferenceContextLines | supabase/functions/intelligent-agent/index.ts:51 | no preferences give `No user preferences`; otherwise one line per rendered preference, in order |
| IntelligentAgent.SectionEndsAtNextHeading | supabase/functions/intelligent-agent/index.ts:119 | a section read from the answer never runs into the next `## ` heading |
| IntelligentAgent.MatchedLines | supabase/functions/intelligent-agent/index.ts:119-131 | the loop keeps exactly the section's lines that pass the filter, in order |
| IntelligentAgent.ExtractReasoning | supabase/functions/intelligent-agent/index.ts:113-138 | the extracted chain, alternatives, sources and confidence equal the declarative reading of the answer |
| IntelligentAgent.LinesWhereShape | supabase/functions/intelligent-agent/index.ts:121-131 | every kept line passes the filter and holds no line break |
| IntelligentAgent.ReasoningLines | supabase/functions/intelligent-agent/index.ts:113-132 | the chain holds non-blank lines and the alternatives and sources bullet items; with reasoning off or no chain announced all three are empty and the confidence is 80 |
| IntelligentAgent.ConfidenceReadAt | supabase/functions/intelligent-agent/index.ts:134-137 | digits and a percent sign right after the first confidence heading are the score |
| IntelligentAgent.NoPercentNoConfidence | supabase/functions/intelligent-agent/index.ts:134-137 | an answer without a percent sign keeps the default confidence |
| IntelligentAgent.ReasoningPartsWellFormed | supabase/functions/intelligent-agent/index.ts:53-85 | the five requested sections form a well-formed layout when their bodies hold no `#` |
| IntelligentAgent.ReasoningRoundTrip | supabase/functions/intelligent-agent/index.ts:118-137 | an answer laid out in the requested format yields its chain's non-blank lines, its bulleted alternatives and sources, and the stated percentage |
| IntelligentAgent.StoredKnowledgeSpec | supabase/functions/intelligent-agent/index.ts:151-158 | knowledge is stored only for a market analyst's answer that mentions a competitor, as at most its first thousand characters, with the answer's confidence |
| IntelligentAgent.GatewayErrorReported | supabase/functions/intelligent-agent/index.ts:105-107 | the response is an error exactly when the gateway failed, and then names its status and nothing is stored; a decision is logged exactly when it did not fail |
| IntelligentAgent.ReplyReportsReasoning | supabase/functions/intelligent-agent/index.ts:141-170 | the answer passes the output on, reports reasoning exactly when it is on and as logged, and cites one source per entry used |
| IntelligentAgent.ReasoningOffLogsDefaults | supabase/functions/intelligent-agent/index.ts:113-148 | with reasoning off, no reasoning is reported and the decision is logged with empty lists and confidence 80 |
| IntelligentAgent.DirectPrompt | supabase/functions/intelligent-agent/index.ts:85 | with reasoning off, the system prompt ends by asking for the output directly |
| IntelligentAgent.CompetitorFindingsStored | supabase/functions/intelligent-agent/index.ts:151-158 | an answer is stored exactly when the market analyst's output mentions a competitor, cut to a thousand characters and with the logged confidence |
| IntelligentAgent.ServeUsesLookups | supabase/functions/intelligent-agent/index.ts:33-170 | the request is answered from the two lookups, using at most five entries and three preferences, and none of a lookup that failed |
| IntelligentAgent.FailedLookupsFindNothing | supabase/functions/intelligent-agent/index.ts:50-51 | failed lookups give the same answer as lookups that found no rows |
| IntelligentAgent.NoDataLikeNoRows | supabase/functions/intelligent-agent/index.ts:146-170 | a `null` lookup result behaves like an empty one, in both contexts and in the answer |
| RagAgent.Find | supabase/functions/rag-agent/index.ts:168 | the tool found is an available tool of that name; no tool is found only when none has the name |
| RagAgent.SanitizeSpec | supabase/functions/rag-agent/index.ts:23 | the calculator keeps exactly the input's digits, operators, parentheses, points and white space, and sanitising twice changes nothing |
| RagAgent.ActiveToolsSpec | supabase/functions/rag-agent/index.ts:116 | the active tools are the enabled available tools, in the available order; the default enables all three |
| RagAgent.SimilarOutputs | supabase/functions/rag-agent/index.ts:99-104 | a lookup fails exactly when the query does; one that succeeds yields at most three earlier outputs of the agent type, taken from the rows, and all of them when at most three match |
| RagAgent.RagContext | supabase/functions/rag-agent/index.ts:109-113 | the research block is empty exactly when no earlier output was found |
| RagAgent.ResearchLineNumbered | supabase/functions/rag-agent/index.ts:110-111 | the i-th earlier output is listed under the number i+1 |
| RagAgent.ToolsContext | supabase/functions/rag-agent/index.ts:117-119 | the tools block is empty exactly when no tool is active |
| RagAgent.Last | supabase/functions/rag-agent/index.ts:123 | the memory shows the last five messages, or all of them when there are fewer |
| RagAgent.Speaker | supabase/functions/rag-agent/index.ts:124 | a message is shown as the user's exactly when its role is `user`, and as the assistant's otherwise |
| RagAgent.MemoryContext | supabase/functions/rag-agent/index.ts:122-126 | the memory block is empty exactly when the conversation has no history |
| RagAgent.EnhancedPrompt | supabase/functions/rag-agent/index.ts:129 | the prompt is the user's prompt followed by the research, tools and memory blocks, in that order and each whole |
| RagAgent.MatchAt | supabase/functions/rag-agent/index.ts:163 | a match of the tool-call pattern starts where it was tried and ends within the text, after its start |
| RagAgent.Exec | supabase/functions/rag-agent/index.ts:166 | a search from `lastIndex` finds a match at or after it |
| RagAgent.ExecFirst | supabase/functions/rag-agent/index.ts:163-166 | the search returns the first position from `lastIndex` on where the pattern matches |
| RagAgent.ExecNothing | supabase/functions/rag-agent/index.ts:163-166 | the search finds nothing exactly when no position from `lastIndex` on matches |
| RagAgent.MatchAtShape | supabase/functions/rag-agent/index.ts:163 | a match starts with `TOOL_CALL:`, its name is a word and its input is the rest of the line |
| RagAgent.ExecWithoutMarker | supabase/functions/rag-agent/index.ts:163-166 | an answer without `TOOL_CALL:` has no match |
| RagAgent.HandleMatch | supabase/functions/rag-agent/index.ts:167-177 | one loop pass records a call for a known tool and replaces the first occurrence of the matched text; an unknown tool changes nothing |
| RagAgent.ProcessToolCalls | supabase/functions/rag-agent/index.ts:162-178 | the loop's output and recorded calls equal the rewriting of the answer from position zero |
| RagAgent.NoCallUnchanged | supabase/functions/rag-agent/index.ts:166-178 | an answer without tool calls is passed on unchanged with no tool usage |
| RagAgent.RecordedCalls | supabase/functions/rag-agent/index.ts:170-173 | every recorded call names an available tool, with its trimmed input and that tool's result on it |
| RagAgent.SubstituteLiteral | supabase/functions/rag-agent/index.ts:176 | a replacement text without `$` is inserted literally |
| RagAgent.CallFoundFirst | supabase/functions/rag-agent/index.ts:176 | the replaced occurrence is the tool call itself when no `TOOL_CALL:` comes before it |
| RagAgent.CallMatched | supabase/functions/rag-agent/index.ts:163-167 | a single call line after text without the marker is matched whole, with its name and input |
| RagAgent.KnownCallReplaced | supabase/functions/rag-agent/index.ts:166-178 | a single call of a known tool is replaced by the tool's heading and result, and is recorded once |
| RagAgent.UnknownToolKept | supabase/functions/rag-agent/index.ts:168-177 | a call naming no available tool is left in the output and not recorded |
| RagAgent.ToolNameIsWord | supabase/functions/rag-agent/index.ts:17-62 | every available tool's name is made of word characters, so the pattern can match it |
| RagAgent.Single | supabase/functions/rag-agent/index.ts:87-91 | the single-row lookup returns a conversation exactly when one row has the id, and it is that row |
| RagAgent.SingleFound | supabase/functions/rag-agent/index.ts:86-93 | a conversation whose id no other row has is found, so a request naming it continues it |
| RagAgent.SingleMissing | supabase/functions/rag-agent/index.ts:87-92 | no row with the id gives no conversation |
| RagAgent.LookupById | supabase/functions/rag-agent/index.ts:85-93 | without an id there is no conversation; a conversation found has the requested id |
| RagAgent.UnknownConversationStartsNew | supabase/functions/rag-agent/index.ts:85-95 | an id that no conversation has gives no conversation and an empty history |
| RagAgent.DefaultToolsAll | supabase/functions/rag-agent/index.ts:74 | without `enabled_tools` every available tool is active |
| RagAgent.GatewayErrorReported | supabase/functions/rag-agent/index.ts:154-156 | the response is an error exactly when the gateway failed, and then names its status; the output is stored and the conversation written exactly when it did not fail |
| RagAgent.ReplyReportsToolUse | supabase/functions/rag-agent/index.ts:159-185 | the output and tool usage are those of the rewriting; each call used is recorded faithfully; the stored output is the first thousand characters, with the number of calls |
| RagAgent.PlainAnswerPassedOn | supabase/functions/rag-agent/index.ts:159-178 | an answer without tool calls is the output, with no tool usage |
| RagAgent.ResearchReported | supabase/functions/rag-agent/index.ts:224-234 | earlier research is reported used exactly when some was found; one source per output, cut to a hundred characters plus `...` and marked 95; the size is the count, or 0 |
| RagAgent.ConversationContinued | supabase/functions/rag-agent/index.ts:193-200 | a found conversation gets the prompt and the answer appended to its history, each with its own timestamp, and a separate `updated_at`; the answer names it and counts the history plus two |
| RagAgent.ConversationStarted | supabase/functions/rag-agent/index.ts:201-212 | otherwise a conversation is created with the first hundred characters of the prompt as its title and the two new messages |
| RagAgent.ServeUsesLookups | supabase/functions/rag-agent/index.ts:84-146 | the request is answered from the conversation and earlier-output lookups; the system message names the agent type and the user message starts with the prompt |
| Text.Trim | supabase/functions/generate-with-reasoning/index.ts:125-130 | a trimmed text is empty exactly when the text is all white space, and otherwise neither starts nor ends with white space |
| Text.SplitJoin | supabase/functions/generate-with-reasoning/index.ts:49 | lines without the separator, joined and split again, are the same lines |
| Text.JoinSplit | supabase/functions/generate-with-reasoning/index.ts:141 | splitting a text and joining the pieces gives the text back |
| Text.NonBlankLinesOfJoin | supabase/functions/generate-with-reasoning/index.ts:141-142 | non-blank single lines, joined, are read back as the same lines |
| Text.ParseIntNatToString | src/lib/orchestrator.ts:105 | a rendered natural number parses back to itself |
| Text.ParseIntNoDigits | src/lib/orchestrator.ts:105-106 | a text without any decimal or hexadecimal digit does not parse, so the confidence is kept |
| Text.ReadRenderedHundredths | supabase/functions/generate-with-reasoning/index.ts:49 | a confidence rendered as a decimal number reads back as the same number of hundredths |
| Text.ToLower | src/lib/orchestrator.ts:91 | lowering keeps the length and lowers each character |
| Text.FirstDigitRunOf | supabase/functions/generate-with-reasoning/index.ts:133 | the first run of digits after a digit-free lead is that number |
| Text.IndexOfFirst | supabase/functions/rag-agent/index.ts:176 | a search returns the first position at or after its start where the text occurs, and none when there is no such position |
| Text.SectionFound | supabase/functions/generate-with-reasoning/index.ts:118-123 | a section is found exactly when its heading occurs |
| Text.SectionStops | supabase/functions/intelligent-agent/index.ts:119 | a section found with a terminator never contains that terminator |
| Sections.SectionOfLayout | supabase/functions/generate-with-reasoning/index.ts:118-122 | in a well-formed layout each section's text, up to the next heading, is its body |
| Sections.LastSectionOfLayout | supabase/functions/generate-with-reasoning/index.ts:123 | in a well-formed layout the last section's text is its body |

## Left out

- Network shells are not modelled: the HTTP server, CORS headers, `OPTIONS` answers and reading environment variables.
- The language-model calls are not modelled. The Groq chat client in `analyzeIntent` and `decomposeTask` and the AI gateway in the serverless functions are replaced by their reply, given as a parameter. The prompt sent to Groq in `analyzeIntent` and `decomposeTask` is therefore not modelled. The prompts of the serverless functions are.
- A reply without `choices` is not modelled. It makes the functions throw before any step modelled here.
- Database queries are modelled as filters over the given rows. Ordering by `confidence_score` or `created_at` is done by the database, so the rows are given already in that order.
- Database errors on inserts and updates that the source only logs or ignores are taken as successful writes. The lookup of `store-knowledge` and the writes it checks do have error paths.
- Generated ids, `Date.now()` and `toISOString()` are parameters, and so are the database's own timestamp columns. Each clock reading is its own parameter, so the three readings of `rag-agent` are three values that may differ.
- The row count returned by `count: 'exact'` in `rag-agent` is the parameter `knowledgeCount`.
- A `.single()` lookup that fails returns `null` in the source. It is modelled as no row, and its error object is not modelled.
- Calls are taken one at a time. Two concurrent calls of `learn-from-feedback` for a new type can both find no row and both insert one, and two concurrent calls of `store-knowledge` can both insert a current entry. `LearnFromFeedback.OnePreferencePerType` and `StoreKnowledge.AtMostOneCurrent` are about one call and do not cover that.
- The body of the stored procedure `decrease_preference_confidence` is not part of this model. Only its call is recorded.
- Floating-point numbers are not modelled. Confidences are integer hundredths, and JSON numbers are integers.
- `JSON.stringify` and `JSON.parse` are parameters: `stringify` renders preference values and `analyze` stands for the data analyser's JSON analysis. The calculator's `new Function` evaluation is the parameter `evaluate`.
- Request fields of the wrong JSON type are not modelled, for example a non-string prompt or a non-array `enabled_tools`. The optional fields are modelled as possibly absent. The `agentType` and `task` of `intelligent-agent` and the `agentType` and `prompt` of `rag-agent` are assumed present: when one is missing the source interpolates `undefined`, which is not modelled.
- The store's persistence to browser storage is not modelled. Neither is the reactive subscription mechanism.
- `toLowerCase` is lowered for ASCII letters only. This is exact for the three complexity words compared against.
- Strings are sequences of Unicode scalar values, while JavaScript strings are UTF-16 code units. Lengths and `substring` cuts agree only for text inside the Basic Multilingual Plane. Outside it the source counts two units per character and may cut a surrogate pair in half; lone surrogates cannot occur in the model.
- IntelligentAgent.StoredKnowledgeSpec: the thousand-character cut counts Unicode scalar values, where `substring` counts UTF-16 code units. The two agree only inside the Basic Multilingual Plane.
- IntelligentAgent.CompetitorFindingsStored: the same cut, with the same difference outside the Basic Multilingual Plane.
- RagAgent.ReplyReportsToolUse: the stored output's thousand-character cut counts Unicode scalar values, not UTF-16 code units. The two agree only inside the Basic Multilingual Plane.
- RagAgent.ResearchReported: each source's hundred-character cut counts Unicode scalar values, not UTF-16 code units. The two agree only inside the Basic Multilingual Plane.
- RagAgent.ConversationStarted: the title's hundred-character cut counts Unicode scalar values, not UTF-16 code units. A missing prompt, which makes the source throw at `prompt.substring` after the output has been stored, is not modelled.
- RagAgent.ProcessToolCalls: the tool-call loop takes a `fuel` bound on the number of matches handled, and reports whether it finished. Termination of the source's loop is not proved. A tool result is spliced in before `lastIndex` moves on, so a result can carry a new tool call that is then run. For example, the data analyser lists its input's keys in its result, so an analysed object with the key `TOOL_CALL: calculator | 1` makes the loop run the calculator next. The model follows the source for as many matches as the fuel allows.
- RagAgent.SimilarOutputs: states the bound and the agent type, not that the rows are the three newest, because ordering is left to the database.
- IntelligentAgent.TopKnowledgeSpec: states the bound and the filter, not the order by confidence, because ordering is left to the database.
- IntelligentAgent.TopPreferencesSpec: states the bound and the filter, not the order by confidence, for the same reason.
- GenerateWithReasoning.RelevantKnowledgeSpec: states which rows can be used, not which five are taken when more match. The database picks them.
- Orchestrator.ExecuteWorkflow: the progress callback is a function of the agent and the status, so whether a call throws depends only on those two. A stateful callback, for example one that throws on its third call, is not modelled.
- Orchestrator.RunAgent: the same restriction on the progress callback.
