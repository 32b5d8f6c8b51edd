/** The `learn-from-feedback` serverless function: it records the user's
    verdict on an agent decision and turns positive verdicts into learned
    preferences (examples and a growing confidence), negative ones into a
    request to lower that confidence. */
module LearnFromFeedback {
  import opened Common

  /** A row of `agent_decisions`; the columns this function does not touch
      are not represented. */
  datatype DecisionRow = DecisionRow(id: string, userFeedback: Option<string>)

  /** A row of `user_preferences`; confidence in hundredths. */
  datatype UserPreference = UserPreference(
    id: string,
    preferenceType: string,
    preferenceValue: Json,
    examples: Option<Json>,
    confidenceScore: Option<int>)

  /** A call of the stored procedure `decrease_preference_confidence`, whose
      body is not part of this model: only the request is recorded. */
  datatype RpcCall = DecreaseConfidence(preferenceType: string, amount: int)

  /** The request body; `None` is a field the caller left out. */
  datatype FeedbackRequest = FeedbackRequest(
    decisionId: Option<string>,
    feedback: Option<string>,
    preferenceType: Option<string>,
    selectedOutput: Option<Json>)

  const ExampleCap: nat := 10
  const ConfidenceStep: int := 5
  const ConfidenceCeiling: int := 100
  const FirstConfidence: int := 60
  const PenaltyAmount: int := 10

  // ---------------------------------------------------------------------
  // Step 1: the decision's feedback

  /** Every decision whose id equals the filter gets the feedback; a field
      left out of the request is sent as `undefined` and so changes
      nothing in the row. */
  function WithFeedback(decisions: seq<DecisionRow>, decisionId: Option<string>, feedback: Option<string>): (r: seq<DecisionRow>)
    ensures |r| == |decisions|
    ensures forall k :: 0 <= k < |r| ==> r[k].id == decisions[k].id
    ensures forall k :: 0 <= k < |r| ==>
      r[k].userFeedback == if decisions[k].id == decisionId.GetOr("undefined") && feedback.Some?
                           then feedback else decisions[k].userFeedback
  {
    if decisions == [] then []
    else
      var d := decisions[0];
      var d' := if d.id == decisionId.GetOr("undefined") && feedback.Some? then d.(userFeedback := feedback) else d;
      [d'] + WithFeedback(decisions[1..], decisionId, feedback)
  }

  // ---------------------------------------------------------------------
  // Step 2: learning from a positive verdict

  function CountOfType(prefs: seq<UserPreference>, t: string): nat {
    if prefs == [] then 0
    else (if prefs[0].preferenceType == t then 1 else 0) + CountOfType(prefs[1..], t)
  }

  function FirstOfType(prefs: seq<UserPreference>, t: string, from: nat := 0): (r: Option<nat>)
    ensures r.Some? ==> from <= r.value < |prefs| && prefs[r.value].preferenceType == t
    ensures r.Some? ==> forall k :: from <= k < r.value ==> prefs[k].preferenceType != t
    ensures r.None? ==> forall k :: from <= k < |prefs| ==> prefs[k].preferenceType != t
    decreases |prefs| - from
  {
    if from >= |prefs| then None
    else if prefs[from].preferenceType == t then Some(from)
    else FirstOfType(prefs, t, from + 1)
  }

  /** The lookup with `.single()`: data only when exactly one row has the
      type; none or several rows read as "no existing preference". */
  function SingleOfType(prefs: seq<UserPreference>, t: string): (r: Option<nat>)
    ensures r.Some? <==> CountOfType(prefs, t) == 1
    ensures r.Some? ==> r.value < |prefs| && prefs[r.value].preferenceType == t
  {
    if CountOfType(prefs, t) == 1 then
      CountedIsFound(prefs, t);
      FirstOfType(prefs, t)
    else None
  }

  lemma {:induction false} CountedIsFound(prefs: seq<UserPreference>, t: string)
    requires CountOfType(prefs, t) > 0
    ensures FirstOfType(prefs, t).Some?
  {
    if prefs[0].preferenceType != t {
      CountedIsFound(prefs[1..], t);
      var j := FirstOfType(prefs[1..], t).value;
      assert prefs[j + 1].preferenceType == t;
    }
  }

  /** `slice(-10)`: the last ten, or all when there are fewer. */
  function LastExamples(s: seq<Json>): (r: seq<Json>)
    ensures |r| == Min(|s|, ExampleCap)
    ensures r == s[|s| - |r|..]
  {
    if |s| <= ExampleCap then s else s[|s| - ExampleCap..]
  }

  /** The stored examples when they form an array, else none. */
  function ExamplesOf(p: UserPreference): seq<Json> {
    match p.examples
    case Some(JArr(items)) => items
    case _ => []
  }

  /** The confidence after a success: five hundredths more, capped at one;
      a missing confidence counts as zero. */
  function Boosted(confidence: Option<int>): (r: int)
    ensures r <= ConfidenceCeiling
    ensures confidence.GetOr(0) <= ConfidenceCeiling - ConfidenceStep ==> r == confidence.GetOr(0) + ConfidenceStep
    ensures confidence.GetOr(0) > ConfidenceCeiling - ConfidenceStep ==> r == ConfidenceCeiling
  {
    Min(confidence.GetOr(0) + ConfidenceStep, ConfidenceCeiling)
  }

  /** An existing preference that saw one more success. */
  function Reinforced(p: UserPreference, selected: Json): UserPreference {
    p.(examples := Some(JArr(LastExamples(ExamplesOf(p) + [selected]))),
       confidenceScore := Some(Boosted(p.confidenceScore)))
  }

  function NewPreference(id: string, t: string, selected: Json): UserPreference {
    UserPreference(id, t, selected, Some(JArr([selected])), Some(FirstConfidence))
  }

  predicate LearnsFrom(req: FeedbackRequest) {
    req.feedback == Some("positive") && Given(req.preferenceType)
    && req.selectedOutput.Some? && Truthy(req.selectedOutput.value)
  }

  predicate Penalises(req: FeedbackRequest) {
    req.feedback == Some("negative") && Given(req.preferenceType)
  }

  /** What the `.single()` query hands back: its error is ignored, so a
      query that fails reads as no row, like one that finds none or several. */
  function Existing(prefs: seq<UserPreference>, t: string, lookupFails: bool): (r: Option<nat>)
    ensures r.Some? <==> !lookupFails && CountOfType(prefs, t) == 1
    ensures r.Some? ==> r.value < |prefs| && prefs[r.value].preferenceType == t
  {
    if lookupFails then None else SingleOfType(prefs, t)
  }

  /** The preferences after step 2; `newId` is the id the database gives an
      inserted row and `lookupFails` whether the lookup query errs. */
  function LearnedPreferences(prefs: seq<UserPreference>, req: FeedbackRequest, newId: string, lookupFails: bool): seq<UserPreference> {
    if !LearnsFrom(req) then prefs
    else
      var t := req.preferenceType.value;
      match Existing(prefs, t, lookupFails)
      case Some(i) => prefs[i := Reinforced(prefs[i], req.selectedOutput.value)]
      case None => prefs + [NewPreference(newId, t, req.selectedOutput.value)]
  }

  // ---------------------------------------------------------------------
  // Step 3 and the whole call

  function RequestedPenalties(req: FeedbackRequest): seq<RpcCall> {
    if Penalises(req) then [DecreaseConfidence(req.preferenceType.value, PenaltyAmount)] else []
  }

  datatype FeedbackState = FeedbackState(decisions: seq<DecisionRow>, preferences: seq<UserPreference>, rpcLog: seq<RpcCall>)

  /** One call of the function on the tables. */
  function Learn(s: FeedbackState, req: FeedbackRequest, newId: string, lookupFails: bool): FeedbackState {
    FeedbackState(
      WithFeedback(s.decisions, req.decisionId, req.feedback),
      LearnedPreferences(s.preferences, req, newId, lookupFails),
      s.rpcLog + RequestedPenalties(req))
  }

  // ---------------------------------------------------------------------
  // Properties

  /** A reinforced preference keeps its value and type, holds at most ten
      examples, the last of which is the output just approved, and its
      confidence moves up by a step without passing one. */
  lemma ReinforcedKeepsLatest(p: UserPreference, selected: Json)
    requires 0 <= p.confidenceScore.GetOr(0) <= ConfidenceCeiling
    ensures var q := Reinforced(p, selected);
      && q.id == p.id && q.preferenceType == p.preferenceType && q.preferenceValue == p.preferenceValue
      && q.examples.Some? && q.examples.value.JArr?
      && 1 <= |q.examples.value.items| <= ExampleCap
      && q.examples.value.items[|q.examples.value.items| - 1] == selected
      && p.confidenceScore.GetOr(0) <= q.confidenceScore.value <= ConfidenceCeiling
  {
  }

  /** The examples of a reinforced preference are the newest of the old ones
      followed by the new one, in order. */
  lemma ReinforcedExamplesOrder(p: UserPreference, selected: Json)
    ensures ExamplesOf(Reinforced(p, selected))
      == (if |ExamplesOf(p)| < ExampleCap then ExamplesOf(p) else ExamplesOf(p)[|ExamplesOf(p)| - (ExampleCap - 1)..]) + [selected]
  {
    var all := ExamplesOf(p) + [selected];
    if |ExamplesOf(p)| >= ExampleCap {
      assert all[|all| - ExampleCap..] == ExamplesOf(p)[|ExamplesOf(p)| - (ExampleCap - 1)..] + [selected];
    }
  }

  /** The confidence after `n` successes in a row. */
  function BoostedTimes(confidence: Option<int>, n: nat): int {
    if n == 0 then confidence.GetOr(0) else Boosted(Some(BoostedTimes(confidence, n - 1)))
  }

  /** From a confidence within range, repeated successes climb by five
      hundredths each and stop at one. */
  lemma {:induction false} RepeatedSuccesses(c: int, n: nat)
    requires 0 <= c <= ConfidenceCeiling
    ensures BoostedTimes(Some(c), n) == Min(c + ConfidenceStep * n, ConfidenceCeiling)
  {
    if n > 0 {
      RepeatedSuccesses(c, n - 1);
    }
  }

  /** Positive feedback with a type and an output changes exactly one
      preference row or adds exactly one; anything else leaves the table
      alone. The single row of the type is reinforced only when the lookup
      query is answered; a failed query appends a row like a missing one. */
  lemma LearningTouchesOneRow(prefs: seq<UserPreference>, req: FeedbackRequest, newId: string, lookupFails: bool)
    ensures !LearnsFrom(req) ==> LearnedPreferences(prefs, req, newId, lookupFails) == prefs
    ensures LearnsFrom(req) && !lookupFails && CountOfType(prefs, req.preferenceType.value) == 1 ==>
      exists i :: 0 <= i < |prefs| && prefs[i].preferenceType == req.preferenceType.value
        && LearnedPreferences(prefs, req, newId, lookupFails) == prefs[i := Reinforced(prefs[i], req.selectedOutput.value)]
    ensures LearnsFrom(req) && (lookupFails || CountOfType(prefs, req.preferenceType.value) != 1) ==>
      LearnedPreferences(prefs, req, newId, lookupFails)
        == prefs + [NewPreference(newId, req.preferenceType.value, req.selectedOutput.value)]
  {
    if LearnsFrom(req) && !lookupFails && CountOfType(prefs, req.preferenceType.value) == 1 {
      var i := Existing(prefs, req.preferenceType.value, lookupFails).value;
      assert prefs[i].preferenceType == req.preferenceType.value;
    }
  }

  lemma {:induction false} CountAppend(prefs: seq<UserPreference>, p: UserPreference, t: string)
    ensures CountOfType(prefs + [p], t) == CountOfType(prefs, t) + (if p.preferenceType == t then 1 else 0)
  {
    if prefs != [] {
      assert (prefs + [p])[1..] == prefs[1..] + [p];
      CountAppend(prefs[1..], p, t);
    }
  }

  lemma {:induction false} CountReplaceSameType(prefs: seq<UserPreference>, i: nat, p: UserPreference, t: string)
    requires i < |prefs| && p.preferenceType == prefs[i].preferenceType
    ensures CountOfType(prefs[i := p], t) == CountOfType(prefs, t)
  {
    if i > 0 {
      assert prefs[i := p][1..] == prefs[1..][i - 1 := p];
      CountReplaceSameType(prefs[1..], i - 1, p, t);
    }
  }

  /** As long as the lookup query is answered, a type with at most one
      preference keeps at most one: the first approval creates it, later
      ones reinforce it. */
  lemma OnePreferencePerType(prefs: seq<UserPreference>, req: FeedbackRequest, newId: string, t: string)
    requires CountOfType(prefs, t) <= 1
    ensures CountOfType(LearnedPreferences(prefs, req, newId, false), t) <= 1
  {
    if LearnsFrom(req) {
      var u := req.preferenceType.value;
      match Existing(prefs, u, false)
      case Some(i) =>
        CountReplaceSameType(prefs, i, Reinforced(prefs[i], req.selectedOutput.value), t);
      case None =>
        CountAppend(prefs, NewPreference(newId, u, req.selectedOutput.value), t);
        if u == t {
          assert CountOfType(prefs, t) == 0;
        }
    }
  }

  /** When a type already has several preferences, or the lookup query
      fails, the lookup finds none and another row of that type is inserted;
      after a failed query this holds even when the type had exactly one. */
  lemma DuplicatesGrow(prefs: seq<UserPreference>, req: FeedbackRequest, newId: string, lookupFails: bool)
    requires LearnsFrom(req) && (lookupFails || CountOfType(prefs, req.preferenceType.value) >= 2)
    ensures CountOfType(LearnedPreferences(prefs, req, newId, lookupFails), req.preferenceType.value)
      == CountOfType(prefs, req.preferenceType.value) + 1
  {
    var t := req.preferenceType.value;
    CountAppend(prefs, NewPreference(newId, t, req.selectedOutput.value), t);
  }

  /** Feedback is recorded on the decision whatever its value; only
      `positive` teaches and only `negative` asks for a penalty, so a verdict
      never does both. */
  lemma VerdictsExclusive(s: FeedbackState, req: FeedbackRequest, newId: string, lookupFails: bool)
    ensures var s' := Learn(s, req, newId, lookupFails);
      && (s'.preferences != s.preferences ==> req.feedback == Some("positive"))
      && (s'.rpcLog != s.rpcLog ==> req.feedback == Some("negative"))
      && (req.feedback == Some("negative") && Given(req.preferenceType) ==>
            s'.preferences == s.preferences
            && s'.rpcLog == s.rpcLog + [DecreaseConfidence(req.preferenceType.value, PenaltyAmount)])
  {
  }

  // ---------------------------------------------------------------------
  // The tables

  class FeedbackStore {
    var decisions: seq<DecisionRow>
    var preferences: seq<UserPreference>
    var rpcLog: seq<RpcCall>

    constructor (ds: seq<DecisionRow>, ps: seq<UserPreference>)
      ensures decisions == ds && preferences == ps && rpcLog == []
    {
      decisions := ds;
      preferences := ps;
      rpcLog := [];
    }

    /** The three steps in order; database errors are ignored by the
        function: a failed lookup (`lookupFails`) reads as no row, and the
        model takes every write as succeeding. */
    method LearnFromFeedback(req: FeedbackRequest, newId: string, lookupFails: bool)
      modifies this
      ensures FeedbackState(decisions, preferences, rpcLog)
        == Learn(FeedbackState(old(decisions), old(preferences), old(rpcLog)), req, newId, lookupFails)
    {
      decisions := WithFeedback(decisions, req.decisionId, req.feedback);

      if req.feedback == Some("positive") && Given(req.preferenceType)
         && req.selectedOutput.Some? && Truthy(req.selectedOutput.value) {
        var t := req.preferenceType.value;
        var existing := Existing(preferences, t, lookupFails);
        if existing.Some? {
          var i := existing.value;
          var p := preferences[i];
          var examples := LastExamples(ExamplesOf(p) + [req.selectedOutput.value]);
          var confidence := Min(p.confidenceScore.GetOr(0) + ConfidenceStep, ConfidenceCeiling);
          preferences := preferences[i := p.(examples := Some(JArr(examples)), confidenceScore := Some(confidence))];
        } else {
          preferences := preferences + [NewPreference(newId, t, req.selectedOutput.value)];
        }
      }

      if req.feedback == Some("negative") && Given(req.preferenceType) {
        rpcLog := rpcLog + [DecreaseConfidence(req.preferenceType.value, PenaltyAmount)];
      }
    }
  }
}
