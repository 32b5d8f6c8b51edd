/** The `store-knowledge` serverless function and the `knowledge_entries`
    table it owns: a fact about an entity and category is either refreshed
    in the entry that is still current for that pair, or added as a new
    entry. */
module StoreKnowledge {
  import opened Common
  import opened Text

  /** A row of `knowledge_entries` (timestamps kept by the database itself
      are not part of this model). Confidence is in hundredths. */
  datatype KnowledgeEntry = KnowledgeEntry(
    id: string,
    entityName: Option<string>,
    category: Option<string>,
    content: string,
    confidenceScore: Option<int>,
    sourceType: string,
    sourceUrl: Option<string>,
    isOutdated: Option<bool>,
    metadata: Option<Json>,
    lastValidatedAt: Option<string>)

  /** The request body; `None` is a field the caller left out. */
  datatype KnowledgeRequest = KnowledgeRequest(
    content: Option<string>,
    sourceType: Option<string>,
    entityName: Option<string>,
    category: Option<string>,
    sourceUrl: Option<string>,
    confidenceScore: Option<int>,
    metadata: Option<Json>)

  datatype StoreAction = ActionUpdated | ActionCreated

  /** The response: the id of the entry written and what was done to it,
      or the 500 answer when a write failed. */
  datatype StoreResponse = Stored(knowledgeId: string, action: StoreAction) | ServerError

  const DefaultConfidence: int := 80

  /** `is_outdated` of a freshly inserted row: the column default, which the
      lookups of the agents rely on being `false`. */
  const InsertedIsOutdated: Option<bool> := Some(false)

  /** The text an equality filter compares with: a field left out of the
      request is sent as the word `undefined`. */
  function FilterValue(v: Option<string>): string {
    v.GetOr("undefined")
  }

  function ConfidenceOf(req: KnowledgeRequest): int {
    req.confidenceScore.GetOr(DefaultConfidence)
  }

  function MetadataOf(req: KnowledgeRequest): Json {
    req.metadata.GetOr(JObj(map[]))
  }

  /** The entries of a spread array: item `i` under the key `i` written in
      decimal. */
  function IndexKeyed(items: seq<Json>): map<string, Json> {
    if items == [] then map[]
    else IndexKeyed(items[..|items| - 1])[NatToString(|items| - 1) := items[|items| - 1]]
  }

  /** An array's spread has exactly the keys `0` to `n - 1`, each holding
      the item at that index. */
  lemma {:induction false} IndexKeyedSpec(items: seq<Json>)
    ensures IndexKeyed(items).Keys == set i | 0 <= i < |items| :: NatToString(i)
    ensures forall i :: 0 <= i < |items| ==> IndexKeyed(items)[NatToString(i)] == items[i]
  {
    if items != [] {
      var n := |items| - 1;
      var front := items[..n];
      IndexKeyedSpec(front);
      forall i | 0 <= i < n
        ensures NatToString(i) != NatToString(n)
      {
        NatToStringValue(i);
        NatToStringValue(n);
      }
      var m := IndexKeyed(front);
      assert IndexKeyed(items) == m[NatToString(n) := items[n]];
      var keys := set i | 0 <= i < |items| :: NatToString(i);
      var frontKeys := set i | 0 <= i < n :: NatToString(i);
      assert keys == frontKeys + {NatToString(n)} by {
        forall k | k in keys ensures k in frontKeys + {NatToString(n)} {
          var i :| 0 <= i < |items| && k == NatToString(i);
          if i < n {
            assert k in frontKeys;
          }
        }
      }
      forall i | 0 <= i < |items|
        ensures NatToString(i) in IndexKeyed(items) && IndexKeyed(items)[NatToString(i)] == items[i]
      {
        if i < n {
          assert front[i] == items[i];
          assert NatToString(i) in m;
        }
      }
    }
  }

  /** The characters of a string, each as a one-character string. */
  function Characters(s: string): seq<Json> {
    Map(s, (c: char) => JStr([c]))
  }

  /** The keys an object spread `{...j}` contributes: an object's own
      fields, an array's items and a string's characters under their
      indices, and nothing for `null`, numbers, booleans and a missing
      value. */
  function Spread(j: Option<Json>): map<string, Json> {
    match j
    case Some(JObj(fields)) => fields
    case Some(JArr(items)) => IndexKeyed(items)
    case Some(JStr(s)) => IndexKeyed(Characters(s))
    case _ => map[]
  }

  /** Metadata given as a string is merged character by character: the old
      entry's string `ab` leaves the keys `0` and `1` beside `updated`. */
  lemma StringMetadataSpread()
    ensures MergedMetadata(Some(JStr("ab")), JObj(map[]))
      == map["0" := JStr("a"), "1" := JStr("b"), "updated" := JBool(true)]
  {
    var items := [JStr("a"), JStr("b")];
    assert Characters("ab") == items;
    assert items[..1][..0] == [];
    assert NatToString(0) == "0" && NatToString(1) == "1";
    assert IndexKeyed(items[..1]) == map["0" := JStr("a")];
    assert Spread(Some(JStr("ab"))) == map["0" := JStr("a"), "1" := JStr("b")];
    assert Spread(Some(JObj(map[]))) == map[];
  }

  /** A row the lookup accepts: same entity, same category, and known not to
      be outdated (a `null` in any of these columns never matches). */
  predicate IsCurrentFor(row: KnowledgeEntry, entity: string, category: string) {
    row.entityName == Some(entity) && row.category == Some(category) && row.isOutdated == Some(false)
  }

  /** The first current entry for the pair at or after `from`. */
  function FindCurrent(rows: seq<KnowledgeEntry>, entity: string, category: string, from: nat := 0): (r: Option<nat>)
    ensures r.Some? ==> from <= r.value < |rows| && IsCurrentFor(rows[r.value], entity, category)
    ensures r.Some? ==> forall k :: from <= k < r.value ==> !IsCurrentFor(rows[k], entity, category)
    ensures r.None? ==> forall k :: from <= k < |rows| ==> !IsCurrentFor(rows[k], entity, category)
    decreases |rows| - from
  {
    if from >= |rows| then None
    else if IsCurrentFor(rows[from], entity, category) then Some(from)
    else FindCurrent(rows, entity, category, from + 1)
  }

  /** The metadata of a refreshed entry: the old fields, overridden by the
      request's, with `updated` set last. */
  function MergedMetadata(previous: Option<Json>, given: Json): (r: map<string, Json>)
    ensures r.Keys == Spread(previous).Keys + Spread(Some(given)).Keys + {"updated"}
    ensures r["updated"] == JBool(true)
    ensures forall k :: k in Spread(Some(given)) && k != "updated" ==> r[k] == Spread(Some(given))[k]
    ensures forall k :: k in Spread(previous) && k !in Spread(Some(given)) && k != "updated" ==> r[k] == Spread(previous)[k]
  {
    (Spread(previous) + Spread(Some(given)))["updated" := JBool(true)]
  }

  /** The update of a matched entry: content only when the request has one,
      the confidence, the validation time and the merged metadata. */
  function Refreshed(row: KnowledgeEntry, req: KnowledgeRequest, now: string): (r: KnowledgeEntry)
    ensures r.id == row.id && r.entityName == row.entityName && r.category == row.category
    ensures r.sourceType == row.sourceType && r.sourceUrl == row.sourceUrl && r.isOutdated == row.isOutdated
    ensures r.content == (if req.content.Some? then req.content.value else row.content)
    ensures r.confidenceScore == Some(ConfidenceOf(req)) && r.lastValidatedAt == Some(now)
    ensures r.metadata == Some(JObj(MergedMetadata(row.metadata, MetadataOf(req))))
  {
    row.(content := req.content.GetOr(row.content),
         confidenceScore := Some(ConfidenceOf(req)),
         lastValidatedAt := Some(now),
         metadata := Some(JObj(MergedMetadata(row.metadata, MetadataOf(req)))))
  }

  /** The columns `content` and `source_type` may not be null, so an insert
      without them is refused by the database. */
  predicate Insertable(req: KnowledgeRequest) {
    req.content.Some? && req.sourceType.Some?
  }

  /** The new row of an insert: the fields left out take their column
      defaults (`null`, or the defaults above). */
  function Inserted(req: KnowledgeRequest, id: string): (r: KnowledgeEntry)
    requires Insertable(req)
    ensures r.id == id && r.content == req.content.value && r.sourceType == req.sourceType.value
    ensures r.entityName == req.entityName && r.category == req.category && r.sourceUrl == req.sourceUrl
    ensures r.confidenceScore == Some(ConfidenceOf(req)) && r.metadata == Some(MetadataOf(req))
    ensures r.isOutdated == InsertedIsOutdated && r.lastValidatedAt.None?
  {
    KnowledgeEntry(id, req.entityName, req.category, req.content.value, Some(ConfidenceOf(req)),
      req.sourceType.value, req.sourceUrl, InsertedIsOutdated, Some(MetadataOf(req)), None)
  }

  /** The entry the lookup returns; a failed lookup query yields no data and
      so reads as "nothing found". */
  function Lookup(rows: seq<KnowledgeEntry>, req: KnowledgeRequest, lookupFails: bool): Option<nat> {
    if lookupFails then None else FindCurrent(rows, FilterValue(req.entityName), FilterValue(req.category))
  }

  datatype Outcome = Outcome(rows: seq<KnowledgeEntry>, response: StoreResponse)

  /** One call of the function on the table: `now` is the clock, `newId` the
      id the database gives an inserted row, and `lookupFails`/`writeFails`
      say which queries the database answers with an error. */
  function Store(rows: seq<KnowledgeEntry>, req: KnowledgeRequest, now: string, newId: string,
                 lookupFails: bool, writeFails: bool): Outcome
  {
    match Lookup(rows, req, lookupFails)
    case Some(i) =>
      if writeFails then Outcome(rows, ServerError)
      else Outcome(rows[i := Refreshed(rows[i], req, now)], Stored(rows[i].id, ActionUpdated))
    case None =>
      if writeFails || !Insertable(req) then Outcome(rows, ServerError)
      else Outcome(rows + [Inserted(req, newId)], Stored(newId, ActionCreated))
  }

  // ---------------------------------------------------------------------
  // Properties of a call

  /** An error leaves the table as it was; a success either rewrites one
      entry in place or adds exactly one. */
  lemma StoreChangesOneEntry(rows: seq<KnowledgeEntry>, req: KnowledgeRequest, now: string, newId: string,
                             lookupFails: bool, writeFails: bool)
    ensures var o := Store(rows, req, now, newId, lookupFails, writeFails);
      && (o.response.ServerError? ==> o.rows == rows)
      && (o.response.Stored? && o.response.action == ActionUpdated ==>
            |o.rows| == |rows| && exists i :: 0 <= i < |rows| && o.rows == rows[i := o.rows[i]] && o.rows[i].id == o.response.knowledgeId)
      && (o.response.Stored? && o.response.action == ActionCreated ==>
            o.rows[..|rows|] == rows && |o.rows| == |rows| + 1 && o.rows[|rows|].id == newId == o.response.knowledgeId)
  {
    var o := Store(rows, req, now, newId, lookupFails, writeFails);
    match Lookup(rows, req, lookupFails)
    case Some(i) =>
      if !writeFails {
        assert o.rows == rows[i := o.rows[i]];
      }
    case None =>
  }

  /** The answer says `updated` exactly when a current entry for the pair
      was found, and the write succeeded. */
  lemma UpdatedIffFound(rows: seq<KnowledgeEntry>, req: KnowledgeRequest, now: string, newId: string,
                        lookupFails: bool, writeFails: bool)
    ensures var o := Store(rows, req, now, newId, lookupFails, writeFails);
      (o.response.Stored? && o.response.action == ActionUpdated)
      <==> (!writeFails && Lookup(rows, req, lookupFails).Some?)
    ensures var o := Store(rows, req, now, newId, lookupFails, writeFails);
      (o.response == Stored(newId, ActionCreated))
      <==> (!writeFails && Lookup(rows, req, lookupFails).None? && Insertable(req))
  {
  }

  /** The number of current entries for a pair. */
  function CountCurrent(rows: seq<KnowledgeEntry>, entity: string, category: string): nat {
    if rows == [] then 0
    else (if IsCurrentFor(rows[0], entity, category) then 1 else 0) + CountCurrent(rows[1..], entity, category)
  }

  lemma {:induction false} CountNoneFound(rows: seq<KnowledgeEntry>, entity: string, category: string)
    requires FindCurrent(rows, entity, category).None?
    ensures CountCurrent(rows, entity, category) == 0
  {
    if rows != [] {
      assert forall k :: 0 <= k < |rows[1..]| ==> rows[1..][k] == rows[k + 1];
      CountNoneFound(rows[1..], entity, category);
    }
  }

  lemma {:induction false} CountAppend(rows: seq<KnowledgeEntry>, row: KnowledgeEntry, entity: string, category: string)
    ensures CountCurrent(rows + [row], entity, category)
      == CountCurrent(rows, entity, category) + (if IsCurrentFor(row, entity, category) then 1 else 0)
  {
    if rows != [] {
      assert (rows + [row])[1..] == rows[1..] + [row];
      CountAppend(rows[1..], row, entity, category);
    }
  }

  lemma {:induction false} CountReplaceAlike(rows: seq<KnowledgeEntry>, i: nat, row: KnowledgeEntry, entity: string, category: string)
    requires i < |rows|
    requires IsCurrentFor(row, entity, category) == IsCurrentFor(rows[i], entity, category)
    ensures CountCurrent(rows[i := row], entity, category) == CountCurrent(rows, entity, category)
  {
    if i > 0 {
      assert rows[i := row][1..] == rows[1..][i - 1 := row];
      CountReplaceAlike(rows[1..], i - 1, row, entity, category);
    }
  }

  /** Storing a fact about a named entity and category never leaves two
      current entries for that pair, as long as the lookup query is
      answered: the first call adds the entry, every later one refreshes
      it. */
  lemma AtMostOneCurrent(rows: seq<KnowledgeEntry>, req: KnowledgeRequest, now: string, newId: string, writeFails: bool)
    requires req.entityName.Some? && req.category.Some?
    requires CountCurrent(rows, req.entityName.value, req.category.value) <= 1
    ensures CountCurrent(Store(rows, req, now, newId, false, writeFails).rows, req.entityName.value, req.category.value) <= 1
  {
    var e, c := req.entityName.value, req.category.value;
    match FindCurrent(rows, e, c)
    case Some(i) =>
      if !writeFails {
        CountReplaceAlike(rows, i, Refreshed(rows[i], req, now), e, c);
      }
    case None =>
      CountNoneFound(rows, e, c);
      if !writeFails && Insertable(req) {
        CountAppend(rows, Inserted(req, newId), e, c);
      }
  }

  /** Once stored, a fact is found again: a second call for the same entity
      and category refreshes the entry the first one created. */
  lemma SecondStoreRefreshes(rows: seq<KnowledgeEntry>, req: KnowledgeRequest, now: string, newId: string)
    requires req.entityName.Some? && req.category.Some? && Insertable(req)
    requires FindCurrent(rows, req.entityName.value, req.category.value).None?
    ensures var o := Store(rows, req, now, newId, false, false);
      o.response == Stored(newId, ActionCreated)
      && Lookup(o.rows, req, false) == Some(|rows|)
  {
    var o := Store(rows, req, now, newId, false, false);
    assert o.rows[|rows|] == Inserted(req, newId);
  }

  // ---------------------------------------------------------------------
  // The table

  class KnowledgeTable {
    var rows: seq<KnowledgeEntry>

    constructor (initial: seq<KnowledgeEntry>)
      ensures rows == initial
    {
      rows := initial;
    }

    /** Looks the pair up, then updates the entry found or inserts a new
        one; a failed write answers 500 and changes nothing. */
    method StoreKnowledge(req: KnowledgeRequest, now: string, newId: string, lookupFails: bool, writeFails: bool)
      returns (response: StoreResponse)
      modifies this
      ensures Outcome(rows, response) == Store(old(rows), req, now, newId, lookupFails, writeFails)
    {
      var existing := if lookupFails then None
        else FindCurrent(rows, FilterValue(req.entityName), FilterValue(req.category));
      if existing.Some? {
        if writeFails {
          return ServerError;
        }
        var i := existing.value;
        var id := rows[i].id;
        rows := rows[i := Refreshed(rows[i], req, now)];
        response := Stored(id, ActionUpdated);
      } else {
        if writeFails || req.content.None? || req.sourceType.None? {
          return ServerError;
        }
        rows := rows + [Inserted(req, newId)];
        response := Stored(newId, ActionCreated);
      }
    }
  }
}
