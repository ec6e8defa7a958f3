/** The service selector (agents/agent2_selector.py): it flattens an intent
    into a search query, asks the vector index for the `top_k` nearest
    catalog entries, turns each distance into a score 1/(1+d), drops rows
    scoring under `min_score` and keeps the index's order. The index and its
    embedding model are external: the index is a function from a query text
    and a result count to ranked rows. */
module ServiceSelector {
  import opened Wrappers
  import opened Values
  import opened IntentSchema
  import Strings
  import Sequences

  // ---------------------------------------------------------------------
  // Query synthesis

  /** `"<key>: <value>"` for a QoS entry: the value is rendered with str(). */
  function QosSegment(entry: (string, Value)): string {
    entry.0 + ": " + PyStr(entry.1)
  }

  /** A requirement value: a list is rendered as its items joined by ", ",
      anything else with str(). */
  function RequirementText(v: Value): (r: string)
    ensures v.ListValue? ==> r == Strings.Join(v.items, ", ")
    ensures !v.ListValue? ==> r == PyStr(v)
  {
    if v.ListValue? then Strings.Join(v.items, ", ") else PyStr(v)
  }

  function RequirementSegment(entry: (string, Value)): string {
    entry.0 + ": " + RequirementText(entry.1)
  }

  function DomainSegment(sub: SubIntent): string {
    sub.domain + " domain"
  }

  /** For each sub-intent in order: its domain segment, then one segment per
      requirement in dict order. */
  function SubIntentSegments(subs: seq<SubIntent>): seq<string> {
    if subs == [] then []
    else
      var last := subs[|subs| - 1];
      SubIntentSegments(subs[..|subs| - 1]) + [DomainSegment(last)]
        + Sequences.Map(last.requirements, RequirementSegment)
  }

  lemma SubIntentSegmentsPrefixSnoc(subs: seq<SubIntent>, j: nat)
    requires j < |subs|
    ensures SubIntentSegments(subs[..j + 1])
         == SubIntentSegments(subs[..j]) + [DomainSegment(subs[j])] + Sequences.Map(subs[j].requirements, RequirementSegment)
  {
    assert subs[..j + 1][..j] == subs[..j];
  }

  /** The type, underscores read as spaces, when it is non-empty. */
  function TypeSegments(intent: Intent): seq<string> {
    if intent.kind != "" then [Strings.ReplaceChar(intent.kind, '_', ' ')] else []
  }

  /** The location, when it is set and non-empty. */
  function LocationSegments(intent: Intent): seq<string> {
    if intent.location.Some? && intent.location.value != "" then ["location: " + intent.location.value] else []
  }

  /** The QoS entries, in dict order. */
  function QosSegments(intent: Intent): seq<string> {
    if intent.qos.Some? then Sequences.Map(intent.qos.value, QosSegment) else []
  }

  /** The segments that precede the sub-intents. */
  function HeadSegments(intent: Intent): seq<string> {
    TypeSegments(intent) + LocationSegments(intent) + QosSegments(intent)
  }

  function QuerySegments(intent: Intent): seq<string> {
    HeadSegments(intent) + SubIntentSegments(intent.subIntents)
  }

  /** The query text: the segments joined by single spaces. */
  function Query(intent: Intent): string {
    Strings.Join(QuerySegments(intent), " ")
  }

  /** How many segments an intent contributes, counted field by field. */
  function SubIntentWeight(subs: seq<SubIntent>): nat {
    if subs == [] then 0 else 1 + |subs[0].requirements| + SubIntentWeight(subs[1..])
  }

  function SegmentCount(intent: Intent): nat {
    (if intent.kind != "" then 1 else 0)
    + (if intent.location.Some? && intent.location.value != "" then 1 else 0)
    + (if intent.qos.Some? then |intent.qos.value| else 0)
    + SubIntentWeight(intent.subIntents)
  }

  lemma {:induction false} SubIntentWeightSnoc(subs: seq<SubIntent>, last: SubIntent)
    ensures SubIntentWeight(subs + [last]) == SubIntentWeight(subs) + 1 + |last.requirements|
  {
    if subs != [] {
      assert (subs + [last])[1..] == subs[1..] + [last];
      SubIntentWeightSnoc(subs[1..], last);
    }
  }

  lemma {:induction false} SubIntentSegmentsCount(subs: seq<SubIntent>)
    ensures |SubIntentSegments(subs)| == SubIntentWeight(subs)
  {
    if subs != [] {
      var init := subs[..|subs| - 1];
      SubIntentSegmentsCount(init);
      assert subs == init + [subs[|subs| - 1]];
      SubIntentWeightSnoc(init, subs[|subs| - 1]);
    }
  }

  /** The query has exactly one segment per present field: [type non-empty]
      + [location set] + |qos| + the sum over sub-intents of 1 + |requirements|. */
  lemma QuerySegmentCount(intent: Intent)
    ensures |QuerySegments(intent)| == SegmentCount(intent)
  {
    SubIntentSegmentsCount(intent.subIntents);
  }

  /** The type segment is the type with every '_' turned into a space. */
  lemma TypeSegmentFirst(intent: Intent)
    requires intent.kind != ""
    ensures QuerySegments(intent)[0] == Strings.ReplaceChar(intent.kind, '_', ' ')
    ensures '_' !in QuerySegments(intent)[0] && |QuerySegments(intent)[0]| == |intent.kind|
  {
    var t := QuerySegments(intent)[0];
    assert forall i :: 0 <= i < |t| ==> t[i] != '_';
  }

  // ---------------------------------------------------------------------
  // Scores and candidates

  /** Distances reported by the index; the index never reports a negative one. */
  type Distance = d: real | d >= 0.0

  /** Catalog metadata as stored at ingestion (string values only). */
  type Metadata = map<string, string>

  /** One ranked row of a query answer: id, distance, document, metadata
      (`None` for an entry stored without metadata). */
  datatype Row = Row(id: string, distance: Distance, document: string, metadata: Option<Metadata>)

  /** The vector collection: its size and its nearest-neighbour search. */
  datatype Collection = Collection(count: nat, search: (string, nat) -> seq<Row>)

  ghost predicate RespectsLimit(c: Collection) {
    forall query: string, n: nat :: |c.search(query, n)| <= n
  }

  /** A collection whose search returns at most `n_results` rows. */
  type VectorIndex = c: Collection | RespectsLimit(c) witness Collection(0, (query, n) => [])

  /** `1 / (1 + distance)`. */
  function Score(d: Distance): (s: real)
    ensures 0.0 < s <= 1.0
    ensures s == 1.0 <==> d == 0.0
  {
    var s := 1.0 / (1.0 + d);
    assert s * (1.0 + d) == 1.0;
    s
  }

  /** The score strictly decreases as the distance grows. */
  lemma ScoreStrictlyDecreasing(d1: Distance, d2: Distance)
    requires d1 < d2
    ensures Score(d1) > Score(d2)
  {
    var s1, s2 := Score(d1), Score(d2);
    assert s1 * (1.0 + d1) == 1.0 && s2 * (1.0 + d2) == 1.0;
    assert s2 * (1.0 + d1) < s2 * (1.0 + d2);
    assert s1 * (1.0 + d1) > s2 * (1.0 + d1);
  }

  const UnknownServiceName: string := "Unknown Service"

  /** A selected service. `name` is None when the key is absent from the
      returned dict. `score` is the unrounded score. */
  datatype Candidate = Candidate(
    id: string,
    score: real,
    description: string,
    metadata: Option<Metadata>,
    name: Option<string>)

  /** The entry built for a kept row: id, score, document and metadata are
      copied; a name is set only for non-empty metadata, "Unknown Service"
      when its metadata has no "name". */
  function ToCandidate(r: Row): (c: Candidate)
    ensures c.id == r.id && c.description == r.document && c.metadata == r.metadata
    ensures c.score == Score(r.distance)
    ensures c.name.Some? <==> r.metadata.Some? && r.metadata.value != map[]
    ensures c.name.Some? && "name" in r.metadata.value ==> c.name.value == r.metadata.value["name"]
    ensures c.name.Some? && "name" !in r.metadata.value ==> c.name.value == UnknownServiceName
  {
    Candidate(r.id, Score(r.distance), r.document, r.metadata,
              if r.metadata.Some? && r.metadata.value != map[] then
                Some(if "name" in r.metadata.value then r.metadata.value["name"] else UnknownServiceName)
              else None)
  }

  function ClearsThreshold(minScore: real): Row -> bool {
    (r: Row) => Score(r.distance) >= minScore
  }

  /** The rows whose score reaches `min_score`, formatted, in index order. */
  function Selection(rows: seq<Row>, minScore: real): seq<Candidate> {
    Sequences.Map(Sequences.Filter(rows, ClearsThreshold(minScore)), ToCandidate)
  }

  lemma SelectionPrefixSnoc(rows: seq<Row>, minScore: real, i: nat)
    requires i < |rows|
    ensures Selection(rows[..i + 1], minScore)
         == Selection(rows[..i], minScore) + (if Score(rows[i].distance) >= minScore then [ToCandidate(rows[i])] else [])
  {
    Sequences.FilterPrefixSnoc(rows, i, ClearsThreshold(minScore));
  }

  /** Every selected entry stems from a returned row and had a score of at
      least `min_score`; there are never more entries than rows. */
  lemma SelectionSound(rows: seq<Row>, minScore: real)
    ensures |Selection(rows, minScore)| <= |rows|
    ensures forall c | c in Selection(rows, minScore) ::
      c.score >= minScore && exists r | r in rows :: c == ToCandidate(r)
  {
    var kept := Sequences.Filter(rows, ClearsThreshold(minScore));
    forall c | c in Selection(rows, minScore)
      ensures c.score >= minScore && exists r | r in rows :: c == ToCandidate(r)
    {
      var i :| 0 <= i < |kept| && Selection(rows, minScore)[i] == c;
      Sequences.MapAt(kept, ToCandidate, i);
      assert kept[i] in kept;
    }
  }

  /** No row that reaches `min_score` is dropped. */
  lemma SelectionComplete(rows: seq<Row>, minScore: real, i: nat)
    requires i < |rows| && Score(rows[i].distance) >= minScore
    ensures ToCandidate(rows[i]) in Selection(rows, minScore)
  {
    var kept := Sequences.Filter(rows, ClearsThreshold(minScore));
    Sequences.FilterComplete(rows, ClearsThreshold(minScore), i);
    var j :| 0 <= j < |kept| && kept[j] == rows[i];
    Sequences.MapAt(kept, ToCandidate, j);
  }

  /** The selection is the formatting of an order-preserving subsequence of
      the rows: the index's ranking is kept, never re-sorted. */
  lemma SelectionKeepsIndexOrder(rows: seq<Row>, minScore: real)
    ensures exists kept: seq<Row> ::
      Sequences.IsSubsequence(kept, rows) && Selection(rows, minScore) == Sequences.Map(kept, ToCandidate)
  {
    var kept := Sequences.Filter(rows, ClearsThreshold(minScore));
    Sequences.FilterIsSubsequence(rows, ClearsThreshold(minScore));
    assert Sequences.IsSubsequence(kept, rows) && Selection(rows, minScore) == Sequences.Map(kept, ToCandidate);
  }

  // ---------------------------------------------------------------------
  // Lines 209-211 as written

  /** After filtering, the source lists every kept service by indexing
      `svc['name']`, which raises KeyError for an entry that has no name. */
  function ListingAsWritten(services: seq<Candidate>): (r: Result<seq<Candidate>, string>)
    ensures r.Failure? <==> exists i :: 0 <= i < |services| && services[i].name.None?
    ensures r.Success? ==> r.value == services
  {
    if forall i :: 0 <= i < |services| ==> services[i].name.Some? then Success(services)
    else Failure("KeyError: 'name'")
  }

  /** One row at distance 0 whose entry was stored without metadata: it is
      kept (score 1 >= 0.5), yet listing it as written raises. */
  lemma NamelessRowFailsListing()
    ensures var rows := [Row("svc-1", 0.0, "Service: Edge", None)];
      |Selection(rows, 0.5)| == 1
      && ListingAsWritten(Selection(rows, 0.5)).Failure?
  {
    var rows := [Row("svc-1", 0.0, "Service: Edge", None)];
    SelectionComplete(rows, 0.5, 0);
    var s := Selection(rows, 0.5);
    SelectionSound(rows, 0.5);
    assert s[0] == ToCandidate(rows[0]);
  }

  // ---------------------------------------------------------------------
  // The agent

  const DefaultTopK: nat := 5
  const DefaultMinScore: real := 0.5

  class ServiceSelectorAgent {
    const collectionName: string
    const collection: VectorIndex

    /** The embedding model and the persistent client are external; the
        agent is given the collection they open. */
    constructor (collectionName: string, collection: VectorIndex)
      ensures this.collectionName == collectionName && this.collection == collection
    {
      this.collectionName := collectionName;
      this.collection := collection;
    }

    /** What select_services returns: nothing for an empty collection,
        otherwise the selection over the rows the index returns for the
        intent's query and `top_k`. */
    function Selected(intent: Intent, topK: nat, minScore: real): seq<Candidate> {
      if collection.count == 0 then [] else Selection(collection.search(Query(intent), topK), minScore)
    }

    /** `_intent_to_query`: collects the segments in a list, then joins
        them with single spaces. */
    method IntentToQuery(intent: Intent) returns (query: string)
      ensures query == Query(intent)
    {
      var queryParts: seq<string> := [];
      if intent.kind != "" {
        queryParts := queryParts + [Strings.ReplaceChar(intent.kind, '_', ' ')];
      }
      if intent.location.Some? && intent.location.value != "" {
        queryParts := queryParts + ["location: " + intent.location.value];
      }
      if intent.qos.Some? && intent.qos.value != [] {
        queryParts := AppendQos(queryParts, intent.qos.value);
      }
      assert queryParts == HeadSegments(intent);
      queryParts := AppendSubIntents(queryParts, intent.subIntents);
      query := Strings.Join(queryParts, " ");
    }

    /** The sub-intent loop of `_intent_to_query`, in list order. */
    method AppendSubIntents(parts: seq<string>, subs: seq<SubIntent>) returns (queryParts: seq<string>)
      ensures queryParts == parts + SubIntentSegments(subs)
    {
      queryParts := parts;
      for j := 0 to |subs|
        invariant queryParts == parts + SubIntentSegments(subs[..j])
      {
        queryParts := AppendSubIntent(queryParts, subs[j]);
        SubIntentSegmentsPrefixSnoc(subs, j);
      }
      assert subs[..|subs|] == subs;
    }

    /** The QoS loop of `_intent_to_query`: one `"<key>: <value>"` segment per
        entry, in dict order. */
    method AppendQos(parts: seq<string>, qos: Dict) returns (queryParts: seq<string>)
      ensures queryParts == parts + Sequences.Map(qos, QosSegment)
    {
      queryParts := parts;
      for k := 0 to |qos|
        invariant queryParts == parts + Sequences.Map(qos[..k], QosSegment)
      {
        var (key, value) := qos[k];
        queryParts := queryParts + [key + ": " + PyStr(value)];
        Sequences.MapPrefixSnoc(qos, k, QosSegment);
      }
      assert qos[..|qos|] == qos;
    }

    /** One iteration of the sub-intent loop of `_intent_to_query`: the
        domain segment, then one segment per requirement in dict order. */
    method AppendSubIntent(parts: seq<string>, sub: SubIntent) returns (queryParts: seq<string>)
      ensures queryParts == parts + [DomainSegment(sub)] + Sequences.Map(sub.requirements, RequirementSegment)
    {
      queryParts := parts + [sub.domain + " domain"];
      var reqs := sub.requirements;
      for k := 0 to |reqs|
        invariant queryParts == parts + [DomainSegment(sub)] + Sequences.Map(reqs[..k], RequirementSegment)
      {
        var (key, value) := reqs[k];
        if value.ListValue? {
          queryParts := queryParts + [key + ": " + Strings.Join(value.items, ", ")];
        } else {
          queryParts := queryParts + [key + ": " + PyStr(value)];
        }
        Sequences.MapPrefixSnoc(reqs, k, RequirementSegment);
      }
      assert reqs[..|reqs|] == reqs;
    }

    /** `select_services(intent)` with its default arguments returns at most
        five services, each scoring at least 0.5. */
    lemma DefaultSelectionBounds(intent: Intent)
      ensures |Selected(intent, DefaultTopK, DefaultMinScore)| <= 5
      ensures forall c | c in Selected(intent, DefaultTopK, DefaultMinScore) :: c.score >= 0.5
    {
      if collection.count != 0 {
        SelectionSound(collection.search(Query(intent), DefaultTopK), DefaultMinScore);
      }
    }

    /** `select_services`: an empty collection yields [] without a query;
        otherwise the kept rows, in index order, at most `top_k` of them,
        each with a score of at least `min_score`. */
    method SelectServices(intent: Intent, topK: nat, minScore: real) returns (services: seq<Candidate>)
      ensures services == Selected(intent, topK, minScore)
      ensures collection.count == 0 ==> services == []
      ensures |services| <= topK
      ensures forall c | c in services :: c.score >= minScore
    {
      if collection.count == 0 {
        return [];
      }
      var query := IntentToQuery(intent);
      var rows := collection.search(query, topK);
      services := [];
      for i := 0 to |rows|
        invariant services == Selection(rows[..i], minScore)
      {
        var distance := rows[i].distance;
        var score := 1.0 / (1.0 + distance);
        SelectionPrefixSnoc(rows, minScore, i);
        if score < minScore {
          continue;
        }
        var service := Candidate(rows[i].id, score, rows[i].document, rows[i].metadata, None);
        if rows[i].metadata.Some? && rows[i].metadata.value != map[] {
          var m := rows[i].metadata.value;
          service := service.(name := Some(if "name" in m then m["name"] else UnknownServiceName));
        }
        assert service == ToCandidate(rows[i]);
        services := services + [service];
      }
      assert rows[..|rows|] == rows;
      SelectionSound(rows, minScore);
    }

    /** `get_best_service`: the first entry of a `top_k = 1` selection with
        the default threshold, or None when that selection is empty. */
    method GetBestService(intent: Intent) returns (best: Option<Candidate>)
      ensures best.None? <==> Selected(intent, 1, DefaultMinScore) == []
      ensures best.Some? ==> best.value == Selected(intent, 1, DefaultMinScore)[0]
      ensures best.Some? ==> best.value.score >= DefaultMinScore
    {
      var services := SelectServices(intent, 1, DefaultMinScore);
      if services != [] {
        best := Some(services[0]);
      } else {
        best := None;
      }
    }
  }
}
