/** The domain-agnostic intent format (schemas/intent.py): an intent is a list
    of domain-scoped sub-intents plus optional global location and QoS. The
    schema declares defaults only; it does not require any sub-intent and
    does not tie `type` to the number of sub-intents. */
module IntentSchema {
  import opened Wrappers
  import opened Values

  datatype SubIntent = SubIntent(domain: string, requirements: Dict)

  /** `kind` is the source's `type` field. */
  datatype Intent = Intent(
    intentId: Option<string>,
    kind: string,
    subIntents: seq<SubIntent>,
    location: Option<string>,
    qos: Option<Dict>)

  const DefaultKind: string := "composite_service"

  /** Building a SubIntent: `domain` is required, `requirements` defaults to
      the empty dict when omitted (None). */
  function NewSubIntent(domain: string, requirements: Option<Dict>): (s: SubIntent)
    ensures s.domain == domain
    ensures requirements.None? ==> s.requirements == []
    ensures requirements.Some? ==> s.requirements == requirements.value
  {
    SubIntent(domain, if requirements.Some? then requirements.value else [])
  }

  /** Building an Intent: an omitted (None) `type` becomes "composite_service",
      omitted `sub_intents` the empty list; `intent_id`, `location` and `qos`
      stay absent unless given. */
  function NewIntent(intentId: Option<string>, kind: Option<string>, subIntents: Option<seq<SubIntent>>,
                     location: Option<string>, qos: Option<Dict>): (r: Intent)
    ensures kind.None? ==> r.kind == DefaultKind
    ensures kind.Some? ==> r.kind == kind.value
    ensures subIntents.None? ==> r.subIntents == []
    ensures subIntents.Some? ==> r.subIntents == subIntents.value
    ensures r.intentId == intentId && r.location == location && r.qos == qos
  {
    Intent(intentId,
           if kind.Some? then kind.value else DefaultKind,
           if subIntents.Some? then subIntents.value else [],
           location, qos)
  }

  /** The schema accepts an intent with no sub-intent at all, and then still
      calls it a composite service: neither non-emptiness nor the
      type/cardinality match is an invariant of the data model. */
  lemma EmptyIntentIsAccepted()
    ensures NewIntent(None, None, None, None, None).subIntents == []
    ensures NewIntent(None, None, None, None, None).kind == "composite_service"
    ensures NewIntent(None, Some("simple_service"), Some([]), None, None).kind == "simple_service"
  {
  }
}
