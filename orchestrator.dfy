/** The pipeline state machine of orchestrator.py: the shared `AgentState`,
    the routing decision `should_retry_translation`, and the graph
    Agent1 -> Agent2 -> Agent3 -> Agent4 -> (retry: Agent3 | submit | error: END),
    submit -> END. The agents themselves are external: what each node writes
    into the state comes from an `Environment` of functions, and only the
    validation node is given in full (it runs the validator and counts). */
module Workflow {
  import opened Wrappers
  import Values
  import IntentSchema
  import ServiceSelector
  import ServiceOrdering
  import OrderValidator

  /** `AgentState`. */
  datatype AgentState = AgentState(
    userQuery: string,
    intent: Option<IntentSchema.Intent>,
    intentErrors: seq<string>,
    selectedServices: seq<ServiceSelector.Candidate>,
    selectionErrors: seq<string>,
    serviceOrder: Option<ServiceOrdering.ServiceOrder>,
    translationErrors: seq<string>,
    isValid: bool,
    validationErrors: seq<OrderValidator.ValidationError>,
    validationRetryCount: int,
    openSliceResponse: Option<Values.Dict>,
    finalStatus: string)

  /** The documented initial state for a user query. */
  function InitialState(userQuery: string): (s: AgentState)
    ensures s.userQuery == userQuery
    ensures s.intent.None? && s.serviceOrder.None? && s.openSliceResponse.None?
    ensures s.intentErrors == [] && s.selectionErrors == [] && s.translationErrors == [] && s.validationErrors == []
    ensures s.selectedServices == []
    ensures !s.isValid && s.validationRetryCount == 0 && s.finalStatus == "pending"
  {
    AgentState(userQuery, None, [], [], [], None, [], false, [], 0, None, "pending")
  }

  // ---------------------------------------------------------------------
  // Routing

  /** The number of validations after which a failed order is given up. */
  const RetryBudget: int := 3

  datatype Route = Retry | Submit | Error

  function RouteLabel(r: Route): string {
    match r
    case Retry => "retry"
    case Submit => "submit"
    case Error => "error"
  }

  /** Each label names one edge of the conditional branch at the validation
      node, and no two routes share a label. */
  lemma RouteLabelsDistinct(a: Route, b: Route)
    ensures RouteLabel(a) == RouteLabel(b) <==> a == b
  {
  }

  /** `should_retry_translation`: submit a valid order; otherwise retry while
      fewer than `RetryBudget` validations have run, and give up after. */
  function ShouldRetryTranslation(state: AgentState): (r: Route)
    ensures r == Submit <==> state.isValid
    ensures r == Retry <==> !state.isValid && state.validationRetryCount < RetryBudget
    ensures r == Error <==> !state.isValid && state.validationRetryCount >= RetryBudget
  {
    if state.isValid then Submit
    else if state.validationRetryCount < RetryBudget then Retry
    else Error
  }

  /** A valid order is submitted whatever the count. */
  lemma ValidAlwaysSubmits(state: AgentState, count: int)
    requires state.isValid
    ensures ShouldRetryTranslation(state.(validationRetryCount := count)) == Submit
  {
  }

  /** For an invalid order, giving up is upward-closed in the count and
      retrying downward-closed. */
  lemma ErrorRegionUpwardClosed(state: AgentState, count: int)
    requires ShouldRetryTranslation(state) == Error
    requires count >= state.validationRetryCount
    ensures ShouldRetryTranslation(state.(validationRetryCount := count)) == Error
  {
  }

  lemma RetryRegionDownwardClosed(state: AgentState, count: int)
    requires ShouldRetryTranslation(state) == Retry
    requires count <= state.validationRetryCount
    ensures ShouldRetryTranslation(state.(validationRetryCount := count)) == Retry
  {
  }

  // ---------------------------------------------------------------------
  // The graph

  /** The graph's nodes; `Done` is END. */
  datatype Node = Agent1 | Agent2 | Agent3 | Agent4 | SubmitNode | Done

  datatype Config = Config(node: Node, state: AgentState)

  /** What the external agents write into the state: the intent read from
      the query, the services selected for it, the order translated from the
      state (which may differ from one retry to the next), and the platform's
      response with the final status. */
  datatype Environment = Environment(
    interpret: string -> Option<IntentSchema.Intent>,
    select: Option<IntentSchema.Intent> -> seq<ServiceSelector.Candidate>,
    translate: AgentState -> ServiceOrdering.ServiceOrder,
    submit: ServiceOrdering.ServiceOrder -> (Values.Dict, string))

  /** Validation and submission only run once an order exists. */
  predicate WellFormed(c: Config) {
    (c.node == Agent4 || c.node == SubmitNode) ==> c.state.serviceOrder.Some?
  }

  /** The number of steps left from a configuration, at most. */
  function Rank(c: Config): nat {
    var k := c.state.validationRetryCount;
    var validate: nat := 2 + (if k < RetryBudget - 1 then 2 * (RetryBudget - 1 - k) else 0);
    match c.node
    case Agent1 => 3 + validate
    case Agent2 => 2 + validate
    case Agent3 => 1 + validate
    case Agent4 => validate
    case SubmitNode => 1
    case Done => 0
  }

  /** The validation node: validate the order, record the verdict and its
      errors, and count one more validation. */
  function Validated(state: AgentState): (s: AgentState)
    requires state.serviceOrder.Some?
    ensures s == state.(isValid := s.isValid, validationErrors := s.validationErrors,
                        validationRetryCount := state.validationRetryCount + 1)
    ensures s.isValid <==> OrderValidator.Valid(state.serviceOrder.value)
    ensures s.isValid <==> s.validationErrors == []
  {
    var verdict := OrderValidator.Validate(state.serviceOrder.value);
    state.(isValid := verdict.0, validationErrors := verdict.1,
           validationRetryCount := state.validationRetryCount + 1)
  }

  /** One edge of the graph. */
  function Step(env: Environment, c: Config): (r: Config)
    requires WellFormed(c) && c.node != Done
    ensures WellFormed(r) && Rank(r) < Rank(c)
    ensures c.node != Agent4 ==> r.state.validationRetryCount == c.state.validationRetryCount
    ensures c.node != SubmitNode ==> r.state.openSliceResponse == c.state.openSliceResponse
  {
    var s := c.state;
    match c.node
    case Agent1 => Config(Agent2, s.(intent := env.interpret(s.userQuery)))
    case Agent2 => Config(Agent3, s.(selectedServices := env.select(s.intent)))
    case Agent3 => Config(Agent4, s.(serviceOrder := Some(env.translate(s))))
    case Agent4 =>
      var v := Validated(s);
      (match ShouldRetryTranslation(v)
       case Retry => Config(Agent3, v)
       case Submit => Config(SubmitNode, v)
       case Error => Config(Done, v))
    case SubmitNode =>
      var (response, status) := env.submit(s.serviceOrder.value);
      Config(Done, s.(openSliceResponse := Some(response), finalStatus := status))
  }

  /** The end of a run: the last configuration, the number of steps taken,
      of validations run and of "retry" decisions. */
  datatype Outcome = Outcome(final: Config, steps: nat, validations: nat, retries: nat)

  /** Running the graph until END. */
  function Run(env: Environment, c: Config): (o: Outcome)
    requires WellFormed(c)
    ensures o.final.node == Done
    ensures o.steps <= Rank(c)
    ensures o.final.state.validationRetryCount == c.state.validationRetryCount + o.validations
    decreases Rank(c)
  {
    if c.node == Done then Outcome(c, 0, 0, 0)
    else
      var next := Step(env, c);
      var o := Run(env, next);
      var validated := if c.node == Agent4 then 1 else 0;
      var retried := if c.node == Agent4 && next.node == Agent3 then 1 else 0;
      Outcome(o.final, o.steps + 1, o.validations + validated, o.retries + retried)
  }

  /** The translate/validate loop, entered before the validation with `k`
      validations behind it (0 <= k < 3): it validates at least once and
      never beyond the budget, each validation but the last is followed by
      a retry, the run gives up only with the budget spent, and it ends
      having submitted exactly when the last order was valid. */
  lemma {:induction false} LoopBounds(env: Environment, c: Config)
    requires WellFormed(c) && c.node in {Agent1, Agent2, Agent3, Agent4}
    requires 0 <= c.state.validationRetryCount < RetryBudget
    requires c.state.openSliceResponse.None?
    ensures var o := Run(env, c);
      1 <= o.validations && c.state.validationRetryCount + o.validations <= RetryBudget
      && o.retries == o.validations - 1
      && (o.final.state.isValid || o.final.state.validationRetryCount == RetryBudget)
      && (o.final.state.isValid <==> o.final.state.openSliceResponse.Some?)
    decreases Rank(c)
  {
    var next := Step(env, c);
    if c.node == Agent4 {
      var v := Validated(c.state);
      match ShouldRetryTranslation(v)
      case Retry =>
        LoopBounds(env, next);
      case Submit =>
      case Error =>
    } else {
      LoopBounds(env, next);
    }
  }

  /** From the documented initial state, every run ends at END after at most
      9 steps, with between one and three validations, one retry fewer than
      validations, and either a submitted valid order or three failed
      validations. */
  lemma RunFromInitialState(env: Environment, userQuery: string)
    ensures var o := Run(env, Config(Agent1, InitialState(userQuery)));
      o.final.node == Done && o.steps <= 9
      && 1 <= o.validations <= RetryBudget && o.retries == o.validations - 1 && o.retries <= 2
      && o.final.state.validationRetryCount == o.validations
      && (o.final.state.isValid <==> o.final.state.openSliceResponse.Some?)
      && (!o.final.state.isValid ==> o.validations == RetryBudget)
  {
    LoopBounds(env, Config(Agent1, InitialState(userQuery)));
  }

  /** A translator whose orders never validate: three validations, two
      retries, and the run gives up without submitting. */
  lemma NeverValidGivesUp(env: Environment, userQuery: string)
    requires forall s: AgentState :: !OrderValidator.Valid(env.translate(s))
    ensures var o := Run(env, Config(Agent1, InitialState(userQuery)));
      o.validations == 3 && o.retries == 2 && !o.final.state.isValid
      && o.final.state.openSliceResponse.None? && o.final.state.finalStatus == "pending"
  {
    var c1 := Config(Agent1, InitialState(userQuery));
    var c2 := Step(env, c1);
    var c3 := Step(env, c2);
    var c4 := Step(env, c3);
    assert c4.node == Agent4 && c4.state.validationRetryCount == 0 && !OrderValidator.Valid(env.translate(c3.state));
    var c5 := Step(env, c4);
    assert c5.node == Agent3 && c5.state.validationRetryCount == 1;
    var c6 := Step(env, c5);
    assert c6.node == Agent4 && !OrderValidator.Valid(env.translate(c5.state));
    var c7 := Step(env, c6);
    assert c7.node == Agent3 && c7.state.validationRetryCount == 2;
    var c8 := Step(env, c7);
    assert c8.node == Agent4 && !OrderValidator.Valid(env.translate(c7.state));
    var c9 := Step(env, c8);
    assert c9.node == Done && !c9.state.isValid;
    assert Run(env, c9) == Outcome(c9, 0, 0, 0);
    assert Run(env, c8) == Outcome(c9, 1, 1, 0);
    assert Run(env, c7) == Outcome(c9, 2, 1, 0);
    assert Run(env, c6) == Outcome(c9, 3, 2, 1);
    assert Run(env, c5) == Outcome(c9, 4, 2, 1);
    assert Run(env, c4) == Outcome(c9, 5, 3, 2);
    assert Run(env, c3) == Outcome(c9, 6, 3, 2);
    assert Run(env, c2) == Outcome(c9, 7, 3, 2);
  }

  /** A translator whose first order fails and whose corrected order
      validates: two validations, one retry, and the order is submitted. */
  lemma SecondTranslationSubmits(env: Environment, userQuery: string)
    requires forall s: AgentState :: OrderValidator.Valid(env.translate(s)) <==> s.validationRetryCount >= 1
    ensures var o := Run(env, Config(Agent1, InitialState(userQuery)));
      o.validations == 2 && o.retries == 1 && o.final.state.isValid
      && o.final.state.openSliceResponse.Some?
  {
    var c1 := Config(Agent1, InitialState(userQuery));
    var c2 := Step(env, c1);
    var c3 := Step(env, c2);
    var c4 := Step(env, c3);
    assert c4.node == Agent4 && c3.state.validationRetryCount == 0 && !OrderValidator.Valid(env.translate(c3.state));
    var c5 := Step(env, c4);
    assert c5.node == Agent3 && c5.state.validationRetryCount == 1;
    var c6 := Step(env, c5);
    assert c6.node == Agent4 && OrderValidator.Valid(env.translate(c5.state));
    var c7 := Step(env, c6);
    assert c7.node == SubmitNode && c7.state.isValid;
    var c8 := Step(env, c7);
    assert c8.node == Done && c8.state.isValid && c8.state.openSliceResponse.Some?;
    assert Run(env, c8) == Outcome(c8, 0, 0, 0);
    assert Run(env, c7) == Outcome(c8, 1, 0, 0);
    assert Run(env, c6) == Outcome(c8, 2, 1, 0);
    assert Run(env, c5) == Outcome(c8, 3, 1, 0);
    assert Run(env, c4) == Outcome(c8, 4, 2, 1);
    assert Run(env, c3) == Outcome(c8, 5, 2, 1);
    assert Run(env, c2) == Outcome(c8, 6, 2, 1);
  }
}
