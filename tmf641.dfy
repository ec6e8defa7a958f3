/** The TM Forum TMF641 Service Ordering records (schemas/tmf641.py): the
    state and action enumerations with their wire strings, the order, its
    items, services and parties, and the constraints the record schema puts
    on them (at least one item in an order, a quantity of at least 1, an
    action among the enumeration's values) together with the defaults a
    record takes when a field is omitted. */
module ServiceOrdering {
  import opened Wrappers
  import Values

  // ---------------------------------------------------------------------
  // Enumerations

  /** `ServiceOrderStateType`. */
  datatype ServiceOrderStateType =
    | Acknowledged | Rejected | Pending | Held | InProgress
    | Cancelled | Completed | Failed | Partial | AssessedCustomerApproved

  function OrderStateWire(s: ServiceOrderStateType): string {
    match s
    case Acknowledged => "acknowledged"
    case Rejected => "rejected"
    case Pending => "pending"
    case Held => "held"
    case InProgress => "inProgress"
    case Cancelled => "cancelled"
    case Completed => "completed"
    case Failed => "failed"
    case Partial => "partial"
    case AssessedCustomerApproved => "assessedCustomerApproved"
  }

  /** Reading an order state from its wire string; None for any other string. */
  function ParseOrderState(w: string): Option<ServiceOrderStateType> {
    if w == "acknowledged" then Some(Acknowledged)
    else if w == "rejected" then Some(Rejected)
    else if w == "pending" then Some(Pending)
    else if w == "held" then Some(Held)
    else if w == "inProgress" then Some(InProgress)
    else if w == "cancelled" then Some(Cancelled)
    else if w == "completed" then Some(Completed)
    else if w == "failed" then Some(Failed)
    else if w == "partial" then Some(Partial)
    else if w == "assessedCustomerApproved" then Some(AssessedCustomerApproved)
    else None
  }

  /** Every order state reads back from its wire string. */
  lemma OrderStateRoundTrip(s: ServiceOrderStateType)
    ensures ParseOrderState(OrderStateWire(s)) == Some(s)
  {
  }

  /** Only the wire strings of order states are accepted. */
  lemma ParseOrderStateSound(w: string)
    ensures ParseOrderState(w).Some? ==> OrderStateWire(ParseOrderState(w).value) == w
  {
  }

  /** `ServiceOrderItemStateType`. */
  datatype ServiceOrderItemStateType =
    | ItemAcknowledged | ItemRejected | ItemPending | ItemHeld | ItemInProgress
    | ItemCancelled | ItemCompleted | ItemFailed

  function ItemStateWire(s: ServiceOrderItemStateType): string {
    match s
    case ItemAcknowledged => "acknowledged"
    case ItemRejected => "rejected"
    case ItemPending => "pending"
    case ItemHeld => "held"
    case ItemInProgress => "inProgress"
    case ItemCancelled => "cancelled"
    case ItemCompleted => "completed"
    case ItemFailed => "failed"
  }

  function ParseItemState(w: string): Option<ServiceOrderItemStateType> {
    if w == "acknowledged" then Some(ItemAcknowledged)
    else if w == "rejected" then Some(ItemRejected)
    else if w == "pending" then Some(ItemPending)
    else if w == "held" then Some(ItemHeld)
    else if w == "inProgress" then Some(ItemInProgress)
    else if w == "cancelled" then Some(ItemCancelled)
    else if w == "completed" then Some(ItemCompleted)
    else if w == "failed" then Some(ItemFailed)
    else None
  }

  /** Every item state reads back from its wire string, and that string is
      also the wire string of an order state: the item states are the first
      eight order states. */
  lemma ItemStateRoundTrip(s: ServiceOrderItemStateType)
    ensures ParseItemState(ItemStateWire(s)) == Some(s)
    ensures ParseOrderState(ItemStateWire(s)).Some?
  {
  }

  lemma ParseItemStateSound(w: string)
    ensures ParseItemState(w).Some? ==> ItemStateWire(ParseItemState(w).value) == w
  {
  }

  /** `ServiceOrderItemActionType`. */
  datatype ActionType = Add | Modify | Delete | NoChange

  function ActionWire(a: ActionType): string {
    match a
    case Add => "add"
    case Modify => "modify"
    case Delete => "delete"
    case NoChange => "noChange"
  }

  /** Reading an action from its wire string; None for any other string. */
  function ParseAction(w: string): (r: Option<ActionType>)
    ensures r.Some? ==> ActionWire(r.value) == w
  {
    if w == "add" then Some(Add)
    else if w == "modify" then Some(Modify)
    else if w == "delete" then Some(Delete)
    else if w == "noChange" then Some(NoChange)
    else None
  }

  /** An action string is accepted exactly when it is the wire string of one
      of the four actions. */
  lemma ActionRoundTrip(a: ActionType, w: string)
    ensures ParseAction(ActionWire(a)) == Some(a)
    ensures ParseAction(w).Some? <==> exists b: ActionType :: ActionWire(b) == w
  {
  }

  // ---------------------------------------------------------------------
  // Records

  /** A date-time as an instant on one time line (for instance microseconds
      since the epoch). */
  type DateTime = int

  /** `ServiceSpecificationRef`: `id` is mandatory. */
  datatype ServiceSpecificationRef = ServiceSpecificationRef(
    id: string, href: Option<string>, name: Option<string>, version: Option<string>)

  /** `ServiceCharacteristic`: a named value with an optional declared type. */
  datatype ServiceCharacteristic = ServiceCharacteristic(name: string, value: Values.Value, valueType: Option<string>)

  /** `Service`: the specification reference is mandatory. */
  datatype Service = Service(
    id: Option<string>, serviceType: Option<string>, name: Option<string>,
    serviceSpecification: ServiceSpecificationRef,
    serviceCharacteristic: Option<seq<ServiceCharacteristic>>)

  /** `ServiceOrderItem`. The action is kept as the string the record was
      given; the schema accepts it only when it names an `ActionType`. */
  datatype ServiceOrderItem = ServiceOrderItem(
    id: string, action: string, state: Option<ServiceOrderItemStateType>,
    service: Service, quantity: Option<int>)

  /** `RelatedParty`: only `name` is mandatory. */
  datatype RelatedParty = RelatedParty(id: Option<string>, name: string, role: Option<string>, href: Option<string>)

  /** `ServiceOrder`. */
  datatype ServiceOrder = ServiceOrder(
    id: Option<string>, href: Option<string>, externalId: Option<string>,
    description: Option<string>, category: Option<string>, priority: Option<string>,
    state: Option<ServiceOrderStateType>,
    orderDate: Option<DateTime>, requestedStartDate: Option<DateTime>,
    requestedCompletionDate: Option<DateTime>, expectedCompletionDate: Option<DateTime>,
    completionDate: Option<DateTime>,
    serviceOrderItem: seq<ServiceOrderItem>,
    relatedParty: Option<seq<RelatedParty>>)

  /** `ServiceOrderCreateRequest`. */
  datatype ServiceOrderCreateRequest = ServiceOrderCreateRequest(
    externalId: Option<string>, description: Option<string>, priority: Option<string>,
    requestedStartDate: Option<DateTime>,
    serviceOrderItem: seq<ServiceOrderItem>,
    relatedParty: Option<seq<RelatedParty>>)

  // ---------------------------------------------------------------------
  // Schema constraints

  /** The item constraints: the action is one of the enumeration's values,
      and a given quantity is at least 1 (an explicit None passes). */
  predicate ItemSchemaValid(item: ServiceOrderItem) {
    ParseAction(item.action).Some? && (item.quantity.None? || item.quantity.value >= 1)
  }

  /** An order needs at least one item, each satisfying the item constraints. */
  predicate OrderSchemaValid(order: ServiceOrder) {
    |order.serviceOrderItem| >= 1
    && forall i :: 0 <= i < |order.serviceOrderItem| ==> ItemSchemaValid(order.serviceOrderItem[i])
  }

  /** A create request puts no minimum on its items. */
  predicate CreateRequestSchemaValid(request: ServiceOrderCreateRequest) {
    forall i :: 0 <= i < |request.serviceOrderItem| ==> ItemSchemaValid(request.serviceOrderItem[i])
  }

  // ---------------------------------------------------------------------
  // Records built with the omitted fields at their defaults

  /** A service given only its specification reference: no characteristics. */
  function NewService(serviceSpecification: ServiceSpecificationRef): (r: Service)
    ensures r.serviceSpecification == serviceSpecification
    ensures r.serviceCharacteristic == Some([])
    ensures r.id.None? && r.serviceType.None? && r.name.None?
  {
    Service(None, None, None, serviceSpecification, Some([]))
  }

  /** An item given its id, action and service: state acknowledged and
      quantity 1, so it satisfies the item constraints exactly when its
      action does. */
  function NewServiceOrderItem(id: string, action: string, service: Service): (r: ServiceOrderItem)
    ensures r.id == id && r.action == action && r.service == service
    ensures r.state == Some(ItemAcknowledged) && r.quantity == Some(1)
    ensures ItemSchemaValid(r) <==> ParseAction(action).Some?
  {
    ServiceOrderItem(id, action, Some(ItemAcknowledged), service, Some(1))
  }

  /** An order given its items: state acknowledged, no parties, and every
      other optional field (identifiers, description, dates) absent. */
  function NewServiceOrder(items: seq<ServiceOrderItem>): (r: ServiceOrder)
    ensures r.serviceOrderItem == items
    ensures r.state == Some(Acknowledged) && r.relatedParty == Some([])
    ensures r.id.None? && r.href.None? && r.externalId.None?
    ensures r.description.None? && r.category.None? && r.priority.None?
    ensures r.orderDate.None? && r.requestedStartDate.None? && r.requestedCompletionDate.None?
    ensures r.expectedCompletionDate.None? && r.completionDate.None?
    ensures OrderSchemaValid(r) <==> items != [] && forall i :: 0 <= i < |items| ==> ItemSchemaValid(items[i])
  {
    ServiceOrder(None, None, None, None, None, None, Some(Acknowledged),
                 None, None, None, None, None, items, Some([]))
  }

  /** A create request given its items: no parties. */
  function NewCreateRequest(items: seq<ServiceOrderItem>): (r: ServiceOrderCreateRequest)
    ensures r.serviceOrderItem == items && r.relatedParty == Some([])
    ensures r.externalId.None? && r.description.None? && r.priority.None? && r.requestedStartDate.None?
    ensures CreateRequestSchemaValid(r) <==> forall i :: 0 <= i < |items| ==> ItemSchemaValid(items[i])
  {
    ServiceOrderCreateRequest(None, None, None, None, items, Some([]))
  }

  /** A create request without items is accepted; an order without items is
      not, whatever its other fields. */
  lemma EmptyItemsAcceptedOnlyInCreateRequest(order: ServiceOrder)
    requires order.serviceOrderItem == []
    ensures CreateRequestSchemaValid(NewCreateRequest([]))
    ensures !OrderSchemaValid(order)
  {
  }
}
