/** The validation contract of Agent 4 (agents/agent4_validator.py): the
    rule table `VALIDATION_RULES` and the documented contract of `validate`,
    which returns `(True, [])` for an order that breaks no rule and
    `(False, errors)` with at least one error otherwise. */
module OrderValidator {
  import opened ServiceOrdering
  import Values
  import Sequences

  // ---------------------------------------------------------------------
  // The rule table

  /** `serviceOrderItem.min_items`. */
  const MinItems: nat := 1
  /** `serviceOrderItem.action_values`. */
  const ActionValues: seq<string> := ["add", "modify", "delete", "noChange"]
  // The table's required fields (an item's id, action and service, a
  // service's serviceSpecification, a specification's id) are fields the
  // typed records always carry: the rules below ask that the two ids be
  // non-empty. Its date rule is `DatesOk`.

  /** The table's action values are exactly the wire strings of the action
      enumeration of the order schema. */
  lemma ActionValuesAreActionTypes(w: string)
    ensures w in ActionValues <==> ParseAction(w).Some?
  {
  }

  // ---------------------------------------------------------------------
  // Errors

  /** One broken rule; items are identified by their position in the order. */
  datatype ValidationError =
    | TooFewItems(count: nat)
    | MissingItemId(position: nat)
    | DuplicateItemId(position: nat, id: string)
    | InvalidAction(position: nat, action: string)
    | QuantityBelowOne(position: nat, quantity: int)
    | MissingSpecificationId(position: nat)
    | CharacteristicTypeMismatch(position: nat, name: string)
    | StartNotBeforeCompletion

  // ---------------------------------------------------------------------
  // The rules, as properties of an order

  /** A declared `valueType` the value must match: "integer", "string",
      "boolean" or "array"; any other declared type is not checked. */
  predicate MatchesValueType(value: Values.Value, valueType: string) {
    match valueType
    case "integer" => value.IntValue?
    case "string" => value.StrValue?
    case "boolean" => value.BoolValue?
    case "array" => value.ListValue?
    case _ => true
  }

  predicate CharacteristicOk(c: ServiceCharacteristic) {
    c.valueType.None? || MatchesValueType(c.value, c.valueType.value)
  }

  function Characteristics(item: ServiceOrderItem): seq<ServiceCharacteristic> {
    if item.service.serviceCharacteristic.Some? then item.service.serviceCharacteristic.value else []
  }

  /** The rules on one item by itself: a non-empty id, an action from the
      table, a quantity of at least 1 when one is given, a specification
      reference with a non-empty id, and characteristics that match their
      declared types. */
  predicate ItemOk(item: ServiceOrderItem) {
    item.id != ""
    && item.action in ActionValues
    && (item.quantity.None? || item.quantity.value >= 1)
    && item.service.serviceSpecification.id != ""
    && forall k :: 0 <= k < |Characteristics(item)| ==> CharacteristicOk(Characteristics(item)[k])
  }

  /** When both dates are present the start comes strictly before the
      completion; with either one missing there is nothing to compare. */
  predicate DatesOk(order: ServiceOrder) {
    order.requestedStartDate.None? || order.requestedCompletionDate.None?
    || order.requestedStartDate.value < order.requestedCompletionDate.value
  }

  /** An order that breaks no rule. */
  predicate Valid(order: ServiceOrder) {
    var items := order.serviceOrderItem;
    |items| >= MinItems
    && (forall i :: 0 <= i < |items| ==> ItemOk(items[i]))
    && (forall i, j :: 0 <= i < j < |items| ==> items[i].id != items[j].id)
    && DatesOk(order)
  }

  // ---------------------------------------------------------------------
  // The error list

  /** Whether the id at `i` already appeared at an earlier position. */
  predicate SeenBefore(items: seq<ServiceOrderItem>, i: nat)
    requires i < |items|
  {
    exists j :: 0 <= j < i && items[j].id == items[i].id
  }

  /** The characteristics at positions before `n` that do not match their
      declared type, in order. */
  function CharacteristicErrors(position: nat, chars: seq<ServiceCharacteristic>, n: nat): (r: seq<ValidationError>)
    requires n <= |chars|
    ensures r == [] <==> forall k :: 0 <= k < n ==> CharacteristicOk(chars[k])
  {
    if n == 0 then []
    else
      CharacteristicErrors(position, chars, n - 1)
      + (if CharacteristicOk(chars[n - 1]) then [] else [CharacteristicTypeMismatch(position, chars[n - 1].name)])
  }

  /** Every error the item at `i` raises. A duplicate is reported on the
      later of two equal ids; an empty id is reported as missing instead. */
  function ItemErrors(items: seq<ServiceOrderItem>, i: nat): seq<ValidationError>
    requires i < |items|
  {
    var item := items[i];
    var chars := Characteristics(item);
    (if item.id == "" then [MissingItemId(i)]
     else if SeenBefore(items, i) then [DuplicateItemId(i, item.id)]
     else [])
    + (if item.action in ActionValues then [] else [InvalidAction(i, item.action)])
    + (if item.quantity.Some? && item.quantity.value < 1 then [QuantityBelowOne(i, item.quantity.value)] else [])
    + (if item.service.serviceSpecification.id == "" then [MissingSpecificationId(i)] else [])
    + CharacteristicErrors(i, chars, |chars|)
  }

  /** The errors of each item, one list per position. */
  function PerItemErrors(items: seq<ServiceOrderItem>): (r: seq<seq<ValidationError>>)
    ensures |r| == |items|
  {
    seq(|items|, i requires 0 <= i < |items| => ItemErrors(items, i))
  }

  /** Every error of an order: the item count, each item in order, then the dates. */
  function Errors(order: ServiceOrder): seq<ValidationError> {
    var items := order.serviceOrderItem;
    (if |items| < MinItems then [TooFewItems(|items|)] else [])
    + Sequences.Flatten(PerItemErrors(items))
    + (if DatesOk(order) then [] else [StartNotBeforeCompletion])
  }

  /** An item raises no error exactly when it satisfies the item rules and
      its id did not appear earlier. */
  lemma ItemErrorsEmptyIff(items: seq<ServiceOrderItem>, i: nat)
    requires i < |items|
    ensures ItemErrors(items, i) == [] <==> ItemOk(items[i]) && !SeenBefore(items, i)
  {
  }

  /** No item raises an error exactly when each satisfies the item rules and
      their ids are pairwise distinct. */
  lemma NoItemErrorsIff(items: seq<ServiceOrderItem>)
    ensures (forall i :: 0 <= i < |items| ==> ItemErrors(items, i) == []) <==>
      (forall i :: 0 <= i < |items| ==> ItemOk(items[i]))
      && (forall i, j :: 0 <= i < j < |items| ==> items[i].id != items[j].id)
  {
    forall i | 0 <= i < |items| {
      ItemErrorsEmptyIff(items, i);
    }
    if forall i :: 0 <= i < |items| ==> ItemErrors(items, i) == [] {
      forall i, j | 0 <= i < j < |items|
        ensures items[i].id != items[j].id
      {
        assert !SeenBefore(items, j);
      }
    } else {
      var i :| 0 <= i < |items| && ItemErrors(items, i) != [];
      if SeenBefore(items, i) {
        var j :| 0 <= j < i && items[j].id == items[i].id;
      }
    }
  }

  /** No error is reported exactly when the order is valid. */
  lemma ErrorsEmptyIffValid(order: ServiceOrder)
    ensures Errors(order) == [] <==> Valid(order)
  {
    var items := order.serviceOrderItem;
    var perItem := PerItemErrors(items);
    assert Errors(order) == [] <==> |items| >= MinItems && Sequences.Flatten(perItem) == [] && DatesOk(order);
    Sequences.FlattenEmptyIff(perItem);
    forall i | 0 <= i < |items|
      ensures perItem[i] == ItemErrors(items, i)
    {
    }
    assert Sequences.Flatten(perItem) == [] <==> forall i :: 0 <= i < |items| ==> ItemErrors(items, i) == [];
    NoItemErrorsIff(items);
  }

  /** `validate`: `(true, [])` for a valid order, `(false, errors)` with a
      non-empty list otherwise. */
  function Validate(order: ServiceOrder): (r: (bool, seq<ValidationError>))
    ensures r.0 <==> Valid(order)
    ensures r.0 <==> r.1 == []
    ensures r.1 == Errors(order)
  {
    ErrorsEmptyIffValid(order);
    (Errors(order) == [], Errors(order))
  }

  // ---------------------------------------------------------------------
  // Consequences

  /** An order without items is invalid and its errors say so. */
  lemma EmptyOrderInvalid(order: ServiceOrder)
    requires order.serviceOrderItem == []
    ensures !Validate(order).0
    ensures Validate(order).1[0] == TooFewItems(0)
  {
  }

  /** Two items sharing an id make the order invalid. */
  lemma DuplicateIdsInvalid(order: ServiceOrder, i: nat, j: nat)
    requires i < j < |order.serviceOrderItem|
    requires order.serviceOrderItem[i].id == order.serviceOrderItem[j].id
    ensures !Validate(order).0
  {
  }

  /** Both dates present with the completion not after the start make the
      order invalid, and the last error reports it. */
  lemma DatesOutOfOrderInvalid(order: ServiceOrder)
    requires order.requestedStartDate.Some? && order.requestedCompletionDate.Some?
    requires order.requestedCompletionDate.value <= order.requestedStartDate.value
    ensures !Validate(order).0
    ensures Validate(order).1[|Validate(order).1| - 1] == StartNotBeforeCompletion
  {
  }

  /** A valid order also satisfies the record schema's constraints. */
  lemma ValidSatisfiesSchema(order: ServiceOrder)
    requires Validate(order).0
    ensures OrderSchemaValid(order)
  {
    forall i | 0 <= i < |order.serviceOrderItem|
      ensures ItemSchemaValid(order.serviceOrderItem[i])
    {
      ActionValuesAreActionTypes(order.serviceOrderItem[i].action);
    }
  }
}
