/**
 * The props `CompositionRenderer` builds for the renderer of one instance:
 * the instance itself, the context, the parameter map and the slots (each
 * defaulted to an empty object), and the two lookup helpers `getParameter`
 * and `getSlot`.
 */
module ComponentProps {
  import opened Wrappers
  import opened JsValue
  import opened Composition

  datatype Props = Props(
    component: Node,
    context: Value,
    parameters: map<string, Param>,
    slots: seq<Slot>)

  /** The props object built for `composition` rendered under `context`. */
  function BuildProps(composition: Node, context: Value): (p: Props)
    ensures p.component == composition
    ensures Truthy(p.context)
    ensures Truthy(context) ==> p.context == context
    ensures !Truthy(context) ==> p.context == Obj(map[])
    ensures composition.parameters.Some? ==> p.parameters == composition.parameters.value
    ensures composition.parameters.None? ==> p.parameters == map[]
    ensures p.slots == SlotList(composition.slots)
  {
    Props(
      composition,
      Or(context, Obj(map[])),
      composition.parameters.GetOr(map[]),
      SlotList(composition.slots))
  }

  /** `getParameter(id)`: `parameters[id]?.value`. */
  function GetParameter(p: Props, paramId: string): (r: Value)
    ensures paramId in p.parameters ==> r == p.parameters[paramId].value
    ensures paramId !in p.parameters ==> r == Undef
  {
    if paramId in p.parameters then p.parameters[paramId].value else Undef
  }

  /** `getSlot(name)`: `slots[name] || []` (an array is always truthy). */
  function GetSlot(p: Props, slotName: string): (r: seq<Node>)
    ensures slotName in SlotMap(p.slots) ==> r == SlotMap(p.slots)[slotName]
    ensures slotName !in SlotMap(p.slots) ==> r == []
  {
    FindSlotAgreesWithSlotMap(p.slots, slotName);
    match FindSlot(p.slots, slotName)
    case Some(i) => p.slots[i].components
    case None => []
  }
}
