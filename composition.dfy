/**
 * A composition: a tree of typed component instances as the CMS returns it.
 * Each instance has a type tag, an optional `_id`, an optional parameter map
 * (`parameters[id].value`) and optional named slots, each slot an ordered list
 * of child instances.
 *
 * Slots are kept as the list of (name, children) entries of the JSON object in
 * document order; `SlotMap` gives the object they denote, in which a later entry
 * for a name replaces an earlier one, as when JSON text is parsed.
 */
module Composition {
  import opened Wrappers
  import opened JsValue

  /** One entry of `component.parameters`. */
  datatype Param = Param(value: Value)

  /** One named slot and its children, in order. */
  datatype Slot = Slot(name: string, components: seq<Node>)

  /** `component.slots`, which may be absent. */
  datatype Slots = NoSlots | SlotEntries(entries: seq<Slot>)

  /** A component instance (`ComponentInstance`). */
  datatype Node = Node(
    kind: string,
    id: Option<string>,
    parameters: Option<map<string, Param>>,
    slots: Slots)

  /** `component._id` is truthy. */
  predicate HasId(n: Node) {
    n.id.Some? && n.id.value != ""
  }

  /** The slot entries of an instance; an absent slot object has none. */
  function SlotList(s: Slots): (r: seq<Slot>)
    ensures s.SlotEntries? ==> r == s.entries
    ensures s.NoSlots? ==> r == []
  {
    match s
    case NoSlots => []
    case SlotEntries(e) => e
  }

  /** The object the entries denote: later entries for a name win. */
  function SlotMap(entries: seq<Slot>): map<string, seq<Node>> {
    if entries == [] then map[]
    else
      var last := entries[|entries| - 1];
      SlotMap(entries[..|entries| - 1])[last.name := last.components]
  }

  /** The index of the entry that a property read of `name` sees, if any. */
  function FindSlot(entries: seq<Slot>, name: string): (r: Option<nat>)
    ensures r.Some? ==> r.value < |entries| && entries[r.value].name == name
    ensures r.Some? ==> forall j :: r.value < j < |entries| ==> entries[j].name != name
    ensures r.None? ==> forall j :: 0 <= j < |entries| ==> entries[j].name != name
  {
    if entries == [] then None
    else if entries[|entries| - 1].name == name then Some(|entries| - 1)
    else FindSlot(entries[..|entries| - 1], name)
  }

  /** `FindSlot` reads exactly the object that `SlotMap` denotes. */
  lemma {:induction false} FindSlotAgreesWithSlotMap(entries: seq<Slot>, name: string)
    ensures FindSlot(entries, name).Some? <==> name in SlotMap(entries)
    ensures FindSlot(entries, name).Some? ==>
      SlotMap(entries)[name] == entries[FindSlot(entries, name).value].components
  {
    if entries != [] {
      var init := entries[..|entries| - 1];
      FindSlotAgreesWithSlotMap(init, name);
      if entries[|entries| - 1].name != name {
        if FindSlot(init, name).Some? {
          var i := FindSlot(init, name).value;
          assert init[i] == entries[i];
        }
      }
    }
  }
}
