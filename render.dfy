/**
 * The composition tree walk: `CompositionRenderer` resolves an instance and
 * hands the built props to its renderer; the container renders its `content`
 * slot through `UniformSlot`, which renders every child with
 * `CompositionRenderer` again. The hero and the fallback draw no children, so
 * the walk descends only through the `content` slot of 'page' instances.
 */
module Render {
  import opened Wrappers
  import opened JsValue
  import opened JsString
  import opened Composition
  import opened Resolver
  import opened ComponentProps
  import opened Hero

  /** The rendered element tree: what each renderer draws, with its props. */
  datatype View =
    | Nothing
    | Fragment(children: seq<Child>)
    | ContainerView(props: Props, content: View)
    | HeroView(props: Props, items: seq<HeroItem>)
    | UnknownView(props: Props, message: string)

  /** One element of a slot's fragment, with its React key. */
  datatype Child = Child(key: string, view: View)

  /** The container's `slots?.content || []`. */
  function ContentSlot(p: Props): (r: seq<Node>)
    ensures "content" in SlotMap(p.slots) ==> r == SlotMap(p.slots)["content"]
    ensures "content" !in SlotMap(p.slots) ==> r == []
  {
    GetSlot(p, "content")
  }

  /** The key of the `index`-th child of a slot: its `_id`, or a positional key. */
  function SlotKey(component: Node, slotName: string, index: nat): (key: string)
    ensures HasId(component) ==> key == component.id.value
    ensures !HasId(component) ==> key == "slot-" + slotName + "-" + NatToString(index)
  {
    if HasId(component) then component.id.value
    else "slot-" + slotName + "-" + NatToString(index)
  }

  /** `CompositionRenderer` on a null composition draws nothing. */
  function RenderComposition(composition: Option<Node>, context: Value): (v: View)
    ensures composition.None? ==> v == Nothing
    ensures composition.Some? ==> v == RenderNode(composition.value, context)
    ensures composition.Some? ==> v.ContainerView? || v.HeroView? || v.UnknownView?
  {
    match composition
    case None => Nothing
    case Some(n) => RenderNode(n, context)
  }

  /**
   * `CompositionRenderer` on an instance: resolve, build the props, and draw
   * with the resolved renderer. The container draws its content slot, the
   * hero its elements, and the fallback the text naming the type tag.
   */
  function RenderNode(n: Node, context: Value): (v: View)
    decreases n, 1
    ensures ResolveComponent(n).component == ContainerRenderer ==>
      v.ContainerView? && v.props == BuildProps(n, context)
    ensures ResolveComponent(n).component == HeroRenderer ==>
      v == HeroView(BuildProps(n, context), HeroItems(HeroFieldsOf(BuildProps(n, context))))
    ensures ResolveComponent(n).component.FallbackRenderer? ==>
      v == UnknownView(BuildProps(n, context), FallbackText(n.kind))
  {
    var p := BuildProps(n, context);
    match ResolveComponent(n).component
    case ContainerRenderer =>
      (match FindSlot(p.slots, "content")
       // No content slot: `UniformSlot` of [] draws nothing (see `UniformSlot`).
       case None => ContainerView(p, Nothing)
       case Some(i) =>
         var e := n.slots.entries[i];
         assert e in n.slots.entries;
         ContainerView(p, UniformSlot(e.components, p.context, "content")))
    case HeroRenderer => HeroView(p, HeroItems(HeroFieldsOf(p)))
    case FallbackRenderer(t) => UnknownView(p, FallbackText(t))
  }

  /** `UniformSlot`: nothing for an empty slot, else one keyed child per element. */
  function UniformSlot(slot: seq<Node>, context: Value, slotName: string): (v: View)
    decreases slot, 0
    ensures slot == [] ==> v == Nothing
    ensures slot != [] ==> v.Fragment? && |v.children| == |slot|
    ensures slot != [] ==> forall i :: 0 <= i < |slot| ==>
      v.children[i] == Child(SlotKey(slot[i], slotName, i), RenderNode(slot[i], context))
  {
    if |slot| == 0 then Nothing
    else Fragment(seq(|slot|, i requires 0 <= i < |slot| =>
      Child(SlotKey(slot[i], slotName, i), RenderNode(slot[i], context))))
  }

  /** The container draws the `UniformSlot` of its `content` slot, under its own context. */
  lemma ContainerDrawsContentSlot(n: Node, context: Value)
    requires n.kind == "page"
    ensures RenderNode(n, context).ContainerView?
    ensures RenderNode(n, context).content
         == UniformSlot(ContentSlot(BuildProps(n, context)), BuildProps(n, context).context, "content")
  {
  }

  /** Two children of one slot that both lack an `_id` get different keys. */
  lemma PositionalKeysDistinct(slot: seq<Node>, slotName: string, i: nat, j: nat)
    requires i < |slot| && j < |slot| && i != j
    requires !HasId(slot[i]) && !HasId(slot[j])
    ensures SlotKey(slot[i], slotName, i) != SlotKey(slot[j], slotName, j)
  {
    var prefix := "slot-" + slotName + "-";
    var a, b := SlotKey(slot[i], slotName, i), SlotKey(slot[j], slotName, j);
    assert a == prefix + NatToString(i) && b == prefix + NatToString(j);
    if a == b {
      assert a[|prefix|..] == NatToString(i);
      assert b[|prefix|..] == NatToString(j);
      NatToStringInjective(i, j);
    }
  }

  /** A slot under another name next to `content` changes nothing the container draws. */
  lemma ContainerIgnoresOtherSlots(n: Node, context: Value, other: Slot)
    requires n.kind == "page" && other.name != "content"
    ensures RenderNode(n.(slots := SlotEntries(SlotList(n.slots) + [other])), context).content
         == RenderNode(n, context).content
  {
    var entries := SlotList(n.slots) + [other];
    assert entries[..|entries| - 1] == SlotList(n.slots);
    assert FindSlot(entries, "content") == FindSlot(SlotList(n.slots), "content");
  }

  /**
   * The instances reachable from `n` through the `content` slots of 'page'
   * instances, in pre-order: `n` first, then the walk of each child in turn.
   */
  function Reachable(n: Node): (r: seq<Node>)
    decreases n, 1
    ensures |r| >= 1 && r[0] == n
  {
    if n.kind != "page" then [n]
    else
      match FindSlot(SlotList(n.slots), "content")
      case None => [n]
      case Some(i) =>
        var e := n.slots.entries[i];
        assert e in n.slots.entries;
        [n] + ReachableAll(e.components)
  }

  function ReachableAll(s: seq<Node>): seq<Node>
    decreases s, 0
  {
    if s == [] then [] else Reachable(s[0]) + ReachableAll(s[1..])
  }

  /** The instances a rendered tree draws, in drawing order. */
  function NodesOf(v: View): seq<Node>
    decreases v, 1
  {
    match v
    case Nothing => []
    case Fragment(children) => NodesOfChildren(children)
    case ContainerView(p, content) => [p.component] + NodesOf(content)
    case HeroView(p, _) => [p.component]
    case UnknownView(p, _) => [p.component]
  }

  function NodesOfChildren(children: seq<Child>): seq<Node>
    decreases children, 0
  {
    if children == [] then [] else NodesOf(children[0].view) + NodesOfChildren(children[1..])
  }

  /** The walk draws exactly the reachable instances, in pre-order. */
  lemma {:induction false} WalkDrawsReachable(n: Node, context: Value)
    decreases n, 1
    ensures NodesOf(RenderNode(n, context)) == Reachable(n)
  {
    var p := BuildProps(n, context);
    if n.kind == "page" {
      match FindSlot(p.slots, "content")
      case None =>
      case Some(i) =>
        var e := n.slots.entries[i];
        assert e in n.slots.entries;
        if e.components != [] {
          var children := UniformSlot(e.components, p.context, "content").children;
          ChildrenDrawReachable(children, e.components, p.context);
        }
    }
  }

  lemma {:induction false} ChildrenDrawReachable(children: seq<Child>, slot: seq<Node>, context: Value)
    requires |children| == |slot|
    requires forall i :: 0 <= i < |slot| ==> children[i].view == RenderNode(slot[i], context)
    decreases slot, 0
    ensures NodesOfChildren(children) == ReachableAll(slot)
  {
    if slot != [] {
      WalkDrawsReachable(slot[0], context);
      ChildrenDrawReachable(children[1..], slot[1..], context);
    }
  }

  /** Every element of a rendered tree was drawn under context `c`. */
  predicate ContextEverywhere(v: View, c: Value)
    decreases v, 1
  {
    match v
    case Nothing => true
    case Fragment(children) => ContextInChildren(children, c)
    case ContainerView(p, content) => p.context == c && ContextEverywhere(content, c)
    case HeroView(p, _) => p.context == c
    case UnknownView(p, _) => p.context == c
  }

  predicate ContextInChildren(children: seq<Child>, c: Value)
    decreases children, 0
  {
    children == [] || (ContextEverywhere(children[0].view, c) && ContextInChildren(children[1..], c))
  }

  /**
   * The root's context (or `{}` when it is falsy) reaches every element of the
   * tree unchanged.
   */
  lemma {:induction false} ContextReachesEveryElement(n: Node, context: Value)
    decreases n, 1
    ensures ContextEverywhere(RenderNode(n, context), Or(context, Obj(map[])))
  {
    var p := BuildProps(n, context);
    if n.kind == "page" {
      match FindSlot(p.slots, "content")
      case None =>
      case Some(i) =>
        var e := n.slots.entries[i];
        assert e in n.slots.entries;
        if e.components != [] {
          var children := UniformSlot(e.components, p.context, "content").children;
          ChildrenKeepContext(children, e.components, p.context);
        }
    }
  }

  lemma {:induction false} ChildrenKeepContext(children: seq<Child>, slot: seq<Node>, context: Value)
    requires Truthy(context)
    requires |children| == |slot|
    requires forall i :: 0 <= i < |slot| ==> children[i].view == RenderNode(slot[i], context)
    decreases slot, 0
    ensures ContextInChildren(children, context)
  {
    if slot != [] {
      ContextReachesEveryElement(slot[0], context);
      ChildrenKeepContext(children[1..], slot[1..], context);
    }
  }
}
