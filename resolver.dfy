/**
 * The component registry: a total map from a component's type tag to the
 * renderer that draws it, with a fallback for every unregistered type.
 */
module Resolver {
  import opened Wrappers
  import opened JsValue
  import opened Composition

  /** The renderers the registry can hand out. */
  datatype Renderer =
    | ContainerRenderer
    | HeroRenderer
    /** The inline fallback, which shows the type tag it was resolved for. */
    | FallbackRenderer(componentType: string)

  /** `ResolvedComponent`: the renderer and optional extra props. */
  datatype Resolved = Resolved(component: Renderer, props: Option<Value>)

  /**
   * `resolveComponent`: 'page' is drawn by the container, 'hero' by the hero,
   * and every other tag (including 'header', 'footer' and 'productCard', whose
   * cases are commented out) by the fallback. No case supplies extra props.
   */
  function ResolveComponent(component: Node): (r: Resolved)
    ensures r.props.None?
    ensures r.component == ContainerRenderer <==> component.kind == "page"
    ensures r.component == HeroRenderer <==> component.kind == "hero"
    ensures r.component.FallbackRenderer? <==> component.kind != "page" && component.kind != "hero"
    ensures r.component.FallbackRenderer? ==> r.component.componentType == component.kind
  {
    match component.kind
    case "page" => Resolved(ContainerRenderer, None)
    case "hero" => Resolved(HeroRenderer, None)
    case _ => Resolved(FallbackRenderer(component.kind), None)
  }

  /** The resolution depends on the type tag and nothing else. */
  lemma ResolveDependsOnlyOnType(a: Node, b: Node)
    requires a.kind == b.kind
    ensures ResolveComponent(a) == ResolveComponent(b)
  {
  }

  /** The commented-out registrations fall through to the fallback. */
  lemma UnregisteredTypesFallBack()
    ensures ResolveComponent(Node("header", None, None, NoSlots)).component == FallbackRenderer("header")
    ensures ResolveComponent(Node("footer", None, None, NoSlots)).component == FallbackRenderer("footer")
    ensures ResolveComponent(Node("productCard", None, None, NoSlots)).component == FallbackRenderer("productCard")
  {
  }

  /** The text the fallback renderer displays. */
  function FallbackText(componentType: string): (r: string)
    ensures |r| == |"Unknown component type: "| + |componentType|
    ensures r[..|"Unknown component type: "|] == "Unknown component type: "
    ensures r[|"Unknown component type: "|..] == componentType
  {
    "Unknown component type: " + componentType
  }
}
