/**
 * The declarative element tree: four kinds of node, each with a tag naming
 * the host element to create and an optional class string, and the style
 * record a styling node carries. Trees are immutable values.
 */
module Elements {
  import opened Wrappers
  import opened Decimal

  /** What a content node shows: a string or a number. */
  datatype Payload = Str(text: string) | Num(number: SafeInt)

  /** The recognised style properties, each optional. */
  datatype Style = Style(
    height: Option<SafeInt>,
    width: Option<SafeInt>,
    paddingTop: Option<SafeInt>,
    paddingBottom: Option<SafeInt>,
    paddingLeft: Option<SafeInt>,
    paddingRight: Option<SafeInt>,
    marginTop: Option<SafeInt>,
    marginBottom: Option<SafeInt>,
    marginLeft: Option<SafeInt>,
    marginRight: Option<SafeInt>,
    display: Option<string>,
    flexDirection: Option<string>,
    justifyContent: Option<string>,
    alignItems: Option<string>)

  /** `{}`: a style with no property set. */
  const EMPTY_STYLE := Style(None, None, None, None, None, None, None, None, None, None,
                             None, None, None, None)

  /**
   * A node of the tree. The constructor is the node's `type`; `cls` is its
   * optional `class` property.
   */
  datatype Element =
    | Content(tag: string, cls: Option<string>, content: Payload)
    | SingleChild(tag: string, cls: Option<string>, child: Element)
    | MultiChild(tag: string, cls: Option<string>, elements: seq<Element>)
    | Styling(tag: string, cls: Option<string>, style: Style, child: Element)

  /** JavaScript truthiness of an optional string: present and not empty. */
  predicate Truthy(s: Option<string>) {
    s.Some? && s.value != ""
  }

  /** The number of nodes in a tree. */
  function Size(e: Element): nat {
    match e
    case Content(_, _, _) => 1
    case SingleChild(_, _, child) => 1 + Size(child)
    case MultiChild(_, _, elements) => 1 + SizeOfAll(elements)
    case Styling(_, _, _, child) => 1 + Size(child)
  }

  function SizeOfAll(es: seq<Element>): nat {
    if es == [] then 0 else Size(es[0]) + SizeOfAll(es[1..])
  }
}
