/**
 * The builders: pure functions from properties to element nodes, and the
 * layout shorthands composed from them.
 */
module Components {
  import opened Wrappers
  import opened Decimal
  import opened Elements

  datatype SingleChildProps = SingleChildProps(cls: Option<string>, child: Element)
  datatype ContentProps = ContentProps(cls: Option<string>)
  datatype MultiChildProps = MultiChildProps(cls: Option<string>, elements: seq<Element>)
  datatype StylingProps = StylingProps(style: Style, child: Element)
  datatype AppProps = AppProps(body: Element)

  function SingleChildComponent(tag: string, props: SingleChildProps): (r: Element)
    ensures r.SingleChild? && r.tag == tag
    ensures r.cls == props.cls && r.child == props.child
  {
    SingleChild(tag, props.cls, props.child)
  }

  /** `props` is optional; leaving it out leaves the class unset. */
  function ContentComponent(tag: string, content: Payload, props: Option<ContentProps>): (r: Element)
    ensures r.Content? && r.tag == tag && r.content == content
    ensures props.None? ==> r.cls.None?
    ensures props.Some? ==> r.cls == props.value.cls
  {
    Content(tag, if props.Some? then props.value.cls else None, content)
  }

  function MultiChildComponent(tag: string, props: MultiChildProps): (r: Element)
    ensures r.MultiChild? && r.tag == tag
    ensures r.cls == props.cls && r.elements == props.elements
  {
    MultiChild(tag, props.cls, props.elements)
  }

  /** A styling node is always a `div` and never has a class of its own. */
  function StylingComponent(props: StylingProps): (r: Element)
    ensures r.Styling? && r.tag == "div" && r.cls.None?
    ensures r.style == props.style && r.child == props.child
  {
    Styling("div", None, props.style, props.child)
  }

  /** The application root: a `div` of class `App` around the body. */
  function App(props: AppProps): (r: Element)
    ensures r.SingleChild? && r.tag == "div" && r.cls == Some("App")
    ensures r.child == props.body
  {
    SingleChildComponent("div", SingleChildProps(Some("App"), props.body))
  }

  function Div(props: SingleChildProps): (r: Element)
    ensures r.SingleChild? && r.tag == "div"
    ensures r.cls == props.cls && r.child == props.child
  {
    SingleChildComponent("div", props)
  }

  function Text(text: Payload, props: Option<ContentProps>): (r: Element)
    ensures r.Content? && r.tag == "div" && r.content == text
    ensures props.None? ==> r.cls.None?
    ensures props.Some? ==> r.cls == props.value.cls
  {
    ContentComponent("div", text, props)
  }

  /**
   * A class list whose first class is `base`: `base` alone, or `base`
   * followed by a space and further classes.
   */
  predicate FirstClassIs(classes: string, base: string) {
    classes == base || (|classes| > |base| && classes[..|base| + 1] == base + " ")
  }

  /**
   * The class of a row or column: the base class, then the caller's class
   * after a space when the caller gave a non-empty one.
   */
  function LayoutClass(base: string, cls: Option<string>): (c: string)
    ensures FirstClassIs(c, base)
    ensures Truthy(cls) ==> |c| > |base| + 1 && c[|base| + 1..] == cls.value
    ensures !Truthy(cls) ==> c == base
  {
    var appended := base;
    if Truthy(cls) then appended + " " + cls.value else appended
  }

  /** A horizontal layout: the caller's elements under a `div` of class `row`. */
  function Row(props: MultiChildProps): (r: Element)
    ensures r.MultiChild? && r.tag == "div" && r.elements == props.elements
    ensures r.cls.Some? && FirstClassIs(r.cls.value, "row")
    ensures Truthy(props.cls) ==> r.cls.value == "row " + props.cls.value
    ensures !Truthy(props.cls) ==> r.cls.value == "row"
  {
    MultiChildComponent("div", props.(cls := Some(LayoutClass("row", props.cls))))
  }

  /** A vertical layout: the caller's elements under a `div` of class `column`. */
  function Column(props: MultiChildProps): (r: Element)
    ensures r.MultiChild? && r.tag == "div" && r.elements == props.elements
    ensures r.cls.Some? && FirstClassIs(r.cls.value, "column")
    ensures Truthy(props.cls) ==> r.cls.value == "column " + props.cls.value
    ensures !Truthy(props.cls) ==> r.cls.value == "column"
  {
    MultiChildComponent("div", props.(cls := Some(LayoutClass("column", props.cls))))
  }

  /** The same space on all four padding edges; no other property set. */
  function Padding(padding: SafeInt, child: Element): (r: Element)
    ensures r.Styling? && r.tag == "div" && r.cls.None? && r.child == child
    ensures r.style.paddingTop == r.style.paddingBottom == Some(padding)
    ensures r.style.paddingLeft == r.style.paddingRight == Some(padding)
    ensures r.style.(paddingTop := None, paddingBottom := None,
                     paddingLeft := None, paddingRight := None) == EMPTY_STYLE
  {
    StylingComponent(StylingProps(
      EMPTY_STYLE.(paddingTop := Some(padding), paddingBottom := Some(padding),
                   paddingLeft := Some(padding), paddingRight := Some(padding)),
      child))
  }

  /** The same space on all four margin edges; no other property set. */
  function Margin(margin: SafeInt, child: Element): (r: Element)
    ensures r.Styling? && r.tag == "div" && r.cls.None? && r.child == child
    ensures r.style.marginTop == r.style.marginBottom == Some(margin)
    ensures r.style.marginLeft == r.style.marginRight == Some(margin)
    ensures r.style.(marginTop := None, marginBottom := None,
                     marginLeft := None, marginRight := None) == EMPTY_STYLE
  {
    StylingComponent(StylingProps(
      EMPTY_STYLE.(marginTop := Some(margin), marginBottom := Some(margin),
                   marginLeft := Some(margin), marginRight := Some(margin)),
      child))
  }

  /** Full height and width, content centred on both axes; no other property set. */
  function Center(child: Element): (r: Element)
    ensures r.Styling? && r.tag == "div" && r.cls.None? && r.child == child
    ensures r.style.height == r.style.width == Some(100)
    ensures r.style.justifyContent == r.style.alignItems == Some("center")
    ensures r.style.(height := None, width := None,
                     justifyContent := None, alignItems := None) == EMPTY_STYLE
  {
    StylingComponent(StylingProps(
      EMPTY_STYLE.(height := Some(100), width := Some(100),
                   justifyContent := Some("center"), alignItems := Some("center")),
      child))
  }
}
