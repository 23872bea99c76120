/**
 * The tree compiler: `Compile` says what host element tree a declarative
 * tree becomes; `CreateElements` builds that tree imperatively out of
 * `HtmlElement` objects, and is proved to build exactly `Compile`'s tree.
 */
module Dom {
  import opened Wrappers
  import opened Decimal
  import opened Elements
  import opened Components
  import opened Css

  /**
   * A host element as a value: its tag, the class and inner HTML assigned
   * to it (empty when never assigned), its style object's properties, and
   * its children in order.
   */
  datatype DomNode = DomNode(tag: string, className: string, innerHTML: string,
                             style: CssDecl, children: seq<DomNode>)

  /** `'' + content`. */
  function ContentText(content: Payload): string {
    match content
    case Str(s) => s
    case Num(n) => IntToString(n)
  }

  /**
   * The element tree `createElements` builds for `e`: an element of `e`'s
   * tag; a content node's text, or its compiled children in order; the
   * style of a styling node; the class when it is present and not empty.
   */
  function Compile(e: Element): (r: DomNode)
    ensures r.tag == e.tag
    ensures r.className == if Truthy(e.cls) then e.cls.value else ""
    ensures r.innerHTML == if e.Content? then ContentText(e.content) else ""
    ensures r.style == if e.Styling? then StyleDecl(e.style) else BLANK_DECL
    ensures e.Content? ==> r.children == []
    ensures e.SingleChild? || e.Styling? ==> r.children == [Compile(e.child)]
    ensures e.MultiChild? ==> r.children == CompileAll(e.elements)
  {
    var created := DomNode(e.tag, "", "", BLANK_DECL, []);
    var filled := match e
      case Content(_, _, content) => created.(innerHTML := ContentText(content))
      case SingleChild(_, _, child) => created.(children := [Compile(child)])
      case MultiChild(_, _, elements) => created.(children := CompileAll(elements))
      case Styling(_, _, style, child) =>
        created.(style := StyleDecl(style), children := [Compile(child)]);
    if Truthy(e.cls) then filled.(className := e.cls.value) else filled
  }

  /** The compiled elements, one for one and in the same order. */
  function CompileAll(es: seq<Element>): (r: seq<DomNode>)
    ensures |r| == |es|
    ensures forall i :: 0 <= i < |es| ==> r[i] == Compile(es[i])
  {
    if es == [] then [] else [Compile(es[0])] + CompileAll(es[1..])
  }

  /** The number of elements in a host element tree. */
  function NodeCount(d: DomNode): nat {
    1 + NodeCountAll(d.children)
  }

  function NodeCountAll(ds: seq<DomNode>): nat {
    if ds == [] then 0 else NodeCount(ds[0]) + NodeCountAll(ds[1..])
  }

  // ---------------------------------------------------------------------
  // Properties of the compiled tree

  /** Compiling one more element appends its compiled form. */
  lemma {:induction false} CompileAllPush(es: seq<Element>, e: Element)
    ensures CompileAll(es + [e]) == CompileAll(es) + [Compile(e)]
  {
    if es == [] {
      assert es + [e] == [e];
      assert [e][1..] == [];
    } else {
      assert (es + [e])[1..] == es[1..] + [e];
      CompileAllPush(es[1..], e);
    }
  }

  lemma CompileAllSnoc(es: seq<Element>, i: nat)
    requires i < |es|
    ensures CompileAll(es[..i + 1]) == CompileAll(es[..i]) + [Compile(es[i])]
  {
    assert es[..i + 1] == es[..i] + [es[i]];
    CompileAllPush(es[..i], es[i]);
  }

  lemma NodeCountOne(d: DomNode)
    ensures NodeCountAll([d]) == NodeCount(d)
  {
    assert [d][1..] == [];
  }

  /** Compiling creates exactly one host element per node of the tree. */
  lemma {:induction false} CompilePreservesSize(e: Element)
    ensures NodeCount(Compile(e)) == Size(e)
    decreases e, 1
  {
    match e
    case Content(_, _, _) =>
    case SingleChild(_, _, child) =>
      CompilePreservesSize(child);
      NodeCountOne(Compile(child));
    case MultiChild(_, _, elements) =>
      CompileAllPreservesSize(elements);
    case Styling(_, _, _, child) =>
      CompilePreservesSize(child);
      NodeCountOne(Compile(child));
  }

  lemma {:induction false} CompileAllPreservesSize(es: seq<Element>)
    ensures NodeCountAll(CompileAll(es)) == SizeOfAll(es)
    decreases es, 0
  {
    if es != [] {
      CompilePreservesSize(es[0]);
      CompileAllPreservesSize(es[1..]);
      assert CompileAll(es)[1..] == CompileAll(es[1..]);
    }
  }

  /** Only styling nodes produce a styled element: a rendered style always has a display. */
  lemma StyledExactlyWhenStyling(e: Element)
    ensures Compile(e).style != BLANK_DECL <==> e.Styling?
  {
    if e.Styling? {
      DisplayDefault(e.style);
    }
  }

  /** A content node's text reads back as the number it shows. */
  lemma NumberContentReadsBack(tag: string, n: SafeInt, props: Option<ContentProps>)
    ensures ParseInt(Compile(ContentComponent(tag, Num(n), props)).innerHTML) == n
  {
    IntRoundTrip(n);
  }

  /** The children of a multi-child node are its compiled elements, in order. */
  lemma MultiChildRendersInOrder(tag: string, props: MultiChildProps)
    ensures var r := Compile(MultiChildComponent(tag, props));
      && r.tag == tag
      && |r.children| == |props.elements|
      && forall i :: 0 <= i < |props.elements| ==> r.children[i] == Compile(props.elements[i])
  {
  }

  /** A row or column compiles to an element whose first class is `row` or `column`. */
  lemma LayoutRendersBaseClass(props: MultiChildProps)
    ensures FirstClassIs(Compile(Row(props)).className, "row")
    ensures FirstClassIs(Compile(Column(props)).className, "column")
  {
  }

  /**
   * A padded element gets the amount on all four padding edges; the margin
   * edges print as undefined except the right one, which repeats the right
   * padding.
   */
  lemma PaddingRendering(n: SafeInt, child: Element)
    ensures var r := Compile(Padding(n, child));
      && r.tag == "div" && r.className == "" && r.children == [Compile(child)]
      && r.style.paddingTop == r.style.paddingBottom == IntToString(n) + "px"
      && r.style.paddingLeft == r.style.paddingRight == IntToString(n) + "px"
      && r.style.marginTop == r.style.marginBottom == r.style.marginLeft == "undefinedpx"
      && r.style.marginRight == IntToString(n) + "px"
      && r.style.height == r.style.width == "undefined%"
      && r.style.display == "block"
  {
  }

  /**
   * A margined element gets the amount on the top, bottom and left margins;
   * the right margin repeats the (unset) right padding.
   */
  lemma MarginRendering(n: SafeInt, child: Element)
    ensures var r := Compile(Margin(n, child));
      && r.tag == "div" && r.className == "" && r.children == [Compile(child)]
      && r.style.marginTop == r.style.marginBottom == r.style.marginLeft == IntToString(n) + "px"
      && r.style.marginRight == "undefinedpx"
      && r.style.paddingTop == r.style.paddingBottom == "undefinedpx"
      && r.style.paddingLeft == r.style.paddingRight == "undefinedpx"
  {
  }

  /** A centred element fills its parent and centres on both axes. */
  lemma CenterRendering(child: Element)
    ensures var r := Compile(Center(child));
      && r.tag == "div" && r.className == "" && r.children == [Compile(child)]
      && r.style.height == r.style.width == "100%"
      && r.style.justifyContent == r.style.alignItems == "center"
      && r.style.display == "block" && r.style.flexDirection == ""
  {
    var s := Center(child).style;
    assert s == EMPTY_STYLE.(height := Some(100), width := Some(100),
                             justifyContent := Some("center"), alignItems := Some("center"));
    assert IntToString(100) == "100";
    assert Percent(Some(100)) == "100%";
    assert OrElse(Some("center"), "") == "center";
  }

  // ---------------------------------------------------------------------
  // The host element and the imperative compiler

  /**
   * A host element. `Model` is its content as a `DomNode`; `Repr` is the
   * set of objects it owns: itself, its style object and its descendants.
   */
  class HtmlElement {
    const tagName: string
    var className: string
    var innerHTML: string
    const style: CssStyle
    var children: seq<HtmlElement>

    ghost var Model: DomNode
    ghost var Repr: set<object>

    ghost predicate Valid()
      reads this, Repr
      decreases Repr
    {
      && this in Repr && style in Repr
      && Model.tag == tagName && Model.className == className
      && Model.innerHTML == innerHTML && Model.style == style.Decl()
      && |Model.children| == |children|
      && (forall i :: 0 <= i < |children| ==>
            && children[i] in Repr && children[i].Repr <= Repr
            && this !in children[i].Repr && style !in children[i].Repr
            && children[i].Valid() && children[i].Model == Model.children[i])
      && (forall i, j :: 0 <= i < j < |children| ==> children[i].Repr !! children[j].Repr)
    }

    /** `document.createElement(tag)`: no class, no content, a blank style, no children. */
    constructor (tag: string)
      ensures Valid() && fresh(Repr)
      ensures Model == DomNode(tag, "", "", BLANK_DECL, [])
    {
      tagName := tag;
      className := "";
      innerHTML := "";
      style := new CssStyle();
      children := [];
      Model := DomNode(tag, "", "", BLANK_DECL, []);
      Repr := {this, style};
    }

    method SetClassName(name: string)
      requires Valid()
      modifies this
      ensures Valid() && Repr == old(Repr)
      ensures Model == old(Model).(className := name)
    {
      className := name;
      Model := Model.(className := name);
    }

    method SetInnerHTML(text: string)
      requires Valid()
      modifies this
      ensures Valid() && Repr == old(Repr)
      ensures Model == old(Model).(innerHTML := text)
    {
      innerHTML := text;
      Model := Model.(innerHTML := text);
    }

    /** `configureStyle(element.style, s)`: only the style changes in `Model`. */
    method SetStyle(s: Style)
      requires Valid()
      modifies this, style
      ensures Valid() && Repr == old(Repr)
      ensures Model == old(Model).(style := StyleDecl(s))
    {
      label before:
      ConfigureStyle(style, s);
      Model := Model.(style := style.Decl());
      StyleUpdateKeepsValid@before(this);
    }

    /** Adds `child`, which shares no object with this element, as the last child. */
    method AppendChild(child: HtmlElement)
      requires Valid() && child.Valid()
      requires Repr !! child.Repr
      modifies this
      ensures Valid() && Repr == old(Repr) + child.Repr
      ensures Model == old(Model).(children := old(Model).children + [child.Model])
    {
      children := children + [child];
      Model := Model.(children := Model.children + [child.Model]);
      Repr := Repr + child.Repr;
    }
  }

  /**
   * Rewriting an element's own style object keeps it valid once `Model`
   * records the new style: no child owns the style object or the element.
   */
  twostate lemma StyleUpdateKeepsValid(e: HtmlElement)
    requires old(e.Valid())
    requires e.Repr == old(e.Repr) && e.children == old(e.children)
    requires e.className == old(e.className) && e.innerHTML == old(e.innerHTML)
    requires forall o :: o in old(e.Repr) && o != e && o != e.style ==> unchanged(o)
    requires e.Model == old(e.Model).(style := e.style.Decl())
    ensures e.Valid()
  {
    forall i | 0 <= i < |e.children|
      ensures e.children[i].Valid()
    {
      assert old(e.children[i].Valid());
    }
  }

  /** `createElements`: builds a new host element tree for `root`. */
  method CreateElements(root: Element) returns (element: HtmlElement)
    ensures element.Valid() && fresh(element.Repr)
    ensures element.Model == Compile(root)
    decreases root, 1
  {
    element := new HtmlElement(root.tag);
    ghost var compiled := Compile(root);

    match root {
      case Content(_, _, content) =>
        element.SetInnerHTML(ContentText(content));
      case SingleChild(_, _, child) =>
        AppendCompiled(element, child);
      case MultiChild(_, _, elements) =>
        AppendAllCompiled(element, elements);
      case Styling(_, _, style, child) =>
        element.SetStyle(style);
        AppendCompiled(element, child);
    }
    assert element.Model == compiled.(className := "");

    if Truthy(root.cls) {
      element.SetClassName(root.cls.value);
    }
  }

  /** `for (let child of elements) element.appendChild(createElements(child))`. */
  method AppendAllCompiled(element: HtmlElement, elements: seq<Element>)
    requires element.Valid()
    modifies element
    ensures element.Valid() && fresh(element.Repr - old(element.Repr))
    ensures element.Model == old(element.Model).(children := old(element.Model).children + CompileAll(elements))
    decreases elements, 2
  {
    for i := 0 to |elements|
      invariant element.Valid() && fresh(element.Repr - old(element.Repr))
      invariant element.Model == old(element.Model).(children := old(element.Model).children + CompileAll(elements[..i]))
    {
      AppendCompiled(element, elements[i]);
      CompileAllSnoc(elements, i);
    }
    assert elements[..|elements|] == elements;
  }

  /** `element.appendChild(createElements(e))`. */
  method AppendCompiled(element: HtmlElement, e: Element)
    requires element.Valid()
    modifies element
    ensures element.Valid() && fresh(element.Repr - old(element.Repr))
    ensures element.Model == old(element.Model).(children := old(element.Model).children + [Compile(e)])
    decreases e, 3
  {
    var c := CreateElements(e);
    element.AppendChild(c);
  }
}
