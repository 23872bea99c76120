/** The application tree the page builds and renders. */
module Demo {
  import opened Wrappers
  import opened Decimal
  import opened Elements
  import opened Components
  import opened Dom

  /** The innermost column: two texts, each inside a 10-pixel margin. */
  function MarginColumn(): Element {
    Column(MultiChildProps(None, [
      Margin(10, Text(Str("Hello"), None)),
      Margin(10, Text(Num(20), None))]))
  }

  /** The row: a text beside the padded margin column. */
  function MainRow(): Element {
    Row(MultiChildProps(None, [
      Text(Str("Hello world"), None),
      Padding(20, MarginColumn())]))
  }

  /** The body: a column of a text and the row. */
  function Body(): Element {
    Column(MultiChildProps(None, [Text(Str("Items 1"), None), MainRow()]))
  }

  function BuiltApp(): Element {
    App(AppProps(Body()))
  }

  lemma MarginColumnRendering()
    ensures var r := Compile(MarginColumn());
      && r.className == "column" && |r.children| == 2
      && r.children[0].style.marginTop == r.children[0].style.marginBottom == "10px"
      && r.children[0].style.marginLeft == "10px" && |r.children[0].children| == 1
      && r.children[0].children[0].innerHTML == "Hello"
      && r.children[1].style.marginTop == r.children[1].style.marginBottom == "10px"
      && r.children[1].style.marginLeft == "10px" && |r.children[1].children| == 1
      && r.children[1].children[0].innerHTML == "20"
  {
    assert IntToString(10) == "10";
    assert IntToString(20) == "20";
  }

  lemma MainRowRendering()
    ensures var r := Compile(MainRow());
      && r.className == "row" && |r.children| == 2
      && r.children[0].innerHTML == "Hello world"
      && r.children[1].style.paddingTop == r.children[1].style.paddingLeft == "20px"
      && r.children[1].style.paddingBottom == r.children[1].style.paddingRight == "20px"
      && r.children[1].style.marginRight == "20px"
      && r.children[1].children == [Compile(MarginColumn())]
  {
    assert IntToString(20) == "20";
  }

  lemma SizeOfPair(a: Element, b: Element)
    ensures SizeOfAll([a, b]) == Size(a) + Size(b)
  {
    assert [a, b][1..] == [b];
    assert [b][1..] == [];
    assert SizeOfAll([b]) == Size(b) + SizeOfAll([]);
  }

  /** The page's tree has eleven nodes, so it renders as eleven host elements. */
  lemma BuiltAppSize()
    ensures NodeCount(Compile(BuiltApp())) == 11
  {
    var hello, twenty := Text(Str("Hello"), None), Text(Num(20), None);
    assert Size(Margin(10, hello)) == Size(Margin(10, twenty)) == 2;
    SizeOfPair(Margin(10, hello), Margin(10, twenty));
    assert Size(MarginColumn()) == 5;
    assert Size(Padding(20, MarginColumn())) == 6;
    SizeOfPair(Text(Str("Hello world"), None), Padding(20, MarginColumn()));
    assert Size(MainRow()) == 8;
    SizeOfPair(Text(Str("Items 1"), None), MainRow());
    assert Size(Body()) == 10;
    assert Size(BuiltApp()) == 11;
    CompilePreservesSize(BuiltApp());
  }

  /**
   * The rendered page: an `App` root around one `column`, whose children
   * are the text "Items 1" and the rendered row.
   */
  lemma BuiltAppRendering()
    ensures var root := Compile(BuiltApp());
      && root.tag == "div" && root.className == "App"
      && root.children == [Compile(Body())]
      && Compile(Body()).className == "column"
      && Compile(Body()).children == [Compile(Text(Str("Items 1"), None)), Compile(MainRow())]
      && Compile(Text(Str("Items 1"), None)).innerHTML == "Items 1"
  {
  }

  /** `createElements(builtApp)`: the page's host element tree. */
  method RenderApp() returns (element: HtmlElement)
    ensures element.Valid() && fresh(element.Repr)
    ensures element.Model == Compile(BuiltApp())
    ensures element.Model.className == "App" && |element.Model.children| == 1
  {
    element := CreateElements(BuiltApp());
    BuiltAppRendering();
  }
}
