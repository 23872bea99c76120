# Weaver: declarative UI tree and its compiler, in Dafny

Weaver describes a page as an immutable tree of elements. Application code builds the tree with small builder functions. A compiler, `createElements`, then walks the tree once and builds host (browser) elements. It sets their class, inner HTML and style, and appends children in order. This project models that core, `src/index.ts`, and proves what it promises.

- `Elements` (`elements.dfy`) is the tree. It is a closed datatype with four kinds of node: content, single-child, multi-child and styling. Every node has a tag and an optional class. The module also holds the `Style` record of optional properties, JavaScript truthiness of an optional string (`Truthy`), and the size of a tree.
- `Components` (`components.dfy`) holds the builders as pure functions: `SingleChildComponent`, `ContentComponent`, `MultiChildComponent`, `StylingComponent`, `App`, `Div`, `Text`, `Row`, `Column`, `Padding`, `Margin` and `Center`.
- `Css` (`css.dfy`) holds `NumToPix` and `configureStyle`. `StyleDecl` is the value that `configureStyle` writes. `CssStyle` is the host style object, and the method `ConfigureStyle` assigns its fourteen properties one at a time, in the code's four groups: size, padding, margin and layout. The module also holds the corrected mapping (`IntendedStyleDecl`): `|| 0` applied to unset numbers, and each margin edge taken from its own property. It states the exact conditions under which the two mappings agree.
- `Dom` (`dom.dfy`) holds the compiler. `Compile` is the host tree, as a `DomNode` value, that a declarative tree becomes. `HtmlElement` is a host element object: its class name, inner HTML, style object and children are fields, with a ghost `Model` and `Repr`. `CreateElements` builds the tree imperatively and is proved to build exactly `Compile(root)` out of fresh objects. Two calls on the same tree therefore give equal but disjoint element trees.
- `Decimal` (`decimal.dfy`) is JavaScript's `'' + n` for a safe integer, with a parser that inverts it.
- `Demo` (`demo.dfy`) is the page's own tree (`builtApp`) and what it renders to.

The code's style rendering departs from its evident intent in three places. This model follows the code as written:
- An unset padding or margin edge renders as `undefinedpx`. `NumToPix` computes `num || 0` but then prints `num`.
- An unset height or width renders as `undefined%`.
- The bottom margin is taken from `marginLeft`, and the right margin from `paddingRight`.

As a result, `Padding(n, c)` renders its right margin as `n` px. `Margin(n, c)` renders its right margin as `undefinedpx`. `Css.StyleDeclMatchesIntended` states exactly when the code's rendering equals the corrected one.

Host values are modelled as follows:
- A host element starts with an empty class name, empty inner HTML and every style property empty.
- "Class assigned only when present and non-empty" is therefore proved as: the class name is the class when it is truthy, and `""` otherwise.
- Numbers are integers with absolute value at most 2^53 − 1. For those, JavaScript's text of the number is plain decimal.

## Model

| member | source | states |
|---|---|---|
| Decimal.NatToString | src/index.ts:221 | the text of a natural number is a non-empty string of decimal digits, one character long exactly when the number is below 10, and starting with `0` only for 0 itself (no leading zeros) |
| Decimal.IntToString | src/index.ts:221 | the text `'' + n` of an integer is non-empty; it starts with a minus sign exactly when `n` is negative, and otherwise with a digit; no leading zero follows the sign, and a text starting with `0` is `0` itself |
| Decimal.IntRoundTrip | src/index.ts:221 | parsing the text `'' + n` gives back `n`, for every integer |
| Decimal.IntToStringInjective | src/index.ts:192 | two integers print the same exactly when they are equal |
| Components.SingleChildComponent | src/index.ts:71-77 | the node is single-child, with the given tag, and the class and child from the props |
| Components.ContentComponent | src/index.ts:81-92 | the node is a content node with the given tag and content; its class comes from the props when they are given and is unset otherwise |
| Components.MultiChildComponent | src/index.ts:98-104 | the node is multi-child, with the given tag, and the class and element sequence from the props |
| Components.StylingComponent | src/index.ts:111-118 | the node is a styling node, always a `div`, with no class, carrying exactly the given style and child |
| Components.App | src/index.ts:124-126 | the root is a single-child `div` of class `App` whose child is the body |
| Components.Div | src/index.ts:128-130 | a single-child `div` with the caller's class and child |
| Components.Text | src/index.ts:132-134 | a content `div` showing the given text or number, with the class from the optional props |
| Components.LayoutClass | src/index.ts:137-139 | the class list starts with the base class; the caller's class follows a space when it is non-empty, and otherwise the base class stands alone |
| Components.Row | src/index.ts:136-142 | a multi-child `div` with the caller's elements unchanged; its class is `row`, or `row ` followed by the caller's non-empty class, so `row` is always the first class |
| Components.Column | src/index.ts:144-150 | the same as `Row`, with base class `column` |
| Components.Padding | src/index.ts:152-162 | a styling `div` around the child with all four padding edges set to the amount and every other style property unset |
| Components.Margin | src/index.ts:164-174 | a styling `div` around the child with all four margin edges set to the amount and every other style property unset |
| Components.Center | src/index.ts:176-186 | a styling `div` with height and width 100, `justifyContent` and `alignItems` set to `center`, and every other property unset |
| Css.NumToPix | src/index.ts:190-193 | the pixel string ends in `px`, and it is `undefinedpx` exactly when the number is absent |
| Css.NumToPixReadsBack | src/index.ts:190-193 | for a set number, the text before `px` parses back to that number |
| Css.Percent | src/index.ts:196-197 | the height or width string ends in `%`, and it is `undefined%` exactly when the number is absent |
| Css.PercentReadsBack | src/index.ts:196-197 | for a set number, the text before `%` parses back to that number |
| Css.NumberTextShows | src/index.ts:190-197 | the string rendered for an optional number, read back before its unit, gives exactly that number when it is set and no number when it is not |
| Css.OrElse | src/index.ts:209-212 | JavaScript's logical or of the property and the fallback: a set, non-empty property is returned unchanged, and an absent or empty one gives the fallback; the result is never empty when the fallback is not |
| Css.StyleDecl | src/index.ts:196-212 | the strings assigned: height and width end in `%`, every padding and margin edge ends in `px`, and `display` is never empty |
| Css.ConfigureStyle | src/index.ts:195-213 | after the call, the style object holds exactly the strings `StyleDecl` gives for the style |
| Css.SetSize | src/index.ts:196-197 | height and width become the number followed by `%`; no other property changes |
| Css.SetPadding | src/index.ts:199-202 | each padding edge becomes its own property's pixel string; no other property changes |
| Css.SetMargin | src/index.ts:204-207 | the top and left margins become their own pixel strings, the bottom margin the left margin's and the right margin the right padding's; no other property changes |
| Css.SetLayout | src/index.ts:209-212 | display becomes the property or `block`, and the flex properties become the property or empty; no other property changes |
| Css.StyleDeclShowsValues | src/index.ts:196-207 | for every style, each height, width, padding and margin string shows exactly the number of the property the code reads for it (the left margin for the bottom one, the right padding for the right one), and no number when that property is unset |
| Css.NumToPixInjective | src/index.ts:190-193 | two optional numbers give the same pixel string exactly when they are equal; `undefinedpx` never equals a number's pixel string |
| Css.DisplayDefault | src/index.ts:209 | the rendered `display` is never empty; it is `block` exactly when `display` is unset or empty, or is `block` itself |
| Css.MarginCrossWiring | src/index.ts:205-207 | for every style, the rendered bottom margin equals the rendered left margin and the rendered right margin equals the rendered right padding |
| Css.MarginRightIgnored | src/index.ts:204-207 | changing only `marginRight` or only `marginBottom` of a style leaves its rendering unchanged |
| Css.IntendedEdgesOwnSource | src/index.ts:190-207 | under the corrected mapping, equal renderings imply equal top, bottom, left and right margins and right padding, with an unset value counting as 0 |
| Css.StyleDeclFieldByField | src/index.ts:190-212 | property by property, the code's string equals the corrected one exactly when the property it reads is set; the bottom and right margins do exactly when the left margin and right padding agree with them (unset counting as 0); display and the flex properties always agree |
| Css.StyleDeclMatchesIntended | src/index.ts:190-212 | the code's rendering equals the corrected one exactly when every numeric property it reads is set, the bottom margin agrees with the left margin, and the right margin agrees with the right padding |
| Dom.Compile | src/index.ts:215-244 | the element has the node's tag. Its class name is the node's class when truthy, else empty. Its inner HTML is `'' + content` for a content node, else empty. Its style is the rendered style for a styling node, else blank. It has no children for a content node, one compiled child for a single-child or styling node, and the compiled elements for a multi-child node |
| Dom.CompileAll | src/index.ts:228-233 | the compiled sequence has one entry per element, in the same order, each the compiled element |
| Dom.CompileAllPush | src/index.ts:230-232 | compiling a sequence with one more element at the end appends that element's compiled form |
| Dom.CompilePreservesSize | src/index.ts:215-244 | the compiled tree has exactly as many host elements as the declarative tree has nodes |
| Dom.StyledExactlyWhenStyling | src/index.ts:234-238 | an element's style is not blank exactly when its node is a styling node |
| Dom.NumberContentReadsBack | src/index.ts:219-221 | a numeric content node's inner HTML parses back to the number |
| Dom.MultiChildRendersInOrder | src/index.ts:228-233 | a multi-child component's element has one child per element, in order, each the compiled element |
| Dom.LayoutRendersBaseClass | src/index.ts:136-150 | the compiled `Row` and `Column` carry `row` or `column` as their first class, whatever class the caller gave |
| Dom.PaddingRendering | src/index.ts:152-212 | a padded element shows the amount in px on all four padding edges. Its top, bottom and left margins are `undefinedpx`, its right margin is the amount in px, its height and width are `undefined%` and its display is `block` |
| Dom.MarginRendering | src/index.ts:164-212 | a margined element shows the amount in px on its top, bottom and left margins. Its right margin and all padding edges are `undefinedpx` |
| Dom.CenterRendering | src/index.ts:176-212 | a centred element has height and width `100%`, `justifyContent` and `alignItems` `center`, display `block` and an empty `flexDirection` |
| Dom.HtmlElement.constructor | src/index.ts:216 | a new element has the tag, an empty class name and inner HTML, a blank style and no children, and owns only fresh objects |
| Dom.HtmlElement.SetClassName | src/index.ts:241 | only the class name changes |
| Dom.HtmlElement.SetInnerHTML | src/index.ts:221 | only the inner HTML changes |
| Dom.HtmlElement.SetStyle | src/index.ts:235 | only the style changes, to the strings `StyleDecl` gives for the style, and the element stays valid |
| Dom.StyleUpdateKeepsValid | src/index.ts:235 | rewriting an element's own style object, with its record updated to match, keeps the element tree valid |
| Dom.HtmlElement.AppendChild | src/index.ts:226 | the child is added after the existing children, and nothing else changes |
| Dom.CreateElements | src/index.ts:215-244 | returns a valid element tree made only of fresh objects, in which no two siblings share an object, whose content is exactly `Compile(root)` |
| Dom.AppendAllCompiled | src/index.ts:230-232 | appends the compiled elements, in order, after the existing children |
| Dom.AppendCompiled | src/index.ts:225-226 | appends one freshly compiled child after the existing children |
| Demo.MarginColumnRendering | src/index.ts:257-258 | the inner column renders with class `column` and two children, each with 10px top, bottom and left margins, showing `Hello` and `20` |
| Demo.MainRowRendering | src/index.ts:252-262 | the row renders with class `row`, holding `Hello world` and a container padded 20px on every side (and, from the cross-wiring, with a 20px right margin) around the inner column |
| Demo.BuiltAppRendering | src/index.ts:248-265 | the page renders with root class `App`, whose only child has class `column` and holds the text `Items 1` followed by the rendered row |
| Demo.BuiltAppSize | src/index.ts:248-265 | the page renders as eleven host elements |
| Demo.RenderApp | src/index.ts:267 | building the page's tree gives fresh elements whose content is the compiled page, rooted at class `App` with one child |

## Left out

- `public/server.ts` is not part of this model. It only reads one file and serves it over HTTP.
- `document.body.appendChild(element)` and `console.log(builtApp)` are host calls and are not modelled.
- `document.createElement` failing on a tag name the host rejects is not modelled. Every tag yields an element.
- Assigning `innerHTML` parses HTML in a browser. Here the inner HTML is an opaque string, and it does not reflect the children.
- A browser ignores CSS strings it cannot parse, such as `undefinedpx`. The model records the strings as they are assigned.
- Non-integer numbers and integers beyond 2^53 − 1 are not modelled. A JavaScript number cannot hold every integer beyond 2^53 − 1, so `'' + n` could print a different integer than the one written. Integers up to 2^53 − 1 print as plain decimal.
- The object spread `...props` copies any extra property a caller passes. Only the declared props (class, child, elements) are modelled.
- Dom.HtmlElement.AppendChild: requires the child to share no object with the parent. A host `appendChild` would instead move an already attached node, which the compiler never does because every child it appends is new.
