/**
 * Style application: how a style record becomes the strings assigned to a
 * host element's style object, as the code writes them; and the corrected
 * mapping (`|| 0` applied to unset numbers, each margin edge taken from its
 * own property), with the exact conditions under which the two agree.
 */
module Css {
  import opened Wrappers
  import opened Decimal
  import opened Elements

  /** The fourteen properties of a host style object, as strings. */
  datatype CssDecl = CssDecl(
    height: string,
    width: string,
    paddingTop: string,
    paddingBottom: string,
    paddingLeft: string,
    paddingRight: string,
    marginTop: string,
    marginBottom: string,
    marginLeft: string,
    marginRight: string,
    display: string,
    flexDirection: string,
    justifyContent: string,
    alignItems: string)

  /** The style object of a newly created element: every property empty. */
  const BLANK_DECL := CssDecl("", "", "", "", "", "", "", "", "", "", "", "", "", "")

  /** `'' + n` for an optional number: an absent number prints as `undefined`. */
  function NumberText(n: Option<SafeInt>): string {
    match n
    case None => "undefined"
    case Some(v) => IntToString(v)
  }

  predicate EndsWith(s: string, suffix: string) {
    |s| >= |suffix| && s[|s| - |suffix|..] == suffix
  }

  /**
   * `NumToPix` as written: the number (not its `|| 0` fallback) followed by
   * `px`, so an absent number gives `undefinedpx`.
   */
  function NumToPix(num: Option<SafeInt>): (r: string)
    ensures EndsWith(r, "px")
    ensures r == "undefinedpx" <==> num.None?
  {
    NumberText(num) + "px"
  }

  /** `n + '%'`, the rendering of height and width; an absent number gives `undefined%`. */
  function Percent(num: Option<SafeInt>): (r: string)
    ensures EndsWith(r, "%")
    ensures r == "undefined%" <==> num.None?
  {
    NumberText(num) + "%"
  }

  /**
   * `s || fallback` for an optional string: the property when it is set and
   * non-empty, else the fallback; never empty when the fallback is not.
   */
  function OrElse(s: Option<string>, fallback: string): (r: string)
    ensures r == fallback || (s.Some? && r == s.value)
    ensures fallback != "" ==> r != ""
    ensures s.None? ==> r == fallback
    ensures Truthy(s) ==> r == s.value
    ensures !Truthy(s) ==> r == fallback
  {
    if Truthy(s) then s.value else fallback
  }

  /**
   * The strings `configureStyle` assigns, property by property, as the code
   * is written: the bottom margin comes from `marginLeft` and the right
   * margin from `paddingRight`.
   */
  function StyleDecl(style: Style): (r: CssDecl)
    ensures EndsWith(r.height, "%") && EndsWith(r.width, "%")
    ensures EndsWith(r.paddingTop, "px") && EndsWith(r.paddingBottom, "px")
    ensures EndsWith(r.paddingLeft, "px") && EndsWith(r.paddingRight, "px")
    ensures EndsWith(r.marginTop, "px") && EndsWith(r.marginBottom, "px")
    ensures EndsWith(r.marginLeft, "px") && EndsWith(r.marginRight, "px")
    ensures r.display != ""
  {
    CssDecl(
      Percent(style.height),
      Percent(style.width),
      NumToPix(style.paddingTop),
      NumToPix(style.paddingBottom),
      NumToPix(style.paddingLeft),
      NumToPix(style.paddingRight),
      NumToPix(style.marginTop),
      NumToPix(style.marginLeft),
      NumToPix(style.marginLeft),
      NumToPix(style.paddingRight),
      OrElse(style.display, "block"),
      OrElse(style.flexDirection, ""),
      OrElse(style.justifyContent, ""),
      OrElse(style.alignItems, ""))
  }

  /**
   * The host element's style object. A new one has every property empty;
   * `Decl` is its current content.
   */
  class CssStyle {
    var height: string
    var width: string
    var paddingTop: string
    var paddingBottom: string
    var paddingLeft: string
    var paddingRight: string
    var marginTop: string
    var marginBottom: string
    var marginLeft: string
    var marginRight: string
    var display: string
    var flexDirection: string
    var justifyContent: string
    var alignItems: string

    function Decl(): CssDecl
      reads this
    {
      CssDecl(height, width, paddingTop, paddingBottom, paddingLeft, paddingRight,
              marginTop, marginBottom, marginLeft, marginRight,
              display, flexDirection, justifyContent, alignItems)
    }

    constructor ()
      ensures Decl() == BLANK_DECL
    {
      height, width := "", "";
      paddingTop, paddingBottom, paddingLeft, paddingRight := "", "", "", "";
      marginTop, marginBottom, marginLeft, marginRight := "", "", "", "";
      display, flexDirection, justifyContent, alignItems := "", "", "", "";
    }
  }

  /** Assigns every property of `elementStyle` from `style`, one at a time. */
  method ConfigureStyle(elementStyle: CssStyle, style: Style)
    modifies elementStyle
    ensures elementStyle.Decl() == StyleDecl(style)
  {
    SetSize(elementStyle, style);
    SetPadding(elementStyle, style);
    SetMargin(elementStyle, style);
    SetLayout(elementStyle, style);
  }

  /** Height and width, in percent. */
  method SetSize(elementStyle: CssStyle, style: Style)
    modifies elementStyle
    ensures elementStyle.Decl() == old(elementStyle.Decl()).(
      height := Percent(style.height), width := Percent(style.width))
  {
    elementStyle.height := Percent(style.height);
    elementStyle.width := Percent(style.width);
  }

  /** The four padding edges, each from its own property. */
  method SetPadding(elementStyle: CssStyle, style: Style)
    modifies elementStyle
    ensures elementStyle.Decl() == old(elementStyle.Decl()).(
      paddingTop := NumToPix(style.paddingTop), paddingBottom := NumToPix(style.paddingBottom),
      paddingLeft := NumToPix(style.paddingLeft), paddingRight := NumToPix(style.paddingRight))
  {
    elementStyle.paddingTop := NumToPix(style.paddingTop);
    elementStyle.paddingBottom := NumToPix(style.paddingBottom);
    elementStyle.paddingLeft := NumToPix(style.paddingLeft);
    elementStyle.paddingRight := NumToPix(style.paddingRight);
  }

  /** The four margin edges: the bottom from `marginLeft`, the right from `paddingRight`. */
  method SetMargin(elementStyle: CssStyle, style: Style)
    modifies elementStyle
    ensures elementStyle.Decl() == old(elementStyle.Decl()).(
      marginTop := NumToPix(style.marginTop), marginBottom := NumToPix(style.marginLeft),
      marginLeft := NumToPix(style.marginLeft), marginRight := NumToPix(style.paddingRight))
  {
    elementStyle.marginTop := NumToPix(style.marginTop);
    elementStyle.marginBottom := NumToPix(style.marginLeft);
    elementStyle.marginLeft := NumToPix(style.marginLeft);
    elementStyle.marginRight := NumToPix(style.paddingRight);
  }

  /** Display (default `block`) and the three flex properties (default empty). */
  method SetLayout(elementStyle: CssStyle, style: Style)
    modifies elementStyle
    ensures elementStyle.Decl() == old(elementStyle.Decl()).(
      display := OrElse(style.display, "block"), flexDirection := OrElse(style.flexDirection, ""),
      justifyContent := OrElse(style.justifyContent, ""), alignItems := OrElse(style.alignItems, ""))
  {
    elementStyle.display := OrElse(style.display, "block");
    elementStyle.flexDirection := OrElse(style.flexDirection, "");
    elementStyle.justifyContent := OrElse(style.justifyContent, "");
    elementStyle.alignItems := OrElse(style.alignItems, "");
  }

  // ---------------------------------------------------------------------
  // What the rendered strings say about the style record

  lemma SuffixCancel(a: string, b: string, unit: string)
    ensures a + unit == b + unit <==> a == b
  {
    if a + unit == b + unit {
      assert |a| == |b|;
      assert a == (a + unit)[..|a|];
      assert b == (b + unit)[..|b|];
    }
  }

  /** An absent number never prints like a present one. */
  lemma UndefinedIsNoNumber(n: int)
    ensures IntToString(n) != "undefined"
  {
    assert "undefined"[0] == 'u';
  }

  /** Distinct optional numbers render as distinct pixel strings. */
  lemma NumToPixInjective(a: Option<SafeInt>, b: Option<SafeInt>)
    ensures NumToPix(a) == NumToPix(b) <==> a == b
  {
    SuffixCancel(NumberText(a), NumberText(b), "px");
    match a
    case None =>
      if b.Some? { UndefinedIsNoNumber(b.value); }
    case Some(x) =>
      if b.Some? { IntToStringInjective(x, b.value); } else { UndefinedIsNoNumber(x); }
  }

  /** The digits before `px` read back as the number that was set. */
  lemma NumToPixReadsBack(n: SafeInt)
    ensures var r := NumToPix(Some(n)); |r| > 2 && ParseInt(r[..|r| - 2]) == n
  {
    var r := NumToPix(Some(n));
    assert r[..|r| - 2] == IntToString(n);
    IntRoundTrip(n);
  }

  /** The digits before `%` read back as the number that was set. */
  lemma PercentReadsBack(n: SafeInt)
    ensures var r := Percent(Some(n)); |r| > 1 && ParseInt(r[..|r| - 1]) == n
  {
    var r := Percent(Some(n));
    assert r[..|r| - 1] == IntToString(n);
    IntRoundTrip(n);
  }

  /** A string `ParseInt` reads: an optional minus sign, then decimal digits. */
  predicate IsNumberText(s: string) {
    && |s| >= 1
    && (s[0] == '-' ==> forall i :: 1 <= i < |s| ==> IsDigit(s[i]))
    && (s[0] != '-' ==> forall i :: 0 <= i < |s| ==> IsDigit(s[i]))
  }

  /** The number a CSS string shows before `unit`, if it shows one. */
  function ValueBefore(r: string, unit: string): Option<int> {
    if EndsWith(r, unit) && IsNumberText(r[..|r| - |unit|]) then Some(ParseInt(r[..|r| - |unit|])) else None
  }

  /** The string rendered for an optional number shows exactly that number, or none. */
  lemma NumberTextShows(o: Option<SafeInt>, unit: string)
    ensures ValueBefore(NumberText(o) + unit, unit) == o
  {
    var r := NumberText(o) + unit;
    assert r[..|r| - |unit|] == NumberText(o);
    match o
    case None =>
      assert !IsDigit('u');
    case Some(n) =>
      IntRoundTrip(n);
  }

  /**
   * For any style, each numeric string shows the number of the property the
   * code reads for it, and shows no number when that property is unset.
   */
  lemma StyleDeclShowsValues(s: Style)
    ensures ValueBefore(StyleDecl(s).height, "%") == s.height
    ensures ValueBefore(StyleDecl(s).width, "%") == s.width
    ensures ValueBefore(StyleDecl(s).paddingTop, "px") == s.paddingTop
    ensures ValueBefore(StyleDecl(s).paddingBottom, "px") == s.paddingBottom
    ensures ValueBefore(StyleDecl(s).paddingLeft, "px") == s.paddingLeft
    ensures ValueBefore(StyleDecl(s).paddingRight, "px") == s.paddingRight
    ensures ValueBefore(StyleDecl(s).marginTop, "px") == s.marginTop
    ensures ValueBefore(StyleDecl(s).marginLeft, "px") == s.marginLeft
    ensures ValueBefore(StyleDecl(s).marginBottom, "px") == s.marginLeft
    ensures ValueBefore(StyleDecl(s).marginRight, "px") == s.paddingRight
  {
    NumberTextShows(s.height, "%");
    NumberTextShows(s.width, "%");
    NumberTextShows(s.paddingTop, "px");
    NumberTextShows(s.paddingBottom, "px");
    NumberTextShows(s.paddingLeft, "px");
    NumberTextShows(s.paddingRight, "px");
    NumberTextShows(s.marginTop, "px");
    NumberTextShows(s.marginLeft, "px");
  }

  /** A rendered style always has a display value; absent or empty means `block`. */
  lemma DisplayDefault(style: Style)
    ensures StyleDecl(style).display != ""
    ensures StyleDecl(style).display == "block" <==> !Truthy(style.display) || style.display.value == "block"
  {
  }

  /**
   * Whatever the style, the rendered bottom margin equals the rendered left
   * margin, and the rendered right margin equals the rendered right padding.
   */
  lemma MarginCrossWiring(style: Style)
    ensures StyleDecl(style).marginBottom == StyleDecl(style).marginLeft
    ensures StyleDecl(style).marginRight == StyleDecl(style).paddingRight
  {
  }

  /**
   * The rendered right margin reports the right padding, never the right
   * margin: two styles that differ only in `marginRight` render the same.
   */
  lemma MarginRightIgnored(style: Style, m: Option<SafeInt>)
    ensures StyleDecl(style.(marginRight := m)) == StyleDecl(style)
    ensures StyleDecl(style.(marginBottom := m)) == StyleDecl(style)
  {
  }

  // ---------------------------------------------------------------------
  // The corrected mapping: unset numbers as 0, each margin from its own field

  function IntendedNumToPix(num: Option<SafeInt>): string {
    IntToString(num.GetOr(0)) + "px"
  }

  function IntendedPercent(num: Option<SafeInt>): string {
    IntToString(num.GetOr(0)) + "%"
  }

  /**
   * The corrected mapping: `|| 0` applied to unset numbers, and each margin
   * edge taken from its own property.
   */
  function IntendedStyleDecl(style: Style): CssDecl {
    CssDecl(
      IntendedPercent(style.height),
      IntendedPercent(style.width),
      IntendedNumToPix(style.paddingTop),
      IntendedNumToPix(style.paddingBottom),
      IntendedNumToPix(style.paddingLeft),
      IntendedNumToPix(style.paddingRight),
      IntendedNumToPix(style.marginTop),
      IntendedNumToPix(style.marginBottom),
      IntendedNumToPix(style.marginLeft),
      IntendedNumToPix(style.marginRight),
      OrElse(style.display, "block"),
      OrElse(style.flexDirection, ""),
      OrElse(style.justifyContent, ""),
      OrElse(style.alignItems, ""))
  }

  /** In the corrected mapping each edge's string determines that edge's value (0 when unset). */
  lemma IntendedEdgesOwnSource(s: Style, t: Style)
    ensures IntendedStyleDecl(s) == IntendedStyleDecl(t) ==>
      && s.marginTop.GetOr(0) == t.marginTop.GetOr(0)
      && s.marginBottom.GetOr(0) == t.marginBottom.GetOr(0)
      && s.marginLeft.GetOr(0) == t.marginLeft.GetOr(0)
      && s.marginRight.GetOr(0) == t.marginRight.GetOr(0)
      && s.paddingRight.GetOr(0) == t.paddingRight.GetOr(0)
  {
    SuffixCancel(IntToString(s.marginTop.GetOr(0)), IntToString(t.marginTop.GetOr(0)), "px");
    IntToStringInjective(s.marginTop.GetOr(0), t.marginTop.GetOr(0));
    SuffixCancel(IntToString(s.marginBottom.GetOr(0)), IntToString(t.marginBottom.GetOr(0)), "px");
    IntToStringInjective(s.marginBottom.GetOr(0), t.marginBottom.GetOr(0));
    SuffixCancel(IntToString(s.marginLeft.GetOr(0)), IntToString(t.marginLeft.GetOr(0)), "px");
    IntToStringInjective(s.marginLeft.GetOr(0), t.marginLeft.GetOr(0));
    SuffixCancel(IntToString(s.marginRight.GetOr(0)), IntToString(t.marginRight.GetOr(0)), "px");
    IntToStringInjective(s.marginRight.GetOr(0), t.marginRight.GetOr(0));
    SuffixCancel(IntToString(s.paddingRight.GetOr(0)), IntToString(t.paddingRight.GetOr(0)), "px");
    IntToStringInjective(s.paddingRight.GetOr(0), t.paddingRight.GetOr(0));
  }

  /** The code's string for property `o` matches the corrected string for property `p`. */
  predicate Agrees(o: Option<SafeInt>, p: Option<SafeInt>) {
    o.Some? && o.value == p.GetOr(0)
  }

  lemma TextAgreement(o: Option<SafeInt>, p: Option<SafeInt>, unit: string)
    ensures NumberText(o) + unit == IntToString(p.GetOr(0)) + unit <==> Agrees(o, p)
  {
    SuffixCancel(NumberText(o), IntToString(p.GetOr(0)), unit);
    match o
    case None => UndefinedIsNoNumber(p.GetOr(0));
    case Some(x) => IntToStringInjective(x, p.GetOr(0));
  }

  /**
   * Property by property, the code's string equals the corrected one exactly
   * when the property it reads is set; for the bottom and right margins,
   * exactly when the property read in their place agrees with their own
   * (an unset value counting as 0). The string properties always agree.
   */
  lemma StyleDeclFieldByField(s: Style)
    ensures StyleDecl(s).height == IntendedStyleDecl(s).height <==> s.height.Some?
    ensures StyleDecl(s).width == IntendedStyleDecl(s).width <==> s.width.Some?
    ensures StyleDecl(s).paddingTop == IntendedStyleDecl(s).paddingTop <==> s.paddingTop.Some?
    ensures StyleDecl(s).paddingBottom == IntendedStyleDecl(s).paddingBottom <==> s.paddingBottom.Some?
    ensures StyleDecl(s).paddingLeft == IntendedStyleDecl(s).paddingLeft <==> s.paddingLeft.Some?
    ensures StyleDecl(s).paddingRight == IntendedStyleDecl(s).paddingRight <==> s.paddingRight.Some?
    ensures StyleDecl(s).marginTop == IntendedStyleDecl(s).marginTop <==> s.marginTop.Some?
    ensures StyleDecl(s).marginLeft == IntendedStyleDecl(s).marginLeft <==> s.marginLeft.Some?
    ensures StyleDecl(s).marginBottom == IntendedStyleDecl(s).marginBottom <==> Agrees(s.marginLeft, s.marginBottom)
    ensures StyleDecl(s).marginRight == IntendedStyleDecl(s).marginRight <==> Agrees(s.paddingRight, s.marginRight)
    ensures StyleDecl(s).display == IntendedStyleDecl(s).display
    ensures StyleDecl(s).flexDirection == IntendedStyleDecl(s).flexDirection
    ensures StyleDecl(s).justifyContent == IntendedStyleDecl(s).justifyContent
    ensures StyleDecl(s).alignItems == IntendedStyleDecl(s).alignItems
  {
    TextAgreement(s.height, s.height, "%");
    TextAgreement(s.width, s.width, "%");
    TextAgreement(s.paddingTop, s.paddingTop, "px");
    TextAgreement(s.paddingBottom, s.paddingBottom, "px");
    TextAgreement(s.paddingLeft, s.paddingLeft, "px");
    TextAgreement(s.paddingRight, s.paddingRight, "px");
    TextAgreement(s.marginTop, s.marginTop, "px");
    TextAgreement(s.marginLeft, s.marginBottom, "px");
    TextAgreement(s.marginLeft, s.marginLeft, "px");
    TextAgreement(s.paddingRight, s.marginRight, "px");
  }

  /**
   * Exactly when the code's rendering equals the corrected one: every
   * numeric property it reads is set, the bottom margin equals the left
   * margin, and the right margin equals the right padding (an unset margin
   * counting as 0).
   */
  lemma StyleDeclMatchesIntended(s: Style)
    ensures StyleDecl(s) == IntendedStyleDecl(s) <==>
      && s.height.Some? && s.width.Some?
      && s.paddingTop.Some? && s.paddingBottom.Some?
      && s.paddingLeft.Some? && s.paddingRight.Some?
      && s.marginTop.Some? && s.marginLeft.Some?
      && Agrees(s.marginLeft, s.marginBottom)
      && Agrees(s.paddingRight, s.marginRight)
  {
    StyleDeclFieldByField(s);
  }
}
