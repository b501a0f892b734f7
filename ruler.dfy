/** One measuring unit (src/ruler.js): an element holding the test text and
    two scrollable panes positioned so that any change of the text's width
    scrolls one of them. Layout values the browser computes (the element's
    `offsetWidth`, the collapsible pane's `scrollWidth`) are inputs to the
    methods that read them. */
module MetricRuler {
  import opened JsValues

  /** The inline style of both panes and of the expandable inner span. */
  const PaneStyle := "max-width:none;display:inline-block;position:absolute;height:100%;width:100%;overflow:scroll;font-size:16px;"

  /** The inline style of the collapsible inner span: twice its pane's size. */
  const CollapsibleInnerStyle := "display:inline-block;width:200%;height:200%;font-size:16px;max-width:none;"

  /** The declarations `setFont` puts before the font. */
  const FontTemplate := "max-width:none;min-width:20px;min-height:20px;display:inline-block;overflow:hidden;position:absolute;width:auto;margin:0;padding:0;top:-999px;white-space:nowrap;font-synthesis:none;"

  /** How far past the content the expandable pane is scrolled. */
  const Slack := 100

  /** The element style `setFont(font)` assigns: the fixed template, then the font. */
  function FontCss(font: string): (css: string)
    ensures |css| == |FontTemplate| + |font| + 6
    ensures css[..|FontTemplate|] == FontTemplate
    ensures css[|FontTemplate|..] == "font:" + font + ";"
  {
    FontTemplate + "font:" + font + ";"
  }

  /** `n + 'px'`. */
  function Px(n: int): string {
    IntToString(n) + "px"
  }

  /** A CSS pixel length names the number it was built from. */
  lemma PxInjective(a: int, b: int)
    requires Px(a) == Px(b)
    ensures a == b
  {
    assert IntToString(a) == Px(a)[..|Px(a)| - 2] == IntToString(b);
    IntToStringInjective(a, b);
  }

  class Ruler {
    const text: string
    /** The element's inline style apart from its width declaration. */
    var elementCss: string
    /** The element's `style.width`. */
    var elementWidth: string
    /** Whether the element has a parent (`element.parentNode !== null`). */
    var hasParent: bool
    const collapsibleCss: string
    const expandableCss: string
    const collapsibleInnerCss: string
    /** `expandableInner.style.width`; its other declarations are PaneStyle's. */
    var expandableInnerWidth: string
    var expandableScrollLeft: int
    var collapsibleScrollLeft: int
    /** The width recorded by the last `reset()`; -1 before any. */
    var lastOffsetWidth: int
    /** Whether `onResize` registered the scroll handler on both panes. */
    var listening: bool

    /** Once a width is recorded, the expandable pane is sized and scrolled
        for it, so a growth or a shrink of the text scrolls a pane. */
    ghost predicate Positioned()
      reads this
    {
      lastOffsetWidth != -1 ==>
        expandableInnerWidth == Px(lastOffsetWidth + Slack) &&
        expandableScrollLeft == lastOffsetWidth + Slack
    }

    constructor (text: string)
      ensures Positioned()
      ensures this.text == text && lastOffsetWidth == -1
      ensures elementCss == "" && elementWidth == "" && !hasParent && !listening
      ensures collapsibleCss == PaneStyle && expandableCss == PaneStyle
      ensures collapsibleInnerCss == CollapsibleInnerStyle
      ensures expandableInnerWidth == "100%"
      ensures expandableScrollLeft == 0 && collapsibleScrollLeft == 0
    {
      this.text := text;
      elementCss := "";
      elementWidth := "";
      hasParent := false;
      collapsibleCss := PaneStyle;
      expandableCss := PaneStyle;
      collapsibleInnerCss := CollapsibleInnerStyle;
      expandableInnerWidth := "100%";
      expandableScrollLeft := 0;
      collapsibleScrollLeft := 0;
      lastOffsetWidth := -1;
      listening := false;
    }

    /** `setFont(font)`: replaces the element's inline style, which also
        resets its width declaration to the template's `auto`. */
    method SetFont(font: string)
      requires Positioned()
      modifies this`elementCss, this`elementWidth
      ensures Positioned()
      ensures elementCss == FontCss(font) && elementWidth == "auto"
    {
      elementCss := FontCss(font);
      elementWidth := "auto";
    }

    /** `setWidth(width)`. */
    method SetWidth(width: int)
      requires Positioned()
      modifies this`elementWidth
      ensures Positioned()
      ensures elementWidth == Px(width)
    {
      elementWidth := Px(width);
    }

    /** `reset()` with the element measured at `offsetWidth` and the
        collapsible pane's content at `scrollWidth`: the panes are always
        repositioned, and the result says whether the width changed. */
    method Reset(offsetWidth: int, scrollWidth: int) returns (changed: bool)
      requires Positioned()
      modifies this`expandableInnerWidth, this`expandableScrollLeft,
               this`collapsibleScrollLeft, this`lastOffsetWidth
      ensures Positioned()
      ensures changed <==> old(lastOffsetWidth) != offsetWidth
      ensures lastOffsetWidth == offsetWidth
      ensures expandableInnerWidth == Px(offsetWidth + Slack)
      ensures expandableScrollLeft == offsetWidth + Slack
      ensures collapsibleScrollLeft == scrollWidth + Slack
    {
      var width := offsetWidth + Slack;
      expandableInnerWidth := Px(width);
      expandableScrollLeft := width;
      collapsibleScrollLeft := scrollWidth + Slack;
      if lastOffsetWidth != offsetWidth {
        lastOffsetWidth := offsetWidth;
        changed := true;
      } else {
        changed := false;
      }
    }

    /** `onScroll(callback)`: resets, then passes the new width to the
        callback (returned here as Some) only when it changed and the
        element is still attached. */
    method OnScroll(offsetWidth: int, scrollWidth: int) returns (callback: Option<int>)
      requires Positioned()
      modifies this`expandableInnerWidth, this`expandableScrollLeft,
               this`collapsibleScrollLeft, this`lastOffsetWidth
      ensures Positioned()
      ensures callback == if old(lastOffsetWidth) != offsetWidth && hasParent
                          then Some(offsetWidth) else None
      ensures lastOffsetWidth == offsetWidth
      ensures expandableInnerWidth == Px(offsetWidth + Slack)
      ensures expandableScrollLeft == offsetWidth + Slack
      ensures collapsibleScrollLeft == scrollWidth + Slack
    {
      var changed := Reset(offsetWidth, scrollWidth);
      if changed && hasParent {
        callback := Some(lastOffsetWidth);
      } else {
        callback := None;
      }
    }

    /** `onResize(callback)`: the handler goes on both panes, then one
        silent `reset()` records the current width. */
    method OnResize(offsetWidth: int, scrollWidth: int)
      requires Positioned()
      modifies this`expandableInnerWidth, this`expandableScrollLeft,
               this`collapsibleScrollLeft, this`lastOffsetWidth, this`listening
      ensures Positioned()
      ensures listening
      ensures lastOffsetWidth == offsetWidth
      ensures expandableInnerWidth == Px(offsetWidth + Slack)
      ensures expandableScrollLeft == offsetWidth + Slack
      ensures collapsibleScrollLeft == scrollWidth + Slack
    {
      listening := true;
      var _ := Reset(offsetWidth, scrollWidth);
    }
  }

  /** A second `reset()` at the same width reports no change: the first
      reports one exactly when the width differs from the initial -1. */
  method ResetIsIdempotent(text: string, offsetWidth: int, scrollWidth: int, laterScrollWidth: int)
    returns (first: bool, second: bool)
    ensures first <==> offsetWidth != -1
    ensures !second
  {
    var r := new Ruler(text);
    first := r.Reset(offsetWidth, scrollWidth);
    second := r.Reset(offsetWidth, laterScrollWidth);
  }

  /** After `onResize` primed an attached ruler at `primed`, a scroll calls
      back exactly when the width moved, and with the new width. */
  method PrimedRulerReportsOnlyChanges(text: string, primed: int, measured: int, scrollWidth: int)
    returns (callback: Option<int>)
    ensures callback.Some? <==> measured != primed
    ensures callback.Some? ==> callback.value == measured
  {
    var r := new Ruler(text);
    r.hasParent := true;
    r.OnResize(primed, scrollWidth);
    callback := r.OnScroll(measured, scrollWidth);
  }

  /** A ruler without a parent never calls back, though it still records
      the width and repositions its panes. */
  method DetachedRulerIsSilent(text: string, measured: int, scrollWidth: int)
    returns (callback: Option<int>, recorded: int)
    ensures callback == None
    ensures recorded == measured
  {
    var r := new Ruler(text);
    callback := r.OnScroll(measured, scrollWidth);
    recorded := r.lastOffsetWidth;
  }
}
