/** The `FontFaceObserver` value and the pure parts of `load()`
    (src/observer.js:3-29, 54, 165-200): descriptor defaults, the font
    shorthand, the test string and timeout defaults, the timeout message and
    the choice between the native and the fallback strategy. */
module Observer {
  import opened JsValues
  import opened Platform

  /** The optional `descriptors` argument; a missing key is None. */
  datatype Descriptors = Descriptors(style: Option<string>, weight: Option<string>, stretch: Option<string>)

  /** The `context` window, reduced to what the observer asks of it once:
      whether `context.document.fonts` exists. Visibility, the registry's
      answers and the clock change over time and are step inputs instead. */
  datatype Window = Window(documentHasFonts: bool)

  /** The fields an observer keeps; none of them changes after construction. */
  datatype FontFaceObserver = FontFaceObserver(
    family: string, style: string, weight: string, stretch: string, context: Window)

  const Normal := "normal"
  const DefaultTimeout := 3000
  const DefaultTestString := "BESbswy"
  const ProbeSize := "100px"

  /** `descriptors.x || 'normal'`: a missing or empty descriptor is falsy. */
  function OrNormal(v: Option<string>): string {
    if v.Some? && v.value != "" then v.value else Normal
  }

  /** `new FontFaceObserver(family, descriptors, context)`. */
  function NewObserver(family: string, descriptors: Descriptors, context: Window): (o: FontFaceObserver)
    ensures o.family == family && o.context == context
    ensures o.style != "" && o.weight != "" && o.stretch != ""
    ensures descriptors.style.Some? && descriptors.style.value != "" ==> o.style == descriptors.style.value
    ensures descriptors.style.None? || descriptors.style.value == "" ==> o.style == Normal
    ensures descriptors.weight.Some? && descriptors.weight.value != "" ==> o.weight == descriptors.weight.value
    ensures descriptors.weight.None? || descriptors.weight.value == "" ==> o.weight == Normal
    ensures descriptors.stretch.Some? && descriptors.stretch.value != "" ==> o.stretch == descriptors.stretch.value
    ensures descriptors.stretch.None? || descriptors.stretch.value == "" ==> o.stretch == Normal
  {
    FontFaceObserver(family, OrNormal(descriptors.style), OrNormal(descriptors.weight),
                     OrNormal(descriptors.stretch), context)
  }

  /** The five slots of the shorthand; the stretch slot is empty when the
      engine rejected `condensed` in a shorthand. */
  function StyleSlots(o: FontFaceObserver, family: string, stretchSupported: bool): seq<string> {
    [o.style, o.weight, if stretchSupported then o.stretch else "", ProbeSize, family]
  }

  /** `getStyle(family)`: the slots joined by single spaces. */
  function GetStyle(o: FontFaceObserver, family: string, stretchSupported: bool): string {
    Join(StyleSlots(o, family, stretchSupported), ' ')
  }

  /** The shorthand spelled out: style, weight, stretch or nothing, `100px`
      and the family, one space between each two. */
  lemma GetStyleLayout(o: FontFaceObserver, family: string, stretchSupported: bool)
    ensures GetStyle(o, family, stretchSupported) ==
            o.style + " " + o.weight + " " + (if stretchSupported then o.stretch else "") +
            " 100px " + family
  {
    var slots := StyleSlots(o, family, stretchSupported);
    var j3 := Join([ProbeSize, family], ' ');
    assert j3 == ProbeSize + " " + family by {
      assert [ProbeSize, family][1..] == [family];
    }
    var j2 := Join([slots[2], ProbeSize, family], ' ');
    assert j2 == slots[2] + " " + j3 by {
      assert [slots[2], ProbeSize, family][1..] == [ProbeSize, family];
    }
    var j1 := Join([o.weight, slots[2], ProbeSize, family], ' ');
    assert j1 == o.weight + " " + j2 by {
      assert [o.weight, slots[2], ProbeSize, family][1..] == [slots[2], ProbeSize, family];
    }
    assert Join(slots, ' ') == o.style + " " + j1 by {
      assert slots[1..] == [o.weight, slots[2], ProbeSize, family];
    }
  }

  /** When no descriptor and no family holds a space, the shorthand splits
      back into exactly its five slots: it is unambiguous. */
  lemma GetStyleSplits(o: FontFaceObserver, family: string, stretchSupported: bool)
    requires Free(o.style, ' ') && Free(o.weight, ' ') && Free(o.stretch, ' ') && Free(family, ' ')
    ensures Split(GetStyle(o, family, stretchSupported), ' ') ==
            [o.style, o.weight, if stretchSupported then o.stretch else "", ProbeSize, family]
  {
    var slots := StyleSlots(o, family, stretchSupported);
    forall i | 0 <= i < |slots| ensures Free(slots[i], ' ') { }
    SplitJoin(slots, ' ');
  }

  /** `'"' + family + '"'`: the family as the quoted first entry of a list. */
  function Quoted(family: string): string {
    "\"" + family + "\""
  }

  /** The shorthand the native registry is asked about. */
  function RegistryQuery(o: FontFaceObserver, stretchSupported: bool): string {
    GetStyle(o, Quoted(o.family), stretchSupported)
  }

  /** The generic families, one per ruler. */
  datatype RulerId = A | B | C

  function Generic(id: RulerId): string {
    match id
    case A => "sans-serif"
    case B => "serif"
    case C => "monospace"
  }

  /** The shorthand of ruler `id` once the target is applied: the quoted
      family first, its generic fallback after a comma. */
  function TargetStyle(o: FontFaceObserver, id: RulerId, stretchSupported: bool): string {
    GetStyle(o, Quoted(o.family) + "," + Generic(id), stretchSupported)
  }

  /** `text || 'BESbswy'`. */
  function TestString(text: Option<string>): (s: string)
    ensures s != ""
    ensures text.Some? && text.value != "" ==> s == text.value
    ensures text.None? || text.value == "" ==> s == DefaultTestString
  {
    if text.Some? && text.value != "" then text.value else DefaultTestString
  }

  /** `timeout || DEFAULT_TIMEOUT` for an integral timeout: 0 and `undefined`
      are falsy, so both mean 3000. */
  function TimeoutValue(timeout: Option<int>): (t: int)
    ensures t != 0
    ensures timeout.Some? && timeout.value != 0 ==> t == timeout.value
    ensures timeout.None? || timeout.value == 0 ==> t == DefaultTimeout
  {
    if timeout.Some? && timeout.value != 0 then timeout.value else DefaultTimeout
  }

  /** `'' + timeoutValue + 'ms timeout exceeded'`. */
  function TimeoutMessage(timeoutValue: int): string {
    IntToString(timeoutValue) + "ms timeout exceeded"
  }

  /** The timeout message names the timeout it was built from. */
  lemma TimeoutMessageInjective(a: int, b: int)
    requires TimeoutMessage(a) == TimeoutMessage(b)
    ensures a == b
  {
    var m := TimeoutMessage(a);
    var n := |"ms timeout exceeded"|;
    assert IntToString(a) == m[..|m| - n] == IntToString(b);
    IntToStringInjective(a, b);
  }

  datatype Strategy = Native | Fallback

  /** Whether `load()` takes the native branch, given the flags it reads. */
  predicate UsesNative(native: bool, safari10: bool) {
    native && !safari10
  }

  /** The test at the top of `load()`: native loading supported and no
      Safari 10 bug. `hasSafari10Bug` is not asked when native loading is
      unsupported. */
  method ChooseStrategy(probe: PlatformProbe, o: FontFaceObserver, vendor: string, webkit: seq<nat>)
    returns (strategy: Strategy)
    modifies probe`supportsNativeFontLoading, probe`safari10Bug
    ensures probe.supportsNativeFontLoading.Some?
    ensures old(probe.supportsNativeFontLoading).Some? ==>
              probe.supportsNativeFontLoading == old(probe.supportsNativeFontLoading)
    ensures old(probe.supportsNativeFontLoading).None? ==>
              probe.supportsNativeFontLoading == Some(o.context.documentHasFonts)
    ensures !probe.supportsNativeFontLoading.value ==> strategy == Fallback && probe.safari10Bug == old(probe.safari10Bug)
    ensures probe.supportsNativeFontLoading.value ==>
              probe.safari10Bug.Some? &&
              (old(probe.safari10Bug).Some? ==> probe.safari10Bug == old(probe.safari10Bug)) &&
              (old(probe.safari10Bug).None? ==> probe.safari10Bug == Some(Safari10Bug(true, vendor, webkit))) &&
              (strategy == Native <==> !probe.safari10Bug.value)
  {
    var native := probe.SupportsNativeFontLoading(o.context.documentHasFonts);
    if native {
      var bug := probe.HasSafari10Bug(o.context.documentHasFonts, vendor, webkit);
      strategy := if bug then Fallback else Native;
    } else {
      strategy := Fallback;
    }
  }

  /** On a fresh process, the strategy is decided by the context and the
      user agent alone: native exactly when the document has a font registry
      and the Safari 10 bug is absent. */
  method FirstLoadStrategy(o: FontFaceObserver, vendor: string, webkit: seq<nat>) returns (strategy: Strategy)
    ensures strategy == Native <==>
            UsesNative(o.context.documentHasFonts, Safari10Bug(o.context.documentHasFonts, vendor, webkit))
  {
    var probe := new PlatformProbe();
    strategy := ChooseStrategy(probe, o, vendor, webkit);
  }
}
