# fontfaceobserver-es: a Dafny model of the detection logic

`FontFaceObserver` tells a page when a web font has loaded. `load(text, timeout)`
returns a promise, and the observer settles it with one of two strategies:

- **Native.** The page has a font registry (`document.fonts`) and the engine has no
  Safari 10 bug. A loader asks the registry every 25 ms whether a face matches. It
  races a timer that rejects after the timeout, and the first of the two to settle
  decides the promise.
- **Fallback.** Three rulers render the test string under `"family",sans-serif`,
  `"family",serif` and `"family",monospace`. The font counts as loaded once two of
  them report the same known width. The widths arrive from the rulers' scroll-based
  resize callbacks. While the page is hidden, or its visibility is unknown, a 50 ms
  tick also samples them. The same tick enforces the timeout.
  On engines with the WebKit fallback bug, the code ignores a match only when all
  three widths equal the same last-resort (bare generic) width at once. Widths that
  arrive one callback at a time reach a two-of-three agreement first, and that
  agreement resolves the load before the veto can apply (see "## Findings").

The model has six modules, one per component:

- `JsValues`: the JavaScript semantics the code relies on:
  - `undefined` as `Option`;
  - promise settlement, where only the first `resolve` or `reject` counts;
  - integer-to-string conversion;
  - `join` and its inverse `split`;
  - the substring test behind `/Apple/.test`.
- `Platform`: the memoized process-wide flags. `PlatformProbe` is a class whose four
  caches start as `None`, which plays the role of the source's `null`.
- `Observer`:
  - the observer value and its descriptor defaults;
  - `getStyle`;
  - the defaults `load()` applies;
  - the timeout message;
  - the choice of strategy.
- `NativeLoad`: the class `NativePoll` holds the loader, the timer and the outer
  promise. `Poll(now, answer)` is one run of the loader's `check`, and `TimerFires()`
  is the timer firing.
- `MetricRuler`: the class `Ruler` keeps `lastOffsetWidth`, the pane styles and the
  scroll positions. `Reset`, `OnScroll` and `OnResize` take the browser-computed
  `offsetWidth` and `scrollWidth` as inputs.
- `FallbackMatch`: the decision logic, first as functions on a `Detection` state:
  - `Check` and `AfterCheck`;
  - a step for each event: `Resized` for a callback, `Ticked`/`TimeoutCheck` for a
    tick;
  - `Run` over a sequence of events.

  The class `FallbackDetector` keeps the same state in fields and owns three `Ruler`
  objects. It is proved to follow those steps: `OnResize`, `Tick`, `Scroll`, and a
  constructor that does what the `waitForBody` callback does.

Time, visibility, measured widths and the registry's answers are parameters of the
step methods. A step method stands for a callback the event loop runs.

Several behaviours follow the code and are worth knowing:

- A timeout of `0` is falsy, so it means the default 3000 ms. It is not an immediate
  rejection (`Observer.TimeoutValue`, `NativeLoad.ZeroTimeoutMeansDefault`).
- On the native path, the loader is not cancelled when the timer wins. It stops on
  its own next timeout test.
- A registry error rejects the promise with that error, unwrapped, and does not clear
  the timer. The timer's later rejection is ignored.
- As written, `check()` resolves on a pair even if that pair's width is a last-resort
  width, as long as the third width is unknown or differs. The model's `Check` is the
  corrected form from "## Findings", and `CheckAsWritten` keeps the written one.
- After the container is detached, each ruler element keeps its parent, which is the
  container. Late resize callbacks therefore still run `check()`, but they cannot
  change a settled outcome (`FallbackMatch.RunConsistent`).

## Model

| member | source | states |
|---|---|---|
| `Observer.NewObserver` | src/observer.js:4-29 | family and context are stored unchanged; style, weight and stretch are the given descriptor when it is present and non-empty, otherwise `normal`; none of them is ever empty |
| `Observer.GetStyleLayout` | src/observer.js:165-173 | the shorthand is style, weight, stretch (or the empty string when stretch is unsupported), `100px` and the family, separated by single spaces |
| `Observer.GetStyleSplits` | src/observer.js:165-173 | when no slot contains a space, splitting the shorthand at spaces gives back exactly its five slots, with an empty third slot when stretch is unsupported |
| `JsValues.SplitJoin` | src/observer.js:166-172 | `join` is undone by `split` when no part contains the separator |
| `Observer.TestString` | src/observer.js:191 | a missing or empty test string becomes `BESbswy`; any other is kept; the result is never empty |
| `Observer.TimeoutValue` | src/observer.js:193 | a missing or zero timeout becomes 3000 and any other is kept, so the timeout in use is never 0 |
| `Observer.TimeoutMessageInjective` | src/observer.js:206 | the message `<timeout>ms timeout exceeded` determines the timeout it was built from |
| `JsValues.ParseNatToString` | src/observer.js:206 | parsing the decimal string of a number gives the number back |
| `JsValues.IntToStringInjective` | src/ruler.js:83 | different integers give different strings, so a `px` length or timeout message names its number |
| `JsValues.NatToString` | src/ruler.js:95 | the decimal string of a number is non-empty, all digits, with no leading zero |
| `JsValues.SettleOnce` | src/observer.js:196-231 | after a promise settles, a later `resolve` or `reject` changes nothing |
| `JsValues.ContainsOccurs` | src/observer.js:111 | the `/Apple/` test holds exactly when `Apple` occurs at some position of the vendor string |
| `Platform.WebKitFallbackBugIsVersionBound` | src/observer.js:76-88 | the fallback bug is present iff an `AppleWebKit/major.minor` token exists and `major.minor` is at most 536.11 in version order; without a token it is absent |
| `Platform.Safari10BugNeedsApple` | src/observer.js:107-124 | the Safari 10 bug requires native loading, a three-part version and `Apple` in the vendor string |
| `Platform.PlatformProbe.constructor` | src/observer.js:34-49 | the four caches start empty (`null`) |
| `Platform.PlatformProbe.HasWebKitFallbackBug` | src/observer.js:76-88 | an empty cache gets the value computed from the user agent; a filled cache is returned as it is and never recomputed |
| `Platform.PlatformProbe.HasSafari10Bug` | src/observer.js:107-124 | on the first call, false unless native loading is supported and the vendor contains `Apple`, else major < 603 with a three-part version; it fills the native-loading cache on the way; a later call returns the cached value and touches nothing |
| `Platform.PlatformProbe.SupportsNativeFontLoading` | src/observer.js:132-138 | the first call records whether `document.fonts` exists; later calls return the record |
| `Platform.PlatformProbe.SupportStretch` | src/observer.js:146-157 | the first call records whether the condensed shorthand was kept; later calls return the record |
| `Platform.WebKitFallbackBugIsFrozen` | src/observer.js:77-87 | a second call returns the first call's result, whatever user agent it is given |
| `Platform.Safari10BugFreezesNativeSupport` | src/observer.js:107-137 | on a fresh process the first Safari 10 check gives the specified value and freezes native-loading support at the value it saw |
| `Observer.ChooseStrategy` | src/observer.js:197-200 | the native branch is taken iff native loading is supported and the Safari 10 bug is absent; the Safari check runs only when native loading is supported; both caches keep the values they had |
| `Observer.FirstLoadStrategy` | src/observer.js:197-200 | on a fresh process the strategy is native iff the document has a registry and the Safari 10 predicate is false |
| `NativeLoad.PollStepAt` | src/observer.js:202-218 | an elapsed time of at least the timeout times out; otherwise one or more faces loads, zero faces retries and a registry error fails with that error; each holds in both directions |
| `NativeLoad.NativePoll.constructor` | src/observer.js:189-226 | a fresh race: loader and outer promise pending, first poll due, timer armed, the registry query built from the quoted family |
| `NativeLoad.NativePoll.Poll` | src/observer.js:202-231 | the loader settles as `PollStepAt` says; the outer promise takes the loader's settlement only if it is still pending; a winning success clears the timer; the race invariant is kept |
| `NativeLoad.NativePoll.TimerFires` | src/observer.js:222-231 | the timer's timeout rejection decides the outer promise only if it is still pending; the loader is not stopped |
| `NativeLoad.MatchBeforeDeadlineResolves` | src/observer.js:211-231 | a registry match before the deadline resolves the promise and clears the timer |
| `NativeLoad.TimerWinsThenLoaderStops` | src/observer.js:205-231 | a timer that fires first rejects with the timeout message; the loader's next run rejects too and stops polling |
| `NativeLoad.RegistryErrorRejectsUnwrapped` | src/observer.js:216-231 | a registry error rejects with that error unchanged; the timer stays armed and its later rejection changes nothing |
| `NativeLoad.ZeroTimeoutMeansDefault` | src/observer.js:193 | with timeout 0, a match 2999 ms after the start still resolves |
| `MetricRuler.FontCss` | src/ruler.js:51-70 | the element style is the fixed template followed by `font:<font>;` |
| `MetricRuler.PxInjective` | src/ruler.js:83 | a `<n>px` length determines `n` |
| `MetricRuler.Ruler.constructor` | src/ruler.js:4-39 | `lastOffsetWidth` starts at -1; the panes get their fixed styles; the element is unattached and has no listener |
| `MetricRuler.Ruler.SetFont` | src/ruler.js:51-70 | the element style becomes `FontCss(font)`, and its width declaration becomes the template's `auto` |
| `MetricRuler.Ruler.SetWidth` | src/ruler.js:82-84 | `style.width` becomes `<width>px` |
| `MetricRuler.Ruler.Reset` | src/ruler.js:91-105 | always sets the expandable inner width and the expandable scroll to width + 100, and the collapsible scroll to scrollWidth + 100; returns true iff the width differs from `lastOffsetWidth`, which becomes the width |
| `MetricRuler.Ruler.OnScroll` | src/ruler.js:111-115 | calls back with the new width exactly when the width changed and the element has a parent, and otherwise not at all |
| `MetricRuler.Ruler.OnResize` | src/ruler.js:120-130 | registers the handler and resets once without calling back, so `lastOffsetWidth` is the current width |
| `MetricRuler.ResetIsIdempotent` | src/ruler.js:99-104 | a second `reset()` at the same width returns false; the first returns true iff the width is not -1 |
| `MetricRuler.PrimedRulerReportsOnlyChanges` | src/ruler.js:111-130 | after `onResize` primes an attached ruler, a scroll calls back iff the width moved, and then with the new width |
| `MetricRuler.DetachedRulerIsSilent` | src/ruler.js:111-115 | a ruler without a parent never calls back, although it still records the width |
| `FallbackMatch.WithWidth` | src/observer.js:344-361 | a callback for ruler `id` sets that ruler's width and leaves the other two unchanged |
| `FallbackMatch.AgreeIsKnownPair` | src/observer.js:273-278 | the test holds iff two distinct rulers report the same known (not -1) width |
| `FallbackMatch.AgreedWidth` | src/observer.js:272-279 | when the test holds, the rulers agree on exactly one width, and it is known |
| `FallbackMatch.CheckIsFreshPair` | src/observer.js:272-303 | the intended check holds iff two distinct rulers report the same known width and, under the WebKit bug, that width is not a last-resort width |
| `FallbackMatch.VetoPreemptedAsWritten` | src/observer.js:281-299 | as written, every width triple that the veto blocks is one callback away from a triple the check has already accepted |
| `FallbackMatch.LastResortMatchAsWritten` | src/observer.js:272-299 | as written, with the bug and last-resort widths 10, 20, 30, the check accepts (10, 10, 30) and (-1, 10, 10), which the intended check rejects |
| `FallbackMatch.CheckRefinesWritten` | src/observer.js:272-299 | the intended check accepts nothing the written one rejects; the two coincide when all three widths are equal; without the bug, both are plain agreement |
| `FallbackMatch.CheckVeto` | src/observer.js:281-299 | the intended check vetoes an agreement only under the WebKit bug, and then every pair of agreeing rulers sits on a last-resort width |
| `FallbackMatch.LastResortWidthsVetoed` | src/observer.js:281-299 | under the bug, widths that are all last-resort or unknown never pass the intended check |
| `FallbackMatch.LastResortRunNeverResolves` | src/observer.js:272-363 | intended (the source resolves on -1, 10, 10): under the bug, from a state whose widths are all last-resort or unknown, events that report only last-resort widths never resolve the load |
| `FallbackMatch.AfterCheck` | src/observer.js:272-305 | on a match the container is detached, the tick timer cleared and the promise resolved if still pending; otherwise nothing changes |
| `FallbackMatch.StartConsistent` | src/observer.js:320-342 | the first `checkForTimeout` establishes the run invariant |
| `FallbackMatch.StepConsistent` | src/observer.js:272-363 | every callback or tick keeps the invariant (timer pending and container attached exactly while undecided; the only rejection is the timeout message) and never changes a settled outcome |
| `FallbackMatch.RunConsistent` | src/observer.js:272-363 | over any sequence of events the invariant holds, and a settled outcome stays as it is |
| `FallbackMatch.LastResortNeverResolves` | src/observer.js:281-342 | intended (the source resolves on -1, 10, 10): with the WebKit bug, for any visibility, the state the first `checkForTimeout` leaves is never resolved by callbacks and ticks that report only last-resort widths, in any order or number |
| `FallbackMatch.StepResolvesOnAgreement` | src/observer.js:272-303 | a step that resolves leaves two rulers agreeing on a known width, and no veto applies |
| `FallbackMatch.TickAfterTimeoutRejects` | src/observer.js:324-329 | a tick at or after the timeout rejects a pending load with the timeout message and detaches the container |
| `FallbackMatch.VisibleTickOnlyRearms` | src/observer.js:330-339 | on a visible page, a tick before the timeout reads no widths and changes nothing else |
| `FallbackMatch.ResolvingTickRearmsAsWritten` | src/observer.js:330-339 | as written, a tick whose check resolves leaves the timer armed; the intended tick does not |
| `FallbackMatch.AttachedRuler` | src/observer.js:234-316 | a new ruler for the test string (line 234), given the style of `font` by `setFont` (width `auto`) and appended to the container (lines 310-316); it has recorded no width yet (-1), its panes keep their initial styles, inner width `100%` and scroll positions 0, and it does not listen yet |
| `FallbackMatch.Prime` | src/observer.js:344-363 | `onResize` then `setFont`: the ruler listens, records `width` silently, positions its expandable pane at `width` + 100 and its collapsible pane at `scrollWidth` + 100, and carries the target style with its width back at `auto` |
| `FallbackMatch.FallbackDetector.constructor` | src/observer.js:233-363 | rulers set to the generic families and attached; fallback widths recorded; first tick run (corrected form, which does not re-arm once its check resolved); each ruler primed at its fallback width, its panes positioned for that width and its measured scroll width, and switched to the target family with width `auto`; the run invariant holds |
| `FallbackMatch.FallbackDetector.PrimeRulers` | src/observer.js:344-363 | each ruler listens, records its current width, has its panes positioned for that width and its scroll width, and carries the target family's style with width `auto` |
| `FallbackMatch.FallbackDetector.CheckWidths` | src/observer.js:272-305 | the state becomes `AfterCheck` of the state before |
| `FallbackMatch.FallbackDetector.CheckForTimeout` | src/observer.js:324-340 | the state becomes `TimeoutCheck` of the state before |
| `FallbackMatch.FallbackDetector.Tick` | src/observer.js:324-340 | intended (the source re-arms after resolving): a firing of the 50 ms timer is the `Tick` step; it keeps the invariant |
| `FallbackMatch.FallbackDetector.TickAsWritten` | src/observer.js:324-340 | a firing of the timer with the re-arm as written |
| `FallbackMatch.FallbackDetector.OnResize` | src/observer.js:344-361 | a resize callback is the `Resize` step; it keeps the invariant |
| `FallbackMatch.FallbackDetector.Scroll` | src/ruler.js:91-115 | a scroll on ruler `id` records the width, repositions both panes (expandable at the width + 100, collapsible at the scroll width + 100), and is a `Resize` step exactly when the width changed |
| `FallbackMatch.TwoRulersConverge` | src/observer.js:272-303 | rulers A and B reporting 42 while C never reports resolve the load, detach the container and stop the tick |
| `FallbackMatch.WebKitLastResortIgnored` | src/observer.js:281-299 | with the corrected check (the source resolves on -1, 10, 10): with the bug and last-resort widths 10, 20, 30, rulers B and C scrolling to 10 are ignored for any visibility, and their agreement on 42 resolves |
| `FallbackMatch.HiddenPageResolvesByTicks` | src/observer.js:330-337 | on a hidden page, one tick sampling two equal widths resolves without any resize callback; with the corrected tick (the source re-arms), the tick timer then stops |
| `FallbackMatch.NoAgreementTimesOut` | src/observer.js:324-329 | without agreement, the first tick at or after the timeout rejects with `3000ms timeout exceeded` and detaches the container |
| `FallbackMatch.ResolvingTickAsWritten` | src/observer.js:330-338 | as written, a tick that resolves the load leaves the tick timer armed |

## Findings

| source | as written | input that shows it | evidently intended | confidence | as-written member | corrected member |
|---|---|---|---|---|---|---|
| src/observer.js:330-338 | `checkForTimeout` runs `check()`, which calls `clearTimeout(timeoutId)`, and then re-arms with `timeoutId = setTimeout(checkForTimeout, 50)`; when that `check()` resolved, it cleared the tick's own timer, which had already fired, and the tick goes on running until the timeout | hidden page (`hidden` undefined), a tick before the timeout that samples widths 42, 42, 30 | on resolution the poll timer stops | not executed; medium | `FallbackMatch.ResolvingTickAsWritten` | `FallbackMatch.FallbackDetector.Tick` |
| src/observer.js:272-299 | the WebKit last-resort veto needs all three widths equal to one fallback width, but the two-of-three rule resolves as soon as two widths agree; widths arrive one callback at a time, so the veto cannot stop a callback-driven match | WebKit bug flag set, fallback widths 10, 20, 30. Visible page: rulers B then C scroll to 10, giving -1, 10, 10, which resolves. Hidden or unknown visibility: the first tick stores 10, 20, 30, and B scrolling to 10 gives 10, 10, 30, which resolves | a match whose agreed width is a last-resort width is ignored. Trade-off: under the bug, a target metric-compatible with a generic family leaves that ruler silent (-1, 10, 10), the case the two-of-three rule exists for (src/observer.js:260-263); the corrected check rejects it too, so it can only time out (`LastResortMatchAsWritten`) | not executed; medium | `FallbackMatch.LastResortMatchAsWritten` | `FallbackMatch.LastResortNeverResolves` |

The rest of the model uses the corrected versions: `FallbackDetector.Tick` re-arms only
while the load is pending. Under the bug, `Check` vetoes an agreement whose shared width
is a last-resort width (`CheckIsFreshPair`). It rejects everything the written check
rejects, and it matches the written check when all three widths are equal
(`CheckRefinesWritten`), which is the case the source's comment describes. The
correction has a cost. Under the bug, a target font that is metric-compatible with one
generic family leaves that ruler silent. The other two rulers can then agree on that
family's last-resort width, for example -1, 10, 10 with last-resort width 10. The
written check resolves this, and it is the case the two-of-three rule exists for
(src/observer.js:260-263). The corrected check cannot tell it apart from the
last-resort case, so such a load times out (`LastResortMatchAsWritten`).

## Left out

- src/dom.js wrappers are not modelled. They create elements and text nodes, append,
  remove, set styles and add listeners. Attaching is the flags `hasParent` and
  `containerAttached`; `removeContainer` sets `containerAttached` to false.
- `observer.js` uses `dom` without importing it. That breaks `dom.createElement`
  (src/observer.js:148, 246), `dom.waitForBody` (233), `dom.append` (314-318) and
  `dom.remove` (253). The model treats the whole `dom` module as available.
- `removeContainer` calls `dom.remove(container.parentNode, container)`, but `remove`
  takes one argument (src/dom.js:17-18). As written it would detach the container's
  parent, the document body, and leave the container in it. The model keeps the
  intended effect: the container is detached (`containerAttached` becomes false).
- `waitForBody` and `getElement` are not modelled. The first calls back at once; the
  second only returns the element.
- Layout is an input, not computed. This covers `offsetWidth` (`getWidth()`),
  `scrollWidth` and the browser's clamping of `scrollLeft`. The model records the
  assigned scroll values.
- An element's `cssText` and its `style.width` are kept as separate fields. Assigning
  one does not rewrite the other, except that `setFont` resets the width to the
  template's `auto`.
- The `supportStretch` probe is a boolean input (whether the shorthand was kept). The
  `aria-hidden` attribute and the container's `dir` beyond its value are not modelled.
- Timing is not modelled:
  - `Date().getTime()` is the `now` parameter.
  - `setTimeout` delays of 25 ms, 50 ms and the timeout are not enforced; a step
    method may be called at any `now`.
  - `TimerFires` takes no time.
- Promise microtask order is not modelled. `Promise.race` and its `then` handlers
  settle atomically within the step that settles a racer.
- `Settlement.Fulfilled` carries no value. The source resolves with the observer
  itself, which is fixed for the whole run, so only the fact of resolution is kept.
- Timeouts are integers. Fractional, `NaN` and non-numeric timeouts are not
  modelled; `undefined` and `null` are `None`. The model also assumes timeouts below
  10^21 in absolute value: JavaScript numbers are doubles, and `'' + n` switches to
  exponent notation (`1e+21`) from there, while `IntToString` always writes plain
  decimal digits.
- The user agent is given parsed, as the numbers after `AppleWebKit/`. The model
  assumes a single such token, so both regular expressions read the same one.
  `navigator.vendor` is a string parameter.
- The WebKit fallback flag is a constant of each fallback run. The memoized flag
  cannot change once computed (`Platform.WebKitFallbackBugIsFrozen`).
- Nothing happens between a ruler's `onResize` registration and the next `setFont`,
  because scroll events are asynchronous. The constructor therefore runs them back to
  back.
