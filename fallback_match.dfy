/** The fallback branch of `load()` (src/observer.js:232-364): three rulers
    render the test text under "family,sans-serif", "family,serif" and
    "family,monospace"; the font counts as loaded once two of the three
    report the same known width. Widths arrive from the rulers' resize
    callbacks and, while the page is hidden or its visibility unknown, from
    a 50 ms tick that also enforces the timeout.

    The first part states the decision logic on values: a `Detection` state,
    `Check`, and one step per event. The class `FallbackDetector` below keeps
    the same state in fields, owns the three rulers, and is proved to follow
    these steps. */
module FallbackMatch {
  import opened JsValues
  import opened Observer
  import opened MetricRuler

  /** A width no ruler has reported yet. */
  const Unknown := -1

  /** The timeout tick re-runs after this many milliseconds. */
  const TickInterval := 50

  datatype Widths = Widths(a: int, b: int, c: int)

  function Width(w: Widths, id: RulerId): int {
    match id
    case A => w.a
    case B => w.b
    case C => w.c
  }

  function WithWidth(w: Widths, id: RulerId, v: int): (r: Widths)
    ensures Width(r, id) == v
    ensures forall other :: other != id ==> Width(r, other) == Width(w, other)
  {
    match id
    case A => w.(a := v)
    case B => w.(b := v)
    case C => w.(c := v)
  }

  /** At least two widths are known and at least two are equal. */
  predicate Agree(w: Widths) {
    ((w.a != Unknown && w.b != Unknown) || (w.a != Unknown && w.c != Unknown) ||
     (w.b != Unknown && w.c != Unknown)) &&
    (w.a == w.b || w.a == w.c || w.b == w.c)
  }

  /** Two distinct rulers report the same known width. */
  predicate KnownPair(w: Widths) {
    exists i: RulerId, j: RulerId :: i != j && Width(w, i) == Width(w, j) && Width(w, i) != Unknown
  }

  /** The test of `check()` is exactly "two rulers agree on a known width":
      an equal pair it accepts can never be two unknowns. */
  lemma AgreeIsKnownPair(w: Widths)
    ensures Agree(w) <==> KnownPair(w)
  {
    if Agree(w) {
      if w.a == w.b && w.a != Unknown {
        assert Width(w, A) == Width(w, B);
      } else if w.a == w.c && w.a != Unknown {
        assert Width(w, A) == Width(w, C);
      } else {
        assert Width(w, B) == Width(w, C);
      }
    }
    if KnownPair(w) {
      var i: RulerId, j: RulerId :| i != j && Width(w, i) == Width(w, j) && Width(w, i) != Unknown;
    }
  }

  /** As written: all three widths equal one of the last-resort (bare
      generic) widths. */
  predicate LastResort(w: Widths, fallback: Widths) {
    (w.a == fallback.a && w.b == fallback.a && w.c == fallback.a) ||
    (w.a == fallback.b && w.b == fallback.b && w.c == fallback.b) ||
    (w.a == fallback.c && w.b == fallback.c && w.c == fallback.c)
  }

  /** `v` is one of the last-resort widths. */
  predicate IsLastResortWidth(fallback: Widths, v: int) {
    v == fallback.a || v == fallback.b || v == fallback.c
  }

  /** The width that two agreeing rulers share: known, and the only width
      any two rulers agree on. */
  function AgreedWidth(w: Widths): (v: int)
    requires Agree(w)
    ensures v != Unknown
    ensures exists i: RulerId, j: RulerId :: i != j && Width(w, i) == v && Width(w, j) == v
    ensures forall i: RulerId, j: RulerId :: i != j && Width(w, i) == Width(w, j) && Width(w, i) != Unknown ==>
              Width(w, i) == v
  {
    if w.a == w.b && w.a != Unknown then
      assert Width(w, A) == w.a && Width(w, B) == w.a;
      w.a
    else if w.a == w.c && w.a != Unknown then
      assert Width(w, A) == w.a && Width(w, C) == w.a;
      w.a
    else
      assert Width(w, B) == w.b && Width(w, C) == w.b;
      w.b
  }

  /** What one detection run fixes at its start. */
  datatype Config = Config(start: int, timeoutValue: int, webkitBug: bool, fallback: Widths)

  /** `check()` as written: agreement, unless the engine has the WebKit
      fallback bug and all three widths are one last-resort width. */
  predicate CheckAsWritten(cfg: Config, w: Widths) {
    Agree(w) && !(cfg.webkitBug && LastResort(w, cfg.fallback))
  }

  /** `check()` as intended: agreement, unless the engine has the WebKit
      fallback bug and the width the rulers agree on is a last-resort width.
      The cost: under the bug, a target metric-compatible with a generic
      family, whose own ruler never calls back (widths -1, 10, 10 with
      last-resort width 10), is rejected too and can only time out, where
      the written check resolves it (`LastResortMatchAsWritten`). */
  predicate Check(cfg: Config, w: Widths) {
    Agree(w) && !(cfg.webkitBug && IsLastResortWidth(cfg.fallback, AgreedWidth(w)))
  }

  /** The intended check accepts exactly two distinct rulers agreeing on a
      known width which, under the bug, is not a last-resort width. */
  lemma CheckIsFreshPair(cfg: Config, w: Widths)
    ensures Check(cfg, w) <==>
            exists i: RulerId, j: RulerId :: i != j && Width(w, i) == Width(w, j) && Width(w, i) != Unknown &&
                                             !(cfg.webkitBug && IsLastResortWidth(cfg.fallback, Width(w, i)))
  {
    AgreeIsKnownPair(w);
    if Check(cfg, w) {
      var i: RulerId, j: RulerId :| i != j && Width(w, i) == AgreedWidth(w) && Width(w, j) == AgreedWidth(w);
    }
  }

  /** As written, the veto can never hold back a load that resize callbacks
      drive: a vetoed state differs in one ruler from a state the check
      already accepted. */
  lemma VetoPreemptedAsWritten(cfg: Config, w: Widths, id: RulerId, previous: int)
    requires cfg.webkitBug && Agree(w) && !CheckAsWritten(cfg, w)
    requires previous != Width(w, id)
    ensures CheckAsWritten(cfg, WithWidth(w, id, previous))
  {
    var p := WithWidth(w, id, previous);
    assert w.a == w.b == w.c && w.a != Unknown;
    match id {
      case A => assert p.b == p.c == w.a;
      case B => assert p.a == p.c == w.a;
      case C => assert p.a == p.b == w.a;
    }
  }

  /** With the bug and last-resort widths 10, 20, 30, the written check
      accepts the widths a run reaches after ruler B scrolls to 10: 10, 10, 30
      where the first tick sampled, and -1, 10, 10 once C follows on a visible
      page. The intended check rejects both. */
  lemma LastResortMatchAsWritten(cfg: Config)
    requires cfg.webkitBug && cfg.fallback == Widths(10, 20, 30)
    ensures CheckAsWritten(cfg, Widths(10, 10, 30)) && !Check(cfg, Widths(10, 10, 30))
    ensures CheckAsWritten(cfg, Widths(Unknown, 10, 10)) && !Check(cfg, Widths(Unknown, 10, 10))
  {
  }

  /** The intended check never accepts what the written one rejects; the two
      coincide when all three widths are equal, and without the bug both are
      plain agreement. */
  lemma CheckRefinesWritten(cfg: Config, w: Widths)
    ensures Check(cfg, w) ==> CheckAsWritten(cfg, w)
    ensures w.a == w.b == w.c ==> (Check(cfg, w) <==> CheckAsWritten(cfg, w))
    ensures !cfg.webkitBug ==> (Check(cfg, w) <==> Agree(w))
  {
    if Agree(w) && cfg.webkitBug && LastResort(w, cfg.fallback) {
      assert Width(w, A) == Width(w, B) == w.a != Unknown;
    }
    if Agree(w) && w.a == w.b == w.c {
      assert Width(w, A) == Width(w, B) == w.a;
    }
  }

  /** The mitigation only vetoes an agreement under the bug, and then every
      pair of agreeing rulers sits on a last-resort width. */
  lemma CheckVeto(cfg: Config, w: Widths)
    requires Agree(w) && !Check(cfg, w)
    ensures cfg.webkitBug
    ensures forall i: RulerId, j: RulerId :: i != j && Width(w, i) == Width(w, j) && Width(w, i) != Unknown ==>
              IsLastResortWidth(cfg.fallback, Width(w, i))
  {
  }

  /** The closure state of one run. */
  datatype Detection = Detection(widths: Widths, containerAttached: bool, timerArmed: bool, outcome: Settlement)

  /** `check()`: on a match, detach the container, clear the tick timer and
      resolve; otherwise nothing. */
  function AfterCheck(cfg: Config, d: Detection): (r: Detection)
    ensures r.widths == d.widths
    ensures Check(cfg, d.widths) ==> !r.containerAttached && !r.timerArmed && r.outcome == Settle(d.outcome, Fulfilled)
    ensures !Check(cfg, d.widths) ==> r == d
  {
    if Check(cfg, d.widths) then d.(containerAttached := false, timerArmed := false, outcome := Settle(d.outcome, Fulfilled))
    else d
  }

  /** The resize callback of ruler `id`. */
  function Resized(cfg: Config, d: Detection, id: RulerId, width: int): Detection {
    AfterCheck(cfg, d.(widths := WithWidth(d.widths, id, width)))
  }

  /** Whether a tick re-samples: `hidden === true || hidden === undefined`. */
  predicate Samples(hidden: Option<bool>) {
    hidden == Some(true) || hidden == None
  }

  function TimedOut(cfg: Config, now: int): bool {
    now - cfg.start >= cfg.timeoutValue
  }

  /** `checkForTimeout()` at `now`, with the visibility it reads and the
      widths it would sample, as written: after the timeout it detaches and
      rejects; otherwise it may sample and check, then always re-arms the
      timer, even when that check has just resolved. */
  function TimeoutCheckAsWritten(cfg: Config, d: Detection, now: int, hidden: Option<bool>, sampled: Widths): Detection {
    if TimedOut(cfg, now) then
      d.(containerAttached := false, outcome := Settle(d.outcome, Rejected(TimeoutMessage(cfg.timeoutValue))))
    else
      var e := if Samples(hidden) then AfterCheck(cfg, d.(widths := sampled)) else d;
      e.(timerArmed := true)
  }

  /** `checkForTimeout()` as intended: it re-arms the timer only while the
      load is still pending. */
  function TimeoutCheck(cfg: Config, d: Detection, now: int, hidden: Option<bool>, sampled: Widths): Detection {
    if TimedOut(cfg, now) then
      d.(containerAttached := false, outcome := Settle(d.outcome, Rejected(TimeoutMessage(cfg.timeoutValue))))
    else
      var e := if Samples(hidden) then AfterCheck(cfg, d.(widths := sampled)) else d;
      e.(timerArmed := e.outcome.Pending?)
  }

  /** The 50 ms timer fires: it is no longer pending, and `checkForTimeout` runs. */
  function Ticked(cfg: Config, d: Detection, now: int, hidden: Option<bool>, sampled: Widths): Detection {
    TimeoutCheck(cfg, d.(timerArmed := false), now, hidden, sampled)
  }

  /** The invariant of a run: the tick timer is pending and the container
      attached exactly while the load is undecided, and the only rejection
      is the timeout's. */
  predicate Consistent(cfg: Config, d: Detection) {
    (d.outcome.Pending? <==> d.timerArmed) &&
    (d.outcome.Pending? <==> d.containerAttached) &&
    (d.outcome.Rejected? ==> d.outcome.error == TimeoutMessage(cfg.timeoutValue))
  }

  /** The input a run sees: a ruler's resize callback, or the tick timer
      firing at `now` with the visibility and the widths it would sample. */
  datatype Event = Resize(id: RulerId, width: int) | Tick(now: int, hidden: Option<bool>, sampled: Widths)

  /** One event. A tick with no pending timer cannot fire and changes nothing. */
  function Step(cfg: Config, d: Detection, e: Event): Detection {
    match e
    case Resize(id, width) => Resized(cfg, d, id, width)
    case Tick(now, hidden, sampled) => if d.timerArmed then Ticked(cfg, d, now, hidden, sampled) else d
  }

  function Run(cfg: Config, d: Detection, events: seq<Event>): Detection
    decreases |events|
  {
    if events == [] then d else Run(cfg, Step(cfg, d, events[0]), events[1..])
  }

  lemma StepConsistent(cfg: Config, d: Detection, e: Event)
    requires Consistent(cfg, d)
    ensures Consistent(cfg, Step(cfg, d, e))
    ensures !d.outcome.Pending? ==> Step(cfg, d, e).outcome == d.outcome
  {
  }

  /** The state before the first `checkForTimeout`: nothing measured, the
      container attached, no timer yet. */
  function Initial(): Detection {
    Detection(Widths(Unknown, Unknown, Unknown), true, false, Pending)
  }

  /** The first `checkForTimeout` establishes the invariant. */
  lemma StartConsistent(cfg: Config, now: int, hidden: Option<bool>, sampled: Widths)
    ensures Consistent(cfg, TimeoutCheck(cfg, Initial(), now, hidden, sampled))
  {
  }

  /** Every run keeps the invariant, and a settled load stays settled the
      same way whatever events follow: single settlement. */
  lemma {:induction false} RunConsistent(cfg: Config, d: Detection, events: seq<Event>)
    requires Consistent(cfg, d)
    ensures Consistent(cfg, Run(cfg, d, events))
    ensures !d.outcome.Pending? ==> Run(cfg, d, events).outcome == d.outcome
    decreases |events|
  {
    if events != [] {
      StepConsistent(cfg, d, events[0]);
      RunConsistent(cfg, Step(cfg, d, events[0]), events[1..]);
    }
  }

  /** Every width known so far is a last-resort width. */
  predicate AllLastResort(fallback: Widths, w: Widths) {
    (w.a == Unknown || IsLastResortWidth(fallback, w.a)) &&
    (w.b == Unknown || IsLastResortWidth(fallback, w.b)) &&
    (w.c == Unknown || IsLastResortWidth(fallback, w.c))
  }

  /** Whether event `e` reports only last-resort widths: a resize callback
      with one, or a tick whose sample holds nothing else. */
  predicate ReportsLastResort(cfg: Config, e: Event) {
    match e
    case Resize(_, width) => IsLastResortWidth(cfg.fallback, width)
    case Tick(_, _, sampled) => AllLastResort(cfg.fallback, sampled)
  }

  /** Under the bug, widths that are all last-resort widths never pass the
      check, however they pair up. */
  lemma LastResortWidthsVetoed(cfg: Config, w: Widths)
    requires cfg.webkitBug && AllLastResort(cfg.fallback, w)
    ensures !Check(cfg, w)
  {
    if Agree(w) {
      var i: RulerId, j: RulerId :| i != j && Width(w, i) == AgreedWidth(w) && Width(w, j) == AgreedWidth(w);
      match i {
        case A => assert w.a == AgreedWidth(w);
        case B => assert w.b == AgreedWidth(w);
        case C => assert w.c == AgreedWidth(w);
      }
    }
  }

  /** With the WebKit fallback bug, a run whose rulers and ticks only ever
      report last-resort widths never resolves, in whatever order and number
      the reports arrive. */
  lemma {:induction false} LastResortRunNeverResolves(cfg: Config, d: Detection, events: seq<Event>)
    requires cfg.webkitBug && d.outcome != Fulfilled && AllLastResort(cfg.fallback, d.widths)
    requires forall k :: 0 <= k < |events| ==> ReportsLastResort(cfg, events[k])
    ensures Run(cfg, d, events).outcome != Fulfilled
    decreases |events|
  {
    if events != [] {
      var next := Step(cfg, d, events[0]);
      assert next.outcome != Fulfilled && AllLastResort(cfg.fallback, next.widths) by {
        assert ReportsLastResort(cfg, events[0]);
        match events[0] {
          case Resize(id, width) =>
            LastResortWidthsVetoed(cfg, WithWidth(d.widths, id, width));
          case Tick(now, hidden, sampled) =>
            LastResortWidthsVetoed(cfg, sampled);
        }
      }
      assert forall k :: 0 <= k < |events[1..]| ==> ReportsLastResort(cfg, events[1..][k]) by {
        forall k | 0 <= k < |events[1..]| ensures ReportsLastResort(cfg, events[1..][k]) {
          assert events[1..][k] == events[k + 1];
        }
      }
      LastResortRunNeverResolves(cfg, next, events[1..]);
    }
  }

  /** With the WebKit fallback bug, from the state the first
      `checkForTimeout` leaves (which may have sampled the last-resort widths
      themselves), rulers and ticks that only report last-resort widths never
      resolve the load, whatever the page's visibility. */
  lemma LastResortNeverResolves(cfg: Config, now: int, hidden: Option<bool>, events: seq<Event>)
    requires cfg.webkitBug
    requires forall k :: 0 <= k < |events| ==> ReportsLastResort(cfg, events[k])
    ensures Run(cfg, TimeoutCheck(cfg, Initial(), now, hidden, cfg.fallback), events).outcome != Fulfilled
  {
    LastResortWidthsVetoed(cfg, cfg.fallback);
    LastResortRunNeverResolves(cfg, TimeoutCheck(cfg, Initial(), now, hidden, cfg.fallback), events);
  }

  /** A load that settles by resolving had two rulers agreeing on a known
      width at that moment, and no WebKit veto. */
  lemma StepResolvesOnAgreement(cfg: Config, d: Detection, e: Event)
    requires d.outcome.Pending? && Step(cfg, d, e).outcome == Fulfilled
    ensures KnownPair(Step(cfg, d, e).widths) && Check(cfg, Step(cfg, d, e).widths)
  {
    AgreeIsKnownPair(Step(cfg, d, e).widths);
  }

  /** A tick after the timeout always ends a pending load with the timeout
      rejection, and detaches the container. */
  lemma TickAfterTimeoutRejects(cfg: Config, d: Detection, now: int, hidden: Option<bool>, sampled: Widths)
    requires Consistent(cfg, d) && d.outcome.Pending? && TimedOut(cfg, now)
    ensures Step(cfg, d, Tick(now, hidden, sampled)).outcome == Rejected(TimeoutMessage(cfg.timeoutValue))
    ensures !Step(cfg, d, Tick(now, hidden, sampled)).containerAttached
  {
  }

  /** On a visible page a tick before the timeout reads no widths and
      decides nothing; it only re-arms itself. */
  lemma VisibleTickOnlyRearms(cfg: Config, d: Detection, now: int, sampled: Widths)
    requires Consistent(cfg, d) && d.outcome.Pending? && !TimedOut(cfg, now)
    ensures Step(cfg, d, Tick(now, Some(false), sampled)) == d
  {
  }

  /** As written, a tick whose own check resolves leaves the timer armed. */
  lemma ResolvingTickRearmsAsWritten(cfg: Config, d: Detection, now: int, sampled: Widths)
    requires d.outcome.Pending? && !TimedOut(cfg, now) && Check(cfg, sampled)
    ensures TimeoutCheckAsWritten(cfg, d.(timerArmed := false), now, None, sampled).outcome == Fulfilled
    ensures TimeoutCheckAsWritten(cfg, d.(timerArmed := false), now, None, sampled).timerArmed
    ensures !TimeoutCheck(cfg, d.(timerArmed := false), now, None, sampled).timerArmed
  {
  }

  // ---------------------------------------------------------------------

  /** `new Ruler(text)`, `setFont(font)`, then appended to the container. */
  method AttachedRuler(text: string, font: string) returns (r: Ruler)
    ensures fresh(r)
    ensures r.text == text && r.hasParent && !r.listening
    ensures r.lastOffsetWidth == Unknown
    ensures r.elementCss == FontCss(font) && r.elementWidth == "auto"
    ensures r.collapsibleCss == PaneStyle && r.expandableCss == PaneStyle
    ensures r.collapsibleInnerCss == CollapsibleInnerStyle
    ensures r.expandableInnerWidth == "100%"
    ensures r.expandableScrollLeft == 0 && r.collapsibleScrollLeft == 0
  {
    r := new Ruler(text);
    r.SetFont(font);
    r.hasParent := true;
  }

  /** The state `onResize` then `setFont(target)` leave a ruler in: it
      listens, has recorded `width`, has both panes positioned for `width`
      and the collapsible pane's `scrollWidth`, and carries the target
      style with its width back at `auto`. */
  ghost predicate Primed(r: Ruler, target: string, width: int, scrollWidth: int)
    reads r
  {
    r.listening && r.hasParent && r.Positioned() &&
    r.lastOffsetWidth == width &&
    r.expandableInnerWidth == Px(width + Slack) && r.expandableScrollLeft == width + Slack &&
    r.collapsibleScrollLeft == scrollWidth + Slack &&
    r.elementCss == FontCss(target) && r.elementWidth == "auto"
  }

  /** `ruler.onResize(callback)` then `ruler.setFont(target)`: the ruler
      listens, records its current `width` silently, and switches font. */
  method Prime(r: Ruler, target: string, width: int, scrollWidth: int)
    requires r.Positioned() && r.hasParent
    modifies r
    ensures Primed(r, target, width, scrollWidth)
  {
    r.OnResize(width, scrollWidth);
    r.SetFont(target);
  }

  /** The run itself, with the closure variables as fields. */
  class FallbackDetector {
    const rulerA: Ruler
    const rulerB: Ruler
    const rulerC: Ruler
    const start: int
    const timeoutValue: int
    /** `hasWebKitFallbackBug()`, which is frozen once computed. */
    const webkitBug: bool
    const fallbackA: int
    const fallbackB: int
    const fallbackC: int
    /** `container.dir`, pinned so scroll offsets grow to the right. */
    const containerDir: string
    var widthA: int
    var widthB: int
    var widthC: int
    var containerAttached: bool
    var timerArmed: bool
    var outcome: Settlement

    function Configuration(): Config {
      Config(start, timeoutValue, webkitBug, Widths(fallbackA, fallbackB, fallbackC))
    }

    function State(): Detection
      reads this
    {
      Detection(Widths(widthA, widthB, widthC), containerAttached, timerArmed, outcome)
    }

    function RulerOf(id: RulerId): Ruler {
      match id
      case A => rulerA
      case B => rulerB
      case C => rulerC
    }

    /** Each ruler listens for scrolls, stays in the container and keeps
        its panes positioned. */
    ghost predicate RulerReady(r: Ruler)
      reads r
    {
      r.listening && r.hasParent && r.Positioned()
    }

    ghost predicate Valid()
      reads this, rulerA, rulerB, rulerC
    {
      rulerA != rulerB && rulerA != rulerC && rulerB != rulerC &&
      RulerReady(rulerA) && RulerReady(rulerB) && RulerReady(rulerC) &&
      Consistent(Configuration(), State())
    }

    /** The body of the `waitForBody` callback at time `now`: rulers set to
        the bare generic families and attached; their widths `fallback`
        recorded; a first `checkForTimeout` (which samples those same
        widths when it samples at all); then each ruler primed by
        `onResize` (its panes measuring `scroll`) and switched to the
        target family. */
    constructor (o: FontFaceObserver, text: Option<string>, timeout: Option<int>, start: int,
                 now: int, hidden: Option<bool>, stretchSupported: bool, webkitBug: bool,
                 fallback: Widths, scroll: Widths)
      ensures Valid()
      ensures fresh(rulerA) && fresh(rulerB) && fresh(rulerC)
      ensures Configuration() == Config(start, TimeoutValue(timeout), webkitBug, fallback)
      ensures State() == TimeoutCheck(Configuration(), Initial(), now, hidden, fallback)
      ensures containerDir == "ltr"
      ensures forall id :: RulerOf(id).text == TestString(text)
      ensures forall id ::
                Primed(RulerOf(id), TargetStyle(o, id, stretchSupported), Width(fallback, id), Width(scroll, id))
    {
      var testString := TestString(text);
      var ra := AttachedRuler(testString, GetStyle(o, Generic(A), stretchSupported));
      var rb := AttachedRuler(testString, GetStyle(o, Generic(B), stretchSupported));
      var rc := AttachedRuler(testString, GetStyle(o, Generic(C), stretchSupported));
      rulerA, rulerB, rulerC := ra, rb, rc;
      this.start := start;
      timeoutValue := TimeoutValue(timeout);
      this.webkitBug := webkitBug;
      widthA, widthB, widthC := Unknown, Unknown, Unknown;
      containerDir := "ltr";
      containerAttached := true;
      timerArmed := false;
      outcome := Pending;
      fallbackA, fallbackB, fallbackC := fallback.a, fallback.b, fallback.c;
      new;
      CheckForTimeout(now, hidden, fallback);
      StartConsistent(Configuration(), now, hidden, fallback);
      PrimeRulers(o, stretchSupported, fallback, scroll);
    }

    /** Each ruler in turn: `onResize` records its current width silently,
        then `setFont` switches it to the target family. */
    method PrimeRulers(o: FontFaceObserver, stretchSupported: bool, current: Widths, scroll: Widths)
      requires rulerA != rulerB && rulerA != rulerC && rulerB != rulerC
      requires rulerA.hasParent && rulerA.Positioned()
      requires rulerB.hasParent && rulerB.Positioned()
      requires rulerC.hasParent && rulerC.Positioned()
      modifies rulerA, rulerB, rulerC
      ensures Primed(rulerA, TargetStyle(o, A, stretchSupported), current.a, scroll.a)
      ensures Primed(rulerB, TargetStyle(o, B, stretchSupported), current.b, scroll.b)
      ensures Primed(rulerC, TargetStyle(o, C, stretchSupported), current.c, scroll.c)
    {
      Prime(rulerA, TargetStyle(o, A, stretchSupported), current.a, scroll.a);
      Prime(rulerB, TargetStyle(o, B, stretchSupported), current.b, scroll.b);
      Prime(rulerC, TargetStyle(o, C, stretchSupported), current.c, scroll.c);
    }

    /** `check()`. */
    method CheckWidths()
      modifies this`containerAttached, this`timerArmed, this`outcome
      ensures State() == AfterCheck(Configuration(), old(State()))
    {
      if Check(Configuration(), Widths(widthA, widthB, widthC)) {
        containerAttached := false;
        timerArmed := false;
        outcome := Settle(outcome, Fulfilled);
      }
    }

    /** `checkForTimeout()` as intended; the timer is not pending when it runs. */
    method CheckForTimeout(now: int, hidden: Option<bool>, sampled: Widths)
      modifies this`widthA, this`widthB, this`widthC, this`containerAttached, this`timerArmed, this`outcome
      ensures State() == TimeoutCheck(Configuration(), old(State()), now, hidden, sampled)
    {
      if now - start >= timeoutValue {
        containerAttached := false;
        outcome := Settle(outcome, Rejected(TimeoutMessage(timeoutValue)));
      } else {
        if hidden == Some(true) || hidden == None {
          widthA, widthB, widthC := sampled.a, sampled.b, sampled.c;
          CheckWidths();
        }
        timerArmed := outcome.Pending?;
      }
    }

    /** The 50 ms timer fires. */
    method Tick(now: int, hidden: Option<bool>, sampled: Widths)
      requires Valid() && timerArmed
      modifies this`widthA, this`widthB, this`widthC, this`containerAttached, this`timerArmed, this`outcome
      ensures Valid()
      ensures State() == Step(Configuration(), old(State()), Event.Tick(now, hidden, sampled))
    {
      timerArmed := false;
      CheckForTimeout(now, hidden, sampled);
    }

    /** The 50 ms timer fires, running `checkForTimeout()` as written. */
    method TickAsWritten(now: int, hidden: Option<bool>, sampled: Widths)
      requires Valid() && timerArmed
      modifies this`widthA, this`widthB, this`widthC, this`containerAttached, this`timerArmed, this`outcome
      ensures State() == TimeoutCheckAsWritten(Configuration(), old(State()).(timerArmed := false), now, hidden, sampled)
    {
      timerArmed := false;
      if now - start >= timeoutValue {
        containerAttached := false;
        outcome := Settle(outcome, Rejected(TimeoutMessage(timeoutValue)));
      } else {
        if hidden == Some(true) || hidden == None {
          widthA, widthB, widthC := sampled.a, sampled.b, sampled.c;
          CheckWidths();
        }
        timerArmed := true;
      }
    }

    /** The resize callback registered on ruler `id`. */
    method OnResize(id: RulerId, width: int)
      requires Valid()
      modifies this`widthA, this`widthB, this`widthC, this`containerAttached, this`timerArmed, this`outcome
      ensures Valid()
      ensures State() == Step(Configuration(), old(State()), Resize(id, width))
    {
      match id {
        case A => widthA := width;
        case B => widthB := width;
        case C => widthC := width;
      }
      CheckWidths();
    }

    /** A scroll event on a pane of ruler `id`, the element measuring
        `offsetWidth` and the collapsible pane `scrollWidth`: the ruler
        resets, and calls back only on a change of width. */
    method Scroll(id: RulerId, offsetWidth: int, scrollWidth: int)
      requires Valid()
      modifies this`widthA, this`widthB, this`widthC, this`containerAttached, this`timerArmed, this`outcome
      modifies RulerOf(id)`expandableInnerWidth, RulerOf(id)`expandableScrollLeft,
               RulerOf(id)`collapsibleScrollLeft, RulerOf(id)`lastOffsetWidth
      ensures Valid()
      ensures RulerOf(id).lastOffsetWidth == offsetWidth
      ensures RulerOf(id).expandableInnerWidth == Px(offsetWidth + Slack)
      ensures RulerOf(id).expandableScrollLeft == offsetWidth + Slack
      ensures RulerOf(id).collapsibleScrollLeft == scrollWidth + Slack
      ensures State() == if old(RulerOf(id).lastOffsetWidth) != offsetWidth
                         then Step(Configuration(), old(State()), Resize(id, offsetWidth))
                         else old(State())
    {
      var r := RulerOf(id);
      var callback := r.OnScroll(offsetWidth, scrollWidth);
      if callback.Some? {
        OnResize(id, callback.value);
      }
    }
  }

  // ---------------------------------------------------------------------
  // Runs on a visible page (no sampling by the tick) with the default
  // 3000 ms timeout, started at `start`.

  /** Rulers A and B report 42 while C never reports: two known equal
      widths resolve the load, detach the container and stop the tick. */
  method TwoRulersConverge(o: FontFaceObserver, start: int, stretchSupported: bool, webkitBug: bool,
                           fallback: Widths, scroll: Widths)
    returns (outcome: Settlement, attached: bool, ticking: bool)
    requires fallback.a != 42 && fallback.b != 42 && fallback.c != 42
    ensures outcome == Fulfilled && !attached && !ticking
  {
    var d := new FallbackDetector(o, None, None, start, start, Some(false), stretchSupported, webkitBug, fallback, scroll);
    d.Scroll(A, 42, scroll.a);
    d.Scroll(B, 42, scroll.b);
    outcome, attached, ticking := d.outcome, d.containerAttached, d.timerArmed;
  }

  /** With the WebKit fallback bug and last-resort widths 10, 20, 30, rulers
      B and C scrolling to 10 are ignored, whether or not the first tick
      sampled the last-resort widths; once they agree on 42 the load
      resolves. */
  method WebKitLastResortIgnored(o: FontFaceObserver, start: int, hidden: Option<bool>,
                                 stretchSupported: bool, scroll: Widths)
    returns (afterB: Settlement, afterC: Settlement, later: Settlement)
    ensures afterB == Pending && afterC == Pending
    ensures later == Fulfilled
  {
    var d := new FallbackDetector(o, None, None, start, start, hidden, stretchSupported, true,
                                  Widths(10, 20, 30), scroll);
    d.Scroll(B, 10, scroll.b);
    afterB := d.outcome;
    d.Scroll(C, 10, scroll.c);
    afterC := d.outcome;
    d.Scroll(B, 42, scroll.b);
    d.Scroll(C, 42, scroll.c);
    later := d.outcome;
  }

  /** On a hidden page, ticks alone can resolve: the tick samples two equal
      widths. No resize callback is needed. */
  method HiddenPageResolvesByTicks(o: FontFaceObserver, start: int, stretchSupported: bool, webkitBug: bool,
                                   scroll: Widths)
    returns (outcome: Settlement, ticking: bool)
    ensures outcome == Fulfilled && !ticking
  {
    var d := new FallbackDetector(o, None, None, start, start, Some(true), stretchSupported, webkitBug,
                                  Widths(10, 20, 30), scroll);
    d.Tick(start + 50, Some(true), Widths(42, 42, 30));
    outcome, ticking := d.outcome, d.timerArmed;
  }

  /** Without agreement, the first tick at or after the timeout rejects
      with the timeout message and detaches the container. */
  method NoAgreementTimesOut(o: FontFaceObserver, start: int, stretchSupported: bool, webkitBug: bool,
                             scroll: Widths, late: int)
    returns (outcome: Settlement, attached: bool)
    requires late >= start + DefaultTimeout
    ensures outcome == Rejected(TimeoutMessage(3000)) && !attached
  {
    var d := new FallbackDetector(o, None, None, start, start, Some(false), stretchSupported, webkitBug,
                                  Widths(10, 20, 30), scroll);
    d.Tick(start + 50, Some(false), Widths(10, 20, 30));
    d.Tick(late, Some(false), Widths(10, 20, 30));
    outcome, attached := d.outcome, d.containerAttached;
  }

  /** As written, `checkForTimeout` re-arms its timer after the check it
      just ran resolved the load: the tick keeps running until the timeout. */
  method ResolvingTickAsWritten(o: FontFaceObserver, start: int, stretchSupported: bool, webkitBug: bool,
                                scroll: Widths)
    returns (outcome: Settlement, ticking: bool)
    ensures outcome == Fulfilled && ticking
  {
    var d := new FallbackDetector(o, None, None, start, start, Some(false), stretchSupported, webkitBug,
                                  Widths(10, 20, 30), scroll);
    d.TickAsWritten(start + 50, None, Widths(42, 42, 30));
    outcome, ticking := d.outcome, d.timerArmed;
  }
}
