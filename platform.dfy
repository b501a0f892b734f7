/** The process-wide feature and bug flags of `FontFaceObserver`
    (src/observer.js:31-157): four single-assignment caches that start at
    `null` and are filled by the first call that reads them.

    The user agent is given already parsed: `webkit` is the list of numbers
    after the `AppleWebKit/` token, split at the dots (`AppleWebKit/603.1.30`
    gives [603, 1, 30]), and is empty when there is no such token. The
    two-part pattern of `hasWebKitFallbackBug` matches exactly when the list
    has at least two numbers; the three-part pattern of `hasSafari10Bug`
    when it has at least three. */
module Platform {
  import opened JsValues

  /** The last engine version with the WebKit fallback bug is 536.11. */
  const FallbackBugMajor := 536
  const FallbackBugMinor := 11

  /** The first engine version whose native font loading settles reliably. */
  const Safari10FixedMajor := 603

  /** Lexicographic order on version numbers; a shorter prefix comes first. */
  predicate VersionAtMost(a: seq<nat>, b: seq<nat>)
    decreases |a|
  {
    a == [] || (b != [] && (a[0] < b[0] || (a[0] == b[0] && VersionAtMost(a[1..], b[1..]))))
  }

  /** What `hasWebKitFallbackBug` computes from the parsed user agent. */
  predicate WebKitFallbackBug(webkit: seq<nat>) {
    |webkit| >= 2 &&
    (webkit[0] < FallbackBugMajor || (webkit[0] == FallbackBugMajor && webkit[1] <= FallbackBugMinor))
  }

  /** The bug is present exactly when the engine's `major.minor` is at most 536.11. */
  lemma WebKitFallbackBugIsVersionBound(webkit: seq<nat>)
    ensures WebKitFallbackBug(webkit) <==>
            |webkit| >= 2 && VersionAtMost(webkit[..2], [FallbackBugMajor, FallbackBugMinor])
  {
    if |webkit| >= 2 {
      var v := webkit[..2];
      var limit: seq<nat> := [FallbackBugMajor, FallbackBugMinor];
      assert VersionAtMost([], []);
      assert VersionAtMost([webkit[1]], [FallbackBugMinor]) <==> webkit[1] <= FallbackBugMinor by {
        assert [webkit[1]][1..] == [] && [FallbackBugMinor][1..] == [];
      }
      assert v[1..] == [webkit[1]] && limit[1..] == [FallbackBugMinor];
      assert VersionAtMost(v, limit) <==>
             v[0] < limit[0] || (v[0] == limit[0] && VersionAtMost(v[1..], limit[1..]));
    }
  }

  /** What `hasSafari10Bug` computes: native loading, an Apple vendor and a
      three-part engine version below 603. */
  predicate Safari10Bug(nativeLoading: bool, vendor: string, webkit: seq<nat>) {
    nativeLoading && Contains(vendor, "Apple") && |webkit| >= 3 && webkit[0] < Safari10FixedMajor
  }

  /** The Safari 10 bug needs a vendor string with `Apple` somewhere in it. */
  lemma Safari10BugNeedsApple(nativeLoading: bool, vendor: string, webkit: seq<nat>)
    requires Safari10Bug(nativeLoading, vendor, webkit)
    ensures nativeLoading && |webkit| >= 3
    ensures exists i: nat :: OccursAt(vendor, "Apple", i)
  {
    ContainsOccurs(vendor, "Apple");
  }

  /** The static caches of `FontFaceObserver`; `None` is the initial `null`. */
  class PlatformProbe {
    var webkitFallbackBug: Option<bool>
    var safari10Bug: Option<bool>
    var supportsStretch: Option<bool>
    var supportsNativeFontLoading: Option<bool>

    constructor ()
      ensures webkitFallbackBug == None && safari10Bug == None
      ensures supportsStretch == None && supportsNativeFontLoading == None
    {
      webkitFallbackBug := None;
      safari10Bug := None;
      supportsStretch := None;
      supportsNativeFontLoading := None;
    }

    /** `hasWebKitFallbackBug()`: computed on the first call only. */
    method HasWebKitFallbackBug(webkit: seq<nat>) returns (bug: bool)
      modifies this`webkitFallbackBug
      ensures old(webkitFallbackBug).Some? ==> bug == old(webkitFallbackBug).value
      ensures old(webkitFallbackBug).None? ==> bug == WebKitFallbackBug(webkit)
      ensures webkitFallbackBug == Some(bug)
    {
      if webkitFallbackBug.None? {
        webkitFallbackBug := Some(WebKitFallbackBug(webkit));
      }
      bug := webkitFallbackBug.value;
    }

    /** `supportsNativeFontLoading(context)`: whether `context.document.fonts`
        exists, recorded by the first call. */
    method SupportsNativeFontLoading(documentHasFonts: bool) returns (native: bool)
      modifies this`supportsNativeFontLoading
      ensures old(supportsNativeFontLoading).Some? ==> native == old(supportsNativeFontLoading).value
      ensures old(supportsNativeFontLoading).None? ==> native == documentHasFonts
      ensures supportsNativeFontLoading == Some(native)
    {
      if supportsNativeFontLoading.None? {
        supportsNativeFontLoading := Some(documentHasFonts);
      }
      native := supportsNativeFontLoading.value;
    }

    /** `hasSafari10Bug(context)`: on its first call it asks
        `supportsNativeFontLoading` (which may fill that cache too) and reads
        the vendor only when native loading is supported. */
    method HasSafari10Bug(documentHasFonts: bool, vendor: string, webkit: seq<nat>) returns (bug: bool)
      modifies this`safari10Bug, this`supportsNativeFontLoading
      ensures old(safari10Bug).Some? ==>
                bug == old(safari10Bug).value &&
                supportsNativeFontLoading == old(supportsNativeFontLoading)
      ensures old(safari10Bug).None? ==>
                supportsNativeFontLoading.Some? &&
                (old(supportsNativeFontLoading).Some? ==> supportsNativeFontLoading == old(supportsNativeFontLoading)) &&
                (old(supportsNativeFontLoading).None? ==> supportsNativeFontLoading == Some(documentHasFonts)) &&
                bug == Safari10Bug(supportsNativeFontLoading.value, vendor, webkit)
      ensures safari10Bug == Some(bug)
    {
      if safari10Bug.None? {
        var native := SupportsNativeFontLoading(documentHasFonts);
        if native && Contains(vendor, "Apple") {
          safari10Bug := Some(|webkit| >= 3 && webkit[0] < Safari10FixedMajor);
        } else {
          safari10Bug := Some(false);
        }
      }
      bug := safari10Bug.value;
    }

    /** `supportStretch()`: whether a detached element kept the shorthand
        `condensed 100px sans-serif` (a thrown assignment counts as not
        kept), recorded by the first call. */
    method SupportStretch(styleKept: bool) returns (stretch: bool)
      modifies this`supportsStretch
      ensures old(supportsStretch).Some? ==> stretch == old(supportsStretch).value
      ensures old(supportsStretch).None? ==> stretch == styleKept
      ensures supportsStretch == Some(stretch)
    {
      if supportsStretch.None? {
        supportsStretch := Some(styleKept);
      }
      stretch := supportsStretch.value;
    }
  }

  /** Two calls of `hasWebKitFallbackBug` on a fresh cache, whatever the user
      agent reads at the second: the second returns what the first computed. */
  method WebKitFallbackBugIsFrozen(first: seq<nat>, second: seq<nat>) returns (a: bool, b: bool)
    ensures a == WebKitFallbackBug(first)
    ensures b == a
  {
    var probe := new PlatformProbe();
    a := probe.HasWebKitFallbackBug(first);
    b := probe.HasWebKitFallbackBug(second);
  }

  /** A first `hasSafari10Bug` call also freezes native-loading support: a
      later `supportsNativeFontLoading` returns the value it recorded. */
  method Safari10BugFreezesNativeSupport(hasFonts: bool, laterHasFonts: bool, vendor: string, webkit: seq<nat>)
    returns (bug: bool, native: bool)
    ensures bug == Safari10Bug(hasFonts, vendor, webkit)
    ensures native == hasFonts
  {
    var probe := new PlatformProbe();
    bug := probe.HasSafari10Bug(hasFonts, vendor, webkit);
    native := probe.SupportsNativeFontLoading(laterHasFonts);
  }
}
