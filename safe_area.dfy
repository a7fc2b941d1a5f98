/** Safe-area insets (`src/utils/safeArea.ts`). The platform name, the window height
    and the status-bar height the platform reports are parameters instead of globals. */
module SafeArea {
  import opened Wrappers

  datatype Platform = Platform(os: string, screenHeight: real, statusBarHeight: Option<real>)

  /** Window heights of the iPhone models with a notch or a dynamic island. */
  const NotchHeights: seq<real> := [812.0, 896.0, 780.0, 844.0, 926.0, 852.0, 932.0]

  datatype Insets = Insets(top: real, bottom: real, left: real, right: real)

  predicate HasNotch(p: Platform) {
    p.os == "ios" && p.screenHeight in NotchHeights
  }

  function StatusBarHeight(p: Platform): real {
    if p.os == "ios" then (if HasNotch(p) then 44.0 else 20.0)
    else if p.statusBarHeight.Some? && p.statusBarHeight.value != 0.0 then p.statusBarHeight.value
    else 24.0
  }

  function BottomSafeAreaHeight(p: Platform): real {
    if p.os == "ios" && HasNotch(p) then 34.0 else 0.0
  }

  function SafeAreaInsets(p: Platform): Insets {
    Insets(StatusBarHeight(p), BottomSafeAreaHeight(p), 0.0, 0.0)
  }

  /** A style object: the numeric properties this helper touches and any others. */
  type Style = map<string, real>

  function WithSafeArea(style: Style, p: Platform): Style {
    style["paddingTop" := (if "paddingTop" in style then style["paddingTop"] else 0.0) + StatusBarHeight(p)]
         ["paddingBottom" := (if "paddingBottom" in style then style["paddingBottom"] else 0.0) + BottomSafeAreaHeight(p)]
  }

  /** Only iOS devices are treated as notched, whatever the window height. */
  lemma NotchOnlyOnIos(p: Platform)
    requires p.os != "ios"
    ensures !HasNotch(p) && BottomSafeAreaHeight(p) == 0.0
  {
  }

  /** On iOS the top inset is 44 exactly on the listed heights, and 20 on every other. */
  lemma IosStatusBar(p: Platform)
    requires p.os == "ios"
    ensures HasNotch(p) <==> p.screenHeight in {812.0, 896.0, 780.0, 844.0, 926.0, 852.0, 932.0}
    ensures StatusBarHeight(p) == 44.0 <==> HasNotch(p)
    ensures StatusBarHeight(p) == 20.0 <==> !HasNotch(p)
  {
  }

  /** Elsewhere the reported height is used, and 24 stands in for a missing or zero one. */
  lemma OtherStatusBar(p: Platform)
    requires p.os != "ios"
    ensures p.statusBarHeight == None ==> StatusBarHeight(p) == 24.0
    ensures p.statusBarHeight == Some(0.0) ==> StatusBarHeight(p) == 24.0
    ensures p.statusBarHeight.Some? && p.statusBarHeight.value != 0.0 ==> StatusBarHeight(p) == p.statusBarHeight.value
  {
  }

  /** The bottom inset is 34 exactly on a notched iPhone and 0 otherwise. */
  lemma BottomInset(p: Platform)
    ensures BottomSafeAreaHeight(p) == 34.0 <==> p.os == "ios" && HasNotch(p)
    ensures BottomSafeAreaHeight(p) == 0.0 <==> !HasNotch(p)
  {
  }

  /** The insets record is the two getters plus zero side insets. */
  lemma InsetsAgree(p: Platform)
    ensures var i := SafeAreaInsets(p);
      i.left == 0.0 && i.right == 0.0 && i.top == StatusBarHeight(p) && i.bottom == BottomSafeAreaHeight(p)
  {
  }

  /** The padded style keeps every other property, adds the top and bottom insets to the
      existing padding (a missing padding counting as 0), and defines both paddings. */
  lemma WithSafeAreaEffect(style: Style, p: Platform)
    ensures var r := WithSafeArea(style, p);
      r.Keys == style.Keys + {"paddingTop", "paddingBottom"} &&
      (forall k | k in style && k != "paddingTop" && k != "paddingBottom" :: r[k] == style[k]) &&
      r["paddingTop"] == (if "paddingTop" in style then style["paddingTop"] else 0.0) + StatusBarHeight(p) &&
      r["paddingBottom"] == (if "paddingBottom" in style then style["paddingBottom"] else 0.0) + BottomSafeAreaHeight(p)
  {
  }
}
