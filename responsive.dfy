/** The responsive tier table of src/components/providers/ResponsiveProvider.tsx:
    from the viewport width and the reduced-motion preference to the device
    class, the effects level, the star budget and the animation speed. */
module Responsive {

  datatype EffectsLevel = Minimal | Reduced | Full

  datatype ResponsiveState = ResponsiveState(
    isMobile: bool,
    isTablet: bool,
    isDesktop: bool,
    effectsLevel: EffectsLevel,
    starCount: int,
    animationSpeed: real)

  const MobileBreakpoint: real := 768.0
  const DesktopBreakpoint: real := 1024.0

  /** The memoised computation: device class from the width, then the first
      matching rule of reduced motion, mobile, tablet, or the full default.
      Exactly one device class holds; reduced motion forces the minimal tier
      whatever the width; otherwise the tier follows the device class. */
  function Compute(width: real, prefersReducedMotion: bool): (r: ResponsiveState)
    ensures r.isMobile <==> width < 768.0
    ensures r.isTablet <==> 768.0 <= width < 1024.0
    ensures r.isDesktop <==> 1024.0 <= width
    ensures r.isMobile || r.isTablet || r.isDesktop
    ensures !(r.isMobile && r.isTablet) && !(r.isMobile && r.isDesktop) && !(r.isTablet && r.isDesktop)
    ensures prefersReducedMotion ==>
      r.effectsLevel == Minimal && r.starCount == 100 && r.animationSpeed == 0.0
    ensures !prefersReducedMotion && r.isMobile ==>
      r.effectsLevel == Reduced && r.starCount == 500 && r.animationSpeed == 0.5
    ensures !prefersReducedMotion && r.isTablet ==>
      r.effectsLevel == Reduced && r.starCount == 1000 && r.animationSpeed == 0.75
    ensures !prefersReducedMotion && r.isDesktop ==>
      r.effectsLevel == Full && r.starCount == 2000 && r.animationSpeed == 1.0
  {
    var isMobile := width < MobileBreakpoint;
    var isTablet := width >= MobileBreakpoint && width < DesktopBreakpoint;
    var isDesktop := width >= DesktopBreakpoint;
    var (level, stars, speed) :=
      if prefersReducedMotion then (Minimal, 100, 0.0)
      else if isMobile then (Reduced, 500, 0.5)
      else if isTablet then (Reduced, 1000, 0.75)
      else (Full, 2000, 1.0);
    ResponsiveState(isMobile, isTablet, isDesktop, level, stars, speed)
  }

  /** The full effects level is reached exactly on a desktop without reduced
      motion. */
  lemma FullIffDesktop(width: real, reduced: bool)
    ensures Compute(width, reduced).effectsLevel == Full <==> (width >= 1024.0 && !reduced)
  {
  }

  /** Without reduced motion a wider viewport never gets fewer stars or a
      slower animation. */
  lemma MonotoneInWidth(w1: real, w2: real)
    requires w1 <= w2
    ensures Compute(w1, false).starCount <= Compute(w2, false).starCount
    ensures Compute(w1, false).animationSpeed <= Compute(w2, false).animationSpeed
  {
  }
}
