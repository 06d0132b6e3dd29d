/**
 * The onboarding pager: a current slide index over the three onboarding slides, moved by Next,
 * by swiping (the list's viewable-items callback), and left by Skip or Get Started, both of which
 * navigate to the auth selection screen.
 */
module Onboarding {

  /** The number of onboarding slides. */
  const SlideCount: int := 3

  const AuthSelectionRoute: string := "/auth-selection"

  predicate IsLastSlide(index: int) {
    index == SlideCount - 1
  }

  /** Skip and "Report Anonymously" are shown off the last slide; Get Started replaces Next on it. */
  predicate ShowsSkip(index: int) { !IsLastSlide(index) }
  predicate ShowsReportAnonymously(index: int) { !IsLastSlide(index) }
  predicate ShowsGetStarted(index: int) { IsLastSlide(index) }
  predicate ShowsNext(index: int) { !IsLastSlide(index) }

  /** The pagination dots, one per slide; a dot is active when its position is the current index. */
  function Dots(index: int): (dots: seq<bool>)
    ensures |dots| == SlideCount
  {
    seq(SlideCount, i requires 0 <= i < SlideCount => i == index)
  }

  /** How many dots are active. */
  function ActiveCount(dots: seq<bool>): nat {
    if dots == [] then 0 else (if dots[0] then 1 else 0) + ActiveCount(dots[1..])
  }

  lemma {:induction false} ActiveCountSingle(dots: seq<bool>, k: int)
    requires 0 <= k < |dots|
    requires forall i :: 0 <= i < |dots| ==> (dots[i] <==> i == k)
    ensures ActiveCount(dots) == 1
  {
    if k == 0 {
      ActiveCountNone(dots[1..]);
    } else {
      ActiveCountSingle(dots[1..], k - 1);
    }
  }

  lemma {:induction false} ActiveCountNone(dots: seq<bool>)
    requires forall i :: 0 <= i < |dots| ==> !dots[i]
    ensures ActiveCount(dots) == 0
  {
    if dots != [] {
      ActiveCountNone(dots[1..]);
    }
  }

  /** On a valid index exactly one dot is active, and it is the current one. */
  lemma ExactlyOneActiveDot(index: int)
    requires 0 <= index < SlideCount
    ensures ActiveCount(Dots(index)) == 1 && Dots(index)[index]
  {
    ActiveCountSingle(Dots(index), index);
  }

  /** Each screen shows exactly one of Next and Get Started, and Skip exactly when it shows Next. */
  lemma ButtonsExclusive(index: int)
    ensures ShowsNext(index) != ShowsGetStarted(index)
    ensures ShowsSkip(index) == ShowsNext(index) == ShowsReportAnonymously(index)
  {
  }

  class OnboardingScreen {
    /** `currentIndex`. */
    var index: int
    /** The routes passed to `router.replace`, in order. */
    var routes: seq<string>

    ghost predicate Valid()
      reads this
    {
      0 <= index < SlideCount
    }

    constructor ()
      ensures Valid() && index == 0 && routes == []
    {
      index := 0;
      routes := [];
    }

    /** `handleNext`: advance below the last slide, otherwise leave for the auth selection screen. */
    method HandleNext()
      modifies this
      ensures old(index) < SlideCount - 1 ==> index == old(index) + 1 && routes == old(routes)
      ensures old(index) >= SlideCount - 1 ==> index == old(index) && routes == old(routes) + [AuthSelectionRoute]
      ensures old(Valid()) ==> Valid()
    {
      if index < SlideCount - 1 {
        var nextIndex := index + 1;
        index := nextIndex;
      } else {
        HandleGetStarted();
      }
    }

    /** `handleSkip`. */
    method HandleSkip()
      modifies this`routes
      ensures routes == old(routes) + [AuthSelectionRoute]
    {
      HandleGetStarted();
    }

    /** `handleGetStarted`: navigate to the auth selection screen. */
    method HandleGetStarted()
      modifies this`routes
      ensures routes == old(routes) + [AuthSelectionRoute]
    {
      routes := routes + [AuthSelectionRoute];
    }

    /** `onViewableItemsChanged`: the first viewable slide becomes current; an empty list changes nothing. */
    method OnViewableItemsChanged(viewableIndices: seq<int>)
      modifies this`index
      ensures |viewableIndices| > 0 ==> index == viewableIndices[0]
      ensures |viewableIndices| == 0 ==> index == old(index)
      ensures old(Valid()) && (forall k :: 0 <= k < |viewableIndices| ==> 0 <= viewableIndices[k] < SlideCount)
              ==> Valid()
    {
      if |viewableIndices| > 0 {
        index := viewableIndices[0];
      }
    }
  }
}
