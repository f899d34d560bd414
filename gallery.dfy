/**
 * The full-screen image gallery viewer of src/components/ImageGalleryModal.tsx.
 *
 * A `Session` is the component's whole state at one moment: its props `images`,
 * `initialIndex` and `open`, and its three state hooks `currentIndex`, `direction`
 * and `imageLoaded`. Each handler of the component is a step function on sessions,
 * with the component's two effects written out as explicit rules inside the steps;
 * the class `Navigator` performs the same steps in place and is proved to agree.
 */
module GalleryNavigator {

  /** Horizontal distance, in pixels, from which a slide enters and to which it exits. */
  const SlideDistance: int := 1000

  /** The `KeyboardEvent.key` values the window listener reacts to. */
  const ArrowRight: string := "ArrowRight"
  const ArrowLeft: string := "ArrowLeft"
  const Escape: string := "Escape"

  datatype Session = Session(
    images: seq<string>,
    initialIndex: int,
    currentIndex: int,
    direction: int,
    imageLoaded: bool,
    open: bool)

  /** What every handler keeps: a non-empty image list, both indices inside it, and a
      direction of -1 (last move backward), 0 (no move yet) or 1 (last move forward).
      The component itself clamps nothing, so a non-empty list and an in-range
      `initialIndex` are what its caller has to supply. */
  predicate Valid(s: Session) {
    && |s.images| > 0
    && 0 <= s.initialIndex < |s.images|
    && 0 <= s.currentIndex < |s.images|
    && -1 <= s.direction <= 1
  }

  /** The first render: the three `useState` initialisers, with `initialIndex`
      defaulting to 0. */
  function Initial(images: seq<string>, open: bool, initialIndex: int := 0): (s: Session)
    requires |images| > 0 && 0 <= initialIndex < |images|
    ensures Valid(s) && s.images == images && s.open == open
    ensures s.currentIndex == initialIndex && s.direction == 0 && !s.imageLoaded
  {
    Session(images, initialIndex, initialIndex, 0, false, open)
  }

  /** The effect on `[currentIndex, open]`: it runs after any step that changed either
      dependency, and clears `imageLoaded` when the viewer is open afterwards. */
  function Settle(before: Session, after: Session): Session {
    if after.open && (after.currentIndex != before.currentIndex || !before.open)
    then after.(imageLoaded := false)
    else after
  }

  /** `goToNext`: one image forward; at the last image nothing at all changes. */
  function NextStep(s: Session): (r: Session)
    ensures Valid(s) ==> Valid(r)
    ensures s.currentIndex < |s.images| - 1 ==>
      && r.currentIndex == s.currentIndex + 1
      && r.direction == 1
      && r.imageLoaded == (s.imageLoaded && !s.open)
    ensures s.currentIndex >= |s.images| - 1 ==> r == s
    ensures r.images == s.images && r.initialIndex == s.initialIndex && r.open == s.open
  {
    if s.currentIndex < |s.images| - 1 then
      Settle(s, s.(direction := 1, currentIndex := s.currentIndex + 1))
    else
      s
  }

  /** `goToPrevious`: one image back; at the first image nothing at all changes. */
  function PreviousStep(s: Session): (r: Session)
    ensures Valid(s) ==> Valid(r)
    ensures s.currentIndex > 0 ==>
      && r.currentIndex == s.currentIndex - 1
      && r.direction == -1
      && r.imageLoaded == (s.imageLoaded && !s.open)
    ensures s.currentIndex <= 0 ==> r == s
    ensures r.images == s.images && r.initialIndex == s.initialIndex && r.open == s.open
  {
    if s.currentIndex > 0 then
      Settle(s, s.(direction := -1, currentIndex := s.currentIndex - 1))
    else
      s
  }

  /** The direction a thumbnail click records: forward when the clicked thumbnail lies
      after the current image, backward otherwise (also when it is the current one). */
  function ThumbnailDirection(target: int, current: int): (d: int)
    ensures d == 1 || d == -1
    ensures d > 0 <==> target > current
  {
    if target > current then 1 else -1
  }

  /** A click on thumbnail `idx`: jump there. `imageLoaded` is cleared only when the
      index really changed while open, so clicking the current thumbnail keeps it. */
  function SelectStep(s: Session, idx: int): (r: Session)
    ensures Valid(s) && 0 <= idx < |s.images| ==> Valid(r)
    ensures r.currentIndex == idx
    ensures r.direction == ThumbnailDirection(idx, s.currentIndex)
    ensures r.imageLoaded == (s.imageLoaded && !(s.open && idx != s.currentIndex))
    ensures r.images == s.images && r.initialIndex == s.initialIndex && r.open == s.open
  {
    Settle(s, s.(direction := ThumbnailDirection(idx, s.currentIndex), currentIndex := idx))
  }

  /** The image's `onLoad`: the only step that sets `imageLoaded`; nothing else moves. */
  function LoadedStep(s: Session): (r: Session)
    ensures Valid(s) ==> Valid(r)
    ensures r.imageLoaded && r.(imageLoaded := s.imageLoaded) == s
  {
    s.(imageLoaded := true)
  }

  /** A new value of the `open` prop. Opening clears `imageLoaded`; closing keeps the
      index, the direction and the load flag as they are. */
  function SetOpenStep(s: Session, b: bool): (r: Session)
    ensures Valid(s) ==> Valid(r)
    ensures r.open == b
    ensures r.imageLoaded == (s.imageLoaded && !(b && !s.open))
    ensures r.(open := s.open, imageLoaded := s.imageLoaded) == s
  {
    Settle(s, s.(open := b))
  }

  /** A new value of the `initialIndex` prop. The effect on `[initialIndex]` copies it
      into `currentIndex` only when it differs from the previous prop value; the
      direction is not touched. */
  function SetInitialIndexStep(s: Session, i: int): (r: Session)
    ensures Valid(s) && 0 <= i < |s.images| ==> Valid(r)
    ensures i == s.initialIndex ==> r == s
    ensures i != s.initialIndex ==>
      && r.initialIndex == i
      && r.currentIndex == i
      && r.direction == s.direction
      && r.imageLoaded == (s.imageLoaded && !(s.open && i != s.currentIndex))
    ensures r.images == s.images && r.open == s.open
  {
    if i == s.initialIndex then s
    else Settle(s, s.(initialIndex := i, currentIndex := i))
  }

  /** `handleKeyDown`: ignored while closed; otherwise the right arrow goes forward,
      the left arrow back, Escape calls `onClose` (the host then passes `open` false),
      and every other key is ignored. */
  function KeyStep(s: Session, key: string): (r: Session)
    ensures Valid(s) ==> Valid(r)
    ensures !s.open ==> r == s
    ensures s.open && key == ArrowRight ==> r == NextStep(s)
    ensures s.open && key == ArrowLeft ==> r == PreviousStep(s)
    ensures s.open && key == Escape ==> r == SetOpenStep(s, false) && !r.open
    ensures key != ArrowRight && key != ArrowLeft && key != Escape ==> r == s
    ensures r.images == s.images && r.initialIndex == s.initialIndex
  {
    if !s.open then s
    else if key == ArrowRight then NextStep(s)
    else if key == ArrowLeft then PreviousStep(s)
    else if key == Escape then SetOpenStep(s, false)
    else s
  }

  // ---------------------------------------------------------------------------
  // What the render derives from the state

  /** The previous-image arrow is rendered. */
  predicate ShowsPreviousArrow(s: Session) {
    s.currentIndex > 0
  }

  /** The next-image arrow is rendered. */
  predicate ShowsNextArrow(s: Session) {
    s.currentIndex < |s.images| - 1
  }

  /** The "Loading..." indicator is rendered (and the image is transparent). */
  predicate ShowsLoading(s: Session) {
    !s.imageLoaded
  }

  /** The header counter "position / total". */
  function Counter(s: Session): (c: (int, int))
    ensures Valid(s) ==> 1 <= c.0 <= c.1 && c.1 == |s.images|
    ensures c.0 - 1 == s.currentIndex
  {
    (s.currentIndex + 1, |s.images|)
  }

  /** The image the main view shows. */
  function DisplayedImage(s: Session): (img: string)
    requires Valid(s)
    ensures img in s.images
  {
    s.images[s.currentIndex]
  }

  /** `slideVariants.enter`: the slide comes in from the right after a forward move
      and from the left otherwise. */
  function EnterOffset(direction: int): (x: int)
    ensures x == SlideDistance || x == -SlideDistance
    ensures x > 0 <==> direction > 0
  {
    if direction > 0 then SlideDistance else -SlideDistance
  }

  /** `slideVariants.exit`: the slide leaves to the right after a backward move and to
      the left otherwise. */
  function ExitOffset(direction: int): (x: int)
    ensures x == SlideDistance || x == -SlideDistance
    ensures x > 0 <==> direction < 0
  {
    if direction < 0 then SlideDistance else -SlideDistance
  }

  // ---------------------------------------------------------------------------
  // Event traces

  /** Everything that can happen to the viewer. Arrow-button clicks and arrow keys
      both call `goToNext` / `goToPrevious`, represented by `Forward` and `Backward`. */
  datatype Event =
    | Forward
    | Backward
    | Thumbnail(idx: int)
    | Key(key: string)
    | Load
    | OpenProp(open: bool)
    | InitialIndexProp(index: int)

  function Apply(s: Session, e: Event): Session {
    match e
    case Forward => NextStep(s)
    case Backward => PreviousStep(s)
    case Thumbnail(idx) => SelectStep(s, idx)
    case Key(key) => KeyStep(s, key)
    case Load => LoadedStep(s)
    case OpenProp(b) => SetOpenStep(s, b)
    case InitialIndexProp(i) => SetInitialIndexStep(s, i)
  }

  /** The indices an event carries lie in a list of `n` images: thumbnails come from
      `images.map`, and the caller keeps `initialIndex` in range. */
  predicate InRange(n: nat, e: Event) {
    match e
    case Thumbnail(idx) => 0 <= idx < n
    case InitialIndexProp(i) => 0 <= i < n
    case _ => true
  }

  /** The events applied one after another, in delivery order. */
  function Run(s: Session, es: seq<Event>): Session
    decreases |es|
  {
    if es == [] then s else Run(Apply(s, es[0]), es[1..])
  }

  /** `goToNext` applied `n` times. */
  function RepeatNext(s: Session, n: nat): Session
    decreases n
  {
    if n == 0 then s else RepeatNext(NextStep(s), n - 1)
  }

  /** `goToPrevious` applied `n` times. */
  function RepeatPrevious(s: Session, n: nat): Session
    decreases n
  {
    if n == 0 then s else RepeatPrevious(PreviousStep(s), n - 1)
  }

  /** The smaller and the larger of two integers. */
  function Min(a: int, b: int): int { if a <= b then a else b }
  function Max(a: int, b: int): int { if a <= b then b else a }

  // ---------------------------------------------------------------------------
  // Properties

  /** Any admissible trace of events keeps the session valid and the image list fixed. */
  lemma {:induction false} RunPreservesValid(s: Session, es: seq<Event>)
    requires Valid(s)
    requires forall i :: 0 <= i < |es| ==> InRange(|s.images|, es[i])
    ensures Valid(Run(s, es)) && Run(s, es).images == s.images
    decreases |es|
  {
    if es != [] {
      var t := Apply(s, es[0]);
      assert InRange(|s.images|, es[0]);
      assert Valid(t) && t.images == s.images;
      forall i | 0 <= i < |es[1..]| ensures InRange(|t.images|, es[1..][i]) {
        assert es[1..][i] == es[i + 1];
      }
      RunPreservesValid(t, es[1..]);
    }
  }

  /** A burst of `n` forward moves stops at the last image. */
  lemma {:induction false} RepeatNextStopsAtLast(s: Session, n: nat)
    requires Valid(s)
    ensures RepeatNext(s, n).currentIndex == Min(s.currentIndex + n, |s.images| - 1)
    ensures Valid(RepeatNext(s, n))
    decreases n
  {
    if n > 0 {
      RepeatNextStopsAtLast(NextStep(s), n - 1);
    }
  }

  /** A burst of `n` backward moves stops at the first image. */
  lemma {:induction false} RepeatPreviousStopsAtFirst(s: Session, n: nat)
    requires Valid(s)
    ensures RepeatPrevious(s, n).currentIndex == Max(s.currentIndex - n, 0)
    ensures Valid(RepeatPrevious(s, n))
    decreases n
  {
    if n > 0 {
      RepeatPreviousStopsAtFirst(PreviousStep(s), n - 1);
    }
  }

  /** An arrow is rendered exactly when clicking it would move the index, so a
      one-image gallery shows neither arrow and ignores both moves. */
  lemma ArrowsShownIffMoveApplies(s: Session)
    ensures ShowsNextArrow(s) <==> NextStep(s).currentIndex != s.currentIndex
    ensures ShowsPreviousArrow(s) <==> PreviousStep(s).currentIndex != s.currentIndex
    ensures Valid(s) && |s.images| == 1 ==>
      !ShowsNextArrow(s) && !ShowsPreviousArrow(s) && NextStep(s) == s && PreviousStep(s) == s
  {
  }

  /** Forward and backward undo each other's index change. */
  lemma NextAndPreviousAreInverse(s: Session)
    requires Valid(s)
    ensures ShowsNextArrow(s) ==>
      PreviousStep(NextStep(s)).currentIndex == s.currentIndex && PreviousStep(NextStep(s)).direction == -1
    ensures ShowsPreviousArrow(s) ==>
      NextStep(PreviousStep(s)).currentIndex == s.currentIndex && NextStep(PreviousStep(s)).direction == 1
  {
  }

  /** Clicking the neighbouring thumbnail is the same step as clicking the arrow. */
  lemma NeighbourThumbnailIsArrow(s: Session)
    requires Valid(s)
    ensures ShowsNextArrow(s) ==> SelectStep(s, s.currentIndex + 1) == NextStep(s)
    ensures ShowsPreviousArrow(s) ==> SelectStep(s, s.currentIndex - 1) == PreviousStep(s)
  {
  }

  /** Clicking the current thumbnail changes only the direction, which becomes -1. */
  lemma CurrentThumbnailOnlySetsBackward(s: Session)
    ensures SelectStep(s, s.currentIndex) == s.(direction := -1)
  {
  }

  /** Only the image's `onLoad` sets `imageLoaded`, and doing so twice is doing it once. */
  lemma OnlyLoadSetsLoaded(s: Session, e: Event)
    ensures e != Load && Apply(s, e).imageLoaded ==> s.imageLoaded
    ensures LoadedStep(LoadedStep(s)) == LoadedStep(s)
  {
  }

  /** After any event that changed the index while open, or that opened the viewer, the
      loading indicator is shown. */
  lemma ChangeShowsLoading(s: Session, e: Event)
    ensures var r := Apply(s, e);
      r.open && (r.currentIndex != s.currentIndex || !s.open) ==> ShowsLoading(r)
  {
  }

  /** While closed, every key is ignored, whatever keys follow. */
  lemma {:induction false} ClosedIgnoresKeys(s: Session, es: seq<Event>)
    requires !s.open
    requires forall i :: 0 <= i < |es| ==> es[i].Key?
    ensures Run(s, es) == s
    decreases |es|
  {
    if es != [] {
      assert es[0].Key?;
      assert Apply(s, es[0]) == s;
      forall i | 0 <= i < |es[1..]| ensures es[1..][i].Key? {
        assert es[1..][i] == es[i + 1];
      }
      ClosedIgnoresKeys(s, es[1..]);
    }
  }

  /** Escape while open closes the viewer once; no later key has any effect until the
      host opens it again. */
  lemma EscapeClosesOnce(s: Session, es: seq<Event>)
    requires Valid(s) && s.open
    requires forall i :: 0 <= i < |es| ==> es[i].Key?
    ensures !KeyStep(s, Escape).open
    ensures KeyStep(s, Escape).currentIndex == s.currentIndex
    ensures Run(KeyStep(s, Escape), es) == KeyStep(s, Escape)
  {
    ClosedIgnoresKeys(KeyStep(s, Escape), es);
  }

  /** Closing and reopening keeps the index (the `initialIndex` prop did not change,
      so it is not re-applied) and shows the loading indicator again. */
  lemma ReopenKeepsIndex(s: Session)
    requires Valid(s) && s.open
    ensures var r := SetOpenStep(SetOpenStep(s, false), true);
      r.currentIndex == s.currentIndex && r.direction == s.direction && ShowsLoading(r)
  {
  }

  /** The enter and exit offsets are opposite after a move, and both -1000 before the
      first move. */
  lemma OffsetsAreOpposite(d: int)
    ensures d == 1 || d == -1 ==> EnterOffset(d) == -ExitOffset(d)
    ensures d == 0 ==> EnterOffset(d) == ExitOffset(d) == -SlideDistance
  {
  }

  /** Three images opened at the first: two forward moves reach the last one, a third
      is ignored, and a backward move then lands on the middle one. */
  lemma ThreeImageWalk()
    ensures var s := Run(Initial(["A", "B", "C"], true), [Forward, Forward]);
      s.currentIndex == 2 && s.direction == 1
    ensures Run(Initial(["A", "B", "C"], true), [Forward, Forward, Forward]).currentIndex == 2
    ensures var s := Run(Initial(["A", "B", "C"], true), [Forward, Forward, Forward, Backward]);
      s.currentIndex == 1 && s.direction == -1
  {
  }

  /** Four images opened at the second and loaded; a click on the last thumbnail moves
      forward and shows the loading indicator again. */
  lemma ThumbnailJumpForward()
    ensures var s := Run(Initial(["A", "B", "C", "D"], true, 1), [Load, Thumbnail(3)]);
      s.currentIndex == 3 && s.direction == 1 && ShowsLoading(s)
  {
  }

  // ---------------------------------------------------------------------------
  // The component's state, updated in place by its handlers

  class Navigator {
    const images: seq<string>
    var initialIndex: int
    var currentIndex: int
    var direction: int
    var imageLoaded: bool
    var open: bool

    function Model(): Session
      reads this
    {
      Session(images, initialIndex, currentIndex, direction, imageLoaded, open)
    }

    predicate Inv()
      reads this
    {
      Valid(Model())
    }

    /** Mounting with the given props. */
    constructor (images: seq<string>, open: bool, initialIndex: int := 0)
      requires |images| > 0 && 0 <= initialIndex < |images|
      ensures Inv() && Model() == Initial(images, open, initialIndex)
    {
      this.images := images;
      this.initialIndex := initialIndex;
      currentIndex := initialIndex;
      direction := 0;
      imageLoaded := false;
      this.open := open;
    }

    /** `goToNext`, then the effect on `[currentIndex, open]`. */
    method Next()
      requires Inv()
      modifies this
      ensures Inv() && Model() == NextStep(old(Model()))
    {
      if currentIndex < |images| - 1 {
        direction := 1;
        currentIndex := currentIndex + 1;
        if open {
          imageLoaded := false;
        }
      }
    }

    /** `goToPrevious`, then the effect on `[currentIndex, open]`. */
    method Previous()
      requires Inv()
      modifies this
      ensures Inv() && Model() == PreviousStep(old(Model()))
    {
      if currentIndex > 0 {
        direction := -1;
        currentIndex := currentIndex - 1;
        if open {
          imageLoaded := false;
        }
      }
    }

    /** The `onClick` of thumbnail `idx`, then the effect on `[currentIndex, open]`. */
    method SelectThumbnail(idx: int)
      requires Inv() && 0 <= idx < |images|
      modifies this
      ensures Inv() && Model() == SelectStep(old(Model()), idx)
    {
      var previous := currentIndex;
      direction := if idx > currentIndex then 1 else -1;
      currentIndex := idx;
      if currentIndex != previous && open {
        imageLoaded := false;
      }
    }

    /** The displayed image's `onLoad`. */
    method ImageLoaded()
      requires Inv()
      modifies this
      ensures Inv() && Model() == LoadedStep(old(Model()))
    {
      imageLoaded := true;
    }

    /** The host passes a new `open` prop, then the effect on `[currentIndex, open]`. */
    method SetOpen(b: bool)
      requires Inv()
      modifies this
      ensures Inv() && Model() == SetOpenStep(old(Model()), b)
    {
      var wasOpen := open;
      open := b;
      if open != wasOpen && open {
        imageLoaded := false;
      }
    }

    /** The host passes a new `initialIndex` prop: the effect on `[initialIndex]`, then
        the effect on `[currentIndex, open]`. */
    method SetInitialIndex(i: int)
      requires Inv() && 0 <= i < |images|
      modifies this
      ensures Inv() && Model() == SetInitialIndexStep(old(Model()), i)
    {
      if i != initialIndex {
        initialIndex := i;
        var previous := currentIndex;
        currentIndex := i;
        if currentIndex != previous && open {
          imageLoaded := false;
        }
      }
    }

    /** `handleKeyDown` of the window listener, which stays attached while closed. */
    method KeyDown(key: string)
      requires Inv()
      modifies this
      ensures Inv() && Model() == KeyStep(old(Model()), key)
    {
      if !open {
        return;
      }
      if key == ArrowRight {
        Next();
      } else if key == ArrowLeft {
        Previous();
      } else if key == Escape {
        SetOpen(false);
      }
    }
  }
}
