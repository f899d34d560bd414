/**
 * One project card of src/components/BentoProjectCard.tsx: which tech-stack chips
 * it shows, its colour set, its grid span, and the gallery viewer it mounts and
 * opens.
 */
module ProjectCard {
  import opened Wrappers
  import GalleryNavigator

  datatype Size = Small | Medium | Large

  /** The card's props; the grid passes each of its projects through unchanged. */
  datatype Project = Project(
    title: string,
    description: string,
    techStack: seq<string>,
    githubUrl: Option<string>,
    liveUrl: Option<string>,
    image: Option<string>,
    images: Option<seq<string>>,
    category: string,
    size: Option<Size>)

  /** The destructuring default `size = "small"`. */
  function EffectiveSize(size: Option<Size>): Size {
    size.GetOr(Small)
  }

  /** JavaScript truthiness of an optional string: a missing value and "" are falsy. */
  predicate IsTruthy(s: Option<string>) {
    s.Some? && s.value != ""
  }

  /** `hasMultipleImages`: an `images` array is present and non-empty. In spite of
      the name, a single image is enough. */
  predicate HasMultipleImages(images: Option<seq<string>>) {
    images.Some? && |images.value| > 0
  }

  /** The clickable image section is rendered only when `image` is truthy. */
  predicate ShowsImageSection(p: Project) {
    IsTruthy(p.image)
  }

  /** The badge inside the image section, with the number of gallery images. */
  function ImageBadge(p: Project): (badge: Option<nat>)
    ensures badge.Some? <==> ShowsImageSection(p) && HasMultipleImages(p.images)
    ensures badge.Some? ==> badge.value >= 1 && badge.value == |p.images.value|
  {
    if ShowsImageSection(p) && HasMultipleImages(p.images) then Some(|p.images.value|) else None
  }

  /** A card with exactly one gallery image still counts as having "multiple" images:
      it mounts the viewer, shows the badge "1" and opens on a click. */
  lemma OneImageEnablesGallery(p: Project, img: string)
    requires ShowsImageSection(p) && p.images == Some([img])
    ensures HasMultipleImages(p.images) && ImageBadge(p) == Some(1)
  {
  }

  // ---------------------------------------------------------------------------
  // Tech-stack chips

  /** How many tech-stack chips a card of this size shows. */
  function TechLimit(size: Size): nat {
    if size == Large then 8 else 5
  }

  /** `techStack.slice(0, limit)`: the first entries, as many as fit and at most all. */
  function VisibleTech(techStack: seq<string>, size: Size): (shown: seq<string>)
    ensures |shown| == GalleryNavigator.Min(|techStack|, TechLimit(size))
    ensures shown == techStack[..|shown|]
  {
    if |techStack| <= TechLimit(size) then techStack else techStack[..TechLimit(size)]
  }

  /** The "+N" chip: present only when entries were cut off, and N counts them, so the
      visible chips and N together account for the whole stack. */
  function OverflowCount(techStack: seq<string>, size: Size): (n: Option<nat>)
    ensures n.Some? <==> |techStack| > TechLimit(size)
    ensures n.Some? ==> n.value >= 1
    ensures |VisibleTech(techStack, size)| + n.GetOr(0) == |techStack|
  {
    if |techStack| > TechLimit(size) then Some(|techStack| - TechLimit(size)) else None
  }

  // ---------------------------------------------------------------------------
  // Colour sets

  datatype ColorSet = ColorSet(start: string, end: string, glow: string)

  const Web3Colors := ColorSet("#00d9ff", "#00ff88", "rgba(0, 217, 255, 0.3)")
  const CybersecurityColors := ColorSet("#a855f7", "#ec4899", "rgba(168, 85, 247, 0.3)")
  const AiColors := ColorSet("#3b82f6", "#6366f1", "rgba(59, 130, 246, 0.3)")
  const MobileColors := ColorSet("#f97316", "#fbbf24", "rgba(249, 115, 22, 0.3)")

  /** The own keys of the `categoryColors` object literal. */
  const CategoryColors: map<string, ColorSet> := map[
    "web3" := Web3Colors,
    "cybersecurity" := CybersecurityColors,
    "ai" := AiColors,
    "mobile" := MobileColors]

  /** The property names every plain JavaScript object inherits from
      `Object.prototype`; each one reads as a function or an object, so it is truthy. */
  const ObjectPrototypeNames: set<string> := {
    "constructor", "hasOwnProperty", "isPrototypeOf", "propertyIsEnumerable",
    "toLocaleString", "toString", "valueOf", "__proto__", "__defineGetter__",
    "__defineSetter__", "__lookupGetter__", "__lookupSetter__"}

  /** What indexing an object literal by a string yields. */
  datatype Lookup = Own(colors: ColorSet) | Inherited(name: string) | Undefined

  /** `categoryColors[category]`: an own key, else a property inherited from
      `Object.prototype`, else `undefined`. */
  function LookupColors(category: string): Lookup {
    if category in CategoryColors then Own(CategoryColors[category])
    else if category in ObjectPrototypeNames then Inherited(category)
    else Undefined
  }

  /** The colour expression as written, `categoryColors[category] || categoryColors.web3`:
      the fallback applies only when the lookup is `undefined`, so an inherited name
      passes through and yields no colour set at all. */
  function ColorsAsWritten(category: string): (l: Lookup)
    ensures !l.Undefined?
    ensures l.Inherited? <==> category in ObjectPrototypeNames
  {
    var found := LookupColors(category);
    if found.Undefined? then Own(Web3Colors) else found
  }

  /** With the category "toString" or "constructor" the card gets a function where it
      expects a colour set, and every colour it reads from it is `undefined`. */
  lemma InheritedNameDefeatsFallback()
    ensures ColorsAsWritten("toString") == Inherited("toString")
    ensures ColorsAsWritten("constructor") == Inherited("constructor")
  {
  }

  /** The colour set a card uses: its own category's set, and the web3 set for every
      other category. */
  function CardColors(category: string): (c: ColorSet)
    ensures c in CategoryColors.Values
    ensures category !in {"web3", "cybersecurity", "ai", "mobile"} ==> c == Web3Colors
    ensures category in CategoryColors ==> c == CategoryColors[category]
  {
    match LookupColors(category)
    case Own(colors) => colors
    case _ => assert CategoryColors["web3"] == Web3Colors; Web3Colors
  }

  /** Off the inherited names the expression as written and the intended lookup agree. */
  lemma AsWrittenAgreesOffPrototypeNames(category: string)
    requires category !in ObjectPrototypeNames
    ensures ColorsAsWritten(category) == Own(CardColors(category))
  {
  }

  // ---------------------------------------------------------------------------
  // Grid span

  /** Columns and rows a card spans on phones (xs) and from the md breakpoint up. */
  datatype Span = Span(columnsXs: nat, rowsXs: nat, columnsMd: nat, rowsMd: nat)

  /** `gridSpan[size]`: every card is one cell on phones; from md up medium and large
      cards are two columns wide and only large cards two rows tall. */
  function GridSpan(size: Size): (span: Span)
    ensures span.columnsXs == 1 && span.rowsXs == 1
    ensures span.columnsMd == 1 <==> size == Small
    ensures span.rowsMd == 2 <==> size == Large
    ensures 1 <= span.columnsMd <= 2 && 1 <= span.rowsMd <= 2
  {
    match size
    case Small => Span(1, 1, 1, 1)
    case Medium => Span(1, 1, 2, 1)
    case Large => Span(1, 1, 2, 2)
  }

  /** A card without a size is one cell everywhere. */
  lemma DefaultCardIsOneCell()
    ensures GridSpan(EffectiveSize(None)) == Span(1, 1, 1, 1)
    ensures TechLimit(EffectiveSize(None)) == 5
  {
  }

  // ---------------------------------------------------------------------------
  // The card's state

  class Card {
    const project: Project
    /** The mounted `ImageGalleryModal`, present exactly when `hasMultipleImages`. */
    const gallery: GalleryNavigator.Navigator?
    var isGalleryOpen: bool
    var isHovered: bool

    /** The viewer's `open` prop is `isGalleryOpen`, its images are the card's, and it
        is never given an `initialIndex`; the gallery can be open only when the image
        section exists to be clicked. */
    predicate Inv()
      reads this, gallery
    {
      && (gallery != null <==> HasMultipleImages(project.images))
      && (gallery != null ==>
            && gallery.Inv()
            && gallery.images == project.images.value
            && gallery.initialIndex == 0
            && gallery.open == isGalleryOpen)
      && (isGalleryOpen ==> ShowsImageSection(project) && HasMultipleImages(project.images))
    }

    constructor (project: Project)
      ensures Inv() && this.project == project && !isGalleryOpen && !isHovered
      ensures gallery != null ==>
        fresh(gallery) && gallery.Model() == GalleryNavigator.Initial(project.images.value, false)
    {
      this.project := project;
      isGalleryOpen := false;
      isHovered := false;
      if HasMultipleImages(project.images) {
        gallery := new GalleryNavigator.Navigator(project.images.value, false);
      } else {
        gallery := null;
      }
    }

    /** A click on the image section: opens the gallery when `hasMultipleImages`, and
        does nothing otherwise. */
    method ClickImageSection()
      requires Inv() && ShowsImageSection(project)
      modifies this, gallery
      ensures Inv() && isHovered == old(isHovered)
      ensures isGalleryOpen == (old(isGalleryOpen) || HasMultipleImages(project.images))
      ensures gallery != null ==>
        gallery.Model() == GalleryNavigator.SetOpenStep(old(gallery.Model()), true)
    {
      if HasMultipleImages(project.images) {
        isGalleryOpen := true;
        gallery.SetOpen(true);
      }
    }

    /** The viewer's `onClose`: close button, or Escape routed through the viewer. */
    method CloseGallery()
      requires Inv() && gallery != null
      modifies this, gallery
      ensures Inv() && !isGalleryOpen && isHovered == old(isHovered)
      ensures gallery.Model() == GalleryNavigator.SetOpenStep(old(gallery.Model()), false)
    {
      isGalleryOpen := false;
      gallery.SetOpen(false);
    }

    /** A key press reaching the mounted viewer's window listener; its Escape branch
        calls `onClose`. A closed viewer ignores the key. */
    method KeyDown(key: string)
      requires Inv()
      modifies this, gallery
      ensures Inv() && isHovered == old(isHovered)
      ensures isGalleryOpen == (old(isGalleryOpen) && key != GalleryNavigator.Escape)
      ensures gallery != null ==>
        gallery.Model() == GalleryNavigator.KeyStep(old(gallery.Model()), key)
    {
      if gallery != null {
        var closing := gallery.open && key == GalleryNavigator.Escape;
        gallery.KeyDown(key);
        if closing {
          isGalleryOpen := false;
        }
      }
    }

    /** The pointer enters the card: only the hover flag changes. */
    method MouseEnter()
      requires Inv()
      modifies this
      ensures Inv() && isHovered && isGalleryOpen == old(isGalleryOpen)
    {
      isHovered := true;
    }

    /** The pointer leaves the card: the hover flag is cleared (the tilt reset is
        not modelled). */
    method MouseLeave()
      requires Inv()
      modifies this
      ensures Inv() && !isHovered && isGalleryOpen == old(isGalleryOpen)
    {
      isHovered := false;
    }
  }
}
